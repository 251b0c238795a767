# Panel Assistant: verified models of its protocols

These Dafny modules model the protocols under the I/O of the Panel Assistant integration and prove
what they promise, over every input, every interleaving and every crash point that the model has.

The install protocol is modelled in layers, each seen by the next one only through what is proved
about it:

- `InstallReceipt`, `InstallJobs`, `InstallJobsLaws`: the phase tables, receipt invariants and the
  operations of the job manager on values: durable map, remembered map, claims.
- `InstallMissing`: the one way in which an operation fails after its commit. `InstallAnswers`: what
  each answer says about the durable record.
- `InstallManager`: the manager as an object, with its fields, loops and in-place updates, proved to
  do what those operations say.
- `InstallDetails`: the two files below a save, and why losing power between them is harmless.
- `InstallRuns`: runs of any number of managers under one lock, with crashes, unreadable stores and
  saves that fail or are in doubt; who was issued which generation.
- `InstallExecutor`: workers as program counters between their interruption points, the custody
  directory, and the log of panel mutations. `InstallSafety`, `InstallVerdicts`, `InstallCustody`,
  `InstallTermination` and `InstallFinalizer` prove what holds over every run; `InstallProgress` and
  `InstallEndings` prove that good answers lead to a healthy app, and every other one to its own ending;
  `InstallCancellation` is about what a cancellation stops and what it cleans up; `InstallOvertaken` is a
  run that shows where the fence ends.

The other modules stand alone: `InstallArtifacts` (files), `WorkerArbitration` (thread against event
loop), `Identity` (entry and entity registry), `Duck` (the room's volume) with `DuckReports` (what its
players have to report) and `DuckRoom` (its objects), `Accessibility` and `AdbFrames` (shell text),
`BrowserReleaseCache` with its object `BrowserReleaseService`, `DisplayProvisioning` and
`AdbCredentials`.

Whatever the code does not decide itself is an input to the model: the time, whether a read or a write
succeeds, what a panel answers, when a task is cancelled, which random id is drawn.

What the proofs found:

- The mutation barrier is checked before the panel is touched, not while it is. A manager that forgets
  its claim (one unreadable load) can end a job as interrupted while its worker is about to push. The
  mutation still happens at most once, but after the job has ended: `InstallOvertaken.PushAfterTheEnd`,
  and `InstallCustody.MutationHappensInItsPhase` says exactly when.
- With 32 ended receipts ranking before it, a job that a claim or transition has just ended is pruned by
  that very save, and the lookup after the commit fails: `InstallMissing.ClaimGoesMissing` and
  `InstallMissing.TransitionGoesMissing` say exactly when.
- The phase table lists APPROVED to FAILED, which no valid receipt can record:
  `InstallReceipt.ApprovedNeverFails`.
- A first adoption of the installation protocol that reached the registry but not the entry is refused
  at load, unlike a reinstall: `Identity.MigrationRecovers`.
- A player that reports a lowering only after its restore has ended loses its original level at the
  next turn, even though every write lands: `DuckReports.LateReportStaysDown`. So does, with every report
  in time, a player whose lowered and original levels lie within half its volume step:
  `DuckReports.QuietPlayerStaysDown`. `DuckReports.RecordsMustSettle` is the exact condition.
- Two rekeys saved by the entry, with neither saved by the entities, are rolled back at load:
  `Identity.TwoRekeysRecover`.
- A thread pool that is shutting down refuses the cleanup of a partial file:
  `WorkerArbitration.RefusalSkipsCleanup`.
- `restored` is printed for a record with an empty text size even if the text size could not be put
  back: `DisplayProvisioning.ForgetsTheText`.

Run `dafny verify dfyconfig.toml` to verify everything.

## Model

| member | source | states |
|---|---|---|
| `InstallReceipt.NextPhaseAdvances` | custom_components/panel_assistant/install_receipt.py:271-338 | Every arc of the phase table leaves a live phase and leads strictly forward, so no receipt ever returns to an earlier phase. |
| `InstallReceipt.EvolvesTransitive` | custom_components/panel_assistant/install_receipt.py:375-405 | Being a later state of the same job (same plan, higher revision for every change, generation, attempt and phase never lower, terminal receipts frozen) composes, so a copy read long ago still bounds what is durable now. |
| `InstallReceipt.ApprovedNeverFails` | custom_components/panel_assistant/install_receipt.py:211-279 | The table offers APPROVED to FAILED, but no receipt invariant admits a failure recorded at APPROVED: that arc can never be saved. |
| `InstallReceipt.TablesAgree` | custom_components/panel_assistant/install_receipt.py:128-338 | The tables agree with one another: a job can be cancelled exactly where it can become CANCELLED, set aside exactly from STAGING to HEALTHY_UNCLAIMED, and cleaned up on the panel exactly in the phases a restart leaves in doubt; a failure code belongs to a phase that may fail. |
| `InstallJobsLaws.PruneBoundsTerminals` | custom_components/panel_assistant/install_jobs.py:811-825 | After pruning at most 32 terminal receipts remain, none older than a week and none kept in place of a newer one, and no active receipt has gone. |
| `InstallJobsLaws.JustEndedSurvives` | custom_components/panel_assistant/install_jobs.py:811-825 | The receipt an operation has just ended survives its own pruning exactly when fewer than 32 ended receipts rank newer; with a strictly advancing clock it always does. |
| `InstallMissing.ClaimGoesMissing` | custom_components/panel_assistant/install_jobs.py:1010-1052 | On any accepted document, a claim fails after its commit, with the job gone, exactly when it ends the job, the write lands, and 32 ended receipts rank before it: dated later, or at the same second with a greater id. |
| `InstallMissing.TransitionGoesMissing` | custom_components/panel_assistant/install_jobs.py:1205-1241 | The same for every transition that ends a job. |
| `InstallMissing.OnlyEndingsGoMissing` | custom_components/panel_assistant/install_jobs.py:827-973 | No other call ever answers that way. |
| `InstallMissing.InterruptedJobGoesMissing` | custom_components/panel_assistant/install_jobs.py:1024-1040 | An accepted document on which this happens: 32 jobs ended in the same second as an interrupted one, whose confirmed cleanup is answered by the failed lookup. |
| `InstallJobsLaws.ClaimKeepsReceipt` | custom_components/panel_assistant/install_jobs.py:1013-1052 | A claim makes a valid later state of the same job: ended with RECOVERY_REQUIRED exactly when the attempts are used up or the phase is restart-ambiguous, otherwise in the same phase with the generation one higher. |
| `InstallJobsLaws.CancelKeepsReceipt` | custom_components/panel_assistant/install_jobs.py:954-973 | Marking a cancellation makes a valid later state of the same job. |
| `InstallJobsLaws.AdvanceKeepsReceipt` | custom_components/panel_assistant/install_jobs.py:1054-1241 | Every transition the manager lets through makes a later state of the same job and keeps its generation. |
| `InstallJobsLaws.ClaimNeverSelfRejected` | custom_components/panel_assistant/install_jobs.py:975-1052 | From any accepted document, a claim the outside world does not disturb builds a document the parser accepts, and never answers with a store error. |
| `InstallJobsLaws.TransitionNeverSelfRejected` | custom_components/panel_assistant/install_jobs.py:1054-1241 | The same for every transition. |
| `InstallJobsLaws.CancelNeverSelfRejected` | custom_components/panel_assistant/install_jobs.py:954-973 | The same for every cancellation. |
| `InstallJobsLaws.CreateNeverSelfRejected` | custom_components/panel_assistant/install_jobs.py:827-892 | The same for creating or joining a job. |
| `InstallJobsLaws.CreateAccepted` | custom_components/panel_assistant/install_jobs.py:849-892 | Below four active jobs and with no address, pin or serial in common, the pruned map with the new receipt is a document the parser accepts. |
| `InstallAnswers.CancelIsRecorded` | custom_components/panel_assistant/install_jobs.py:954-973 | A cancellation that succeeds is on record: the answer is the durable receipt, marked, one revision on unless it was marked already, in the phase it had, and nothing else in the store has changed. |
| `InstallAnswers.CancelSucceeds` | custom_components/panel_assistant/install_jobs.py:954-973 | On an accepted store that nothing disturbs, a cancellation succeeds if and only if the job is there, at the given revision, in a phase that can be cancelled. |
| `InstallAnswers.CancelledJobOnlyEnds` | custom_components/panel_assistant/install_jobs.py:954-1241 | Over every run: once a cancellation has succeeded, the job stays marked whatever anybody does, and leaves its phase only for CANCELLED, FAILED or RECOVERY_REQUIRED. |
| `InstallAnswers.CallsWrite` | custom_components/panel_assistant/install_jobs.py:954-1241 | A claim, transition or cancellation touches no receipt but its own; and if that changes, its revision, phase and marks were as the call demands, and the new receipt is the claimed, advanced or marked one. |
| `InstallAnswers.MoveIsRecorded` | custom_components/panel_assistant/install_jobs.py:1054-1241 | A transition that succeeds is on record with the phase, result, facts, entry and failure stage that it was asked to record, one revision on. |
| `InstallAnswers.ClaimIsRecorded` | custom_components/panel_assistant/install_jobs.py:975-1052 | A claim that succeeds is on record: either as the generation its manager now holds, in the same phase, or, after a confirmed cleanup only, as RECOVERY_REQUIRED with its stage and with the reason (attempts exhausted, or a mutation interrupted). |
| `InstallAnswers.CreateIsRecorded` | custom_components/panel_assistant/install_jobs.py:827-892 | What creating or joining answers is in the store: fresh, APPROVED and with the plan asked for, or an active job with that very plan and the store unchanged. |
| `InstallAnswers.CreateIsAnswered` | custom_components/panel_assistant/install_jobs.py:827-892 | Undisturbed, a request is joined, refused as a conflict, refused for capacity or created, for exactly what the scan found and exactly four active jobs. |
| `InstallAnswers.CleanupHeedsCancel` | custom_components/panel_assistant/install_jobs.py:1269-1294 | Remote cleanup of a staged APK is let through only for a cancelled job, and cleanup of an interrupted install or launch only for one that is not. |
| `InstallAnswers.MutationHeedsCancel` | custom_components/panel_assistant/install_jobs.py:1243-1267 | A mutation is let through only in its own phase, at the very revision, and never with a cancellation on record. |
| `InstallAnswers.RefusalsSayWhy` | custom_components/panel_assistant/install_jobs.py:954-1311 | Each refusal tells the truth about the durable receipt: not there, at another revision, or not in a phase that allows the call. |
| `InstallManager.ParseDocument` | custom_components/panel_assistant/install_jobs.py:95-129 | Reading the entries one by one, with the address, pin and serial sets filled on the way, succeeds exactly when no id repeats and the whole map meets the bounds (every receipt valid, at most 4 active and pairwise distinct, at most 32 terminal), and yields that map. |
| `InstallManager.SortTerminal` | custom_components/panel_assistant/install_jobs.py:813-817 | The terminal ids, each once, newest first. |
| `InstallManager.NewerCount` | custom_components/panel_assistant/install_jobs.py:813-822 | An id's place in that list is the number of terminal receipts newer than it: the loop's cut after 32 is the independent definition of retention. |
| `InstallManager.Prune` | custom_components/panel_assistant/install_jobs.py:811-825 | Sorting, keeping the newest 32 not older than a week and deleting the others leaves exactly the receipts that deserve to be retained. |
| `InstallManager.ScanActive` | custom_components/panel_assistant/install_jobs.py:849-873 | Scanning the active receipts in document order either joins one with the same plan, or finds a conflict, or shows that nothing collides. |
| `InstallManager.ScanIsExact` | custom_components/panel_assistant/install_jobs.py:849-873 | On a document in bounds the answer does not depend on the order: a plan is joined exactly when it is active already, at one receipt only, and it is free exactly when no active target collides. |
| `InstallManager.InstallJobManager.ReconcileClaims` | custom_components/panel_assistant/install_jobs.py:506-517 | The loop drops exactly the remembered claims that the cached receipts no longer bear out. |
| `InstallManager.InstallJobManager.Refresh` | custom_components/panel_assistant/install_jobs.py:531-562 | Loading caches the durable map with the claims it bears out; an unreadable store, or a claimed receipt that is not the remembered one, forgets the cache and every claim. |
| `InstallManager.InstallJobManager.Save` | custom_components/panel_assistant/install_jobs.py:564-734 | A save ends as committed, refused, or in doubt; only a committed one keeps the cache, and a refused candidate leaves the store alone. |
| `InstallManager.InstallJobManager.SaveAndLookUp` | custom_components/panel_assistant/install_jobs.py:564-734 | What an operation answers is looked up in the map that was saved; if pruning dropped the receipt, that is an error after a durable commit. |
| `InstallManager.InstallJobManager.Get` | custom_components/panel_assistant/install_jobs.py:894-902 | Answers the durable receipt or not-found, and changes nothing durable. |
| `InstallManager.InstallJobManager.RequestCancel` | custom_components/panel_assistant/install_jobs.py:954-973 | The object's fields and the store after a cancellation are those of the specified step, on every branch; success means that the job, until then in a phase that can be cancelled, is marked in the store, and that the durable receipt is what was returned. |
| `InstallManager.InstallJobManager.Claim` | custom_components/panel_assistant/install_jobs.py:975-1052 | The object's fields and the store after a claim are those of the specified step: a held claim is answered as is, an exhausted or interrupted job asks for cleanup first, a durable claim is remembered with its generation. |
| `InstallManager.InstallJobManager.Transition` | custom_components/panel_assistant/install_jobs.py:1054-1241 | The object's fields and the store after a transition are those of the specified step, with its licence, fact and result checks in order; success means that the phase asked for is durable, one revision on, and that the durable receipt is what was returned. |
| `InstallManager.InstallJobManager.VerifyBarrier` | custom_components/panel_assistant/install_jobs.py:1243-1294 | Both barriers re-read the durable copy and give up every claim when it is not what was remembered. |
| `InstallManager.InstallJobManager.CreateOrJoin` | custom_components/panel_assistant/install_jobs.py:827-892 | The object's fields and the store after creating or joining are those of the specified step, for the outcome of the scan over the pruned map. |
| `InstallRuns.PerformStep` | custom_components/panel_assistant/install_jobs.py:827-1294 | Every call of a manager moves the durable map by one legal step: receipts evolve, ids appear only by creation and vanish only by pruning after their end, claims grow only by the call's own durable claim, and a success that leans on a claim needs its licence. |
| `InstallRuns.RunHistory` | custom_components/panel_assistant/install_jobs.py:502-562 | Over every run of several managers with crashes, failed and ambiguous saves, the invariant holds and history is only extended: no issued generation is ever reassigned, no receipt ever moves back. |
| `InstallRuns.OnlyTheIssuerActs` | custom_components/panel_assistant/install_jobs.py:1243-1311 | The fence: in every reachable state a barrier or transition that needs generation g succeeds only for the manager whose own durable claim issued g, and no higher generation of the job has been issued. |
| `InstallRuns.SupersededHolderIsRefused` | custom_components/panel_assistant/install_jobs.py:975-1052 | Once another manager's claim of generation g is durable, a manager without a newer claim of its own is refused in every later state, whatever happens in between. |
| `InstallRuns.MoveKeepsGeneration` | custom_components/panel_assistant/install_jobs.py:1054-1241 | No transition changes a generation; only claims do. |
| `InstallRuns.TakeEndsClean` | custom_components/panel_assistant/install_jobs.py:995-1023 | A claim that ends a job, or prunes it, does so only for a caller that has confirmed cleaning at exactly the durable revision. |
| `InstallRuns.RevisionMetChangesNothing` | custom_components/panel_assistant/install_jobs.py:1297-1311 | A transition that meets another revision changes nothing durable. |
| `InstallRuns.CleanupAskedWithoutClaim` | custom_components/panel_assistant/install_jobs.py:995-1009 | Being asked to clean up first means that this manager holds no claim on the job, the job is exhausted or interrupted, and nothing durable has changed. |
| `InstallRuns.AttemptsAreBounded` | custom_components/panel_assistant/install_jobs.py:1003-1052 | Over every run with any number of restarts, no job is claimed more than 32 times. |
| `InstallRuns.ExhaustedClaimEnds` | custom_components/panel_assistant/install_jobs.py:995-1023 | A claim on an exhausted or interrupted job held by nobody here is answered by asking for cleanup, and after cleanup ends the job with RECOVERY_REQUIRED and the phase it stopped in. |
| `InstallRuns.StoreNeverRejectsItself` | custom_components/panel_assistant/install_jobs.py:95-129 | In every reachable state an undisturbed call is never answered with a store error: whatever the operations build, the parser takes back. |
| `InstallSafety.ArmSafe` | custom_components/panel_assistant/install_executor.py:1271-1294 | Passing the mutation barrier proves the worker's claim current: the mutation has not been performed for this job, and no other worker is about to perform it. |
| `InstallSafety.NeverPerformed` | custom_components/panel_assistant/install_executor.py:846-965 | A worker that may still perform a mutation, with its copy current and its claim its own, is the first to do so in the job's whole history. |
| `InstallSafety.NothingBeforeItsPhase` | custom_components/panel_assistant/install_executor.py:633-1104 | While a job's durable phase is still before STAGING or INSTALLING, that mutation has never been performed. |
| `InstallSafety.NothingAfterItsPhase` | custom_components/panel_assistant/install_executor.py:633-1104 | Once a mutation has been performed, the durable phase never reads as one before it. |
| `InstallSafety.LogSafe` | custom_components/panel_assistant/install_executor.py:846-965 | Performing the mutation keeps the whole invariant, now with the mutation on the log, whatever the panel answers. |
| `InstallSafety.NextSafe` | custom_components/panel_assistant/install_executor.py:633-1104 | Every action of the world (start, crash, any outside call on any manager, a concurrent ensure, one worker step, a task cancellation) keeps that invariant. |
| `InstallSafety.PanelMutationsHappenOnce` | custom_components/panel_assistant/install_executor.py:633-1104 | Over every run, at most one stage push and at most one install per job are ever sent to the panel, each under a generation that was durably issued to the very manager that sent it. |
| `InstallVerdicts.EveryPhaseIsEarned` | custom_components/panel_assistant/install_executor.py:633-1104 | Over every run, what a job's record says was answered by the panel or the network to a worker of that job: INSTALLED and later only after an install that was reported done for bytes fetched and pushed, or after a preflight that found them installed; HEALTH_CHECK only after a started launch, healthy and consumed only after proved health; failed for a refused install only if it was refused and the panel has confirmed that what was staged is gone, for a refused launch only if it was refused; set aside as ambiguous only if something was left unsettled. |
| `InstallVerdicts.WorkFollows` | custom_components/panel_assistant/install_executor.py:645-1063 | Each worker step makes at most one call, asks only for what the worker has been told, and leaves the worker standing where what it has been told puts it. |
| `InstallVerdicts.CallEarned` | custom_components/panel_assistant/install_jobs.py:827-1294 | No call of a manager puts into the store what was not earned, as long as the transition asked for was warranted. |
| `InstallProgress.ApprovedJobIsInstalled` | custom_components/panel_assistant/install_executor.py:633-1104 | The way through: an approved job that nobody cancels or disturbs is HEALTHY_UNCLAIMED after one request and 29 worker steps with good answers, with exactly one push and one install sent, under the generation the record shows, and no file left in custody. |
| `InstallProgress.WorkCloser` | custom_components/panel_assistant/install_executor.py:645-1063 | From every point of that way, one step with a good answer leads to the next: the worker's copy, claim, files and log of mutations are in step with the durable phase throughout. |
| `InstallProgress.StaleFileDelays` | custom_components/panel_assistant/install_executor.py:1329-1341 | A partial file left by an earlier process costs one step of that way: it is removed, once, and the download is tried again. |
| `InstallEndings.EveryAnswerHasItsEnding` | custom_components/panel_assistant/install_executor.py:645-1104 | From wherever a worker stands, an answer that does not let it go on is recorded as just what it was (the table of verdicts: which failure code, AMBIGUOUS_MUTATION or VERIFICATION_REQUIRED, which way of being cancelled) within four further steps with good answers; nothing more is sent to the panel, and what was in custody is gone. A phase that another worker left in doubt is never gone on with. |
| `InstallEndings.Arrives` | custom_components/panel_assistant/install_executor.py:1343-1396 | A worker that has given up gets to the ending it is heading for, and to no other; the record outlasts its own save exactly if 32 others do not rank before it. |
| `InstallEndings.CancellationIsSeen` | custom_components/panel_assistant/install_executor.py:1592-1627 | A transition that meets a cancellation recorded meanwhile is refused, and two steps later the worker is back at the head of its loop with the durable receipt, having recorded and sent nothing. |
| `InstallEndings.PushSeesCancellation` | custom_components/panel_assistant/install_executor.py:1271-1294 | A worker about to push sees a cancellation that was recorded meanwhile instead. |
| `InstallCancellation.NothingIsSentAfterCancelling` | custom_components/panel_assistant/install_executor.py:633-1104 | Over every run: once a cancellation is on record and no worker of the job is past its mutation barrier, neither push nor install is ever sent for it, whatever happens next, if it had not been before. |
| `InstallCancellation.NothingIsLeftBehind` | custom_components/panel_assistant/install_executor.py:1529-1590 | Over every run, a job is recorded as CANCELLED only if its APK was never staged on the panel, or the panel has confirmed that it is removed again. |
| `InstallCancellation.WorkSteps` | custom_components/panel_assistant/install_executor.py:645-1063 | Each worker step makes at most one call, sends at most the mutation it is past the barrier of, passes a barrier only if the store lets it, and never stops in STAGING without being kept from running that job again. |
| `InstallCustody.CustodyIsConserved` | custom_components/panel_assistant/install_executor.py:1106-1123 | Over every run with one manager and executor per process, a partial or ready file belongs to a job that is still in the store, not ended and not waiting as healthy: every way out has removed the files first, or never made any. |
| `InstallCustody.StartKeepsLiveFiles` | custom_components/panel_assistant/install_executor.py:1873-1898 | A process that starts clears custody of exactly the files whose job is not in the store or has ended. |
| `InstallCustody.MutationHappensInItsPhase` | custom_components/panel_assistant/install_executor.py:1271-1294 | When a worker touches the panel, the durable phase is the mutation's own and the generation is the worker's exactly when the job has not ended meanwhile; it has not whenever the manager still has the claim in memory. |
| `InstallOvertaken.PushAfterTheEnd` | custom_components/panel_assistant/install_executor.py:1271-1294 | The limit of the fence, as a reachable run: after a worker passed its barrier, one unreadable store read made its manager forget the claim, a concurrent sweep ended the job as RECOVERY_REQUIRED, and the APK is pushed nevertheless. |
| `InstallTermination.WorkDescends` | custom_components/panel_assistant/install_executor.py:645-1063 | Every step of a worker ends it or lowers a measure made of the phases remaining, the cancellation not yet seen, the stale partial not yet removed and the place within the turn. |
| `InstallTermination.WorkersStop` | custom_components/panel_assistant/install_executor.py:633-1104 | However the rest of the world interferes, no worker ever takes more than a fixed number of steps. |
| `InstallTermination.ActionsInterfere` | custom_components/panel_assistant/install_executor.py:274-292 | Whatever anyone else does leaves a worker's local state as it is, and keeps the invariant its termination rests on. |
| `InstallTermination.RunWorker` | custom_components/panel_assistant/install_executor.py:645-1104 | The loop itself: among arbitrary interfering steps it runs to its end within that number of turns and keeps the safety invariant. |
| `InstallDetails.DurableFiles.Save` | custom_components/panel_assistant/install_jobs.py:564-734 | The method over the two files does what the specification of a save does, for every outcome of every write and a death after any of them. |
| `InstallDetails.HoldsJoins` | custom_components/panel_assistant/install_jobs.py:312-331 | Stripping the failure details out of a map and joining them back by id, revision and digest gives the same map, beside any details that no receipt uses. |
| `InstallDetails.UnionMatches` | custom_components/panel_assistant/install_jobs.py:202-215 | The details of the old and of the new map side by side still match both maps, because whatever changed bears a new revision. |
| `InstallDetails.StaleHolds` | custom_components/panel_assistant/install_jobs.py:576-598 | Where neither map has anything to say, details left by an aborted save match nothing in the new map, so that the detail write may be skipped. |
| `InstallDetails.SaveIsAtomic` | custom_components/panel_assistant/install_jobs.py:564-734 | After a death at any boundary, or any failed or ambiguous write, reading and joining the two files gives exactly the old map or exactly the new one; a save that returned gives the new one, and a refused primary write the old one. |
| `InstallDetails.UndisturbedSaveReturns` | custom_components/panel_assistant/install_jobs.py:564-734 | A save that nothing disturbs returns if and only if the new map is one the parser accepts and no clock runs backwards, and then the files hold that map with no details but its own; otherwise they are untouched. |
| `InstallDetails.SaveRefines` | custom_components/panel_assistant/install_jobs.py:564-734 | Every ending of the two-file save is one of the three endings the manager's operations allow for: not written, written and verified, or written while the caller is told that it failed. |
| `InstallDetails.StoreStaysWhole` | custom_components/panel_assistant/install_jobs.py:781-809 | Over any number of saves cut short anywhere, the store stays readable and holds a map that somebody meant to save. |
| `InstallDetails.CallsFollow` | custom_components/panel_assistant/install_jobs.py:827-1241 | Every map an operation saves differs from the one it read only in receipts with a new revision, and whatever newly failed says at which stage: the condition the atomicity of a save rests on. |
| `InstallDetails.DetailsStayBounded` | custom_components/panel_assistant/install_jobs.py:574-587 | The old and the new details together never outgrow the 64 that their parser accepts. |
| `InstallFinalizer.FinalizerTable.Acquire` | custom_components/panel_assistant/install_executor.py:394-398 | Granted means held by this owner alone; asking again renews nothing, takes back no release, and disturbs neither another owner's lease nor another job. |
| `InstallFinalizer.FinalizerTable.Release` | custom_components/panel_assistant/install_executor.py:400-414 | An owner that lets go holds the lease no longer, unless its own verification is in flight, which goes on with the wish noted; other owners and other jobs notice nothing. |
| `InstallFinalizer.FinalizerTable.BeginVerification` | custom_components/panel_assistant/install_executor.py:432-440 | A verification begins exactly when none is in flight and nobody else holds the job, and then it is the one in flight; a refusal changes nothing. |
| `InstallFinalizer.FinalizerTable.EndVerification` | custom_components/panel_assistant/install_executor.py:458-461 | Afterwards nothing is in flight, and the owner holds the lease exactly when it is to be kept and nobody let go of it meanwhile. |
| `InstallFinalizer.VerifyAmong` | custom_components/panel_assistant/install_executor.py:400-461 | The four calls together, from their contracts alone: while one owner verifies, another that releases, acquires and verifies as often as it likes never gets in, and a lease let go of meanwhile is gone at the end, proof or not. |
| `InstallFinalizer.OneVerificationPerJob` | custom_components/panel_assistant/install_executor.py:420-461 | Whatever interleaves, at most one verification per job is in flight; meanwhile none can begin for any owner, and only its own owner can acquire. |
| `InstallFinalizer.OnlyAProofKeepsTheLease` | custom_components/panel_assistant/install_executor.py:441-461 | However a verification ends (any outcome, error or task cancellation), its lease is dropped, unless it ended as VERIFIED with no release asked for. |
| `InstallFinalizer.DeferredReleaseTakesEffect` | custom_components/panel_assistant/install_executor.py:400-461 | A release asked for during a verification takes effect at the very moment that verification ends, neither before nor after, in every continuation; and a verification that was still reading the receipt never goes on to ask the panel. |
| `InstallFinalizer.ConsumedOnce` | custom_components/panel_assistant/install_executor.py:463-539 | However many owners finalize or reconcile an entry, a receipt is consumed at most once; and as long as the store knows it, it is recorded as CONSUMED by the very entry that was given for it. |
| `InstallFinalizer.OnlyHealthConsumes` | custom_components/panel_assistant/install_executor.py:463-539 | A receipt becomes CONSUMED only by a settlement of its own flight, with matching health, and names the entry of that flight; no verification ever consumes. |
| `InstallFinalizer.SettlementIsRecorded` | custom_components/panel_assistant/install_executor.py:463-539 | A settlement that succeeds is recorded as what the health said: consumed by the given entry, or RECOVERY_REQUIRED with VERIFICATION_REQUIRED and no entry. |
| `InstallFinalizer.VerificationsRecord` | custom_components/panel_assistant/install_executor.py:541-625 | A proof and a retry write nothing; a drift that is saved sets the receipt aside with VERIFICATION_REQUIRED. |
| `InstallFinalizer.OnlyHealthyReceiptsSettle` | custom_components/panel_assistant/install_executor.py:380-461 | Over every interleaving, a panel is proved and a receipt settled only for a receipt read as HEALTHY_UNCLAIMED. |
| `InstallFinalizer.SettlersHoldTheLease` | custom_components/panel_assistant/install_executor.py:463-539 | A settlement starts only for an owner that then holds the lease of its receipt; while somebody else holds it, nothing starts and nothing is taken. |
| `InstallFinalizer.SettlementsLetGo` | custom_components/panel_assistant/install_executor.py:463-539 | However a settlement ends, its owner no longer holds the lease, unless a verification of its own is in flight, which then has the wish to let go noted; nobody else's lease is touched. |
| `Identity.ReconcileIsAllOrNothing` | custom_components/panel_assistant/identity.py:300-344 | True means that every native entity carries the entry's identity with the suffix it had, one to one; false means that nothing at all was changed. |
| `Identity.RekeyIsRecoverable` | custom_components/panel_assistant/identity.py:258-344 | For a reinstall rekey, each of the four ways the entry store and the entity registry can have reached the disk is settled by the next load. |
| `Identity.MigrationRecovers` | custom_components/panel_assistant/identity.py:258-344 | A first adoption of the installation protocol is recovered exactly when the entry was saved, or the registry was not, or there was nothing to rename: registry saved and entry not is refused. |
| `Identity.TwoRekeysRecover` | custom_components/panel_assistant/identity.py:258-344 | For two rekeys in a row, each of the nine ways the two stores can be found is settled by the next load; an entry saved after both, with its entities saved after neither, is taken back to the identity these still carry. |
| `Identity.RekeyedUnique` | custom_components/panel_assistant/identity.py:227-255 | A rename that is free for every entity never makes two entities share a unique id. |
| `Identity.RekeyedPreserves` | custom_components/panel_assistant/identity.py:258-297 | A rename keeps every suffix and every entity of others, and leaves no native entity under the old identity. |
| `Identity.Core.UpdateEntity` | custom_components/panel_assistant/identity.py:280-281 | The registry's own refusal as a precondition: the rename is made only where nobody else holds the new id, and changes one entity only. |
| `Identity.Core.RenameAll` | custom_components/panel_assistant/identity.py:262-281 | Renaming entity by entity, in any order, is never refused half-way and gives the whole rename. |
| `Identity.Core.CommitIdentity` | custom_components/panel_assistant/identity.py:258-297 | Noting the move, renaming the entities and committing the entry last gives the specified home. |
| `Identity.Core.Reconcile` | custom_components/panel_assistant/identity.py:300-344 | The method that loads an entry does what its specification does, on every branch. |
| `Identity.Core.AcceptHealth` | custom_components/panel_assistant/identity.py:406-485 | The method that admits a health line does what its specification does (migration, linked reinstall, moved identity, rejection, the claim of a link), and its answer is true exactly if the line comes from the entry's own panel or from one tied to it that may take its place, and then the entry names that panel. |
| `Identity.VerdictIsTheIdentity` | custom_components/panel_assistant/identity.py:406-485 | The verdict, both ways: accepted exactly if the panel that answered is the entry's own, or is tied to it, in time, and free to take its place; then it is the one the entry names and no move is pending; a rejection leaves everything as it was but for a name taken from the entry's own records. |
| `Identity.StrangerIsRejected` | custom_components/panel_assistant/identity.py:347-485 | A panel with another identity that names neither the entry's identity nor its link is rejected, whatever else is known, and changes nothing. |
| `Identity.LinksAreHandedOver` | custom_components/panel_assistant/identity.py:488-509 | An accepted line of the entry's own panel brings its link along; every other entry loses that same link and nothing else, exactly if it holds it and its own panel does not answer. |
| `Identity.AdmitConsistent` | custom_components/panel_assistant/identity.py:406-485 | Admitting a health line never leaves an entity of a named entry behind under another identity, and never makes two unique ids equal. |
| `Identity.AdoptionIsExclusive` | custom_components/panel_assistant/identity.py:227-255 | An entry's identity changes only on an accepted line, to the one the line gave, only if no other entry or device shares it, with the old one recorded, the cutover mark moved along, every entity's suffix kept, and no other entry touched. |
| `Identity.IdentityIsKept` | custom_components/panel_assistant/identity.py:300-485 | Over every run of health lines, loads, new entries and new entities, no entry with an identity owns a native entity made under another one, and no two entities share a unique id. |
| `InstallArtifacts.Custody.DiscardOpenPartial` | custom_components/panel_assistant/install_artifacts.py:316-344 | Success means closed and gone; a failure leaves the directory as it was or without the partial, and the descriptor is open still only if its status could not be read. |
| `InstallArtifacts.Custody.OpenPartial` | custom_components/panel_assistant/install_artifacts.py:383-441 | A new empty partial, or false because the signed file is there already; an existing file of either name is never touched. |
| `InstallArtifacts.Custody.PrepareDestination` | custom_components/panel_assistant/install_artifacts.py:367-441 | The same with the directory's own failures around it. |
| `InstallArtifacts.Custody.WriteAll` | custom_components/panel_assistant/install_artifacts.py:444-455 | However little each write takes, the partial always holds a prefix of what is to be written, and on success all of it. |
| `InstallArtifacts.Custody.FinishFile` | custom_components/panel_assistant/install_artifacts.py:458-464 | The descriptor is closed exactly once, even when flushing fails. |
| `InstallArtifacts.Custody.PromotePartial` | custom_components/panel_assistant/install_artifacts.py:467-527 | Success means that the very bytes of the partial now stand under the ready name and nothing under the other; a publication in doubt is taken back if that is possible, and both names never coexist. |
| `InstallArtifacts.Custody.AbandonPartial` | custom_components/panel_assistant/install_artifacts.py:700-710 | Success means that no partial is left; the ready file is never touched, and the descriptor is closed exactly when it was handed over. |
| `InstallArtifacts.Custody.Receive` | custom_components/panel_assistant/install_artifacts.py:997-1012 | What is received is what the partial holds, and it is what the stream carried; more than the signed size or the limit never reaches the file; and with working operations a stream is received exactly if it comes to its end within both. |
| `InstallArtifacts.Custody.Publish` | custom_components/panel_assistant/install_artifacts.py:1013-1028 | A normal end means that the received bytes are the ready file, beside no partial, and with working operations bytes that fit the contract always come to that end; the descriptor stays the caller's to close only when the checks before closing fail. |
| `InstallArtifacts.Custody.Download` | custom_components/panel_assistant/install_artifacts.py:944-1050 | At every file operation of a download with any failures and cancellations the directory is in order (never both names, a ready file only with the signed size and digest), and a normal return means that the signed file is there; no descriptor is closed twice. With working operations, a stream that carries the signed bytes ends normally, and any other leaves no partial and no open descriptor. |
| `InstallArtifacts.DownloadUntil` | custom_components/panel_assistant/install_artifacts.py:944-1050 | The directory is in order after any number of processes, each dying between any two operations of its download. |
| `InstallArtifacts.ReconcileArtifacts` | custom_components/panel_assistant/install_artifacts.py:634-665 | One foreign name stops everything before the first removal, no file of a live job is ever removed, a failing removal stops the rest, and success leaves exactly the files of live jobs. |
| `WorkerArbitration.RunsOnceOrNever` | custom_components/panel_assistant/install_artifacts.py:713-756 | In every interleaving of thread start and abort, the target runs once and is FINISHED, or is ABORTED and never runs, and that is settled before completion is signalled. |
| `WorkerArbitration.SomebodyWillSignal` | custom_components/panel_assistant/install_artifacts.py:713-781 | As long as completion is not signalled, some step of the thread or of the loop brings it closer. |
| `WorkerArbitration.AbandonsExactlyOnce` | custom_components/panel_assistant/install_artifacts.py:827-843 | However often a cleanup is cancelled and submitted again, it is called at most once, and its caller goes on only after it was called exactly once, except when the pool refused to take it. |
| `WorkerArbitration.RefusalSkipsCleanup` | custom_components/panel_assistant/install_artifacts.py:827-843 | The exception is real: a pool that is shutting down refuses, and the partial is left behind. |
| `DuckRoom.RoomDuck.Duck` | custom_components/panel_assistant/duck.py:103-123 | The loop over the sounding players opens, joins or requeues records as one event of the room does, a panel that holds players already only keeps them, and the panel's own set stays in step with the records. |
| `DuckRoom.RoomDuck.Release` | custom_components/panel_assistant/duck.py:133-146 | The loop gives up this panel's hold on every player, restoring those that nobody else holds, and the panel's own set stays in step with the records. |
| `DuckRoom.Room.StartCall` | custom_components/panel_assistant/duck.py:250-264 | In a room in order a change's turn loses no record, and the restore of a player that nobody holds and that shows its level is always written; the room stays in order. |
| `DuckRoom.Room.FinishCall` | custom_components/panel_assistant/duck.py:281-305 | A record of a level goes only if its player shows that level, and the room stays in order unless that was a late report. |
| `DuckRoom.Room.StateChanges` | custom_components/panel_assistant/duck.py:319-345 | Any change of state judges a waiting restore: confirmed only by the level shown, and queued once more otherwise. |
| `DuckRoom.Live` | custom_components/panel_assistant/duck.py:103-347 | A whole evening of panel objects around one room, with any interleaving of turns, queued writes and reports, leaves the room restored, provided that records go from settled players only. |
| `Duck.TheRoomIsRestored` | custom_components/panel_assistant/duck.py:102-347 | For any number of panels and any interleaving with the queued writes, with reports arriving at any time after the write and restores that get lost: if records go only from players that show, and are about to show, nothing but the original level, then once the queues drain every held player is lowered and every other one back at the level from before its first duck, its record gone; no record ever took a lowered level for the original. |
| `Duck.TurnHoldsTheRoom` | custom_components/panel_assistant/duck.py:103-123 | The turn of a panel that holds nothing yet takes hold of exactly the sounding players that are held already, or that can be turned down, or muted. |
| `Duck.RestoreSparesTheMoved` | custom_components/panel_assistant/duck.py:250-264 | A restore is written only to a player that nobody holds and that shows the lowered level (three tenths of the original) or the original one, within its tolerance; a player that somebody has turned elsewhere is left alone and the change is over. |
| `DuckReports.RecordsMustSettle` | custom_components/panel_assistant/duck.py:281-347 | That condition is exact: after any evening that met it, the next event meets it if and only if no evening that goes on meeting it can get a player's level wrong. |
| `DuckReports.PromptReportsRestore` | custom_components/panel_assistant/duck.py:238-347 | A condition on reports alone is enough: every lowering is shown by the end of the last restore after it, while restores may be shown arbitrarily late or be lost; a player too quiet for that keeps in sight, loses nothing and shows the restore as well. |
| `DuckReports.LateReportStaysDown` | custom_components/panel_assistant/duck.py:281-305 | Without it the room is not restored, however loud the player: a turn reported only after its end makes the next turn take the lowered level for the original, and the player stays there, though every write lands and nobody touches it. |
| `DuckReports.QuietPlayerStaysDown` | custom_components/panel_assistant/duck.py:308-347 | Every audible player whose lowered and original levels lie within half its volume step has an evening, with every report in time, after which it stays lowered with nobody holding it. |
| `Accessibility.SeenContains` | custom_components/panel_assistant/adb_protocol.py:938-945 | Looking for a service between colons in the text of seen services finds exactly the members of the list. |
| `Accessibility.ReadList` | custom_components/panel_assistant/adb_protocol.py:934-946 | The shell's reading loop is valid exactly when the list is editable, and then has kept exactly the services that are not obsolete, in order. |
| `Accessibility.GrantedList` | custom_components/panel_assistant/adb_protocol.py:934-955 | The shell program and the Python prediction agree on every one-line list: valid exactly when the prediction exists, and then with the same text. |
| `Accessibility.GrantKeepsTheRest` | custom_components/panel_assistant/adb_protocol.py:993-1008 | The resulting list has no duplicates, keeps every unrelated service in order, drops what is obsolete, names the app's service in a known spelling, and adds nothing else. |
| `Accessibility.RerunChangesNothing` | custom_components/panel_assistant/adb_protocol.py:993-1008 | A rerun reproduces the list exactly when it stays within 64 entries and 4096 characters, and is refused otherwise. |
| `Accessibility.BuildsAreWellFormed` | custom_components/panel_assistant/app_identity.py:136-175 | Both builds' component tables meet what the laws above ask of a build. |
| `AdbFrames.ParsesExactlyFrames` | custom_components/panel_assistant/adb_protocol.py:1137-1173 | The parser accepts exactly the frames a printer can produce for the expected names, and reads from each what was printed. |
| `AdbFrames.PrintedIsParsed` | custom_components/panel_assistant/adb_protocol.py:1119-1173 | Bytes printed from sections within the size bound decode and parse back to those sections. |
| `AdbFrames.PartIsParsedAgain` | custom_components/panel_assistant/adb_protocol.py:1283-1316 | The leading sections of any accepted answer, whatever its line ends and leading zeros, printed again are always accepted within the size bound and read as those sections. |
| `AdbFrames.ReadSection` | custom_components/panel_assistant/adb_protocol.py:1148-1168 | The inner loop over the offset takes one section as its definition does. |
| `AdbFrames.ParseSections` | custom_components/panel_assistant/adb_protocol.py:1137-1173 | The loop over the names, with its mutable offset, agrees with the definition that the laws are about. |
| `AdbFrames.SectionsAsFrame` | custom_components/panel_assistant/adb_protocol.py:1387-1401 | Extending one list line by line prints the frame that the laws are about. |
| `BrowserReleaseCache.OldestIdle` | custom_components/panel_assistant/browser_release_cache.py:119-131 | Eviction picks an idle entry, a served one first and then the first to expire, and none only if none is idle. |
| `BrowserReleaseService.ReleaseCache.StartPreparing` | custom_components/panel_assistant/browser_release_cache.py:137-168 | A preparation starts exactly when the cache is open, has not failed and nobody is busy; the invariant stands and no lease loses its bundle. |
| `BrowserReleaseService.ReleaseCache.FindRoom` | custom_components/panel_assistant/browser_release_cache.py:119-175 | With a slot free the download is reserved, otherwise the victim of the eviction is retired before its file is touched, and with none idle the request is given up. |
| `BrowserReleaseService.ReleaseCache.Reap` | custom_components/panel_assistant/browser_release_cache.py:114-117 | One turn of the loop keeps the invariant; the entry it looks at is retired exactly if it has no lease and is expired or the cache closed, and no other entry is ever retired but the victim that an eviction needs at full capacity. |
| `BrowserReleaseService.ReleaseCache.FinishCleaning` | custom_components/panel_assistant/browser_release_cache.py:102-112 | What is cleaned never had a lease; it leaves the table only after its file is gone, and a failed removal keeps the table and fails the cache for good. |
| `BrowserReleaseService.ReleaseCache.FinishEvicting` | custom_components/panel_assistant/browser_release_cache.py:169-175 | The same for an evicted entry, and the download that waited for it then has its slot. |
| `BrowserReleaseService.ReleaseCache.FinishDownload` | custom_components/panel_assistant/browser_release_cache.py:187-202 | A reservation becomes an entry with a file exactly if its download ends well, and there are never more than two. |
| `BrowserReleaseService.ReleaseCache.Lease` | custom_components/panel_assistant/browser_release_cache.py:204-225 | A lease is granted exactly to the entry's own user, on an unexpired entry that is not retiring, of a cache that is open and has not failed; its file is there, the lease is counted and the entry marked as served before anything else can run, and no other entry changes. |
| `BrowserReleaseService.ReleaseCache.EndLease` | custom_components/panel_assistant/browser_release_cache.py:228-235 | Whoever holds a lease can end it: its entry is still there and counted, one lease fewer is held afterwards, no entry goes, and somebody is tidying up. |
| `BrowserReleaseService.ReleaseCache.Close` | custom_components/panel_assistant/browser_release_cache.py:237-246 | Closing is accepted exactly when nobody is busy; from then on nothing is granted, while every lease that is out keeps its bundle. |
| `BrowserReleaseCache.LeasedIsKept` | custom_components/panel_assistant/browser_release_cache.py:102-246 | In every interleaving of prepare, lease, eviction, expiry and close, also after failures, a leased bundle keeps its entry and its file and is not being cleaned. |
| `BrowserReleaseCache.OnlyDueEntriesGo` | custom_components/panel_assistant/browser_release_cache.py:102-246 | No event of any kind takes away, retires or changes an entry that is not due: unleased, and expired, of a closed cache, or the victim of an eviction at full capacity. |
| `BrowserReleaseCache.ValidBundleStays` | custom_components/panel_assistant/browser_release_cache.py:114-131 | Over every run, a bundle that is never due stays with its file, its user and its time: an unexpired one of an open cache goes only while nobody leases it and both slots are taken. |
| `BrowserReleaseCache.FilesAreTheEntries` | custom_components/panel_assistant/browser_release_cache.py:102-202 | Once initialised and not failed, the files are exactly the entries but for the one file coming or going, and together with a reservation they are at most two. |
| `BrowserReleaseCache.EntryWithoutFile` | custom_components/panel_assistant/browser_release_cache.py:102-112 | The exception is real: while a removal is in flight an entry may stand without its file. |
| `DisplayProvisioning.Panel.RecordOnce` | custom_components/panel_assistant/display_provisioning.py:103-142 | A record is made once, whole and of the values then in force, and an existing one is never replaced. |
| `DisplayProvisioning.Panel.Apply` | custom_components/panel_assistant/display_provisioning.py:103-142 | Values are applied only under a record, and nothing is written when the wanted values are read already. |
| `DisplayProvisioning.Panel.Size` | custom_components/panel_assistant/display_provisioning.py:103-203 | A sizing run writes nothing without a record and leaves an existing record alone; reporting converged means recorded and applied; a first run whose commands work records what was there and converges; a rerun with working queries on applied values writes nothing. |
| `DisplayProvisioning.ConvergedReadsExactly` | custom_components/panel_assistant/display_provisioning.py:181-203 | A run that converged has read back exactly the wanted values; only for the standard text size do the two other spellings of it count as well. |
| `DisplayProvisioning.Panel.Restore` | custom_components/panel_assistant/display_provisioning.py:145-174 | `restored` means that both values equal the record, `unrestored` keeps the record, the record is forgotten only once its values are back, and with working steps a restore succeeds; a recorded empty text size is never written back, and `restored` is then printed exactly if the density reads back and the last query fails or finds an empty text. |
| `DisplayProvisioning.ForgetsTheText` | custom_components/panel_assistant/display_provisioning.py:145-174 | The false answer at a concrete panel: one failing query after a sizing run, and the removal prints that it restored a text size it has not. |
| `DisplayProvisioning.Panel.OwnerSets` | custom_components/panel_assistant/display_provisioning.py:103-174 | Changes by the owner leave the record and the undoability of the programs' writes alone. |
| `DisplayProvisioning.Live` | custom_components/panel_assistant/display_provisioning.py:103-174 | Over any sequence of sizing, removal and owner changes, each cut short anywhere: without a record the display is the owner's, and a record says what the owner had. |
| `DisplayProvisioning.SizeTwice` | custom_components/panel_assistant/display_provisioning.py:181-203 | After a converged run, a second one whose own commands work writes nothing and converges again. |
| `AdbCredentials.Lifted` | custom_components/panel_assistant/adb_credentials.py:64-78 | Lifting bit by bit yields an inverse below 2^bits of any odd number, with the exact quotient as its proof. |
| `AdbCredentials.Inverse` | custom_components/panel_assistant/adb_credentials.py:64-78 | A number below 2^bits whose product with an odd number is 1 modulo 2^bits. |
| `AdbCredentials.InverseIsUnique` | custom_components/panel_assistant/adb_credentials.py:64-78 | There is only one such number, so it is the one Python's modular power finds. |
| `AdbCredentials.N0Inv` | custom_components/panel_assistant/adb_credentials.py:64-78 | For every odd modulus, n0inv lies in [1, 2^32) and n * n0inv is -1 modulo 2^32. |
| `AdbCredentials.RR` | custom_components/panel_assistant/adb_credentials.py:64-78 | rr is reduced below the modulus. |
| `AdbCredentials.ReductionClearsAWord` | custom_components/panel_assistant/adb_credentials.py:64-78 | Adding the multiple of the modulus that n0inv picks always clears the low word: what the field is for in Montgomery reduction. |
| `AdbCredentials.RadixSquared` | custom_components/panel_assistant/adb_credentials.py:64-78 | Multiplying by rr is, modulo n, multiplying by the radix 2^2048 twice, so rr is 2^4096 modulo n. |
| `AdbCredentials.BytesHold` | custom_components/panel_assistant/adb_credentials.py:36-38 | A number that fits its width is read back from its little-endian bytes. |
| `AdbCredentials.BytesMean` | custom_components/panel_assistant/adb_credentials.py:36-38 | Every byte string is the little-endian form of the number it reads as. |
| `AdbCredentials.PackedIsExact` | custom_components/panel_assistant/adb_credentials.py:64-78 | A key is packed exactly when its modulus is odd and its fields fit, into the full structure width, and unpacking gives back word count, n0inv, modulus, rr and exponent. |
| `AdbCredentials.AndroidLayout` | custom_components/panel_assistant/adb_credentials.py:64-78 | A key is 524 bytes: the word 64, n0inv with n * n0inv = -1 modulo 2^32, the modulus, 2^4096 modulo n, and the exponent, each in little-endian order at its fixed place. |
| `AdbCredentials.Base64RoundTrip` | custom_components/panel_assistant/adb_credentials.py:76-84 | Decoding the Base64 text of section 4 of RFC 4648, with its padding, gives back the bytes. |
| `AdbCredentials.GenerationHashesTheKey` | custom_components/panel_assistant/adb_credentials.py:81-84 | The generation id of an encoded key is the digest of exactly the bytes that were packed, whatever the comment. |
| `AdbCredentials.KeysAreToldApart` | custom_components/panel_assistant/adb_credentials.py:64-84 | Different keys have different texts and, short of a hash collision, different generation ids. |

## Left out

Contracts that state less than the code or its design promises:

- InstallCustody.CustodyIsConserved: assumes one manager and one executor per process, as the integration sets them up; claims are made by workers only, and everyone else reads, creates, cancels, or settles a job that is HEALTHY_UNCLAIMED.
- InstallCustody.MutationHappensInItsPhase: makes the same assumption; without it `InstallSafety.PanelMutationsHappenOnce` and `InstallRuns.OnlyTheIssuerActs` still hold.
- InstallSafety.PanelMutationsHappenOnce: counts the push and the install only. Launches are not counted, because HEALTH_CHECK may be resumed and relaunch the app.
- InstallVerdicts.EveryPhaseIsEarned: assumes that everybody but the workers moves jobs only to CONSUMED or, for want of verification, to RECOVERY_REQUIRED, as the finalizer does.
- InstallProgress.ApprovedJobIsInstalled: is about a worker that is left alone; what others do meanwhile is the subject of the safety results.
- InstallEndings.EveryAnswerHasItsEnding: is about a worker with the claim in hand and a store that works; a failing store parks the worker, and then `InstallVerdicts.EveryPhaseIsEarned` says what may be on record. Failure codes that the receipt's phase does not admit park the worker as well, as in the code.
- InstallCancellation.NothingIsLeftBehind: makes the same assumption as `InstallVerdicts.EveryPhaseIsEarned`; a push whose outcome nobody knows is set aside for recovery and not counted as staged.
- InstallTermination.RunWorker: says nothing of the panel's answers, which `InstallVerdicts` and `InstallProgress` are about; it loops over the steps of a state machine instead of being the executor's own coroutine, because any other task may run at each of its waits; the fields of the executor object are the `tasks` and `parked` of `InstallExecutor.World`.
- InstallDetails.SaveIsAtomic: takes the digest to be free of collisions, and each single file write to be atomic.
- InstallManager.ParseDocument: checks the receipts, their counts and their distinct targets; the text shape of single fields and the size bound in bytes are not modelled.
- InstallManager.InstallJobManager.CreateOrJoin: the job id is a supplied fresh value instead of 16 random bytes.
- InstallArtifacts.Custody.Download: takes redirects, headers, timeouts and the URL check as a stream that may break anywhere. A descriptor can stay open in three cases, as in the code: its status cannot be read, the thread pool refuses the cleanup, or the worker that would close it is cancelled before it starts.
- InstallOvertaken.PushAfterTheEnd: the sweep removes the APK as well; the push is real because `async_stage_apk` opens the file after the barrier and before it connects (install_adb.py line 764), which the run does not show as a step of its own.
- InstallArtifacts.ReconcileArtifacts: removes in no particular order, while the code goes by directory order.
- Identity.RekeyIsRecoverable: is about entries in order under the installation protocol; `Identity.MigrationRecovers` is the exact condition for the first adoption.
- Identity.Core.AcceptHealth: the evidence for an earlier installation, whether others answer as themselves, and the owner's confirmation are inputs; repair issues and logging are not modelled.
- Duck.TheRoomIsRestored: assumes that lowerings and changes of muting are accepted and take effect in order, and that nobody else changes the volume; which players are sounding in the area is an input. Restores of a level may be lost, reports may come at any later time, in order or overtaking.
- BrowserReleaseCache.LeasedIsKept: takes the random bundle ids never to repeat; build policy, cache hits by content and the download itself are outside it.
- DisplayProvisioning.Panel.Restore: models the commands' effects and reads, not their text; `rm` may fail unnoticed, as in the code.
- AdbFrames.ParseSections: answers with a sequence in the order of the expected names; the code's dictionary is the same for distinct names, which all callers have.
- AdbFrames.PartIsParsedAgain: is about text; bytes that are not valid UTF-8 are refused before it.
- AdbCredentials.Base64RoundTrip: is about encoded text only; which malformed texts Python's strict decoder refuses is not modelled.

Not modelled at all:

- The ADB wire protocol, sockets, HTTP, WebSocket and the Home Assistant APIs; they are steps that succeed, fail or are ambiguous.
- Correctness of signatures, SHA-256 and RSA.
- POSIX metadata checks (mode, owner, links, inode); the custody directory is private and renames are atomic.
- `async_list` and `async_find_active`: plain reads.
- Offering display sizing, HOME and permission settlement inside the launch step, and the deferred HOME claim it records.
- The read just before a cleanup barrier (install_executor.py lines 1300 to 1306) and before the launch: folded into the barrier, which reads the durable copy again and refuses the same states.
- Liveness of the bundle cache after close, and wall-clock time: time is a supplied value.
- The plan digest, feed and version parsing, blob tokens, and name delivery: they would add easy members only.
- All shell text but the accessibility list and the display record and restore programs.
- Storing the ADB credential: it repeats the durable-write pattern of the job store.
- Configuration flows, entities, panels, diagnostics and repair texts.
