/**
 * What an answer of the store is worth: which record stands behind a success,
 * when a success is due, and what a recorded cancellation means from then on.
 */
module InstallAnswers {
  import opened Wrappers
  import opened InstallReceipt
  import opened InstallJobs
  import opened InstallJobsLaws
  import opened InstallRuns

  /** The map a save leaves, in terms of one receipt. */
  lemma SavedReceipt(disk: Jobs, m: Manager, id: JobId, r: Receipt, now: int, event: SaveEvent)
    requires id in disk
    ensures var reply := SaveAndReturn(disk, m, Pruned(disk[id := r], now), id, event);
            && (id in reply.disk ==> reply.disk[id] == disk[id] || reply.disk[id] == r)
            && (reply.result.Success? ==> id in reply.disk && reply.disk[id] == r && reply.result.value == r)
            && (forall k :: k in reply.disk && k != id ==> k in disk && reply.disk[k] == disk[k])
  {
    SaveCases(disk, m, Pruned(disk[id := r], now), id, event);
    hide SaveAndReturn, Retained;
  }

  // -------------------------------------------------------------- what each call writes

  /** What a call makes of the receipt it names, if it changes it at all. */
  ghost predicate Written(disk: Jobs, m: Manager, call: Call, env: Env, r: Receipt)
    requires call.id in disk
  {
    var was := disk[call.id];
    match call
    case Take(_, revision, _) =>
      was.revision == revision && !was.IsTerminal() && !was.phase.HealthyUnclaimed?
      && r == ClaimedReceipt(was, env.now)
    case Move(_, revision, a) =>
      was.revision == revision && Advances(Refreshed(disk, m, env.readable).0, call.id, was, a, env.now)
      && r == AdvancedReceipt(was, a, env.now)
    case Cancel(_, revision) =>
      was.revision == revision && Cancellable(was.phase) && !was.cancelRequested
      && r == CancelMarked(was, env.now)
    case _ => false
  }

  /** A claim, transition or cancellation that changes a receipt writes this, and nothing else. */
  lemma CallsWrite(disk: Jobs, m: Manager, call: Call, env: Env)
    requires call.Take? || call.Move? || call.Cancel?
    ensures var d := Perform(disk, m, call, env).disk;
            && (forall k :: k in d ==> k in disk && (d[k] != disk[k] ==> k == call.id))
            && (call.id in d && d[call.id] != disk[call.id] ==> Written(disk, m, call, env, d[call.id]))
  {
    match call {
      case Take(id, revision, cleaned) => ClaimWrites(disk, m, call, env);
      case Move(id, revision, a) => MoveWrites(disk, m, call, env);
      case Cancel(id, revision) => CancelWrites(disk, m, call, env);
    }
    hide Written, Claim, Transition, RequestCancel;
  }

  lemma ClaimWrites(disk: Jobs, m: Manager, call: Call, env: Env)
    requires call.Take?
    ensures var d := Claim(disk, m, call.id, call.revision, call.cleaned, env).disk;
            && (forall k :: k in d ==> k in disk && (d[k] != disk[k] ==> k == call.id))
            && (call.id in d && d[call.id] != disk[call.id] ==> Written(disk, m, call, env, d[call.id]))
  {
    hide SaveAndReturn, Refreshed, Pruned, ClaimedReceipt;
    if call.id in disk {
      SavedReceipt(disk, Refreshed(disk, m, env.readable).0, call.id, ClaimedReceipt(disk[call.id], env.now),
                   env.now, env.save);
    }
  }

  lemma MoveWrites(disk: Jobs, m: Manager, call: Call, env: Env)
    requires call.Move?
    ensures var r := Transition(disk, m, call.id, call.revision, call.advance, env);
            && (forall k :: k in r.disk ==> k in disk && (r.disk[k] != disk[k] ==> k == call.id))
            && (call.id in r.disk && r.disk[call.id] != disk[call.id]
                ==> Written(disk, m, call, env, r.disk[call.id]))
            && (r.result.Success? ==>
                  && call.id in r.disk && r.result.value == r.disk[call.id]
                  && Written(disk, m, call, env, r.disk[call.id]))
  {
    hide SaveAndReturn, Refreshed, Pruned, AdvancedReceipt, Advances;
    if call.id in disk {
      SavedReceipt(disk, Refreshed(disk, m, env.readable).0, call.id,
                   AdvancedReceipt(disk[call.id], call.advance, env.now), env.now, env.save);
    }
  }

  lemma CancelWrites(disk: Jobs, m: Manager, call: Call, env: Env)
    requires call.Cancel?
    ensures var r := RequestCancel(disk, m, call.id, call.revision, env);
            && (r.disk == disk || (call.id in disk && r.disk == disk[call.id := CancelMarked(disk[call.id], env.now)]))
            && (forall k :: k in r.disk ==> k in disk && (r.disk[k] != disk[k] ==> k == call.id))
            && (call.id in r.disk && r.disk[call.id] != disk[call.id]
                ==> Written(disk, m, call, env, r.disk[call.id]))
  {
    hide SaveAndReturn, Refreshed, CancelMarked;
    if call.id in disk {
      SaveCases(disk, Refreshed(disk, m, env.readable).0,
                disk[call.id := CancelMarked(disk[call.id], env.now)], call.id, env.save);
    }
  }

  // ------------------------------------------------------------------------- cancelling

  /**
   * A cancellation that succeeds is on record, of a job it could still reach,
   * and what it answers is that record; nothing else has changed.
   */
  lemma CancelIsRecorded(disk: Jobs, m: Manager, id: JobId, revision: nat, env: Env)
    requires RequestCancel(disk, m, id, revision, env).result.Success?
    ensures var r := RequestCancel(disk, m, id, revision, env);
            && id in disk && id in r.disk && r.result.value == r.disk[id]
            && r.disk[id].cancelRequested && r.disk[id].phase == disk[id].phase && Cancellable(disk[id].phase)
            && r.disk[id].revision == (if disk[id].cancelRequested then revision else revision + 1)
            && r.disk == disk[id := r.disk[id]]
  {
    hide SaveAndReturn, Refreshed;
    if id in disk {
      SaveCases(disk, Refreshed(disk, m, env.readable).0, disk[id := CancelMarked(disk[id], env.now)], id, env.save);
    }
    assert id in disk ==> disk == disk[id := disk[id]];
  }

  /** Undisturbed, a cancellation succeeds exactly for the current revision of a job that can be cancelled. */
  lemma CancelSucceeds(disk: Jobs, m: Manager, id: JobId, revision: nat, env: Env)
    requires Accepted(disk) && Undisturbed(disk, m, env)
    requires id in disk ==> env.now >= disk[id].updatedAt
    ensures RequestCancel(disk, m, id, revision, env).result.Success?
            <==> id in disk && disk[id].revision == revision && Cancellable(disk[id].phase)
  {
    hide Accepted, Reconciled, Valid, CancelMarked, ClockAdvances, ClaimsUndisturbed;
    if id in disk && Cancellable(disk[id].phase) && !disk[id].cancelRequested {
      MarkedAccepted(disk, id, env.now);
    }
  }

  lemma MarkedAccepted(disk: Jobs, id: JobId, now: int)
    requires Accepted(disk) && id in disk && now >= disk[id].updatedAt
    requires Cancellable(disk[id].phase) && !disk[id].cancelRequested
    ensures Accepted(disk[id := CancelMarked(disk[id], now)])
    ensures ClockAdvances(disk, disk[id := CancelMarked(disk[id], now)])
  {
    hide Collide, Evolves;
    CancelKeepsReceipt(disk[id], now);
    ReplaceKeepsAccepted(disk, id, CancelMarked(disk[id], now));
    hide Valid, ActiveDistinct;
  }

  /** What a receipt on which a cancellation is recorded may still become. */
  predicate Heeds(a: Receipt, b: Receipt) {
    a.cancelRequested ==>
      b.cancelRequested
      && (b.phase == a.phase || b.phase.Cancelled? || b.phase.Failed? || b.phase.RecoveryRequired?)
  }

  lemma CallHeeds(disk: Jobs, m: Manager, call: Call, env: Env, id: JobId)
    requires call.Create? ==> call.id !in disk
    requires id in disk && id in Perform(disk, m, call, env).disk
    ensures Heeds(disk[id], Perform(disk, m, call, env).disk[id])
  {
    if call.Take? || call.Move? || call.Cancel? {
      CallsWrite(disk, m, call, env);
      hide Perform, FactsFit, ResultFits, Valid, Licensed, Refreshed;
    } else {
      PerformStep(disk, m, call, env);
      hide Perform, LicensedCall, ClaimsStep, Evolves;
      if disk[id] != Perform(disk, m, call, env).disk[id] {
        assert id != call.id;
        EndedStays(disk, m, call, env, id);
      }
    }
  }

  /** A call about another job changes nothing of this one. */
  lemma EndedStays(disk: Jobs, m: Manager, call: Call, env: Env, id: JobId)
    requires call.Create? ==> call.id !in disk
    requires id in disk && id in Perform(disk, m, call, env).disk && id != call.id
    ensures Perform(disk, m, call, env).disk[id] == disk[id]
  {
    hide Perform, LicensedCall, ClaimsStep;
    PerformStep(disk, m, call, env);
  }

  /** From one system to a later one. */
  ghost predicate AllHeed(s: System, t: System) {
    forall id :: id in s.seen && id in t.disk ==> id in s.disk && Heeds(s.disk[id], t.disk[id])
  }

  lemma StepHeeds(s: System, e: Event)
    requires Inv(s)
    ensures AllHeed(s, Step(s, e))
  {
    hide Inv, Heeds, Perform, JoinOutcome, History;
    SeenAll(s);
    if e.Invoke? && e.manager in s.managers && Admissible(s, e.call, e.env) {
      var t := Step(s, e);
      StepHistory(s, e);
      forall id | id in s.seen && id in t.disk ensures id in s.disk && Heeds(s.disk[id], t.disk[id]) {
        StillThere(s, t, id);
        CallHeeds(s.disk, s.managers[e.manager], e.call, e.env, id);
      }
    } else {
      forall id | id in s.disk ensures Heeds(s.disk[id], s.disk[id]) { HeedsItself(s.disk[id]); }
      forall id | id in s.seen && id in Step(s, e).disk ensures id in s.disk { }
    }
  }

  lemma HeedsItself(r: Receipt)
    ensures Heeds(r, r)
  {
  }

  lemma SeenAll(s: System)
    requires Inv(s)
    ensures s.disk.Keys <= s.seen
  {
    InvSeen(s);
  }

  lemma StillThere(s: System, t: System, id: JobId)
    requires History(s, t) && id in s.seen && id in t.disk
    ensures id in s.disk
  {
  }

  lemma {:induction false} RunHeeds(s: System, events: seq<Event>)
    requires Inv(s)
    ensures AllHeed(s, Run(s, events))
    decreases |events|
  {
    hide Inv, Step, Heeds;
    if events == [] {
      forall id | id in s.disk ensures Heeds(s.disk[id], s.disk[id]) { HeedsItself(s.disk[id]); }
    } else {
      var next := Step(s, events[0]);
      StepHeeds(s, events[0]);
      StepKeepsInv(s, events[0]);
      StepHistory(s, events[0]);
      RunHeeds(next, events[1..]);
      forall id | id in s.seen && id in Run(s, events).disk
        ensures id in s.disk && Heeds(s.disk[id], Run(s, events).disk[id])
      {
        SeenGrows(s, next);
        HeedsOn(s.disk[id], next.disk[id], Run(s, events).disk[id]);
      }
    }
  }

  lemma SeenGrows(s: System, t: System)
    requires History(s, t)
    ensures s.seen <= t.seen
  {
  }

  lemma HeedsOn(a: Receipt, b: Receipt, c: Receipt)
    requires Heeds(a, b) && Heeds(b, c)
    ensures Heeds(a, c)
  {
  }

  /**
   * Over every run: once a cancellation has succeeded, whatever happens next, the
   * job stays marked, and leaves its phase only by being cancelled, by failing,
   * or by being set aside for recovery.
   */
  lemma CancelledJobOnlyEnds(
    before: seq<Event>, who: nat, id: JobId, revision: nat, env: Env, after: seq<Event>)
    requires var s := Run(FRESH_SYSTEM, before);
             who in s.managers && RequestCancel(s.disk, s.managers[who], id, revision, env).result.Success?
    ensures var s := Run(FRESH_SYSTEM, before);
            var t := Run(After(s, who, Cancel(id, revision), env), after);
            id in t.disk ==>
              && id in s.disk && t.disk[id].cancelRequested
              && (t.disk[id].phase == s.disk[id].phase || t.disk[id].phase.Cancelled?
                  || t.disk[id].phase.Failed? || t.disk[id].phase.RecoveryRequired?)
  {
    hide Run, Inv, RequestCancel, AllHeed;
    var s := Run(FRESH_SYSTEM, before);
    FreshSystemInv();
    RunHistory(FRESH_SYSTEM, before);
    CancelIsRecorded(s.disk, s.managers[who], id, revision, env);
    var mid := After(s, who, Cancel(id, revision), env);
    assert mid == Step(s, Invoke(who, Cancel(id, revision), env));
    StepKeepsInv(s, Invoke(who, Cancel(id, revision), env));
    SeenAll(mid);
    RunHeeds(mid, after);
    HeededAt(mid, Run(mid, after), id);
  }

  lemma HeededAt(s: System, t: System, id: JobId)
    requires AllHeed(s, t) && id in s.seen
    ensures id in t.disk ==> id in s.disk && Heeds(s.disk[id], t.disk[id])
  {
  }

  // ------------------------------------------------------------------- the other answers

  /** A transition that succeeds is on record with the facts it was asked to record. */
  lemma MoveIsRecorded(disk: Jobs, m: Manager, id: JobId, revision: nat, a: Advance, env: Env)
    requires Transition(disk, m, id, revision, a, env).result.Success?
    ensures var r := Transition(disk, m, id, revision, a, env);
            && id in disk && id in r.disk && r.result.value == r.disk[id]
            && var now := r.disk[id];
               && now.phase == a.phase && now.revision == revision + 1 && now.updatedAt == env.now
               && now.resultCode == a.resultCode && now.consumedEntryId == a.consumedEntryId
               && (a.rootMode.Some? ==> now.rootMode == a.rootMode)
               && (a.actualApkBytes.Some? ==> now.actualApkBytes == a.actualApkBytes)
               && (a.healthCheckedAt.Some? ==> now.healthCheckedAt == a.healthCheckedAt)
               && (a.phase.Failed? || a.phase.RecoveryRequired? ==> now.failureStage == Some(disk[id].phase))
               && (now.failureStage.Some? && a.resultCode.Some? ==> now.resultSubcode == a.resultSubcode)
  {
    hide Transition, Refreshed, ResultFits, Valid, Licensed;
    MoveWrites(disk, m, Move(id, revision, a), env);
  }

  /**
   * A claim that succeeds is on record: it has ended the job for good, or it is
   * the very generation under which the manager may act from now on.
   */
  lemma ClaimIsRecorded(disk: Jobs, m: Manager, id: JobId, revision: nat, cleaned: Option<nat>, env: Env)
    requires Claim(disk, m, id, revision, cleaned, env).result.Success?
    ensures var r := Claim(disk, m, id, revision, cleaned, env);
            && id in disk && id in r.disk && r.result.value == r.disk[id]
            && !disk[id].IsTerminal() && !disk[id].phase.HealthyUnclaimed?
            && (if r.disk[id].IsTerminal()
                then r.disk[id].phase.RecoveryRequired? && cleaned == Some(revision)
                     && r.disk[id].failureStage == Some(disk[id].phase)
                     && r.disk[id].resultSubcode
                        == Some(if Exhausted(disk[id]) then "job:attempts_exhausted" else "job:interrupted_mutation")
                else r.manager.Holds(id, r.disk[id].executorGeneration) && r.disk[id].phase == disk[id].phase)
  {
    hide SaveAndReturn, Refreshed, Pruned, Reconciled, ClaimsUndisturbed;
    if id in disk {
      SavedReceipt(disk, Refreshed(disk, m, env.readable).0, id, ClaimedReceipt(disk[id], env.now),
                   env.now, env.save);
    }
  }

  /** A created job is on record as asked for, fresh; a joined one is the one with this very plan, as it is. */
  lemma CreateIsRecorded(
    disk: Jobs, m: Manager, t: Target, a: Artifact, plan: string, credential: string,
    scan: Join, newId: JobId, env: Env)
    requires JoinOutcome(Pruned(disk, env.now), t, a, plan, credential, scan)
    requires CreateOrJoin(disk, m, t, a, plan, credential, scan, newId, env).result.Success?
    ensures var r := CreateOrJoin(disk, m, t, a, plan, credential, scan, newId, env);
            var (receipt, created) := r.result.value;
            && receipt.target == t && receipt.artifact == a
            && receipt.planSha256 == plan && receipt.credentialId == credential
            && (if created
                then newId in r.disk && r.disk[newId] == receipt && receipt.phase.Approved?
                     && receipt.executorGeneration == 0 && !receipt.cancelRequested
                else r.disk == disk && !receipt.IsTerminal() && exists id :: id in disk && disk[id] == receipt)
  {
    hide Refreshed, ClaimsUndisturbed, Accepted, ClockAdvances, Reconciled, Retained, Collide;
  }

  /** A mutation is let through only in its own phase, on the very revision, and never with a cancellation recorded. */
  lemma MutationHeedsCancel(disk: Jobs, m: Manager, id: JobId, revision: nat, p: Phase, env: Env)
    requires Perform(disk, m, Barrier(id, revision, p), env).result.Success?
    ensures id in disk && disk[id].phase == p && disk[id].revision == revision && MutationBarrier(p)
    ensures !disk[id].cancelRequested
  {
    hide Reconciled, ClaimsUndisturbed;
  }

  /** Remote cleanup is allowed of a staged APK only after a cancellation, and otherwise only without one. */
  lemma CleanupHeedsCancel(disk: Jobs, m: Manager, id: JobId, revision: nat, p: Phase, env: Env)
    requires Perform(disk, m, CleanupBarrier(id, revision, p), env).result.Success?
    ensures id in disk && disk[id].phase == p
            && (if p.Staging? then disk[id].cancelRequested
                else (p.Installing? || p.Launching?) && !disk[id].cancelRequested)
  {
    hide Reconciled, ClaimsUndisturbed;
  }

  /** A refusal says why: the job is not there, is not as it was, or cannot do this now. */
  lemma RefusalsSayWhy(disk: Jobs, m: Manager, call: Call, env: Env)
    requires call.Read? || call.Take? || call.Move? || call.Cancel?
    ensures var r := Perform(disk, m, call, env).result;
            && (r == Failure(NotFound) ==> call.id !in disk)
            && (r == Failure(RevisionError) ==>
                  && call.id in disk && !call.Read?
                  && (disk[call.id].revision != call.revision
                      || (call.Take? && call.cleaned.Some? && call.cleaned.value != call.revision)))
            && (r == Failure(TransitionError) ==>
                  && call.id in disk && !call.Read? && disk[call.id].revision == call.revision
                  && (call.Cancel? ==> !Cancellable(disk[call.id].phase))
                  && (call.Take? ==> disk[call.id].IsTerminal() || disk[call.id].phase.HealthyUnclaimed?))
            && (r == Failure(CleanupRequired) ==> call.Take?)
            && r != Failure(Conflict) && r != Failure(Capacity)
  {
    hide Accepted, Reconciled, ClaimsUndisturbed, ClockAdvances, Pruned, Advances;
  }

  /** Undisturbed, a request to create a job is answered by what the scan found, and by how many run. */
  lemma CreateIsAnswered(
    disk: Jobs, m: Manager, t: Target, a: Artifact, plan: string, credential: string,
    scan: Join, newId: JobId, env: Env)
    requires Accepted(disk) && Undisturbed(disk, m, env) && Compatible(t, a)
    requires newId !in Pruned(disk, env.now) && (newId in disk ==> env.now >= disk[newId].updatedAt)
    requires JoinOutcome(Pruned(disk, env.now), t, a, plan, credential, scan)
    ensures var r := CreateOrJoin(disk, m, t, a, plan, credential, scan, newId, env).result;
            match scan
            case Joins(_) => r.Success? && !r.value.1
            case Conflicts => r == Failure(Conflict)
            case Free =>
              if |ActiveIds(disk)| >= MAX_ACTIVE_JOBS then r == Failure(Capacity)
              else r.Success? && r.value.1
  {
    CreateNeverSelfRejected(disk, m, t, a, plan, credential, scan, newId, env);
    PruneBoundsTerminals(disk, env.now);
    hide Accepted, Reconciled, ClaimsUndisturbed, ClockAdvances, Pruned, Collide;
  }
}
