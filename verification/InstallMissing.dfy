/**
 * The one way in which a store operation fails after it has succeeded: the job
 * it has just ended is pruned with its own save, and is not there to answer.
 */
module InstallMissing {
  import opened Wrappers
  import opened InstallReceipt
  import opened InstallJobs
  import opened InstallJobsLaws
  import opened InstallRuns

  /** The ended receipts that rank before one of this id that ends now. */
  function RankedBefore(disk: Jobs, id: JobId, now: int): set<JobId> {
    set k | k in TerminalIds(disk) && k != id
            && (disk[k].updatedAt > now || (disk[k].updatedAt == now && k > id))
  }

  /** All places for ended receipts are taken by others. */
  predicate Crowded(disk: Jobs, id: JobId, now: int) {
    |RankedBefore(disk, id, now)| >= MAX_TERMINAL_JOBS
  }

  /** This claim ends the job instead of being granted. */
  predicate ClaimEnds(disk: Jobs, m: Manager, id: JobId, revision: nat, cleaned: Option<nat>, env: Env) {
    && env.readable && ClaimsUndisturbed(disk, m)
    && id in disk && disk[id].revision == revision && cleaned == Some(revision)
    && !disk[id].IsTerminal() && !disk[id].phase.HealthyUnclaimed?
    && !m.Holds(id, disk[id].executorGeneration)
    && (Exhausted(disk[id]) || RestartAmbiguous(disk[id].phase))
  }

  /** This transition ends the job. */
  predicate TransitionEnds(disk: Jobs, m: Manager, id: JobId, revision: nat, a: Advance, env: Env) {
    && env.readable && ClaimsUndisturbed(disk, m)
    && id in disk && disk[id].revision == revision
    && Advances(Refreshed(disk, m, true).0, id, disk[id], a, env.now) && Terminal(a.phase)
  }

  lemma RanksAgree(disk: Jobs, id: JobId, r: Receipt)
    requires id in disk && !disk[id].IsTerminal() && r.IsTerminal()
    ensures NewerTerminals(disk[id := r], id) == RankedBefore(disk, id, r.updatedAt)
  {
  }

  /** A receipt that does not end stays; one that ends goes exactly in a crowd. */
  lemma PrunedAway(disk: Jobs, id: JobId, r: Receipt, now: int)
    requires id in disk && !disk[id].IsTerminal() && r.updatedAt == now
    ensures id !in Pruned(disk[id := r], now) <==> r.IsTerminal() && Crowded(disk, id, now)
  {
    if r.IsTerminal() { RanksAgree(disk, id, r); }
  }

  /** Without the receipt that went, the map is only what the parser took before. */
  lemma CrowdedAccepted(disk: Jobs, id: JobId, r: Receipt, now: int)
    requires Accepted(disk) && id in disk && !disk[id].IsTerminal()
    requires r.IsTerminal() && r.updatedAt == now && Crowded(disk, id, now)
    ensures Accepted(Pruned(disk[id := r], now)) && ClockAdvances(disk, Pruned(disk[id := r], now))
  {
    hide Valid, Collide, Crowded, Retained;
    var next := Pruned(disk[id := r], now);
    PrunedAway(disk, id, r, now);
    assert forall k :: k in next ==> k in disk && next[k] == disk[k];
    PruneBoundsTerminals(disk[id := r], now);
    SubsetSize(ActiveIds(next), ActiveIds(disk));
  }

  lemma SavedAway(disk: Jobs, m: Manager, id: JobId, r: Receipt, env: Env)
    requires Accepted(disk) && id in disk && !disk[id].IsTerminal() && r.updatedAt == env.now
    ensures var reply := SaveAndReturn(disk, m, Pruned(disk[id := r], env.now), id, env.save);
            && (reply.result == Failure(MissingAfterSave)
                <==> r.IsTerminal() && Crowded(disk, id, env.now) && env.save.Committed?)
            && (reply.result == Failure(MissingAfterSave) ==> id !in reply.disk)
  {
    PrunedAway(disk, id, r, env.now);
    if r.IsTerminal() && Crowded(disk, id, env.now) { CrowdedAccepted(disk, id, r, env.now); }
    hide Accepted, Pruned, Crowded, Reconciled, ClockAdvances;
  }

  /**
   * A claim fails after its commit exactly when it ends the job, the write
   * lands, and 32 ended receipts rank before it. The job is then gone.
   */
  lemma ClaimGoesMissing(disk: Jobs, m: Manager, id: JobId, revision: nat, cleaned: Option<nat>, env: Env)
    requires Accepted(disk)
    ensures var reply := Claim(disk, m, id, revision, cleaned, env);
            && (reply.result == Failure(MissingAfterSave)
                <==> && ClaimEnds(disk, m, id, revision, cleaned, env)
                     && Crowded(disk, id, env.now) && env.save.Committed?)
            && (reply.result == Failure(MissingAfterSave) ==> id !in reply.disk)
  {
    hide Accepted, Pruned, Crowded, SaveAndReturn, ClaimsUndisturbed;
    if id in disk && !disk[id].IsTerminal() {
      ClaimedEnds(disk[id], env.now);
      hide ClaimedReceipt;
      SavedAway(disk, Refreshed(disk, m, env.readable).0, id, ClaimedReceipt(disk[id], env.now), env);
    }
  }

  lemma ClaimedEnds(r: Receipt, now: int)
    requires !r.IsTerminal()
    ensures ClaimedReceipt(r, now).updatedAt == now
    ensures ClaimedReceipt(r, now).IsTerminal() <==> Exhausted(r) || RestartAmbiguous(r.phase)
  {
  }

  /** A transition fails after its commit exactly when it ends the job in a crowd. */
  lemma TransitionGoesMissing(disk: Jobs, m: Manager, id: JobId, revision: nat, a: Advance, env: Env)
    requires Accepted(disk)
    ensures var reply := Transition(disk, m, id, revision, a, env);
            && (reply.result == Failure(MissingAfterSave)
                <==> && TransitionEnds(disk, m, id, revision, a, env)
                     && Crowded(disk, id, env.now) && env.save.Committed?)
            && (reply.result == Failure(MissingAfterSave) ==> id !in reply.disk)
  {
    hide Accepted, Pruned, Crowded, SaveAndReturn, ClaimsUndisturbed, Valid, FactsFit, ResultFits, Licensed;
    var m1 := Refreshed(disk, m, env.readable).0;
    if id in disk && Advances(m1, id, disk[id], a, env.now) {
      NextPhaseAdvances(disk[id].phase, a.phase);
      SavedAway(disk, m1, id, AdvancedReceipt(disk[id], a, env.now), env);
    }
  }

  /** No other call ever ends that way: with claims and transitions these are all cases. */
  lemma OnlyEndingsGoMissing(disk: Jobs, m: Manager, call: Call, env: Env)
    requires !call.Take? && !call.Move?
    ensures Perform(disk, m, call, env).result != Failure(MissingAfterSave)
  {
    hide Accepted, Pruned, ClaimsUndisturbed, JoinOutcome, Reconciled, ClockAdvances;
  }

  // ------------------------------------------------------------------------- a full house

  const PANEL := Target("panel", "10.0.0.2", "serial", "arm64", 30)
  const APK := Artifact("sha", 1, 26, ["arm64"])

  /** Interrupted while staging, at the second in which the others ended. */
  const INTERRUPTED :=
    Receipt(7, 1, 0, 0, Staging, false, 1, PANEL, APK, "plan", "credential",
            Some(Rootless), Some(1), None, None, None, None, None)

  const ENDED :=
    Receipt(2, 0, 0, 0, Cancelled, true, 0, PANEL, APK, "plan", "credential",
            None, None, None, Some(CancelledByUser), None, None, None)

  function Ids(n: nat): set<JobId> { if n == 0 then {} else Ids(n - 1) + {n} }

  lemma {:induction false} IdsSize(n: nat)
    ensures |Ids(n)| == n
    ensures forall k: JobId :: k in Ids(n) <==> 1 <= k <= n
  {
    if n > 0 { IdsSize(n - 1); }
  }

  function FullHouse(): Jobs {
    map k: JobId | k in Ids(32) + {0} :: if k == 0 then INTERRUPTED else ENDED
  }

  lemma FullHouseAccepted()
    ensures Accepted(FullHouse()) && Crowded(FullHouse(), 0, 0)
  {
    hide Ids;
    var jobs := FullHouse();
    IdsSize(32);
    assert Valid(INTERRUPTED) && Valid(ENDED);
    hide Valid;
    assert TerminalIds(jobs) == Ids(32) && ActiveIds(jobs) == {0};
    assert RankedBefore(jobs, 0, 0) == Ids(32);
  }

  /** An accepted document on which a confirmed cleanup is answered by the failed lookup. */
  lemma InterruptedJobGoesMissing()
    ensures var r := Claim(FullHouse(), FORGETFUL, 0, 7, Some(7), Env(true, 0, Committed));
            Accepted(FullHouse()) && r.result == Failure(MissingAfterSave) && 0 !in r.disk
  {
    FullHouseAccepted();
    hide Ids;
    assert FullHouse()[0] == INTERRUPTED;
    hide Accepted, Crowded, Claim, FullHouse;
    ClaimGoesMissing(FullHouse(), FORGETFUL, 0, 7, Some(7), Env(true, 0, Committed));
  }
}
