/**
 * What one store operation keeps: the bounds of the document, the history of
 * every receipt, and which receipts may disappear.
 */
module InstallJobsLaws {
  import opened Wrappers
  import opened InstallReceipt
  import opened InstallJobs

  // ------------------------------------------------------------------ pruning

  lemma {:induction false} OldestOf(jobs: Jobs, ids: set<JobId>) returns (oldest: JobId)
    requires ids != {} && ids <= jobs.Keys
    ensures oldest in ids
    ensures forall k :: k in ids && k != oldest ==> Newer(jobs, k, oldest)
    decreases |ids|
  {
    var x :| x in ids;
    var rest := ids - {x};
    if rest == {} {
      assert ids == {x};
      oldest := x;
    } else {
      var o := OldestOf(jobs, rest);
      oldest := if Newer(jobs, x, o) then o else x;
      forall k | k in ids && k != oldest
        ensures Newer(jobs, k, oldest)
      {
        assert k == x || k in rest;
      }
    }
  }

  /**
   * However many jobs have ended, at most 32 terminal receipts outlive pruning,
   * none of them older than a week, and none younger than that is given up for
   * one that ended before it.
   */
  lemma PruneBoundsTerminals(jobs: Jobs, now: int)
    ensures |TerminalIds(Pruned(jobs, now))| <= MAX_TERMINAL_JOBS
    ensures ActiveIds(Pruned(jobs, now)) == ActiveIds(jobs)
    ensures forall id :: id in TerminalIds(Pruned(jobs, now)) ==> jobs[id].updatedAt >= now - 7 * 24 * 3600
    ensures forall k, id :: (k in TerminalIds(jobs) && id in TerminalIds(Pruned(jobs, now))
                             && jobs[k].updatedAt > jobs[id].updatedAt) ==> k in Pruned(jobs, now)
  {
    forall k, id | k in TerminalIds(jobs) && id in TerminalIds(Pruned(jobs, now))
      && jobs[k].updatedAt > jobs[id].updatedAt
      ensures k in Pruned(jobs, now)
    {
      SubsetSize(NewerTerminals(jobs, k), NewerTerminals(jobs, id));
    }
    var kept := TerminalIds(Pruned(jobs, now));
    if kept != {} {
      var oldest := OldestOf(jobs, kept);
      SubsetSize(kept - {oldest}, NewerTerminals(jobs, oldest));
    }
  }

  lemma {:induction false} SubsetSize<T>(a: set<T>, b: set<T>)
    requires a <= b
    ensures |a| <= |b|
    decreases |b|
  {
    if b != {} {
      var x :| x in b;
      SubsetSize(a - {x}, b - {x});
    }
  }

  /**
   * The receipt an operation has just ended survives its own pruning exactly
   * when fewer than 32 ended receipts are dated after it. Otherwise the
   * manager has saved a map without the receipt it then looks up.
   */
  lemma JustEndedSurvives(jobs: Jobs, id: JobId, now: int)
    requires id in jobs && jobs[id].IsTerminal() && jobs[id].updatedAt == now
    ensures id in Pruned(jobs, now) <==> |NewerTerminals(jobs, id)| < MAX_TERMINAL_JOBS
    ensures (forall k :: k in jobs && jobs[k].IsTerminal() && k != id ==> jobs[k].updatedAt < now)
            ==> id in Pruned(jobs, now)
  {
    if forall k :: k in jobs && jobs[k].IsTerminal() && k != id ==> jobs[k].updatedAt < now {
      assert NewerTerminals(jobs, id) == {};
    }
  }

  // ----------------------------------------------------- receipts stay valid

  /** A claim turns a valid receipt into a valid later state of the same job. */
  lemma ClaimKeepsReceipt(r: Receipt, now: int)
    requires Valid(r) && !r.IsTerminal() && !r.phase.HealthyUnclaimed? && now >= r.updatedAt
    ensures Valid(ClaimedReceipt(r, now)) && Evolves(r, ClaimedReceipt(r, now))
    ensures ClaimedReceipt(r, now).IsTerminal() <==> Exhausted(r) || RestartAmbiguous(r.phase)
    ensures !ClaimedReceipt(r, now).IsTerminal() ==>
              ClaimedReceipt(r, now).executorGeneration == r.executorGeneration + 1
              && ClaimedReceipt(r, now).phase == r.phase
  {
    assert ValidFailure(ClaimedReceipt(r, now));
    assert ValidResult(ClaimedReceipt(r, now));
  }

  lemma CancelKeepsReceipt(r: Receipt, now: int)
    requires Valid(r) && Cancellable(r.phase) && !r.cancelRequested && now >= r.updatedAt
    ensures Valid(CancelMarked(r, now)) && Evolves(r, CancelMarked(r, now))
  {
    assert ValidFailure(CancelMarked(r, now));
    assert ValidResult(CancelMarked(r, now));
  }

  lemma AdvanceKeepsReceipt(m: Manager, id: JobId, r: Receipt, a: Advance, now: int)
    requires Advances(m, id, r, a, now)
    ensures Evolves(r, AdvancedReceipt(r, a, now))
    ensures AdvancedReceipt(r, a, now).executorGeneration == r.executorGeneration
  {
    NextPhaseAdvances(r.phase, a.phase);
  }

  // ------------------------------------------------------ documents stay bounded

  lemma ReplaceKeepsAccepted(disk: Jobs, id: JobId, r: Receipt)
    requires Accepted(disk) && id in disk && !disk[id].IsTerminal()
    requires Valid(r) && r.target == disk[id].target
    ensures ActiveDistinct(disk[id := r])
    ensures |ActiveIds(disk[id := r])| <= MAX_ACTIVE_JOBS
    ensures !r.IsTerminal() ==> TerminalIds(disk[id := r]) == TerminalIds(disk)
  {
    var next := disk[id := r];
    SubsetSize(ActiveIds(next), ActiveIds(disk));
    assert !r.IsTerminal() ==> TerminalIds(next) == TerminalIds(disk);
  }

  /** Whatever a claim or transition makes of a receipt, the pruned map is a document. */
  lemma PrunedReplaceAccepted(disk: Jobs, id: JobId, r: Receipt, now: int)
    requires Accepted(disk) && id in disk && !disk[id].IsTerminal()
    requires Valid(r) && r.target == disk[id].target
    ensures Accepted(Pruned(disk[id := r], now))
  {
    ReplaceKeepsAccepted(disk, id, r);
    PruneBoundsTerminals(disk[id := r], now);
    assert ActiveIds(Pruned(disk[id := r], now)) == ActiveIds(disk[id := r]);
  }

  lemma AddDistinct(jobs: Jobs, newId: JobId, r: Receipt)
    requires ActiveDistinct(jobs) && newId !in jobs
    requires forall id :: id in ActiveIds(jobs) ==> !Collide(jobs[id].target, r.target)
    ensures ActiveDistinct(jobs[newId := r])
  {
    assert forall a, b :: Collide(a, b) ==> Collide(b, a);
    assert forall i :: i in ActiveIds(jobs[newId := r]) ==> i == newId || i in ActiveIds(jobs);
  }

  lemma AddAccepted(jobs: Jobs, newId: JobId, r: Receipt)
    requires Accepted(jobs) && newId !in jobs && Valid(r) && !r.IsTerminal()
    requires forall id :: id in ActiveIds(jobs) ==> !Collide(jobs[id].target, r.target)
    requires |ActiveIds(jobs)| < MAX_ACTIVE_JOBS
    ensures Accepted(jobs[newId := r])
  {
    hide Valid, Collide;
    var next := jobs[newId := r];
    assert ActiveIds(next) == ActiveIds(jobs) + {newId};
    assert WithinBounds(next) by {
      hide ActiveDistinct, AllValid;
      assert TerminalIds(next) == TerminalIds(jobs);
    }
    assert AllValid(next);
    assert ActiveDistinct(next) by {
      AddDistinct(jobs, newId, r);
    }
  }

  lemma PrunedAccepted(jobs: Jobs, now: int)
    requires Accepted(jobs)
    ensures Accepted(Pruned(jobs, now))
  {
    hide Valid;
    PruneBoundsTerminals(jobs, now);
  }

  lemma CreateAccepted(
    disk: Jobs, t: Target, a: Artifact, plan: string, credential: string, newId: JobId, now: int)
    requires Accepted(disk) && Compatible(t, a)
    requires newId !in Pruned(disk, now)
    requires forall id :: id in ActiveIds(disk) ==> !Collide(disk[id].target, t)
    requires |ActiveIds(disk)| < MAX_ACTIVE_JOBS
    ensures Accepted(Pruned(disk, now)[newId := NewReceipt(t, a, plan, credential, now)])
  {
    PruneBoundsTerminals(disk, now);
    PrunedAccepted(disk, now);
    AddAccepted(Pruned(disk, now), newId, NewReceipt(t, a, plan, credential, now));
  }

  // ----------------------------------------------- the store never rejects itself

  /** Nothing outside the store stands in the way of this operation. */
  predicate Undisturbed(disk: Jobs, m: Manager, env: Env) {
    env.readable && ClaimsUndisturbed(disk, m) && env.save.Committed?
  }

  lemma PrunedClockAdvances(disk: Jobs, id: JobId, r: Receipt, now: int)
    requires id in disk && disk[id].updatedAt <= r.updatedAt
    ensures ClockAdvances(disk, Pruned(disk[id := r], now))
  {
  }

  lemma SaveLands(disk: Jobs, m: Manager, jobs: Jobs, id: JobId)
    requires Accepted(jobs) && ClockAdvances(disk, jobs)
    ensures SaveAndReturn(disk, m, jobs, id, Committed).result != Failure(StoreError)
    ensures SaveAndReturn(disk, m, jobs, id, Committed).disk == jobs
  {
  }

  /** With a readable store, a landing write and a clock that advances, claims never fail to save. */
  lemma ClaimNeverSelfRejected(
    disk: Jobs, m: Manager, id: JobId, revision: nat, cleaned: Option<nat>, env: Env)
    requires Accepted(disk) && Undisturbed(disk, m, env)
    requires id in disk ==> env.now >= disk[id].updatedAt
    ensures Claim(disk, m, id, revision, cleaned, env).result != Failure(StoreError)
    ensures Accepted(Claim(disk, m, id, revision, cleaned, env).disk)
  {
    hide Valid, SaveAndReturn, Pruned, Reconciled, ClaimsUndisturbed, ActiveDistinct, WithinBounds;
    if id in disk && !disk[id].IsTerminal() && !disk[id].phase.HealthyUnclaimed? {
      var updated := ClaimedReceipt(disk[id], env.now);
      ClaimKeepsReceipt(disk[id], env.now);
      PrunedReplaceAccepted(disk, id, updated, env.now);
      var m1 := Refreshed(disk, m, true).0;
      assert ClockAdvances(disk, Pruned(disk[id := updated], env.now)) by {
        PrunedClockAdvances(disk, id, updated, env.now);
      }
      SaveLands(disk, m1, Pruned(disk[id := updated], env.now), id);
    }
  }

  lemma TransitionNeverSelfRejected(
    disk: Jobs, m: Manager, id: JobId, revision: nat, a: Advance, env: Env)
    requires Accepted(disk) && Undisturbed(disk, m, env)
    requires id in disk ==> env.now >= disk[id].updatedAt
    ensures Transition(disk, m, id, revision, a, env).result != Failure(StoreError)
    ensures Accepted(Transition(disk, m, id, revision, a, env).disk)
  {
    hide Accepted, Valid, SaveAndReturn, Pruned, Reconciled, ClaimsUndisturbed, ClockAdvances, FactsFit, ResultFits;
    var m1 := Refreshed(disk, m, env.readable).0;
    if id in disk && Advances(m1, id, disk[id], a, env.now) {
      var updated := AdvancedReceipt(disk[id], a, env.now);
      NextPhaseAdvances(disk[id].phase, a.phase);
      PrunedReplaceAccepted(disk, id, updated, env.now);
      PrunedClockAdvances(disk, id, updated, env.now);
      SaveLands(disk, m1, Pruned(disk[id := updated], env.now), id);
    }
  }

  lemma CancelNeverSelfRejected(disk: Jobs, m: Manager, id: JobId, revision: nat, env: Env)
    requires Accepted(disk) && Undisturbed(disk, m, env)
    requires id in disk ==> env.now >= disk[id].updatedAt
    ensures RequestCancel(disk, m, id, revision, env).result != Failure(StoreError)
    ensures Accepted(RequestCancel(disk, m, id, revision, env).disk)
  {
    if id in disk && Cancellable(disk[id].phase) && !disk[id].cancelRequested {
      CancelKeepsReceipt(disk[id], env.now);
      ReplaceKeepsAccepted(disk, id, CancelMarked(disk[id], env.now));
    }
  }

  lemma CreateNeverSelfRejected(
    disk: Jobs, m: Manager, t: Target, a: Artifact, plan: string, credential: string,
    scan: Join, newId: JobId, env: Env)
    requires Accepted(disk) && Undisturbed(disk, m, env)
    requires newId !in Pruned(disk, env.now)
    requires newId in disk ==> env.now >= disk[newId].updatedAt
    requires JoinOutcome(Pruned(disk, env.now), t, a, plan, credential, scan)
    ensures var r := CreateOrJoin(disk, m, t, a, plan, credential, scan, newId, env);
            r.result != Failure(StoreError) && Accepted(r.disk)
  {
    hide Accepted, Valid, SaveAndReturn, Pruned, Reconciled, ClaimsUndisturbed, ClockAdvances, Collide;
    PruneBoundsTerminals(disk, env.now);
    if scan.Free? && Compatible(t, a) && |ActiveIds(disk)| < MAX_ACTIVE_JOBS {
      var jobs := Pruned(disk, env.now);
      var r := NewReceipt(t, a, plan, credential, env.now);
      PrunedActive(disk, env.now);
      CreateAccepted(disk, t, a, plan, credential, newId, env.now);
      AddedClockAdvances(disk, newId, r, env.now);
      SaveLands(disk, Refreshed(disk, m, true).0, jobs[newId := r], newId);
    }
  }

  lemma PrunedActive(disk: Jobs, now: int)
    ensures forall id :: id in ActiveIds(disk) ==> id in Pruned(disk, now) && Pruned(disk, now)[id] == disk[id]
  {
  }

  lemma AddedClockAdvances(disk: Jobs, newId: JobId, r: Receipt, now: int)
    requires newId in disk ==> disk[newId].updatedAt <= r.updatedAt
    ensures ClockAdvances(disk, Pruned(disk, now)[newId := r])
  {
    hide Retained;
  }
}
