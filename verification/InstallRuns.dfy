/**
 * Whole runs of the receipt store: any number of managers calling it in any
 * order, starting, forgetting everything in a crash, and failing to save.
 */
module InstallRuns {
  import opened Wrappers
  import opened InstallReceipt
  import opened InstallJobs
  import opened InstallJobsLaws

  datatype Call =
    | Read(id: JobId)
    | Create(target: Target, artifact: Artifact, plan: string, credential: string, scan: Join, id: JobId)
    | Cancel(id: JobId, revision: nat)
    | Take(id: JobId, revision: nat, cleaned: Option<nat>)
    | Move(id: JobId, revision: nat, advance: Advance)
    | Barrier(id: JobId, revision: nat, phase: Phase)
    | CleanupBarrier(id: JobId, revision: nat, phase: Phase)

  function Perform(disk: Jobs, m: Manager, call: Call, env: Env): Reply<Receipt> {
    match call
    case Read(id) => Get(disk, m, id, env)
    case Create(t, a, plan, credential, scan, id) =>
      var r := CreateOrJoin(disk, m, t, a, plan, credential, scan, id, env);
      Reply(r.disk, r.manager,
            match r.result case Success(p) => Success(p.0) case Failure(e) => Failure(e))
    case Cancel(id, revision) => RequestCancel(disk, m, id, revision, env)
    case Take(id, revision, cleaned) => Claim(disk, m, id, revision, cleaned, env)
    case Move(id, revision, a) => Transition(disk, m, id, revision, a, env)
    case Barrier(id, revision, p) =>
      if MutationBarrier(p) then VerifyBarrier(disk, m, id, revision, p, false, env)
      else Reply(disk, m, Failure(TransitionError))
    case CleanupBarrier(id, revision, p) =>
      match CleanupBarrierCancel(p)
      case Some(cancel) => VerifyBarrier(disk, m, id, revision, p, cancel, env)
      case None => Reply(disk, m, Failure(TransitionError))
  }

  // ---------------------------------------------------------- one call's effect

  /** What one call may do to the durable map. */
  ghost predicate DiskStep(disk: Jobs, disk': Jobs, call: Call) {
    && (forall id :: id in disk && id in disk' ==> Evolves(disk[id], disk'[id]))
    && (forall id :: id in disk && id != call.id && !disk[id].IsTerminal() ==>
          id in disk' && disk'[id] == disk[id])
    && (forall id :: id in disk' && id !in disk ==>
          call.Create? && id == call.id && disk'[id].phase.Approved?
          && disk'[id].executorGeneration == 0)
    && (call.id in disk && !disk[call.id].IsTerminal() && !call.Take? && !call.Move? ==>
          call.id in disk')
    && (call.id in disk && call.id in disk' ==> OwnStep(disk[call.id], disk'[call.id], call))
  }

  /** How the named receipt itself may change. */
  ghost predicate OwnStep(r: Receipt, r': Receipt, call: Call) {
    || r == r'
    || (call.Cancel? && r'.phase == r.phase && r'.executorGeneration == r.executorGeneration)
    || (call.Take? && (r'.IsTerminal()
                       || (r'.phase == r.phase
                           && r'.executorGeneration == r.executorGeneration + 1)))
    || (call.Move? && r'.phase == call.advance.phase
        && r'.executorGeneration == r.executorGeneration)
  }

  /** A manager's claims only shrink, except for the claim a call has just made durable. */
  ghost predicate ClaimsStep(m: Manager, m': Manager, disk: Jobs, disk': Jobs, call: Call) {
    forall id :: id in m'.claimed ==>
      || (id in m.claimed && m.claimed[id] == m'.claimed[id])
      || (&& call.Take? && id == call.id && id in disk && id in disk'
          && disk[id].executorGeneration < disk'[id].executorGeneration
          && m'.claimed[id] == disk'[id].executorGeneration)
  }

  /** The licence a call needs in the state it runs in. */
  ghost predicate LicensedCall(disk: Jobs, m: Manager, call: Call) {
    && call.id in disk
    && match call
       case Move(id, revision, a) =>
         disk[id].revision == revision && Licensed(m, id, disk[id], a.phase)
       case Barrier(id, revision, p) =>
         disk[id].revision == revision && disk[id].phase == p && !disk[id].cancelRequested
         && m.Holds(id, disk[id].executorGeneration)
       case CleanupBarrier(id, revision, p) =>
         disk[id].revision == revision && disk[id].phase == p
         && m.Holds(id, disk[id].executorGeneration)
       case _ => true
  }

  lemma EvolvesReflexive(r: Receipt)
    ensures Evolves(r, r)
  {
  }

  /** Replacing one live receipt by a later state and pruning is a step. */
  lemma PrunedStep(disk: Jobs, id: JobId, r: Receipt, now: int, call: Call)
    requires call.id == id && id in disk && !disk[id].IsTerminal() && Evolves(disk[id], r)
    requires OwnStep(disk[id], r, call) && (call.Take? || call.Move?)
    ensures DiskStep(disk, Pruned(disk[id := r], now), call)
    ensures id in Pruned(disk[id := r], now) ==> Pruned(disk[id := r], now)[id] == r
  {
    var disk' := Pruned(disk[id := r], now);
    hide Evolves;
    forall k | k in disk && k in disk'
      ensures Evolves(disk[k], disk'[k])
    {
      EvolvesReflexive(disk[k]);
    }
  }

  lemma StandingStep(disk: Jobs, call: Call)
    ensures DiskStep(disk, disk, call)
  {
  }

  ghost predicate SubClaims(m: Manager, m': Manager) {
    forall id :: id in m'.claimed ==> id in m.claimed && m.claimed[id] == m'.claimed[id]
  }

  lemma RefreshedCases(disk: Jobs, m: Manager, readable: bool)
    ensures SubClaims(m, Refreshed(disk, m, readable).0)
  {
  }

  lemma SaveCases(disk: Jobs, m: Manager, jobs: Jobs, id: JobId, event: SaveEvent)
    ensures var r := SaveAndReturn(disk, m, jobs, id, event);
            && (r.disk == disk || r.disk == jobs)
            && SubClaims(m, r.manager)
            && (r.result.Success? ==> r.disk == jobs && id in jobs && r.result.value == jobs[id])
  {
    hide Accepted, ClockAdvances;
  }

  lemma TakeEffect(disk: Jobs, m: Manager, call: Call, env: Env)
    requires call.Take?
    ensures var r := Claim(disk, m, call.id, call.revision, call.cleaned, env);
            && DiskStep(disk, r.disk, call) && ClaimsStep(m, r.manager, disk, r.disk, call)
            && (r.result.Success? ==> call.id in disk && call.id in r.disk
                                      && r.result.value == r.disk[call.id])
  {
    var id := call.id;
    var m1 := Refreshed(disk, m, env.readable).0;
    RefreshedCases(disk, m, env.readable);
    StandingStep(disk, call);
    hide DiskStep, Refreshed, SaveAndReturn, Pruned, ClaimedReceipt, OwnStep;
    if id in disk && !disk[id].IsTerminal() {
      var updated := ClaimedReceipt(disk[id], env.now);
      ClaimOwnStep(disk[id], env.now, call);
      PrunedStep(disk, id, updated, env.now, call);
      SaveCases(disk, m1, Pruned(disk[id := updated], env.now), id, env.save);
    }
  }

  lemma ClaimOwnStep(r: Receipt, now: int, call: Call)
    requires call.Take? && !r.IsTerminal()
    ensures Evolves(r, ClaimedReceipt(r, now)) && OwnStep(r, ClaimedReceipt(r, now), call)
    ensures !ClaimedReceipt(r, now).IsTerminal() ==>
              ClaimedReceipt(r, now).executorGeneration == r.executorGeneration + 1
  {
  }

  lemma MoveEffect(disk: Jobs, m: Manager, call: Call, env: Env)
    requires call.Move?
    ensures var r := Transition(disk, m, call.id, call.revision, call.advance, env);
            && DiskStep(disk, r.disk, call) && ClaimsStep(m, r.manager, disk, r.disk, call)
            && (r.result.Success? || r.disk != disk ==> LicensedCall(disk, m, call))
            && (r.result.Success? ==> call.id in r.disk && r.result.value == r.disk[call.id]
                                      && r.result.value.phase == call.advance.phase
                                      && NextPhase(disk[call.id].phase, call.advance.phase))
  {
    var id, a := call.id, call.advance;
    var m1 := Refreshed(disk, m, env.readable).0;
    RefreshedCases(disk, m, env.readable);
    StandingStep(disk, call);
    hide DiskStep, Refreshed, SaveAndReturn, Pruned, FactsFit, ResultFits, Valid, OwnStep;
    if id in disk && Advances(m1, id, disk[id], a, env.now) {
      var updated := AdvancedReceipt(disk[id], a, env.now);
      MoveOwnStep(m1, id, disk[id], a, env.now, call);
      PrunedStep(disk, id, updated, env.now, call);
      SaveCases(disk, m1, Pruned(disk[id := updated], env.now), id, env.save);
    }
  }

  lemma MoveOwnStep(m: Manager, id: JobId, r: Receipt, a: Advance, now: int, call: Call)
    requires Advances(m, id, r, a, now) && call.Move? && call.advance == a
    ensures !r.IsTerminal()
    ensures Evolves(r, AdvancedReceipt(r, a, now)) && OwnStep(r, AdvancedReceipt(r, a, now), call)
  {
    hide Valid, FactsFit, ResultFits;
    NextPhaseAdvances(r.phase, a.phase);
  }

  lemma CancelEffect(disk: Jobs, m: Manager, call: Call, env: Env)
    requires call.Cancel?
    ensures var r := RequestCancel(disk, m, call.id, call.revision, env);
            && DiskStep(disk, r.disk, call) && ClaimsStep(m, r.manager, disk, r.disk, call)
            && (r.result.Success? ==> call.id in disk)
  {
    var id := call.id;
    var m1 := Refreshed(disk, m, env.readable).0;
    RefreshedCases(disk, m, env.readable);
    StandingStep(disk, call);
    hide DiskStep, Refreshed, SaveAndReturn, CancelMarked;
    if id in disk && Cancellable(disk[id].phase) && !disk[id].cancelRequested {
      CancelDiskStep(disk, call, env.now);
      SaveCases(disk, m1, disk[id := CancelMarked(disk[id], env.now)], id, env.save);
    }
  }

  lemma CancelDiskStep(disk: Jobs, call: Call, now: int)
    requires call.Cancel? && call.id in disk && Cancellable(disk[call.id].phase) && !disk[call.id].cancelRequested
    ensures DiskStep(disk, disk[call.id := CancelMarked(disk[call.id], now)], call)
  {
  }

  lemma BarrierEffect(disk: Jobs, m: Manager, call: Call, env: Env)
    requires call.Barrier? || call.CleanupBarrier? || call.Read?
    ensures var r := Perform(disk, m, call, env);
            r.disk == disk && ClaimsStep(m, r.manager, disk, r.disk, call)
            && (r.result.Success? ==>
                  LicensedCall(disk, m, call) && r.result.value == disk[call.id])
  {
    hide ClaimsUndisturbed, Refreshed, VerifyBarrier, ClaimsStep;
    RefreshedCases(disk, m, env.readable);
    RefreshedAnswers(disk, m, env.readable);
    match call {
      case Read(id) => ReadEffect(disk, m, call, env);
      case Barrier(id, revision, p) => GuardEffect(disk, m, call, env, p, false);
      case CleanupBarrier(id, revision, p) =>
        if CleanupBarrierCancel(p).Some? { GuardEffect(disk, m, call, env, p, CleanupBarrierCancel(p).value); }
        NothingStep(disk, m, call);
    }
    NothingStep(disk, m, call);
  }

  lemma NothingStep(disk: Jobs, m: Manager, call: Call)
    requires call.Barrier? || call.CleanupBarrier? || call.Read?
    ensures ClaimsStep(m, m, disk, disk, call)
  {
  }

  lemma ReadEffect(disk: Jobs, m: Manager, call: Call, env: Env)
    requires call.Read?
    ensures var r := Get(disk, m, call.id, env);
            && r.disk == disk && ClaimsStep(m, r.manager, disk, r.disk, call)
            && (r.result.Success? ==> LicensedCall(disk, m, call) && r.result.value == disk[call.id])
  {
    hide ClaimsUndisturbed, Refreshed;
    RefreshedCases(disk, m, env.readable);
    RefreshedAnswers(disk, m, env.readable);
  }

  lemma GuardEffect(disk: Jobs, m: Manager, call: Call, env: Env, p: Phase, cancel: bool)
    requires (call.Barrier? && call.phase == p && !cancel) || (call.CleanupBarrier? && call.phase == p)
    ensures var r := VerifyBarrier(disk, m, call.id, call.revision, p, cancel, env);
            && r.disk == disk && ClaimsStep(m, r.manager, disk, r.disk, call)
            && (r.result.Success? ==> LicensedCall(disk, m, call) && r.result.value == disk[call.id])
  {
    hide ClaimsUndisturbed, Refreshed;
    RefreshedCases(disk, m, env.readable);
    RefreshedAnswers(disk, m, env.readable);
  }

  lemma RefreshedAnswers(disk: Jobs, m: Manager, readable: bool)
    ensures Refreshed(disk, m, readable).1 ==>
              Refreshed(disk, m, readable).0.jobs == Some(disk)
  {
  }

  lemma CreateEffect(disk: Jobs, m: Manager, call: Call, env: Env)
    requires call.Create? && call.id !in disk
    ensures var r := Perform(disk, m, call, env);
            DiskStep(disk, r.disk, call) && ClaimsStep(m, r.manager, disk, r.disk, call)
  {
    hide DiskStep, Refreshed, SaveAndReturn, Pruned, Accepted;
    var m1 := Refreshed(disk, m, env.readable).0;
    var jobs := Pruned(disk, env.now);
    var added := jobs[call.id := NewReceipt(call.target, call.artifact, call.plan, call.credential, env.now)];
    RefreshedCases(disk, m, env.readable);
    StandingStep(disk, call);
    AddedStep(disk, call, env.now);
    SaveCases(disk, m1, added, call.id, env.save);
  }

  lemma AddedStep(disk: Jobs, call: Call, now: int)
    requires call.Create? && call.id !in disk
    ensures DiskStep(disk, Pruned(disk, now)[call.id := NewReceipt(
              call.target, call.artifact, call.plan, call.credential, now)], call)
  {
    hide Evolves;
    forall k | k in disk ensures Evolves(disk[k], disk[k]) {
      EvolvesReflexive(disk[k]);
    }
  }

  /** Every call is a step of the durable map, of the claims, and needs its licence. */
  lemma PerformStep(disk: Jobs, m: Manager, call: Call, env: Env)
    requires call.Create? ==> call.id !in disk
    ensures var r := Perform(disk, m, call, env);
            && DiskStep(disk, r.disk, call)
            && ClaimsStep(m, r.manager, disk, r.disk, call)
            && (r.result.Success? ==> call.Create? || LicensedCall(disk, m, call))
            && (call.Move? && r.disk != disk ==> LicensedCall(disk, m, call))
  {
    hide DiskStep, ClaimsStep, Claim, Transition, RequestCancel, CreateOrJoin, VerifyBarrier, Get;
    StandingStep(disk, call);
    match call {
      case Take(_, _, _) => TakeEffect(disk, m, call, env);
      case Move(_, _, _) => MoveEffect(disk, m, call, env);
      case Cancel(_, _) => CancelEffect(disk, m, call, env);
      case Create(_, _, _, _, _, _) => CreateEffect(disk, m, call, env);
      case _ => BarrierEffect(disk, m, call, env);
    }
  }

  /** What a successful answer says about the durable map before and after the call. */
  lemma AnswerIsDurable(disk: Jobs, m: Manager, call: Call, env: Env)
    requires !call.Create? && !call.Cancel?
    requires Perform(disk, m, call, env).result.Success?
    ensures var r := Perform(disk, m, call, env);
            && call.id in disk && call.id in r.disk && r.result.value == r.disk[call.id]
            && (!call.Take? && !call.Move? ==> r.disk == disk)
            && (call.Move? ==> r.result.value.phase == call.advance.phase
                               && NextPhase(disk[call.id].phase, call.advance.phase)
                               && r.result.value.executorGeneration
                                  == disk[call.id].executorGeneration)
  {
    hide DiskStep, ClaimsStep, Claim, Transition, RequestCancel, CreateOrJoin, VerifyBarrier, Get,
         Evolves;
    match call {
      case Take(_, _, _) => TakeEffect(disk, m, call, env);
      case Move(_, _, _) =>
        MoveEffect(disk, m, call, env);
        MoveKeepsGeneration(disk, m, call, env);
      case _ => BarrierEffect(disk, m, call, env);
    }
  }

  lemma MoveKeepsGeneration(disk: Jobs, m: Manager, call: Call, env: Env)
    requires call.Move?
    ensures var r := Transition(disk, m, call.id, call.revision, call.advance, env);
            r.result.Success? ==>
              call.id in disk
              && r.result.value.executorGeneration == disk[call.id].executorGeneration
  {
    hide Accepted, ClockAdvances, FactsFit, ResultFits, Valid, Refreshed;
  }

  /** A job leaves the live map in a claim only when its custody was confirmed clean. */
  lemma TakeEndsClean(disk: Jobs, m: Manager, call: Call, env: Env)
    requires call.Take? && call.id in disk && !disk[call.id].IsTerminal()
    ensures var r := Claim(disk, m, call.id, call.revision, call.cleaned, env);
            && (call.id !in r.disk || r.disk[call.id].IsTerminal() ==>
                  call.cleaned.Some? && disk[call.id].revision == call.revision)
            && (r.disk != disk ==> disk[call.id].revision == call.revision
                                   && !disk[call.id].phase.HealthyUnclaimed?)
  {
    var id := call.id;
    var m1 := Refreshed(disk, m, env.readable).0;
    hide Refreshed, SaveAndReturn, Pruned, ClaimedReceipt;
    var updated := ClaimedReceipt(disk[id], env.now);
    SaveCases(disk, m1, Pruned(disk[id := updated], env.now), id, env.save);
    if !(Exhausted(disk[id]) || RestartAmbiguous(disk[id].phase)) {
      SafeClaimLives(disk[id], env.now);
      LiveStays(disk, id, updated, env.now);
    }
  }

  lemma SafeClaimLives(r: Receipt, now: int)
    requires !r.IsTerminal() && !Exhausted(r) && !RestartAmbiguous(r.phase)
    ensures !ClaimedReceipt(r, now).IsTerminal()
  {
  }

  lemma LiveStays(disk: Jobs, id: JobId, r: Receipt, now: int)
    requires !r.IsTerminal()
    ensures id in Pruned(disk[id := r], now) && Pruned(disk[id := r], now)[id] == r
  {
  }

  /** A step of the table that does not end the job keeps its receipt. */
  lemma MoveStaysLive(disk: Jobs, m: Manager, call: Call, env: Env)
    requires call.Move? && call.id in disk && !Terminal(call.advance.phase)
    ensures call.id in Transition(disk, m, call.id, call.revision, call.advance, env).disk
  {
    var id, a := call.id, call.advance;
    var m1 := Refreshed(disk, m, env.readable).0;
    hide Refreshed, SaveAndReturn, Pruned, Advances;
    var updated := AdvancedReceipt(disk[id], a, env.now);
    LiveStays(disk, id, updated, env.now);
    SaveCases(disk, m1, Pruned(disk[id := updated], env.now), id, env.save);
  }

  /** Meeting another revision changes nothing. */
  lemma RevisionMetChangesNothing(disk: Jobs, m: Manager, call: Call, env: Env)
    requires call.Move? && Perform(disk, m, call, env).result == Failure(RevisionError)
    ensures Perform(disk, m, call, env).disk == disk
  {
    hide Refreshed, AdvancedReceipt, Pruned, Accepted, ClockAdvances, Advances;
  }

  /** Being asked to clean up first means that this manager holds no claim on the job. */
  lemma CleanupAskedWithoutClaim(disk: Jobs, m: Manager, call: Call, env: Env)
    requires call.Take? && Perform(disk, m, call, env).result == Failure(CleanupRequired)
    ensures var r := Perform(disk, m, call, env);
            && r.disk == disk && call.id in disk && call.cleaned.None?
            && disk[call.id].revision == call.revision
            && !r.manager.Holds(call.id, disk[call.id].executorGeneration)
            && (Exhausted(disk[call.id]) || RestartAmbiguous(disk[call.id].phase))
  {
    hide Refreshed, ClaimedReceipt, Pruned, Accepted, ClockAdvances;
  }

  // ------------------------------------------------------------------ whole runs

  /**
   * The store and everyone using it. `issued` remembers which manager's call
   * made each generation of each job durable, and `seen` every id ever drawn.
   */
  datatype System = System(
    disk: Jobs,
    managers: map<nat, Manager>,
    next: nat,
    issued: map<(JobId, nat), nat>,
    seen: set<JobId>)

  datatype Event =
    | Invoke(manager: nat, call: Call, env: Env)
    | StartManager
    | Crash

  const FRESH_SYSTEM := System(map[], map[], 0, map[], {})

  /** Random ids never repeat, and a create call reports what its scan really found. */
  ghost predicate Admissible(s: System, call: Call, env: Env) {
    call.Create? ==>
      && call.id !in s.seen
      && JoinOutcome(Pruned(s.disk, env.now), call.target, call.artifact, call.plan,
                     call.credential, call.scan)
  }

  function Issue(s: System, disk': Jobs, who: nat, call: Call): map<(JobId, nat), nat> {
    if call.Take? && call.id in s.disk && call.id in disk'
       && s.disk[call.id].executorGeneration < disk'[call.id].executorGeneration
    then s.issued[(call.id, disk'[call.id].executorGeneration) := who]
    else s.issued
  }

  function After(s: System, who: nat, call: Call, env: Env): System
    requires who in s.managers
  {
    var r := Perform(s.disk, s.managers[who], call, env);
    System(r.disk, s.managers[who := r.manager], s.next, Issue(s, r.disk, who, call),
           s.seen + r.disk.Keys)
  }

  ghost function Step(s: System, e: Event): System {
    match e
    case Invoke(who, call, env) =>
      if who in s.managers && Admissible(s, call, env) then After(s, who, call, env) else s
    case StartManager => s.(managers := s.managers[s.next := FORGETFUL], next := s.next + 1)
    case Crash => s.(managers := map[])
  }

  ghost function Run(s: System, events: seq<Event>): System
    decreases |events|
  {
    if events == [] then s else Run(Step(s, events[0]), events[1..])
  }

  ghost predicate Inv(s: System) {
    && Accepted(s.disk)
    && s.disk.Keys <= s.seen
    && (forall who :: who in s.managers ==> who < s.next && Backed(s, who))
    && (forall k :: k in s.issued ==> IssueSound(s, k))
  }

  /** Every claim a manager remembers is one that its own call made durable. */
  ghost predicate Backed(s: System, who: nat)
    requires who in s.managers
  {
    forall id :: id in s.managers[who].claimed ==>
      Lookup(s.issued, (id, s.managers[who].claimed[id])) == Some(who)
  }

  ghost predicate IssueSound(s: System, k: (JobId, nat)) {
    && k.0 in s.seen
    && 1 <= k.1 <= MAX_ATTEMPTS
    && (k.0 in s.disk ==> k.1 <= s.disk[k.0].executorGeneration)
  }

  /** Saving only accepted maps keeps the durable map accepted. */
  lemma PerformAccepted(disk: Jobs, m: Manager, call: Call, env: Env)
    requires Accepted(disk)
    ensures Accepted(Perform(disk, m, call, env).disk)
  {
    hide Accepted, Refreshed, Pruned, ClockAdvances;
  }

  lemma AfterKeepsInv(s: System, who: nat, call: Call, env: Env)
    requires Inv(s) && who in s.managers && Admissible(s, call, env)
    ensures Inv(After(s, who, call, env))
    ensures forall k :: k in s.issued ==>
              k in After(s, who, call, env).issued && After(s, who, call, env).issued[k] == s.issued[k]
  {
    hide Perform, DiskStep, Accepted, ClaimsStep, LicensedCall, JoinOutcome, Issue;
    var m := s.managers[who];
    var r := Perform(s.disk, m, call, env);
    PerformStep(s.disk, m, call, env);
    PerformAccepted(s.disk, m, call, env);
    GenerationsGrow(s.disk, r.disk, call);
    IssuesStaySound(s, r.disk, who, call);
    ClaimsStayBacked(s, r.disk, r.manager, who, call);
  }

  lemma GenerationsGrow(disk: Jobs, disk': Jobs, call: Call)
    requires DiskStep(disk, disk', call)
    ensures forall id :: id in disk && id in disk' ==>
              disk[id].executorGeneration <= disk'[id].executorGeneration
    ensures forall id :: id in disk' ==> id in disk || (call.Create? && id == call.id)
  {
    hide OwnStep;
  }

  lemma IssuesStaySound(s: System, disk': Jobs, who: nat, call: Call)
    requires forall k :: k in s.issued ==> IssueSound(s, k)
    requires s.disk.Keys <= s.seen && (call.Create? ==> call.id !in s.seen)
    requires Accepted(disk')
    requires forall id :: id in s.disk && id in disk' ==>
               s.disk[id].executorGeneration <= disk'[id].executorGeneration
    requires forall id :: id in disk' ==> id in s.disk || (call.Create? && id == call.id)
    ensures forall k :: k in Issue(s, disk', who, call) ==>
              && k.0 in s.seen + disk'.Keys
              && 1 <= k.1 <= MAX_ATTEMPTS
              && (k.0 in disk' ==> k.1 <= disk'[k.0].executorGeneration)
    ensures forall k :: k in s.issued ==>
              k in Issue(s, disk', who, call) && Issue(s, disk', who, call)[k] == s.issued[k]
  {
    assert call.id in disk' ==> disk'[call.id].executorGeneration <= MAX_ATTEMPTS by {
      assert call.id in disk' ==> Valid(disk'[call.id]);
    }
    hide Accepted;
  }

  lemma ClaimsStayBacked(s: System, disk': Jobs, m': Manager, who: nat, call: Call)
    requires who in s.managers
    requires forall w :: w in s.managers ==> Backed(s, w)
    requires ClaimsStep(s.managers[who], m', s.disk, disk', call)
    requires forall k :: k in s.issued ==>
               k in Issue(s, disk', who, call) && Issue(s, disk', who, call)[k] == s.issued[k]
    ensures forall w, id :: w in s.managers && w != who && id in s.managers[w].claimed ==>
              Lookup(Issue(s, disk', who, call), (id, s.managers[w].claimed[id])) == Some(w)
    ensures forall id :: id in m'.claimed ==>
              Lookup(Issue(s, disk', who, call), (id, m'.claimed[id])) == Some(who)
  {
  }

  lemma StepKeepsInv(s: System, e: Event)
    requires Inv(s)
    ensures Inv(Step(s, e))
    ensures forall k :: k in s.issued ==>
              k in Step(s, e).issued && Step(s, e).issued[k] == s.issued[k]
  {
    match e
    case Invoke(who, call, env) =>
      if who in s.managers && Admissible(s, call, env) {
        AfterKeepsInv(s, who, call, env);
      }
    case _ =>
  }

  /** Ids are drawn once: a job that has been pruned never comes back. */
  ghost predicate History(s: System, t: System) {
    && s.seen <= t.seen
    && s.next <= t.next
    && (forall k :: k in s.issued ==> k in t.issued && t.issued[k] == s.issued[k])
    && (forall id :: id in s.seen && id in t.disk ==>
          id in s.disk && Evolves(s.disk[id], t.disk[id]))
  }

  lemma StepHistory(s: System, e: Event)
    requires Inv(s)
    ensures History(s, Step(s, e))
  {
    hide Perform, Accepted, JoinOutcome, Evolves;
    StepKeepsInv(s, e);
    forall id | id in s.disk ensures Evolves(s.disk[id], s.disk[id]) {
      EvolvesReflexive(s.disk[id]);
    }
    if e.Invoke? && e.manager in s.managers && Admissible(s, e.call, e.env) {
      PerformStep(s.disk, s.managers[e.manager], e.call, e.env);
    }
  }

  lemma HistoryTransitive(s: System, t: System, u: System)
    requires History(s, t) && History(t, u)
    ensures History(s, u)
  {
    hide Evolves;
    forall id | id in s.seen && id in u.disk
      ensures id in s.disk && Evolves(s.disk[id], u.disk[id])
    {
      EvolvesTransitive(s.disk[id], t.disk[id], u.disk[id]);
    }
  }

  /**
   * Every run keeps the invariant and only ever extends history: claims are
   * issued once and never reassigned, and each receipt moves forward.
   */
  lemma {:induction false} RunHistory(s: System, events: seq<Event>)
    requires Inv(s)
    ensures Inv(Run(s, events)) && History(s, Run(s, events))
    decreases |events|
  {
    hide Inv, History, Step;
    if events == [] {
      HistoryReflexive(s);
    } else {
      StepKeepsInv(s, events[0]);
      StepHistory(s, events[0]);
      RunHistory(Step(s, events[0]), events[1..]);
      HistoryTransitive(s, Step(s, events[0]), Run(s, events));
    }
  }

  lemma HistoryReflexive(s: System)
    requires Inv(s)
    ensures History(s, s)
  {
    hide Accepted, Backed, IssueSound;
  }

  lemma FreshSystemInv()
    ensures Inv(FRESH_SYSTEM)
  {
    assert ActiveIds(map[]) == {} && TerminalIds(map[]) == {};
  }

  /** A call that leans on a claim: a barrier, or a step of the table before completion. */
  ghost predicate LeansOnClaim(s: System, call: Call) {
    || call.Barrier? || call.CleanupBarrier?
    || (call.Move? && call.id in s.disk && !s.disk[call.id].phase.HealthyUnclaimed?)
  }

  /**
   * The fence. In every reachable state only the manager whose own call made
   * the current generation durable can pass a barrier or take a step with it,
   * and no later generation of the job has been issued to anyone.
   */
  lemma OnlyTheIssuerActs(events: seq<Event>, who: nat, call: Call, env: Env)
    requires var s := Run(FRESH_SYSTEM, events);
             who in s.managers && LeansOnClaim(s, call)
             && Perform(s.disk, s.managers[who], call, env).result.Success?
    ensures var s := Run(FRESH_SYSTEM, events);
            && call.id in s.disk
            && Lookup(s.issued, (call.id, s.disk[call.id].executorGeneration)) == Some(who)
            && (forall g :: (call.id, g) in s.issued ==> g <= s.disk[call.id].executorGeneration)
  {
    var s := Run(FRESH_SYSTEM, events);
    FreshSystemInv();
    RunHistory(FRESH_SYSTEM, events);
    hide Perform, Accepted, DiskStep, ClaimsStep;
    PerformStep(s.disk, s.managers[who], call, env);
    forall g | (call.id, g) in s.issued ensures g <= s.disk[call.id].executorGeneration {
      assert IssueSound(s, (call.id, g));
    }
  }

  /**
   * Once somebody else's claim is durable, the old holder is refused for ever
   * after, whatever either of them and the store do, unless it claims again.
   */
  lemma SupersededHolderIsRefused(
    before: seq<Event>, after: seq<Event>, loser: nat, g: nat, winner: nat, call: Call, env: Env)
    requires var s := Run(FRESH_SYSTEM, before);
             call.id in s.disk && s.disk[call.id].executorGeneration >= g
             && Lookup(s.issued, (call.id, g)) == Some(winner) && winner != loser
    requires var t := Run(Run(FRESH_SYSTEM, before), after);
             loser in t.managers && LeansOnClaim(t, call)
    requires forall h :: h > g ==>
               Lookup(Run(Run(FRESH_SYSTEM, before), after).issued, (call.id, h)) != Some(loser)
    ensures var t := Run(Run(FRESH_SYSTEM, before), after);
            Perform(t.disk, t.managers[loser], call, env).result.Failure?
  {
    var s := Run(FRESH_SYSTEM, before);
    var t := Run(s, after);
    hide Perform, Accepted, Inv, Run, LeansOnClaim, Evolves, IssueSound;
    FreshSystemInv();
    RunHistory(FRESH_SYSTEM, before);
    RunHistory(s, after);
    assert call.id in s.seen by { InvSeen(s); }
    HistoryGenerations(s, t);
    if Perform(t.disk, t.managers[loser], call, env).result.Success? {
      RunConcat(FRESH_SYSTEM, before, after);
      OnlyTheIssuerActs(before + after, loser, call, env);
      assert false;
    }
  }

  lemma InvSeen(s: System)
    requires Inv(s)
    ensures s.disk.Keys <= s.seen
  {
  }

  lemma HistoryGenerations(s: System, t: System)
    requires History(s, t)
    ensures forall id :: id in s.seen && id in t.disk ==>
              s.disk[id].executorGeneration <= t.disk[id].executorGeneration
  {
  }

  lemma {:induction false} RunConcat(s: System, a: seq<Event>, b: seq<Event>)
    ensures Run(s, a + b) == Run(Run(s, a), b)
    decreases |a|
  {
    hide Step;
    if a == [] {
      assert a + b == b;
    } else {
      assert (a + b)[1..] == a[1..] + b;
      RunConcat(Step(s, a[0]), a[1..], b);
    }
  }

  // ------------------------------------------- bounds over runs

  /** No job is ever claimed more than 32 times, however often everything restarts. */
  lemma AttemptsAreBounded(events: seq<Event>, id: JobId, generations: set<nat>)
    requires forall g :: g in generations ==> (id, g) in Run(FRESH_SYSTEM, events).issued
    ensures |generations| <= MAX_ATTEMPTS
  {
    FreshSystemInv();
    RunHistory(FRESH_SYSTEM, events);
    forall g | g in generations ensures 1 <= g <= MAX_ATTEMPTS {
      assert IssueSound(Run(FRESH_SYSTEM, events), (id, g));
    }
    BoundedSize(generations, MAX_ATTEMPTS);
  }

  lemma {:induction false} BoundedSize(a: set<nat>, n: nat)
    requires forall x :: x in a ==> 1 <= x <= n
    ensures |a| <= n
    decreases n
  {
    if n == 0 {
      assert a == {};
    } else {
      BoundedSize(a - {n}, (n - 1) as nat);
    }
  }

  /**
   * A manager without the claim that asks for an exhausted or interrupted job
   * is told to clean up first, and once it has, the job ends for good.
   */
  lemma ExhaustedClaimEnds(events: seq<Event>, who: nat, id: JobId, env: Env)
    requires var s := Run(FRESH_SYSTEM, events);
             && who in s.managers && id in s.disk && Undisturbed(s.disk, s.managers[who], env)
             && !s.disk[id].IsTerminal() && !s.disk[id].phase.HealthyUnclaimed?
             && !s.managers[who].Holds(id, s.disk[id].executorGeneration)
             && (Exhausted(s.disk[id]) || RestartAmbiguous(s.disk[id].phase))
             && env.now >= s.disk[id].updatedAt
    ensures var s := Run(FRESH_SYSTEM, events);
            var m, rev := s.managers[who], s.disk[id].revision;
            && Claim(s.disk, m, id, rev, None, env).result == Failure(CleanupRequired)
            && var r := Claim(s.disk, m, id, rev, Some(rev), env);
               id !in r.disk || (r.disk[id].phase.RecoveryRequired?
                                 && r.disk[id].failureStage == Some(s.disk[id].phase))
  {
    hide Run, Accepted, Backed, IssueSound, Claim, ClaimsUndisturbed, Exhausted;
    FreshSystemInv();
    RunHistory(FRESH_SYSTEM, events);
    var s := Run(FRESH_SYSTEM, events);
    CleanedUpEnds(s.disk, s.managers[who], id, env);
  }

  lemma CleanedUpEnds(disk: Jobs, m: Manager, id: JobId, env: Env)
    requires Accepted(disk) && Undisturbed(disk, m, env) && id in disk
    requires !disk[id].IsTerminal() && !disk[id].phase.HealthyUnclaimed?
    requires !m.Holds(id, disk[id].executorGeneration) && env.now >= disk[id].updatedAt
    requires Exhausted(disk[id]) || RestartAmbiguous(disk[id].phase)
    ensures Claim(disk, m, id, disk[id].revision, None, env).result == Failure(CleanupRequired)
    ensures var r := Claim(disk, m, id, disk[id].revision, Some(disk[id].revision), env);
            id !in r.disk || (r.disk[id].phase.RecoveryRequired?
                              && r.disk[id].failureStage == Some(disk[id].phase))
  {
    hide Accepted, ClockAdvances, Valid, Evolves, ClaimsUndisturbed, Pruned;
    var updated := ClaimedReceipt(disk[id], env.now);
    assert Valid(disk[id]) by { AcceptedAt(disk, id); }
    ClaimKeepsReceipt(disk[id], env.now);
    PrunedReplaceAccepted(disk, id, updated, env.now);
    PrunedClockAdvances(disk, id, updated, env.now);
    PrunedAt(disk[id := updated], id, env.now);
  }

  lemma AcceptedAt(disk: Jobs, id: JobId)
    requires Accepted(disk) && id in disk
    ensures Valid(disk[id])
  {
    hide Valid;
  }

  lemma PrunedAt(jobs: Jobs, id: JobId, now: int)
    ensures id in Pruned(jobs, now) ==> id in jobs && Pruned(jobs, now)[id] == jobs[id]
  {
    hide Retained;
  }

  lemma BarrierNeverSelfRejected(disk: Jobs, m: Manager, call: Call, env: Env)
    requires call.Barrier? || call.CleanupBarrier? || call.Read?
    requires Undisturbed(disk, m, env)
    ensures Perform(disk, m, call, env).result != Failure(StoreError)
  {
    hide ClaimsUndisturbed, Reconciled;
  }

  /**
   * In every reachable state, a call the outside world does not disturb is
   * never answered with a store error: what the operations build is always a
   * document the parser takes back.
   */
  lemma StoreNeverRejectsItself(events: seq<Event>, who: nat, call: Call, env: Env)
    requires var s := Run(FRESH_SYSTEM, events);
             who in s.managers && Admissible(s, call, env)
             && Undisturbed(s.disk, s.managers[who], env)
             && (forall id :: id in s.disk ==> env.now >= s.disk[id].updatedAt)
    ensures var s := Run(FRESH_SYSTEM, events);
            Perform(s.disk, s.managers[who], call, env).result != Failure(StoreError)
  {
    var s := Run(FRESH_SYSTEM, events);
    FreshSystemInv();
    RunHistory(FRESH_SYSTEM, events);
    var disk, m := s.disk, s.managers[who];
    assert Accepted(disk);
    hide Claim, Transition, RequestCancel, CreateOrJoin, Get, VerifyBarrier, Run, Accepted, Inv, Undisturbed;
    match call {
      case Take(id, revision, cleaned) => ClaimNeverSelfRejected(disk, m, id, revision, cleaned, env);
      case Move(id, revision, a) => TransitionNeverSelfRejected(disk, m, id, revision, a, env);
      case Cancel(id, revision) => CancelNeverSelfRejected(disk, m, id, revision, env);
      case Create(t, a, plan, credential, scan, id) =>
        CreateNeverSelfRejected(disk, m, t, a, plan, credential, scan, id, env);
      case _ => BarrierNeverSelfRejected(disk, m, call, env);
    }
  }
}
