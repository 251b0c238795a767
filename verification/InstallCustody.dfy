/**
 * Local custody and the moment of mutation, when jobs are run the way Home
 * Assistant runs them: one manager and one executor per process, claims and
 * steps made by workers, everyone else reading, creating and cancelling.
 */
module InstallCustody {
  import opened Wrappers
  import opened InstallReceipt
  import opened InstallJobs
  import opened InstallRuns
  import opened InstallExecutor
  import opened InstallSafety

  /** How the integration uses the executor. */
  ghost predicate Disciplined(w: World, a: Action) {
    match a
    case Boot => w.sys.managers == map[] && w.tasks == map[]
    case Outside(_, call, _) =>
      (call.Take? ==> false)
      && (call.Move? ==> call.id in w.sys.disk && w.sys.disk[call.id].phase.HealthyUnclaimed?)
    case _ => true
  }

  ghost predicate DisciplinedRun(w: World, actions: seq<Action>)
    decreases |actions|
  {
    actions == []
    || (Disciplined(w, actions[0]) && DisciplinedRun(Next(w, actions[0]), actions[1..]))
  }

  /**
   * The worker's copy agrees with the store on phase and claim, unless the job
   * is over for it, or an interrupted claim has ended the job under it after
   * its manager lost the claim.
   */
  ghost predicate InStep(sys: System, k: Key, r: Receipt)
    requires k.executor in sys.managers
  {
    || Rank(r.phase) >= Rank(HealthyUnclaimed)
    || (&& k.id in sys.disk && sys.disk[k.id].phase == r.phase
        && sys.disk[k.id].executorGeneration == r.executorGeneration)
    || Overtaken(sys, k, r)
  }

  ghost predicate Overtaken(sys: System, k: Key, r: Receipt)
    requires k.executor in sys.managers
  {
    && (k.id in sys.disk ==> sys.disk[k.id].IsTerminal())
    && RestartAmbiguous(r.phase)
    && !sys.managers[k.executor].Holds(k.id, r.executorGeneration)
  }

  /** The job is interrupted and this manager has no claim on it, so only a claim can move it. */
  ghost predicate Stuck(sys: System, k: Key)
    requires k.executor in sys.managers
  {
    k.id in sys.disk ==>
      || sys.disk[k.id].IsTerminal()
      || (&& RestartAmbiguous(sys.disk[k.id].phase)
          && !sys.managers[k.executor].Holds(k.id, sys.disk[k.id].executorGeneration))
  }

  /** Points from which the job may end without looking at custody again. */
  predicate CustodyGone(pc: Pc) {
    || pc.Failing? || pc.FailAt? || pc.RecoverRead? || pc.RecoverAt? || pc.LaunchReady?
    || (pc.Claiming? && pc.cleaned.Some?)
    || (pc.Moving? && (pc.advance.phase.Cancelled? || Rank(pc.advance.phase) > Rank(Installed)))
  }

  ghost predicate Settled(sys: System, files: set<JobId>, k: Key, t: Worker)
    requires k.executor in sys.managers
  {
    && (CustodyGone(t.pc) ==> k.id !in files)
    && (Running(t) ==> Valid(t.receipt) && InStep(sys, k, t.receipt))
    && (k.role.Resumer? ==> Resuming(sys, k, t))
  }

  ghost predicate Resuming(sys: System, k: Key, t: Worker)
    requires k.executor in sys.managers
  {
    match t.pc
    case Claiming(revision, None, _) =>
      RestartAmbiguous(t.receipt.phase) && t.receipt.revision == revision
    case Claiming(_, Some(_), _) => Stuck(sys, k)
    case NeedsCleanup(_) => Stuck(sys, k)
    case CleaningFor(_, _) => Stuck(sys, k)
    case _ => true
  }

  /** A job with files in custody is live and between download and the end of installation. */
  ghost predicate InCustody(disk: Jobs, files: set<JobId>) {
    forall id :: id in files ==>
      id in disk && Rank(Downloading) <= Rank(disk[id].phase) <= Rank(Installed)
  }

  ghost predicate Core(w: World) {
    && (forall a, b :: a in w.sys.managers && b in w.sys.managers ==> a == b)
    && (forall k :: k in w.tasks ==>
          k.executor in w.sys.managers && Settled(w.sys, w.files, k, w.tasks[k]))
    && InCustody(w.sys.disk, w.files)
  }

  ghost predicate Custody(w: World) { SafeWorld(w) && Core(w) }

  /** As `Core`, leaving one task out of account while it moves. */
  ghost predicate CoreBut(w: World, k: Key) {
    && k.executor in w.sys.managers
    && (forall a, b :: a in w.sys.managers && b in w.sys.managers ==> a == b)
    && (forall b :: b in w.tasks && b != k ==>
          b.executor in w.sys.managers && Settled(w.sys, w.files, b, w.tasks[b]))
    && InCustody(w.sys.disk, w.files)
  }

  lemma Close(w: World, k: Key, t: Worker)
    requires CoreBut(w, k) && Settled(w.sys, w.files, k, t)
    ensures Core(Goto(w, k, t))
  {
    hide Settled, InCustody;
  }

  lemma CloseStop(w: World, k: Key, park: bool)
    requires CoreBut(w, k)
    ensures Core(Stop(w, k, park))
  {
    hide Settled, InCustody;
  }

  /** Moving the counter of a running task, with custody gone where that matters. */
  lemma CloseAt(w: World, k: Key, pc: Pc)
    requires CoreBut(w, k) && k in w.tasks && Settled(w.sys, w.files, k, w.tasks[k])
    requires Running(w.tasks[k]) && Running(w.tasks[k].(pc := pc)) && k.role.Runner?
    requires CustodyGone(pc) ==> k.id !in w.files
    ensures Core(At(w, k, pc))
  {
    hide InCustody, InStep, Valid;
    Close(w, k, w.tasks[k].(pc := pc));
  }

  lemma OpenUp(w: World, k: Key)
    requires Custody(w) && k in w.tasks
    ensures CoreBut(w, k) && Settled(w.sys, w.files, k, w.tasks[k])
    ensures Running(w.tasks[k]) ==> k.role.Runner?
    ensures Known(w.sys, k.id, w.tasks[k].receipt)
    ensures k.id in w.sys.seen
  {
    hide Settled, InCustody, Safe;
    TaskFacts(w, k);
  }

  /** Removing files never hurts. */
  lemma CleanedBut(w: World, k: Key)
    requires CoreBut(w, k)
    ensures CoreBut(Cleaned(w, k.id), k) && k.id !in Cleaned(w, k.id).files
    ensures forall t :: Settled(w.sys, w.files, k, t) ==> Settled(w.sys, Cleaned(w, k.id).files, k, t)
  {
    hide InStep, Resuming, Valid;
  }

  /** Before its download and after its installation a job has no files in custody. */
  lemma NoFilesAt(w: World, k: Key)
    requires Custody(w) && k in w.tasks && Running(w.tasks[k])
    requires var p := w.tasks[k].receipt.phase;
             Rank(p) < Rank(Downloading) || Rank(p) > Rank(Installed)
    ensures k.id !in w.files
  {
    hide Custody, Safe, Valid, Core, Settled, InCustody;
    OpenUp(w, k);
    NoFilesOpen(w.sys, w.files, k, w.tasks[k]);
  }

  lemma NoFilesOpen(sys: System, files: set<JobId>, k: Key, t: Worker)
    requires k.executor in sys.managers && Settled(sys, files, k, t) && Running(t)
    requires InCustody(sys.disk, files) && Known(sys, k.id, t.receipt)
    requires Rank(t.receipt.phase) < Rank(Downloading) || Rank(t.receipt.phase) > Rank(Installed)
    ensures k.id !in files
  {
    hide Valid, SameJob;
  }

  // ------------------------------------------------------- one call, everybody else

  /** What one call by the only manager may do, whoever makes it. */
  ghost predicate Shift(s: System, t: System, who: nat, call: Call) {
    && who in s.managers && who in t.managers && t.managers.Keys == s.managers.Keys
    && t.seen >= s.seen && (call.Create? ==> call.id !in s.seen)
    && DiskStep(s.disk, t.disk, call)
    && ClaimsStep(s.managers[who], t.managers[who], s.disk, t.disk, call)
    && (call.Move? && s.disk != t.disk ==> LicensedCall(s.disk, s.managers[who], call))
    && (call.Take? && Ends(s.disk, t.disk, call.id) ==> call.cleaned.Some?)
    && (call.Move? && call.id in s.disk && !Terminal(call.advance.phase) ==> call.id in t.disk)
  }

  ghost predicate Ends(disk: Jobs, disk': Jobs, id: JobId) {
    && id in disk && !disk[id].IsTerminal()
    && (id !in disk' || disk'[id].IsTerminal())
  }

  lemma CallShifts(s: System, who: nat, call: Call, env: Env)
    requires who in s.managers && Admissible(s, call, env) && Inv(s)
    ensures Shift(s, After(s, who, call, env), who, call)
  {
    hide Perform, DiskStep, ClaimsStep, LicensedCall, JoinOutcome, Accepted, Claim, Transition;
    var m := s.managers[who];
    PerformStep(s.disk, m, call, env);
    if call.Take? && call.id in s.disk && !s.disk[call.id].IsTerminal() {
      TakeEndsClean(s.disk, m, call, env);
      PerformIs(s.disk, m, call, env);
    }
    if call.Move? && call.id in s.disk && !Terminal(call.advance.phase) {
      MoveStaysLive(s.disk, m, call, env);
      PerformIs(s.disk, m, call, env);
    }
  }

  lemma PerformIs(disk: Jobs, m: Manager, call: Call, env: Env)
    ensures call.Take? ==> Perform(disk, m, call, env)
                           == Claim(disk, m, call.id, call.revision, call.cleaned, env)
    ensures call.Move? ==> Perform(disk, m, call, env)
                           == Transition(disk, m, call.id, call.revision, call.advance, env)
  {
    hide Claim, Transition, CreateOrJoin, VerifyBarrier, RequestCancel, Get;
  }

  /** A job nobody holds that was interrupted stays so until it ends. */
  lemma StuckStays(s: System, t: System, k: Key, call: Call)
    requires Shift(s, t, k.executor, call) && k.id in s.seen && Stuck(s, k)
    ensures Stuck(t, k)
  {
    hide SameJob;
  }

  /** The calls that leave a running worker's copy in step. */
  ghost predicate Quiet(s: System, t: System, k: Key, call: Call)
    requires k.executor in s.managers
  {
    && (call.Take? && call.id == k.id ==> s.disk == t.disk || Stuck(s, k))
    && (call.Move? && call.id == k.id ==>
          s.disk == t.disk || (k.id in s.disk && s.disk[k.id].phase.HealthyUnclaimed?))
  }

  lemma InStepStays(s: System, t: System, k: Key, r: Receipt, call: Call)
    requires Shift(s, t, k.executor, call) && k.id in s.seen && InStep(s, k, r)
    requires Quiet(s, t, k, call)
    ensures InStep(t, k, r)
  {
    hide SameJob;
  }

  lemma SettledStays(s: System, t: System, files: set<JobId>, k: Key, worker: Worker, call: Call)
    requires Shift(s, t, k.executor, call) && k.id in s.seen
    requires Settled(s, files, k, worker) && (Running(worker) ==> Quiet(s, t, k, call))
    ensures Settled(t, files, k, worker)
  {
    hide Stuck, InStep, Valid, Quiet, DiskStep, ClaimsStep, LicensedCall, Ends;
    if Running(worker) {
      InStepStays(s, t, k, worker.receipt, call);
    }
    if Stuck(s, k) {
      StuckStays(s, t, k, call);
    }
  }

  lemma CustodyStays(s: System, t: System, who: nat, call: Call, files: set<JobId>)
    requires Shift(s, t, who, call) && InCustody(s.disk, files)
    requires call.id in files ==>
               && (call.Take? ==> call.cleaned.None?)
               && (call.Move? ==> Rank(call.advance.phase) <= Rank(Installed))
    ensures InCustody(t.disk, files)
  {
    hide SameJob, ClaimsStep;
    forall id | id in files
      ensures id in t.disk && Rank(Downloading) <= Rank(t.disk[id].phase) <= Rank(Installed)
    {
      assert id in s.disk && Evolves(s.disk[id], s.disk[id]);
    }
  }

  // ------------------------------------------------------- one call, by its own task

  /** The calls a task makes at its current point. */
  ghost predicate Proper(w: World, k: Key, call: Call)
    requires k in w.tasks
  {
    && call.id == k.id
    && (|| call.Read? || call.Barrier? || call.CleanupBarrier?
        || (call.Take? && w.tasks[k].pc.Claiming? && w.tasks[k].pc.revision == call.revision
            && w.tasks[k].pc.cleaned == call.cleaned)
        || (call.Move? && k.role.Runner?
            && (k.id !in w.files || Rank(call.advance.phase) <= Rank(Installed))))
  }

  lemma TakeNeedsLive(disk: Jobs, m: Manager, call: Call, env: Env)
    ensures call.Take? && Perform(disk, m, call, env).disk != disk ==>
              call.id in disk && !disk[call.id].IsTerminal() && disk[call.id].revision == call.revision
  {
    hide Refreshed, SaveAndReturn, Pruned, ClaimedReceipt;
  }

  /** A resuming claim changes the store only when the job is stuck. */
  lemma ResumerTakesStuck(w: World, k: Key, call: Call, env: Env)
    requires k in w.tasks && k.executor in w.sys.managers && k.role.Resumer? && call.Take?
    requires Proper(w, k, call) && Resuming(w.sys, k, w.tasks[k])
    requires Known(w.sys, k.id, w.tasks[k].receipt)
    requires Shift(w.sys, After(w.sys, k.executor, call, env), k.executor, call)
    ensures After(w.sys, k.executor, call, env).disk == w.sys.disk || Stuck(w.sys, k)
  {
    hide Perform, ClaimsStep, LicensedCall, SameJob, Stuck, Issue;
    var t := After(w.sys, k.executor, call, env);
    if t.disk != w.sys.disk {
      TakeNeedsLive(w.sys.disk, w.sys.managers[k.executor], call, env);
      if call.cleaned.None? {
        SameRevisionSame(w.tasks[k].receipt, w.sys.disk[k.id]);
        TakeChanges(w.sys.disk, w.sys.managers[k.executor], call, env);
      }
    }
  }

  lemma SameRevisionSame(a: Receipt, b: Receipt)
    requires Evolves(a, b) && a.revision == b.revision
    ensures a == b
  {
  }

  /** A claim that changes the store changes the receipt it is about. */
  lemma TakeChanges(disk: Jobs, m: Manager, call: Call, env: Env)
    requires call.Take? && call.id in disk
    ensures var r := Perform(disk, m, call, env);
            r.disk != disk && call.id in r.disk ==> r.disk[call.id] != disk[call.id]
  {
    hide Refreshed, Accepted, ClockAdvances, Exhausted, Retained, SaveAndReturn;
    var m1 := Refreshed(disk, m, env.readable).0;
    var jobs := Pruned(disk[call.id := ClaimedReceipt(disk[call.id], env.now)], env.now);
    SaveCases(disk, m1, jobs, call.id, env.save);
    ClaimCounts(disk[call.id], env.now);
  }

  lemma ClaimCounts(r: Receipt, now: int)
    ensures ClaimedReceipt(r, now).revision == r.revision + 1
  {
  }

  /** Everyone else stays settled, and custody stays with live jobs, whatever a task asks. */
  lemma AskCore(w: World, k: Key, call: Call, env: Env)
    requires Custody(w) && k in w.tasks && k.executor in w.sys.managers && Proper(w, k, call)
    ensures CoreBut(Ask(w, k, call, env).0, k)
    ensures Shift(w.sys, Ask(w, k, call, env).0.sys, k.executor, call)
  {
    hide Perform, Safe, Settled, InCustody, Stuck, Shift, Quiet, Resuming;
    OpenUp(w, k);
    assert Inv(w.sys) by { SafeInv(w); }
    hide Inv;
    CallShifts(w.sys, k.executor, call, env);
    var t := After(w.sys, k.executor, call, env);
    forall b | b in w.tasks && b != k
      ensures Settled(t, w.files, b, w.tasks[b])
    {
      OpenUp(w, b);
      if Running(w.tasks[b]) { OthersQuiet(w, k, b, call, env); }
      SettledStays(w.sys, t, w.files, b, w.tasks[b], call);
    }
    ProperCustody(w, k, call);
    CustodyStays(w.sys, t, k.executor, call, w.files);
    ShiftManagers(w.sys, t, k.executor, call);
  }

  lemma SafeInv(w: World)
    requires SafeWorld(w)
    ensures Inv(w.sys) && Accepted(w.sys.disk)
  {
    hide Backed, IssueSound, Accepted;
  }

  lemma ShiftManagers(s: System, t: System, who: nat, call: Call)
    requires Shift(s, t, who, call)
    ensures t.managers.Keys == s.managers.Keys
  {
    hide DiskStep, ClaimsStep, LicensedCall, Ends;
  }

  lemma ProperCustody(w: World, k: Key, call: Call)
    requires k in w.tasks && Proper(w, k, call) && k.executor in w.sys.managers
    requires Settled(w.sys, w.files, k, w.tasks[k])
    ensures call.id in w.files ==>
              && (call.Take? ==> call.cleaned.None?)
              && (call.Move? ==> Rank(call.advance.phase) <= Rank(Installed))
  {
    hide InStep, Valid, Resuming;
  }

  lemma OthersQuiet(w: World, k: Key, b: Key, call: Call, env: Env)
    requires Custody(w) && k in w.tasks && k.executor in w.sys.managers && Proper(w, k, call)
    requires b in w.tasks && b != k && b.executor == k.executor && Running(w.tasks[b])
    ensures var s := After(w.sys, k.executor, call, env);
            Shift(w.sys, s, k.executor, call) ==> Quiet(w.sys, s, b, call)
  {
    hide Perform, Safe, InCustody, Stuck, Shift, Resuming, InStep, After;
    if Shift(w.sys, After(w.sys, k.executor, call, env), k.executor, call) {
      OpenUp(w, k);
      OpenUp(w, b);
      if b.id == k.id {
        assert k.role.Resumer?;
        if call.Take? {
          ResumerTakesStuck(w, k, call, env);
          if Stuck(w.sys, k) { StuckSame(w.sys, k, b); }
        }
      }
    }
  }

  lemma StuckSame(sys: System, a: Key, b: Key)
    requires a.executor == b.executor && a.id == b.id && a.executor in sys.managers && Stuck(sys, a)
    ensures Stuck(sys, b)
  {
  }

  /** What a task has just been answered is the durable receipt, so its copy is in step. */
  lemma AnswerInStep(w: World, k: Key, call: Call, env: Env)
    requires Custody(w) && k in w.tasks && k.executor in w.sys.managers && Proper(w, k, call)
    ensures var (w1, a) := Ask(w, k, call, env);
            a.Success? ==> Valid(a.value) && k.executor in w1.sys.managers && InStep(w1.sys, k, a.value)
  {
    hide Perform, Safe, InCustody, Valid, Shift, Core;
    if Ask(w, k, call, env).1.Success? {
      AskKeepsSafe(w, k, call, env);
      SafeInv(Ask(w, k, call, env).0);
      AnswerIsDurable(w.sys.disk, w.sys.managers[k.executor], call, env);
    }
  }

  /** The worker goes on with the receipt it has just been answered. */
  lemma LandCore(w: World, k: Key, call: Call, env: Env, t: Worker)
    requires Custody(w) && k in w.tasks && k.executor in w.sys.managers && Proper(w, k, call)
    requires Ask(w, k, call, env).1.Success? && t.receipt == Ask(w, k, call, env).1.value
    requires Running(t) && k.role.Runner? && !CustodyGone(t.pc)
    ensures Core(Goto(Ask(w, k, call, env).0, k, t))
  {
    hide Perform, Custody, InCustody, Valid, Shift, Ask, Proper, InStep, Core, CoreBut;
    AskCore(w, k, call, env);
    AnswerInStep(w, k, call, env);
    Close(Ask(w, k, call, env).0, k, t);
  }

  lemma StopCore(w: World, k: Key, call: Call, env: Env, park: bool)
    requires Custody(w) && k in w.tasks && k.executor in w.sys.managers && Proper(w, k, call)
    ensures Core(Stop(Ask(w, k, call, env).0, k, park))
  {
    hide Custody, Shift, Ask, Proper, Core, CoreBut;
    AskCore(w, k, call, env);
    CloseStop(Ask(w, k, call, env).0, k, park);
  }

  /** A call that changed nothing durable leaves its own task settled too. */
  lemma StandCore(w: World, k: Key, call: Call, env: Env)
    requires Custody(w) && k in w.tasks && k.executor in w.sys.managers && Proper(w, k, call)
    requires Perform(w.sys.disk, w.sys.managers[k.executor], call, env).disk == w.sys.disk
    ensures var w1 := Ask(w, k, call, env).0;
            && CoreBut(w1, k) && w1.tasks == w.tasks && w1.files == w.files
            && Settled(w1.sys, w1.files, k, w.tasks[k])
  {
    hide Perform, Safe, InCustody, Valid, Shift, Proper, Core, CoreBut, Settled;
    OpenUp(w, k);
    AskCore(w, k, call, env);
    assert Quiet(w.sys, Ask(w, k, call, env).0.sys, k, call) by { OpenManagers(w, k); }
    SettledStays(w.sys, Ask(w, k, call, env).0.sys, w.files, k, w.tasks[k], call);
  }

  lemma OpenManagers(w: World, k: Key)
    requires CoreBut(w, k)
    ensures k.executor in w.sys.managers
  {
    hide Settled, InCustody;
  }

  /** Reading, and passing a barrier, change nothing durable. */
  lemma LookCore(w: World, k: Key, call: Call, env: Env)
    requires Custody(w) && k in w.tasks && k.executor in w.sys.managers && Proper(w, k, call)
    requires !call.Take? && !call.Move?
    ensures var w1 := Ask(w, k, call, env).0;
            && CoreBut(w1, k) && w1.tasks == w.tasks && w1.files == w.files
            && Settled(w1.sys, w1.files, k, w.tasks[k])
  {
    hide Custody, Core, CoreBut, Settled, Ask, Perform;
    BarrierEffect(w.sys.disk, w.sys.managers[k.executor], call, env);
    StandCore(w, k, call, env);
  }

  // ------------------------------------------------------------- one step each

  lemma CloseSame(w: World, k: Key, t: Worker)
    requires CoreBut(w, k) && k in w.tasks && Settled(w.sys, w.files, k, w.tasks[k])
    requires Running(w.tasks[k]) && Running(t) && k.role.Runner?
    requires t.receipt == w.tasks[k].receipt && (CustodyGone(t.pc) ==> k.id !in w.files)
    ensures Core(Goto(w, k, t))
  {
    hide InCustody, InStep, Valid;
    Close(w, k, t);
  }

  /** Custody is removed and the worker goes on, whatever comes next. */
  lemma CleanCore(w: World, k: Key, t: Worker)
    requires Custody(w) && k in w.tasks && Running(w.tasks[k]) && Running(t)
    requires t.receipt == w.tasks[k].receipt
    ensures Core(Goto(Cleaned(w, k.id), k, t)) && Core(Stop(w, k, true)) && Core(Stop(w, k, false))
  {
    hide Custody, InCustody, Settled, Core, CoreBut;
    OpenUp(w, k);
    CleanedBut(w, k);
    CloseSame(Cleaned(w, k.id), k, t);
    CloseStop(w, k, true);
    CloseStop(w, k, false);
  }

  lemma StayCore(w: World, k: Key, t: Worker)
    requires Custody(w) && k in w.tasks && Running(w.tasks[k]) && Running(t)
    requires t.receipt == w.tasks[k].receipt && (CustodyGone(t.pc) ==> k.id !in w.files)
    ensures Core(Goto(w, k, t))
  {
    hide Custody, InCustody, Settled, Core, CoreBut;
    OpenUp(w, k);
    CloseSame(w, k, t);
  }

  lemma LookOn(w: World, k: Key, call: Call, env: Env, pc: Pc)
    requires Custody(w) && k in w.tasks && k.executor in w.sys.managers && Proper(w, k, call)
    requires !call.Take? && !call.Move?
    requires Running(w.tasks[k]) && Running(w.tasks[k].(pc := pc))
    requires CustodyGone(pc) ==> k.id !in w.files
    ensures Core(At(Ask(w, k, call, env).0, k, pc))
  {
    hide Custody, Core, CoreBut, Settled, Ask, Proper;
    OpenUp(w, k);
    LookCore(w, k, call, env);
    CloseAt(Ask(w, k, call, env).0, k, pc);
  }

  lemma GuardedCore(w: World, k: Key, call: Call, c: Choice, good: Pc, bad: Pc)
    requires Custody(w) && k in w.tasks && Running(w.tasks[k]) && k.executor in w.sys.managers
    requires call.id == k.id && (call.Barrier? || call.CleanupBarrier?)
    requires Running(w.tasks[k].(pc := good)) && Running(w.tasks[k].(pc := bad))
    requires CustodyGone(good) || CustodyGone(bad) ==> k.id !in w.files
    ensures Core(Guarded(w, k, call, c, good, bad))
  {
    hide Custody, Core, Ask, CustodyGone;
    StayCore(w, k, w.tasks[k].(pc := bad));
    LookOn(w, k, call, c.env, good);
    LookOn(w, k, call, c.env, bad);
    StopCore(w, k, call, c.env, true);
    AskTasks(w, k, call, c.env);
  }

  lemma AskTasks(w: World, k: Key, call: Call, env: Env)
    requires k.executor in w.sys.managers
    ensures Ask(w, k, call, env).0.tasks == w.tasks && Ask(w, k, call, env).0.files == w.files
  {
    hide After, Perform;
  }

  lemma RereadCore(w: World, k: Key, c: Choice, at: nat -> Pc)
    requires Custody(w) && k in w.tasks && Running(w.tasks[k]) && k.executor in w.sys.managers
    requires forall n :: var pc := at(n);
               (pc.FailAt? || pc.RecoverClean? || pc.RecoverAt?) && (CustodyGone(pc) ==> k.id !in w.files)
    ensures Core(Reread(w, k, c, at))
  {
    hide Custody, Core, Ask, CustodyGone;
    ReadOn(w, k, c);
    var a := Ask(w, k, Read(k.id), c.env).1;
    if a.Success? && !a.value.IsTerminal() {
      LookOn(w, k, Read(k.id), c.env, at(a.value.revision));
    }
  }

  /** The three places a worker asks for a step of the table. */
  lemma MoveCore(w: World, k: Key, c: Choice)
    requires Custody(w) && k in w.tasks && k.executor in w.sys.managers && Running(w.tasks[k])
    ensures w.tasks[k].pc.Moving? ==> Core(MoveStep(w, k, w.tasks[k].pc.advance, c))
    ensures w.tasks[k].pc.FailAt? ==>
              Core(EndAt(w, k, w.tasks[k].pc.revision, Ending(Failed, w.tasks[k].pc.code), c))
    ensures w.tasks[k].pc.RecoverAt? ==>
              Core(EndAt(w, k, w.tasks[k].pc.revision, Ending(RecoveryRequired, w.tasks[k].pc.code), c))
  {
    hide Custody, Core, Ask;
    GoneProper(w, k);
    match w.tasks[k].pc {
      case Moving(a) => AskMove(w, k, Move(k.id, w.tasks[k].receipt.revision, a), c);
      case FailAt(revision, code) => AskMove(w, k, Move(k.id, revision, Ending(Failed, code)), c);
      case RecoverAt(revision, code) =>
        AskMove(w, k, Move(k.id, revision, Ending(RecoveryRequired, code)), c);
      case _ =>
    }
  }

  lemma GoneProper(w: World, k: Key)
    requires Custody(w) && k in w.tasks
    ensures CustodyGone(w.tasks[k].pc) ==> k.id !in w.files
    ensures Running(w.tasks[k]) ==> k.role.Runner?
  {
    hide Custody, CoreBut, CustodyGone, Valid, InStep, Resuming, Known;
    OpenUp(w, k);
    OpenManagers(w, k);
  }

  lemma AskMove(w: World, k: Key, call: Call, c: Choice)
    requires Custody(w) && k in w.tasks && k.executor in w.sys.managers && Running(w.tasks[k])
    requires call.Move? && call.id == k.id && k.role.Runner?
    requires k.id !in w.files || Rank(call.advance.phase) <= Rank(Installed)
    ensures var (w1, a) := Ask(w, k, call, c.env);
            && w1.tasks == w.tasks
            && (a.Success? ==> Core(Goto(w1, k, w.tasks[k].(pc := Top, receipt := a.value))))
            && (a == Failure(RevisionError) ==> Core(At(w1, k, Rechecking)))
            && Core(Stop(w1, k, true))
  {
    hide Custody, Core, CoreBut, Settled, Perform;
    AskTasks(w, k, call, c.env);
    StopCore(w, k, call, c.env, true);
    var (w1, a) := Ask(w, k, call, c.env);
    if a.Success? {
      LandCore(w, k, call, c.env, w.tasks[k].(pc := Top, receipt := a.value));
    } else if a.error.RevisionError? {
      RevisionMetChangesNothing(w.sys.disk, w.sys.managers[k.executor], call, c.env);
      StandCore(w, k, call, c.env);
      CloseAt(w1, k, Rechecking);
    }
  }

  lemma ReadOn(w: World, k: Key, c: Choice)
    requires Custody(w) && k in w.tasks && Running(w.tasks[k]) && k.executor in w.sys.managers
    ensures var (w1, a) := Ask(w, k, Read(k.id), c.env);
            && w1.tasks == w.tasks && Core(Stop(w1, k, true))
            && (a.Success? ==> Core(Goto(w1, k, w.tasks[k].(pc := Top, receipt := a.value))))
  {
    hide Custody, Core, Ask;
    OpenUp(w, k);
    AskTasks(w, k, Read(k.id), c.env);
    StopCore(w, k, Read(k.id), c.env, true);
    if Ask(w, k, Read(k.id), c.env).1.Success? {
      LandCore(w, k, Read(k.id), c.env,
               w.tasks[k].(pc := Top, receipt := Ask(w, k, Read(k.id), c.env).1.value));
    }
  }

  lemma RecheckCore(w: World, k: Key, c: Choice)
    requires Custody(w) && k in w.tasks && Running(w.tasks[k]) && k.executor in w.sys.managers
    ensures Core(RecheckStep(w, k, c))
  {
    hide Custody, Core, Ask;
    ReadOn(w, k, c);
  }

  lemma UnauthorizedCore(w: World, k: Key, kind: Kind, policy: bool)
    requires Custody(w) && k in w.tasks && Running(w.tasks[k])
    ensures Core(Unauthorized(w, k, kind, policy))
  {
    hide Custody, Core;
    StayCore(w, k, w.tasks[k].(pc := CleanFail(if policy then ArtifactRejected else TransportFailed)));
    StayCore(w, k, w.tasks[k].(pc := InstallRefused));
    StayCore(w, k, w.tasks[k].(pc := Recovering(VerificationRequired)));
  }

  lemma AuthorizeCore(w: World, k: Key, kind: Kind, c: Choice)
    requires Custody(w) && k in w.tasks && Running(w.tasks[k]) && k.executor in w.sys.managers
    ensures Core(Authorize(w, k, kind, c))
  {
    hide Custody, Core, Ask, Unauthorized;
    UnauthorizedCore(w, k, kind, false);
    ReadOn(w, k, c);
    LookOn(w, k, Read(k.id), c.env, Checked(kind));
  }

  lemma CheckedCore(w: World, k: Key, c: Choice)
    requires Custody(w) && k in w.tasks && Running(w.tasks[k]) && k.executor in w.sys.managers
    requires w.tasks[k].pc.Checked?
    ensures Core(Work(w, k, c))
  {
    hide Custody, Core, Ask;
    var t := w.tasks[k];
    var call := Barrier(k.id, t.receipt.revision, t.receipt.phase);
    AskTasks(w, k, call, c.env);
    StopCore(w, k, call, c.env, true);
    LookOn(w, k, call, c.env, Armed(t.pc.kind));
    LookOn(w, k, call, c.env, CleanFail(if c.branch.Refused? then ArtifactRejected else TransportFailed));
    LookOn(w, k, call, c.env, InstallRefused);
    LookOn(w, k, call, c.env, Recovering(VerificationRequired));
  }

  lemma MutateCore(w: World, k: Key, kind: Kind, c: Choice)
    requires Custody(w) && k in w.tasks && Running(w.tasks[k])
    ensures Core(MutateStep(w, k, kind, c))
  {
    hide Custody, Core;
    var t := w.tasks[k];
    StayCore(w, k, t.(pc := if kind.StagePush? then CleanFail(TransportFailed) else InstallRefused));
    StayCore(w, k, Mutated(t, kind, c));
    LogFree(Goto(w, k, Mutated(t, kind, c)),
            w.log + [Effect(kind, k.id, k.executor, t.receipt.executorGeneration)]);
  }

  lemma LogFree(w: World, log: seq<Effect>)
    requires Core(w)
    ensures Core(w.(log := log))
  {
  }

  /** While the artifact is being fetched nobody else is past looking at custody. */
  lemma FilesMayAppear(w: World, k: Key)
    requires Custody(w) && k in w.tasks && Downloads(w.tasks[k])
    ensures Core(w.(files := w.files + {k.id}))
    ensures CoreBut(w.(files := w.files + {k.id}), k)
    ensures Settled(w.sys, w.files + {k.id}, k, w.tasks[k])
  {
    hide Safe, Known, Valid;
    OpenUp(w, k);
    var files := w.files + {k.id};
    forall b | b in w.tasks
      ensures b.executor in w.sys.managers && Settled(w.sys, files, b, w.tasks[b])
    {
      OpenUp(w, b);
      if b.id == k.id && CustodyGone(w.tasks[b].pc) {
        assert b.executor == k.executor;
        assert Running(w.tasks[b]) ==> b == k;
        StuckNotFetching(w, k, b);
      }
    }
  }

  lemma StuckNotFetching(w: World, k: Key, b: Key)
    requires Core(w) && k in w.tasks && Downloads(w.tasks[k]) && b in w.tasks && b.id == k.id
    requires k.executor == b.executor
    ensures !(b.role.Resumer? && !Running(w.tasks[b]) && CustodyGone(w.tasks[b].pc))
    ensures !(b == k && CustodyGone(w.tasks[b].pc))
  {
    hide Valid;
    assert Settled(w.sys, w.files, k, w.tasks[k]);
    assert Settled(w.sys, w.files, b, w.tasks[b]);
  }

  lemma DownloadCore(w: World, k: Key, c: Choice, next: Phase)
    requires Custody(w) && k in w.tasks && Downloads(w.tasks[k])
    requires Rank(next) <= Rank(Installed) && !next.Cancelled?
    ensures Core(Download(w, k, c, next))
  {
    hide Custody, Core, CoreBut, Settled, Downloads;
    DownloadsRunning(w.tasks[k]);
    OpenUp(w, k);
    FilesMayAppear(w, k);
    var t := w.tasks[k];
    CleanCore(w, k, t.(staleRemoved := true));
    if c.branch.Refused? {
      StayCore(w, k, t.(pc := CleanFail(c.branch.code)));
    }
    var advance :=
      if next.ArtifactReady? then To(next).(actualApkBytes := Some(t.receipt.artifact.apkSize))
      else To(next);
    CloseSame(w.(files := w.files + {k.id}), k, t.(pc := Moving(advance), local := true));
  }

  lemma DownloadsRunning(t: Worker)
    requires Downloads(t)
    ensures Running(t) && t.pc.Top?
  {
  }

  lemma HaveCore(w: World, k: Key, c: Choice, next: Phase)
    requires Custody(w) && k in w.tasks && w.tasks[k].pc.Top?
    requires w.tasks[k].local || Downloads(w.tasks[k])
    requires Rank(next) <= Rank(Installed) && !next.Cancelled?
    ensures Core(HaveArtifact(w, k, c, next))
  {
    hide Custody, Core, Download;
    if !w.tasks[k].local {
      DownloadCore(w, k, c, next);
    } else if c.branch.Refused? {
      StayCore(w, k, w.tasks[k].(pc := CleanFail(c.branch.code)));
    } else {
      StayCore(w, k, w.tasks[k].(pc := Moving(To(next))));
    }
  }

  lemma CancelCore(w: World, k: Key, c: Choice)
    requires Custody(w) && k in w.tasks && w.tasks[k].pc.Top? && k.executor in w.sys.managers
    ensures Core(CancelStep(w, k, c))
  {
    hide Custody, Core, Ask;
    var t := w.tasks[k];
    var call := CleanupBarrier(k.id, t.receipt.revision, t.receipt.phase);
    AskTasks(w, k, call, c.env);
    StopCore(w, k, call, c.env, true);
    StayCore(w, k, t.(pc := CancelLocal));
    StayCore(w, k, t.(pc := Recovering(VerificationRequired)));
    LookOn(w, k, call, c.env, CancelLocal);
    LookOn(w, k, call, c.env, Recovering(AmbiguousMutation));
    LookOn(w, k, call, c.env, Recovering(VerificationRequired));
  }

  lemma LaunchCore(w: World, k: Key, c: Choice)
    requires Custody(w) && k in w.tasks && w.tasks[k].pc.Top? && k.executor in w.sys.managers
    requires w.tasks[k].receipt.phase.Launching? && !w.tasks[k].receipt.cancelRequested
    ensures Core(TopStep(w, k, c))
  {
    hide Custody, Core, Ask;
    var t := w.tasks[k];
    var call := CleanupBarrier(k.id, t.receipt.revision, t.receipt.phase);
    NoFilesAt(w, k);
    AskTasks(w, k, call, c.env);
    StopCore(w, k, call, c.env, true);
    StayCore(w, k, t.(pc := Recovering(AmbiguousMutation)));
    StayCore(w, k, t.(pc := Recovering(VerificationRequired)));
    LookOn(w, k, call, c.env, LaunchReady);
    LookOn(w, k, call, c.env, Lost(c));
  }

  lemma FetchCore(w: World, k: Key, c: Choice)
    requires Custody(w) && k in w.tasks && w.tasks[k].pc.Top? && k.executor in w.sys.managers
    requires Rank(Downloading) <= Rank(w.tasks[k].receipt.phase) <= Rank(Revalidating)
    requires !w.tasks[k].receipt.cancelRequested
    ensures Core(TopStep(w, k, c))
  {
    hide Custody, Core, Ask, Download, HaveArtifact;
    match w.tasks[k].receipt.phase {
      case Downloading => DownloadCore(w, k, c, ArtifactReady);
      case ArtifactReady => HaveCore(w, k, c, Revalidating);
      case _ => HaveCore(w, k, c, Staging);
    }
  }

  lemma MutationCore(w: World, k: Key, c: Choice)
    requires Custody(w) && k in w.tasks && w.tasks[k].pc.Top? && k.executor in w.sys.managers
    requires w.tasks[k].receipt.phase.Staging? || w.tasks[k].receipt.phase.Installing?
    requires !w.tasks[k].receipt.cancelRequested
    ensures Core(TopStep(w, k, c))
  {
    hide Custody, Core, Ask, Authorize;
    StayCore(w, k, w.tasks[k].(pc := Recovering(AmbiguousMutation)));
    AuthorizeCore(w, k, if w.tasks[k].receipt.phase.Staging? then StagePush else PackageInstall, c);
  }

  lemma InstalledCore(w: World, k: Key, c: Choice)
    requires Custody(w) && k in w.tasks && w.tasks[k].pc.Top? && k.executor in w.sys.managers
    requires w.tasks[k].receipt.phase.Installed? && !w.tasks[k].receipt.cancelRequested
    ensures Core(TopStep(w, k, c))
  {
    hide Custody, Core, Ask;
    var t := w.tasks[k];
    CleanCore(w, k, t.(pc := Moving(To(Launching)), staged := true));
    StayCore(w, k, t.(pc := Recovering(VerificationRequired), staged := true));
  }

  lemma StopsCore(w: World, k: Key)
    requires Custody(w) && k in w.tasks && Running(w.tasks[k])
    ensures Core(Stop(w, k, true)) && Core(Stop(w, k, false))
  {
    hide Custody, Core;
    CleanCore(w, k, w.tasks[k]);
  }

  lemma TopCore(w: World, k: Key, c: Choice)
    requires Custody(w) && k in w.tasks && w.tasks[k].pc.Top? && k.executor in w.sys.managers
    ensures Core(TopStep(w, k, c))
  {
    hide Custody, Core, Ask, CancelStep, Authorize, Download, HaveArtifact;
    var t := w.tasks[k];
    StopsCore(w, k);
    CancelCore(w, k, c);
    if !t.receipt.cancelRequested {
      match t.receipt.phase {
        case Approved => StayCore(w, k, t.(pc := Moving(To(Authorizing))));
        case Authorizing =>
          NoFilesAt(w, k);
          if c.branch.Refused? { StayCore(w, k, t.(pc := Failing(c.branch.code))); }
          StayCore(w, k, t.(pc := Moving(To(Preflight))));
        case Preflight =>
          PreflightCore(w, k, c);
        case Downloading => FetchCore(w, k, c);
        case ArtifactReady => FetchCore(w, k, c);
        case Revalidating => FetchCore(w, k, c);
        case Staging => MutationCore(w, k, c);
        case Installing => MutationCore(w, k, c);
        case Installed => InstalledCore(w, k, c);
        case Launching => LaunchCore(w, k, c);
        case HealthCheck =>
          NoFilesAt(w, k);
          StayCore(w, k, t.(pc := Moving(To(HealthyUnclaimed).(healthCheckedAt := Some(c.env.now)))));
          StayCore(w, k, t.(pc := Recovering(VerificationRequired)));
        case _ =>
      }
    }
  }

  lemma PreflightCore(w: World, k: Key, c: Choice)
    requires Custody(w) && k in w.tasks && w.tasks[k].pc.Top? && k.executor in w.sys.managers
    requires w.tasks[k].receipt.phase.Preflight? && !w.tasks[k].receipt.cancelRequested
    ensures Core(TopStep(w, k, c))
  {
    hide Custody, Core;
    var t := w.tasks[k];
    NoFilesAt(w, k);
    if c.branch.Refused? { StayCore(w, k, t.(pc := Failing(c.branch.code))); }
    StayCore(w, k, t.(pc := Moving(To(Installed).(rootMode := Some(c.rootMode), actualApkBytes := Some(c.bytes)))));
    StayCore(w, k, t.(pc := Moving(To(Downloading).(rootMode := Some(c.rootMode)))));
  }

  /** A cancelled job that shows no sign of a download never had one. */
  lemma CancelLocalCore(w: World, k: Key, c: Choice)
    requires Custody(w) && k in w.tasks && w.tasks[k].pc.CancelLocal?
    ensures Core(CancelLocalStep(w, k, c))
  {
    hide Custody, Core;
    var t := w.tasks[k];
    var cancelled := Moving(Ending(Cancelled,
      if t.receipt.phase.Staging? then CancelledAfterStagingCleanup else CancelledByUser));
    CleanCore(w, k, t.(pc := cancelled));
    StayCore(w, k, t.(pc := Recovering(VerificationRequired)));
    if !(t.local || t.receipt.actualApkBytes.Some? || t.receipt.phase.Downloading?) {
      CopyValid(w, k);
      NoFilesAt(w, k);
      StayCore(w, k, t.(pc := cancelled));
    }
  }

  lemma CopyValid(w: World, k: Key)
    requires Custody(w) && k in w.tasks && Running(w.tasks[k])
    ensures ArtifactRequired(w.tasks[k].receipt.phase) ==> w.tasks[k].receipt.actualApkBytes.Some?
  {
    hide Safe, InStep;
    assert Settled(w.sys, w.files, k, w.tasks[k]);
  }

  /** The points on the way to an end that is not success. */
  predicate Endgame(pc: Pc) {
    || pc.CleanFail? || pc.Failing? || pc.FailAt? || pc.Recovering? || pc.RecoverClean?
    || pc.RecoverRead? || pc.RecoverAt? || pc.InstallRefused? || pc.RefusedClean?
  }

  lemma RereadingCore(w: World, k: Key, c: Choice)
    requires Custody(w) && k in w.tasks && k.executor in w.sys.managers
    requires var pc := w.tasks[k].pc; pc.Failing? || pc.Recovering? || pc.RecoverRead?
    ensures Core(Work(w, k, c))
  {
    hide Custody, Core, Ask, MoveStep, Reread, EndAt, Guarded, TopStep, RecheckStep, MutateStep, StartStep,
         CancelLocalStep, CleanFailStep;
    GoneProper(w, k);
    match w.tasks[k].pc {
      case Failing(code) => RereadCore(w, k, c, (revision: nat) => FailAt(revision, code));
      case Recovering(code) => RereadCore(w, k, c, (_: nat) => RecoverClean(code));
      case RecoverRead(code) => RereadCore(w, k, c, (revision: nat) => RecoverAt(revision, code));
    }
  }

  lemma EndgameCore(w: World, k: Key, c: Choice)
    requires Custody(w) && k in w.tasks && k.executor in w.sys.managers && Endgame(w.tasks[k].pc)
    ensures Core(Work(w, k, c))
  {
    hide Custody, Core, Ask, MoveStep, Reread, EndAt, Guarded, TopStep, RecheckStep, MutateStep, StartStep,
         CancelLocalStep, CleanFailStep, Cleaned;
    var t := w.tasks[k];
    GoneProper(w, k);
    match t.pc {
      case CleanFail(code) => RemovingCore(w, k, c);
      case RecoverClean(code) => RemovingCore(w, k, c);
      case InstallRefused =>
        GuardedCore(w, k, CleanupBarrier(k.id, t.receipt.revision, t.receipt.phase), c, RefusedClean, Lost(c));
      case RefusedClean => RemovingCore(w, k, c);
      case FailAt(_, _) => MoveCore(w, k, c);
      case RecoverAt(_, _) => MoveCore(w, k, c);
      case _ => RereadingCore(w, k, c);
    }
  }

  lemma RemovingCore(w: World, k: Key, c: Choice)
    requires Custody(w) && k in w.tasks && k.executor in w.sys.managers
    requires var pc := w.tasks[k].pc; pc.CleanFail? || pc.RecoverClean? || pc.RefusedClean?
    ensures Core(Work(w, k, c))
  {
    hide Custody, Core, Ask;
    var t := w.tasks[k];
    StayCore(w, k, t.(pc := Recovering(VerificationRequired)));
    match t.pc {
      case CleanFail(code) => CleanCore(w, k, t.(pc := Failing(code)));
      case RecoverClean(code) => CleanCore(w, k, t.(pc := RecoverRead(code)));
      case RefusedClean => CleanCore(w, k, t.(pc := Failing(InstallFailed)));
    }
  }

  lemma RunningCore(w: World, k: Key, c: Choice)
    requires Custody(w) && k in w.tasks && k.executor in w.sys.managers && Running(w.tasks[k])
    ensures Core(Work(w, k, c))
  {
    hide Custody, Core, Ask, TopStep, MoveStep, RecheckStep, MutateStep, Guarded, CancelLocalStep;
    var t := w.tasks[k];
    if Endgame(t.pc) {
      EndgameCore(w, k, c);
    } else {
      match t.pc {
        case Top => TopCore(w, k, c);
        case CancelLocal => CancelLocalCore(w, k, c);
        case Checked(_) => CheckedCore(w, k, c);
        case Armed(kind) => MutateCore(w, k, kind, c);
        case Moving(_) => MoveCore(w, k, c);
        case Rechecking => RecheckCore(w, k, c);
        case _ =>
          GoneProper(w, k);
          GuardedCore(w, k, Barrier(k.id, t.receipt.revision, t.receipt.phase), c,
                      Moving(To(HealthCheck)),
                      if c.branch.Refused? || c.branch.Declined? then Failing(LaunchFailed) else Lost(c));
      }
    }
  }

  // ------------------------------------------------------------------- claiming

  /** A worker that has not claimed yet goes on. */
  lemma IdleCore(w: World, k: Key, call: Call, env: Env, t: Worker)
    requires Custody(w) && k in w.tasks && k.executor in w.sys.managers && Proper(w, k, call)
    requires !Running(t)
    requires var w1 := Ask(w, k, call, env).0;
             k.role.Resumer? && k.executor in w1.sys.managers ==> Resuming(w1.sys, k, t)
    requires CustodyGone(t.pc) ==> k.id !in w.files
    ensures Core(Goto(Ask(w, k, call, env).0, k, t))
  {
    hide Custody, InCustody, Valid, Shift, Ask, Proper, InStep, Core, CoreBut, Resuming;
    AskCore(w, k, call, env);
    AskTasks(w, k, call, env);
    OpenManagers(Ask(w, k, call, env).0, k);
    Close(Ask(w, k, call, env).0, k, t);
  }

  lemma StuckAfterLook(w: World, k: Key, call: Call, env: Env)
    requires Custody(w) && k in w.tasks && k.executor in w.sys.managers && Proper(w, k, call)
    requires Stuck(w.sys, k)
    ensures var w1 := Ask(w, k, call, env).0; k.executor in w1.sys.managers ==> Stuck(w1.sys, k)
  {
    hide Custody, InCustody, Valid, Shift, Proper, InStep, Core, CoreBut, Stuck, Perform;
    OpenUp(w, k);
    AskCore(w, k, call, env);
    StuckStays(w.sys, Ask(w, k, call, env).0.sys, k, call);
  }

  /** Asked to clean up by a claim on an interrupted job, the job can only end. */
  lemma AskedIsStuck(w: World, k: Key, call: Call, env: Env)
    requires Custody(w) && k in w.tasks && k.executor in w.sys.managers && Proper(w, k, call)
    requires k.role.Resumer? && call.Take?
    ensures var (w1, a) := Ask(w, k, call, env);
            a == Failure(CleanupRequired) && k.executor in w1.sys.managers ==> Stuck(w1.sys, k)
  {
    hide Safe, InCustody, Perform, Inv, InStep, Valid, SameJob;
    if Ask(w, k, call, env).1 == Failure(CleanupRequired) {
      OpenUp(w, k);
      CleanupAskedWithoutClaim(w.sys.disk, w.sys.managers[k.executor], call, env);
      SameRevisionSame(w.tasks[k].receipt, w.sys.disk[k.id]);
    }
  }

  lemma StartingCore(w: World, k: Key, c: Choice)
    requires Custody(w) && k in w.tasks && k.executor in w.sys.managers && w.tasks[k].pc.Starting?
    ensures Core(StartStep(w, k, c))
  {
    hide Custody, Core, Ask;
    AskTasks(w, k, Read(k.id), c.env);
    StopCore(w, k, Read(k.id), c.env, true);
    StopCore(w, k, Read(k.id), c.env, false);
    var a := Ask(w, k, Read(k.id), c.env).1;
    if a.Success? && (k.role.Resumer? ==> RestartAmbiguous(a.value.phase)) {
      IdleCore(w, k, Read(k.id), c.env,
               w.tasks[k].(pc := Claiming(a.value.revision, None, w.tasks[k].pc.retried), receipt := a.value));
    }
  }

  lemma ClaimingCore(w: World, k: Key, c: Choice)
    requires Custody(w) && k in w.tasks && k.executor in w.sys.managers && w.tasks[k].pc.Claiming?
    ensures Core(StartStep(w, k, c))
  {
    hide Custody, Core, Ask, Stuck;
    var t := w.tasks[k];
    var call := Take(k.id, t.pc.revision, t.pc.cleaned);
    AskTasks(w, k, call, c.env);
    StopCore(w, k, call, c.env, true);
    StopCore(w, k, call, c.env, false);
    match Ask(w, k, call, c.env).1 {
      case Success(receipt) =>
        if k.role.Runner? { LandCore(w, k, call, c.env, t.(pc := Top, receipt := receipt)); }
      case Failure(e) =>
        if e.CleanupRequired? {
          if k.role.Resumer? { AskedIsStuck(w, k, call, c.env); }
          IdleCore(w, k, call, c.env, t.(pc := NeedsCleanup(t.pc.retried)));
        }
        IdleCore(w, k, call, c.env, t.(pc := Starting(true)));
    }
  }

  lemma CleanupCore(w: World, k: Key, c: Choice)
    requires Custody(w) && k in w.tasks && k.executor in w.sys.managers
    requires w.tasks[k].pc.NeedsCleanup?
    ensures Core(StartStep(w, k, c))
  {
    hide Custody, Core, Ask, Stuck;
    var t := w.tasks[k];
    AskTasks(w, k, Read(k.id), c.env);
    StopCore(w, k, Read(k.id), c.env, true);
    IsResuming(w, k);
    if k.role.Resumer? { StuckAfterLook(w, k, Read(k.id), c.env); }
    var a := Ask(w, k, Read(k.id), c.env).1;
    if a.Success? {
      IdleCore(w, k, Read(k.id), c.env,
               t.(pc := CleaningFor(a.value.revision, t.pc.retried), receipt := a.value));
    }
  }

  lemma IsResuming(w: World, k: Key)
    requires Custody(w) && k in w.tasks && k.executor in w.sys.managers
    ensures k.role.Resumer? ==> Resuming(w.sys, k, w.tasks[k])
  {
    hide Safe, InStep, Valid, Resuming, Stuck;
    assert Settled(w.sys, w.files, k, w.tasks[k]);
  }

  lemma CleaningCore(w: World, k: Key, c: Choice)
    requires Custody(w) && k in w.tasks && k.executor in w.sys.managers
    requires w.tasks[k].pc.CleaningFor?
    ensures Core(StartStep(w, k, c))
  {
    hide Custody, Core, CoreBut, Stuck, InStep, Valid;
    var t := w.tasks[k];
    OpenUp(w, k);
    IsResuming(w, k);
    CloseStop(w, k, true);
    CleanedBut(w, k);
    OpenManagers(Cleaned(w, k.id), k);
    Close(Cleaned(w, k.id), k,
          t.(pc := Claiming(t.pc.revision, Some(t.pc.revision), t.pc.retried)));
  }

  // ------------------------------------------------------------------ whole runs

  lemma WorkCore(w: World, k: Key, c: Choice)
    requires Custody(w) && k in w.tasks && k.executor in w.sys.managers
    ensures Core(Work(w, k, c))
  {
    hide Custody, Core, StartStep;
    if Running(w.tasks[k]) {
      RunningCore(w, k, c);
    } else {
      match w.tasks[k].pc {
        case Starting(_) => StartingCore(w, k, c);
        case Claiming(_, _, _) => ClaimingCore(w, k, c);
        case NeedsCleanup(_) => CleanupCore(w, k, c);
        case _ => CleaningCore(w, k, c);
      }
    }
  }

  /** Someone else uses the manager: reading, creating, cancelling, or completing a healthy job. */
  lemma OutsideCore(w: World, who: nat, call: Call, env: Env)
    requires Custody(w) && Disciplined(w, Outside(who, call, env))
    requires who in w.sys.managers && Admissible(w.sys, call, env)
    ensures Core(w.(sys := After(w.sys, who, call, env)))
  {
    hide Perform, Safe, Settled, InCustody, Shift, Quiet, JoinOutcome;
    assert Inv(w.sys) by { SafeInv(w); }
    hide Inv;
    CallShifts(w.sys, who, call, env);
    var t := After(w.sys, who, call, env);
    ShiftManagers(w.sys, t, who, call);
    forall b | b in w.tasks
      ensures b.executor in t.managers && Settled(t, w.files, b, w.tasks[b])
    {
      OpenUp(w, b);
      assert b.executor == who;
      assert Quiet(w.sys, t, b, call) by { OutsideQuiet(w, t, b, call); }
      SettledStays(w.sys, t, w.files, b, w.tasks[b], call);
    }
    HealthyHasNone(w.sys.disk, w.files);
    CustodyStays(w.sys, t, who, call, w.files);
  }

  lemma OutsideQuiet(w: World, t: System, b: Key, call: Call)
    requires b.executor in w.sys.managers && !call.Take?
    requires call.Move? ==> call.id in w.sys.disk && w.sys.disk[call.id].phase.HealthyUnclaimed?
    ensures Quiet(w.sys, t, b, call)
  {
  }

  lemma HealthyHasNone(disk: Jobs, files: set<JobId>)
    requires InCustody(disk, files)
    ensures forall id :: id in disk && disk[id].phase.HealthyUnclaimed? ==> id !in files
  {
  }

  lemma EnsureCore(w: World, k: Key, env: Env)
    requires Custody(w) && k.executor in w.sys.managers && k !in w.tasks
    ensures Core(Started(w, k, env))
  {
    hide Safe, Settled, InCustody, Perform, JoinOutcome;
    OutsideCore(w, k.executor, Read(k.id), env);
    var (w1, a) := Ask(w, k, Read(k.id), env);
    if a.Success? {
      var t := Worker(Starting(false), a.value, false, false, false, {});
      assert CoreBut(w1, k);
      NewSettled(w1, k, t);
      Close(w1, k, t);
    }
  }

  lemma NewSettled(w: World, k: Key, t: Worker)
    requires k.executor in w.sys.managers && t.pc.Starting?
    ensures Settled(w.sys, w.files, k, t)
  {
  }

  lemma NextCustody(w: World, a: Action)
    requires Custody(w) && Disciplined(w, a)
    ensures Custody(Next(w, a))
  {
    hide Safe, Settled, Perform, Work, Started, Stuck;
    NextSafe(w, a);
    match a {
      case Boot =>
      case Crash =>
      case Outside(who, call, env) =>
        if who in w.sys.managers && Admissible(w.sys, call, env) { OutsideCore(w, who, call, env); }
      case Ensure(k, env) =>
        if k.executor in w.sys.managers && k !in w.tasks { EnsureCore(w, k, env); }
      case Proceed(k, c) =>
        if k in w.tasks && k.executor in w.sys.managers { WorkCore(w, k, c); }
      case Touch(k) =>
        if k in w.tasks && Downloads(w.tasks[k]) { FilesMayAppear(w, k); }
      case Cancel(k) =>
    }
  }

  lemma FreshCustody()
    ensures Custody(FRESH_WORLD)
  {
    FreshSystemInv();
  }

  lemma {:induction false} RunCustody(w: World, actions: seq<Action>)
    requires Custody(w) && DisciplinedRun(w, actions)
    ensures Custody(Play(w, actions))
    decreases |actions|
  {
    hide Custody, Next, Disciplined;
    if actions != [] {
      NextCustody(w, actions[0]);
      RunCustody(Next(w, actions[0]), actions[1..]);
    }
  }

  /**
   * In every state of every run, crashes included, a file in custody belongs
   * to a job that has not ended: every route to an end removes that job's
   * files first, or starts where there can be none.
   */
  lemma CustodyIsConserved(actions: seq<Action>, id: JobId)
    requires DisciplinedRun(FRESH_WORLD, actions)
    requires id in Play(FRESH_WORLD, actions).files
    ensures var w := Play(FRESH_WORLD, actions);
            && id in w.sys.disk && !w.sys.disk[id].IsTerminal()
            && !w.sys.disk[id].phase.HealthyUnclaimed?
  {
    hide Custody, DisciplinedRun, Play;
    FreshCustody();
    RunCustody(FRESH_WORLD, actions);
    FileHasJob(Play(FRESH_WORLD, actions), id);
  }

  lemma FileHasJob(w: World, id: JobId)
    requires Custody(w) && id in w.files
    ensures id in w.sys.disk && !w.sys.disk[id].IsTerminal() && !w.sys.disk[id].phase.HealthyUnclaimed?
  {
    hide Safe, Settled;
  }

  /** A process that starts clears custody of everything but the files of live jobs, and of nothing of theirs. */
  lemma StartKeepsLiveFiles(w: World, id: JobId)
    ensures id in Next(w, Boot).files
            <==> id in w.files && id in w.sys.disk && !w.sys.disk[id].IsTerminal()
  {
  }

  /**
   * At the moment a worker changes the panel, the durable phase is the one the
   * mutation belongs to, under the current claim, exactly when the job has not
   * ended under it. That holds whenever the manager still has the claim.
   */
  lemma MutationHappensInItsPhase(actions: seq<Action>, k: Key)
    requires DisciplinedRun(FRESH_WORLD, actions)
    requires var w := Play(FRESH_WORLD, actions); k in w.tasks && w.tasks[k].pc.Armed?
    ensures var w := Play(FRESH_WORLD, actions);
            var t := w.tasks[k];
            && ((k.id in w.sys.disk && w.sys.disk[k.id].phase == KindPhase(t.pc.kind)
                 && w.sys.disk[k.id].executorGeneration == t.receipt.executorGeneration)
                <==> (k.id in w.sys.disk && !w.sys.disk[k.id].IsTerminal()))
            && k.executor in w.sys.managers
            && (w.sys.managers[k.executor].Holds(k.id, t.receipt.executorGeneration)
                ==> k.id in w.sys.disk && !w.sys.disk[k.id].IsTerminal())
  {
    hide Safe, Valid;
    FreshCustody();
    RunCustody(FRESH_WORLD, actions);
    var w := Play(FRESH_WORLD, actions);
    TaskFacts(w, k);
    assert Settled(w.sys, w.files, k, w.tasks[k]);
  }
}
