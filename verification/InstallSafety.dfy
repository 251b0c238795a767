/**
 * Panel mutations are never replayed: whatever fails, restarts or overlaps, a
 * job's APK is pushed at most once and installed at most once.
 */
module InstallSafety {
  import opened Wrappers
  import opened InstallReceipt
  import opened InstallJobs
  import opened InstallRuns
  import opened InstallExecutor

  /** The claim has been made and the worker holds a copy of its receipt. */
  predicate Running(t: Worker) {
    !t.pc.Starting? && !t.pc.Claiming? && !t.pc.NeedsCleanup? && !t.pc.CleaningFor?
  }

  predicate Equipped(t: Worker, kind: Kind) {
    match kind
    case StagePush => t.local
    case PackageInstall => t.staged
  }

  /** A worker that may still perform this mutation under the claim it holds. */
  predicate Candidate(t: Worker, kind: Kind) {
    Running(t) && t.receipt.phase == KindPhase(kind) && Equipped(t, kind) && kind !in t.done
  }

  /** The durable receipt has reached the mutation's phase, under this claim or beyond it. */
  ghost predicate Reached(sys: System, kind: Kind, id: JobId, executor: nat, generation: nat) {
    && id in sys.seen
    && Lookup(sys.issued, (id, generation)) == Some(executor)
    && (id in sys.disk ==>
          && Rank(sys.disk[id].phase) >= Rank(KindPhase(kind))
          && (sys.disk[id].phase == KindPhase(kind) ==>
                sys.disk[id].executorGeneration == generation))
  }

  /** A worker's copy is some state the durable receipt has been in. */
  ghost predicate Known(sys: System, id: JobId, r: Receipt) {
    id in sys.seen && (id in sys.disk ==> Evolves(r, sys.disk[id]))
  }

  ghost predicate TaskSound(sys: System, k: Key, t: Worker) {
    && k.executor in sys.managers
    && Known(sys, k.id, t.receipt)
    && (if Running(t) then k.role.Runner? else !t.local && !t.staged && t.done == {})
    && (t.pc.Top? && !t.receipt.cancelRequested ==>
          forall kind :: t.receipt.phase == KindPhase(kind) ==> kind !in t.done)
    && (t.pc.Checked? || t.pc.Armed? ==> Candidate(t, t.pc.kind))
    && (t.pc.Armed? ==>
          Reached(sys, t.pc.kind, k.id, k.executor, t.receipt.executorGeneration))
  }

  ghost predicate EffectSound(sys: System, e: Effect) {
    Reached(sys, e.kind, e.id, e.executor, e.generation)
  }

  predicate Performed(log: seq<Effect>, kind: Kind, id: JobId) {
    exists i :: 0 <= i < |log| && log[i].kind == kind && log[i].id == id
  }

  predicate Once(log: seq<Effect>) {
    forall i, j :: 0 <= i < j < |log| ==> !(log[i].kind == log[j].kind && log[i].id == log[j].id)
  }

  /** No worker still intends a mutation that its own claim has already performed. */
  predicate Fresh(k: Key, t: Worker, log: seq<Effect>) {
    && (t.pc.Armed? ==> !Performed(log, t.pc.kind, k.id))
    && (forall kind :: kind in t.done ==> Performed(log, kind, k.id))
    && (forall i :: 0 <= i < |log| ==>
          !(&& log[i].id == k.id && log[i].executor == k.executor
            && log[i].generation == t.receipt.executorGeneration && Candidate(t, log[i].kind)))
  }

  predicate ArmedAlone(tasks: map<Key, Worker>) {
    forall a, b ::
      (a in tasks && b in tasks && a.id == b.id && tasks[a].pc.Armed? && tasks[a].pc == tasks[b].pc)
      ==> a.executor == b.executor
  }

  ghost predicate Safe(sys: System, tasks: map<Key, Worker>, log: seq<Effect>) {
    && Inv(sys)
    && (forall k :: k in tasks ==> TaskSound(sys, k, tasks[k]))
    && (forall i :: 0 <= i < |log| ==> EffectSound(sys, log[i]))
    && Once(log)
    && (forall k :: k in tasks ==> Fresh(k, tasks[k], log))
    && ArmedAlone(tasks)
  }

  ghost predicate SafeWorld(w: World) { Safe(w.sys, w.tasks, w.log) }

  // -------------------------------------------------- the store moves on its own

  lemma ReachedStays(s: System, t: System, kind: Kind, id: JobId, executor: nat, generation: nat)
    requires History(s, t) && Reached(s, kind, id, executor, generation)
    ensures Reached(t, kind, id, executor, generation)
  {
  }

  lemma KnownStays(s: System, t: System, id: JobId, r: Receipt)
    requires History(s, t) && Known(s, id, r)
    ensures Known(t, id, r)
  {
    hide Evolves;
    if id in t.disk {
      EvolvesTransitive(r, s.disk[id], t.disk[id]);
    }
  }

  /** Whatever happens in the store, no task and no past effect loses its guarantee. */
  lemma StoreMovesSafely(s: System, t: System, tasks: map<Key, Worker>, log: seq<Effect>)
    requires Safe(s, tasks, log) && Inv(t) && History(s, t) && s.managers.Keys <= t.managers.Keys
    ensures Safe(t, tasks, log)
  {
    hide Inv, History, Known, Reached, Candidate, Fresh, Once, ArmedAlone;
    forall k | k in tasks ensures TaskSound(t, k, tasks[k]) {
      KnownStays(s, t, k.id, tasks[k].receipt);
      if tasks[k].pc.Armed? {
        ReachedStays(s, t, tasks[k].pc.kind, k.id, k.executor, tasks[k].receipt.executorGeneration);
      }
    }
    forall i | 0 <= i < |log| ensures EffectSound(t, log[i]) {
      ReachedStays(s, t, log[i].kind, log[i].id, log[i].executor, log[i].generation);
    }
  }

  // --------------------------------------------------- one task moves on its own

  /** A worker's new state is sound and intends nothing its claim has performed. */
  lemma PutTask(w: World, k: Key, t: Worker)
    requires SafeWorld(w) && TaskSound(w.sys, k, t) && !t.pc.Armed?
    requires Fresh(k, t, w.log)
    ensures SafeWorld(Goto(w, k, t))
  {
    hide Inv, TaskSound, EffectSound, Fresh, Once;
  }

  lemma DropTask(w: World, k: Key, park: bool)
    requires SafeWorld(w)
    ensures SafeWorld(Stop(w, k, park))
  {
    hide Inv, TaskSound, EffectSound, Fresh, Once;
  }

  /** Moving the counter alone never creates an intention. */
  lemma MoveCounter(w: World, k: Key, pc: Pc)
    requires SafeWorld(w) && k in w.tasks && !pc.Armed? && !pc.Checked? && !pc.Top?
    requires Running(w.tasks[k]) <==> Running(w.tasks[k].(pc := pc))
    ensures SafeWorld(At(w, k, pc))
  {
    var t := w.tasks[k].(pc := pc);
    assert forall kind :: Candidate(t, kind) ==> Candidate(w.tasks[k], kind);
    hide Known, Reached, EffectSound, Inv, Once, ArmedAlone;
    PutTask(w, k, t);
  }

  lemma AskKeepsSafe(w: World, k: Key, call: Call, env: Env)
    requires SafeWorld(w) && k.executor in w.sys.managers && !call.Create?
    ensures SafeWorld(Ask(w, k, call, env).0)
    ensures Ask(w, k, call, env).0.tasks == w.tasks && Ask(w, k, call, env).0.log == w.log
    ensures k.executor in Ask(w, k, call, env).0.sys.managers
  {
    hide Perform, TaskSound, EffectSound, Fresh, Once, ArmedAlone, Inv, History;
    StepKeepsInv(w.sys, Invoke(k.executor, call, env));
    StepHistory(w.sys, Invoke(k.executor, call, env));
    StoreMovesSafely(w.sys, After(w.sys, k.executor, call, env), w.tasks, w.log);
  }

  /** A receipt the store has just answered with is known there. */
  lemma AnswerIsKnown(w: World, k: Key, call: Call, env: Env)
    requires SafeWorld(w) && k.executor in w.sys.managers && !call.Create? && !call.Cancel?
    requires call.id == k.id
    ensures var (w1, a) := Ask(w, k, call, env); a.Success? ==> Known(w1.sys, k.id, a.value)
  {
    hide Perform, TaskSound, EffectSound, Fresh, Once, ArmedAlone, Inv, Evolves, Safe;
    if Ask(w, k, call, env).1.Success? {
      AnswerIsDurable(w.sys.disk, w.sys.managers[k.executor], call, env);
      EvolvesReflexive(Ask(w, k, call, env).1.value);
    }
  }

  // ------------------------------------------------------------- one step each

  /** Before its phase is durable, a mutation has never been performed. */
  lemma NothingBeforeItsPhase(w: World, kind: Kind, id: JobId)
    requires SafeWorld(w) && id in w.sys.disk
    requires Rank(w.sys.disk[id].phase) < Rank(KindPhase(kind))
    ensures !Performed(w.log, kind, id)
  {
    hide Inv, TaskSound, Fresh, Once, ArmedAlone;
    forall i | 0 <= i < |w.log|
      ensures !(w.log[i].kind == kind && w.log[i].id == id)
    {
      assert EffectSound(w.sys, w.log[i]);
    }
  }

  lemma NothingAfterItsPhase(w: World, kind: Kind, id: JobId)
    requires SafeWorld(w) && id in w.sys.disk && Performed(w.log, kind, id)
    ensures Rank(w.sys.disk[id].phase) >= Rank(KindPhase(kind))
  {
    if Rank(w.sys.disk[id].phase) < Rank(KindPhase(kind)) {
      NothingBeforeItsPhase(w, kind, id);
    }
  }

  lemma StartSafe(w: World, k: Key, c: Choice)
    requires SafeWorld(w) && k in w.tasks && k.executor in w.sys.managers && !Running(w.tasks[k])
    ensures SafeWorld(StartStep(w, k, c))
  {
    hide Safe, Inv, Ask, Running;
    var t := w.tasks[k];
    match t.pc {
      case Starting(retried) =>
        var (w1, a) := Ask(w, k, Read(k.id), c.env);
        AskKeepsSafe(w, k, Read(k.id), c.env);
        DropTask(w1, k, true);
        DropTask(w1, k, false);
        if a.Success? {
          PutAnswer(w, k, Read(k.id), c.env, Claiming(a.value.revision, None, retried));
        }
      case Claiming(revision, cleaned, retried) =>
        ClaimSafe(w, k, Take(k.id, revision, cleaned), c.env);
        var w1 := Ask(w, k, Take(k.id, revision, cleaned), c.env).0;
        DropTask(w1, k, true);
        DropTask(w1, k, false);
        MoveStart(w1, k, NeedsCleanup(retried));
        MoveStart(w1, k, Starting(true));
      case NeedsCleanup(retried) =>
        var (w1, a) := Ask(w, k, Read(k.id), c.env);
        AskKeepsSafe(w, k, Read(k.id), c.env);
        DropTask(w1, k, true);
        if a.Success? {
          PutAnswer(w, k, Read(k.id), c.env, CleaningFor(a.value.revision, retried));
        }
      case CleaningFor(revision, retried) =>
        DropTask(w, k, true);
        CleanedSafe(w, k.id);
        MoveStart(Cleaned(w, k.id), k, Claiming(revision, Some(revision), retried));
      case _ =>
    }
  }

  lemma MoveStart(w: World, k: Key, pc: Pc)
    requires SafeWorld(w) && k in w.tasks && !Running(w.tasks[k])
    requires pc.Starting? || pc.Claiming? || pc.NeedsCleanup?
    ensures SafeWorld(At(w, k, pc))
  {
    hide Safe;
    MoveCounter(w, k, pc);
  }

  lemma PutAnswer(w: World, k: Key, call: Call, env: Env, pc: Pc)
    requires SafeWorld(w) && k in w.tasks && k.executor in w.sys.managers && !Running(w.tasks[k])
    requires call == Read(k.id) && Ask(w, k, call, env).1.Success?
    requires pc.Claiming? || pc.CleaningFor?
    ensures var (w1, a) := Ask(w, k, call, env);
            SafeWorld(Goto(w1, k, w.tasks[k].(pc := pc, receipt := a.value)))
  {
    assert TaskSound(w.sys, k, w.tasks[k]);
    hide Safe, Inv, Known, Reached, Perform;
    AskKeepsSafe(w, k, call, env);
    AnswerIsKnown(w, k, call, env);
    PutIdle(Ask(w, k, call, env).0, k, w.tasks[k].(pc := pc, receipt := Ask(w, k, call, env).1.value));
  }

  lemma ClaimSafe(w: World, k: Key, call: Call, env: Env)
    requires SafeWorld(w) && k in w.tasks && k.executor in w.sys.managers && !Running(w.tasks[k])
    requires call.Take? && call.id == k.id
    ensures var (w1, a) := Ask(w, k, call, env);
            && SafeWorld(w1) && k in w1.tasks && w1.tasks == w.tasks && k.executor in w1.sys.managers
            && (a.Success? && k.role.Runner? ==>
                  SafeWorld(Goto(w1, k, w.tasks[k].(pc := Top, receipt := a.value))))
  {
    assert TaskSound(w.sys, k, w.tasks[k]);
    hide Safe, Inv, Known, Reached, Perform;
    AskKeepsSafe(w, k, call, env);
    var (w1, a) := Ask(w, k, call, env);
    if a.Success? && k.role.Runner? {
      AnswerIsKnown(w, k, call, env);
      PutUnequipped(w1, k, w.tasks[k].(pc := Top, receipt := a.value));
    }
  }

  lemma CleanedSafe(w: World, id: JobId)
    requires SafeWorld(w)
    ensures SafeWorld(Cleaned(w, id))
  {
  }

  /** A task that is not running, or holds no file, intends no mutation. */
  lemma PutIdle(w: World, k: Key, t: Worker)
    requires SafeWorld(w) && k.executor in w.sys.managers && Known(w.sys, k.id, t.receipt)
    requires !Running(t) && !t.local && !t.staged && t.done == {}
    ensures SafeWorld(Goto(w, k, t))
  {
    hide Known, Reached, EffectSound, Inv, Once, ArmedAlone;
    PutTask(w, k, t);
  }

  lemma PutUnequipped(w: World, k: Key, t: Worker)
    requires SafeWorld(w) && k.executor in w.sys.managers && Known(w.sys, k.id, t.receipt)
    requires t.pc.Top? && !t.local && !t.staged && t.done == {} && k.role.Runner?
    ensures SafeWorld(Goto(w, k, t))
  {
    hide Known, Reached, EffectSound, Inv, Once, ArmedAlone;
    PutTask(w, k, t);
  }

  /** A running task that changes outside the two mutation phases. */
  lemma PutElsewhere(w: World, k: Key, t: Worker)
    requires SafeWorld(w) && k in w.tasks && Running(w.tasks[k]) && Running(t)
    requires Known(w.sys, k.id, t.receipt) && t.done == w.tasks[k].done
    requires forall kind :: t.receipt.phase != KindPhase(kind)
    requires !t.pc.Checked? && !t.pc.Armed?
    ensures SafeWorld(Goto(w, k, t))
  {
    assert TaskSound(w.sys, k, w.tasks[k]) && Fresh(k, w.tasks[k], w.log);
    hide Known, Reached, EffectSound, Inv, Once, ArmedAlone;
    PutTask(w, k, t);
  }

  /** A running task that learns of a cancellation keeps its claim and its intentions. */
  lemma PutCancelled(w: World, k: Key, r: Receipt)
    requires SafeWorld(w) && k in w.tasks && Running(w.tasks[k])
    requires Known(w.sys, k.id, r) && r.cancelRequested && r.phase == w.tasks[k].receipt.phase
    requires r.executorGeneration == w.tasks[k].receipt.executorGeneration
    ensures SafeWorld(Goto(w, k, w.tasks[k].(pc := Top, receipt := r)))
  {
    var t := w.tasks[k].(pc := Top, receipt := r);
    assert TaskSound(w.sys, k, w.tasks[k]) && Fresh(k, w.tasks[k], w.log);
    assert forall kind :: Candidate(t, kind) <==> Candidate(w.tasks[k], kind);
    hide Known, Reached, EffectSound, Inv, Once, ArmedAlone;
    PutTask(w, k, t);
  }

  lemma PutLanded(w: World, k: Key, r: Receipt)
    requires SafeWorld(w) && k in w.tasks && Running(w.tasks[k]) && Known(w.sys, k.id, r)
    requires forall kind :: r.phase == KindPhase(kind) ==> !Performed(w.log, kind, k.id)
    ensures SafeWorld(Goto(w, k, w.tasks[k].(pc := Top, receipt := r)))
  {
    assert TaskSound(w.sys, k, w.tasks[k]) && Fresh(k, w.tasks[k], w.log);
    hide Known, Reached, EffectSound, Inv, Once, ArmedAlone;
    PutTask(w, k, w.tasks[k].(pc := Top, receipt := r));
  }

  /** A move that lands takes the job somewhere no mutation has been performed for yet. */
  lemma LandSafe(w: World, k: Key, revision: nat, a: Advance, env: Env)
    requires SafeWorld(w) && k in w.tasks && Running(w.tasks[k]) && k.executor in w.sys.managers
    ensures var p := Ask(w, k, Move(k.id, revision, a), env);
            && SafeWorld(p.0) && p.0.tasks == w.tasks && k.executor in p.0.sys.managers
            && (p.1.Success? ==>
                  SafeWorld(Goto(p.0, k, w.tasks[k].(pc := Top, receipt := p.1.value))))
  {
    hide Safe, Inv, Known, Reached, Perform, Running, Performed;
    var call := Move(k.id, revision, a);
    var p := Ask(w, k, call, env);
    AskKeepsSafe(w, k, call, env);
    if p.1.Success? {
      AnswerIsKnown(w, k, call, env);
      AnswerIsDurable(w.sys.disk, w.sys.managers[k.executor], call, env);
      NextPhaseAdvances(w.sys.disk[k.id].phase, a.phase);
      forall kind | a.phase == KindPhase(kind)
        ensures !Performed(w.log, kind, k.id)
      {
        NothingBeforeItsPhase(w, kind, k.id);
      }
      PutLanded(p.0, k, p.1.value);
    }
  }

  lemma MoveSafe(w: World, k: Key, c: Choice)
    requires SafeWorld(w) && k in w.tasks && Running(w.tasks[k]) && k.executor in w.sys.managers
    ensures w.tasks[k].pc.Moving? ==> SafeWorld(MoveStep(w, k, w.tasks[k].pc.advance, c))
    ensures w.tasks[k].pc.FailAt? ==>
              SafeWorld(EndAt(w, k, w.tasks[k].pc.revision, Ending(Failed, w.tasks[k].pc.code), c))
    ensures w.tasks[k].pc.RecoverAt? ==>
              SafeWorld(EndAt(w, k, w.tasks[k].pc.revision,
                              Ending(RecoveryRequired, w.tasks[k].pc.code), c))
  {
    hide Safe, Inv, Ask;
    match w.tasks[k].pc {
      case Moving(a) =>
        LandSafe(w, k, w.tasks[k].receipt.revision, a, c.env);
        var w1 := Ask(w, k, Move(k.id, w.tasks[k].receipt.revision, a), c.env).0;
        DropTask(w1, k, true);
        MoveCounter(w1, k, Rechecking);
      case FailAt(revision, code) =>
        LandSafe(w, k, revision, Ending(Failed, code), c.env);
        DropTask(Ask(w, k, Move(k.id, revision, Ending(Failed, code)), c.env).0, k, true);
      case RecoverAt(revision, code) =>
        LandSafe(w, k, revision, Ending(RecoveryRequired, code), c.env);
        DropTask(Ask(w, k, Move(k.id, revision, Ending(RecoveryRequired, code)), c.env).0, k, true);
      case _ =>
    }
  }

  /** Reading the receipt again: the copy is known, and the worker may stop or go on. */
  lemma ReadSafe(w: World, k: Key, env: Env)
    requires SafeWorld(w) && k in w.tasks && k.executor in w.sys.managers
    ensures var (w1, a) := Ask(w, k, Read(k.id), env);
            && SafeWorld(w1) && w1.tasks == w.tasks && SafeWorld(Stop(w1, k, true))
            && (a.Success? ==> Known(w1.sys, k.id, a.value))
  {
    hide Safe, Inv, Known, Perform;
    AskKeepsSafe(w, k, Read(k.id), env);
    DropTask(Ask(w, k, Read(k.id), env).0, k, true);
    if Ask(w, k, Read(k.id), env).1.Success? {
      AnswerIsKnown(w, k, Read(k.id), env);
    }
  }

  lemma RereadSafe(w: World, k: Key, c: Choice, at: nat -> Pc)
    requires SafeWorld(w) && k in w.tasks && Running(w.tasks[k]) && k.executor in w.sys.managers
    requires forall n :: var pc := at(n);
               pc.FailAt? || pc.RecoverClean? || pc.RecoverAt?
    ensures SafeWorld(Reread(w, k, c, at))
  {
    hide Safe, Inv, Ask, Known;
    ReadSafe(w, k, c.env);
    var (w1, a) := Ask(w, k, Read(k.id), c.env);
    if a.Success? {
      if a.value.IsTerminal() {
        PutLanded(w1, k, a.value);
      } else {
        var pc := at(a.value.revision);
        MoveCounter(w1, k, pc);
      }
    }
  }

  lemma RecheckSafe(w: World, k: Key, c: Choice)
    requires SafeWorld(w) && k in w.tasks && Running(w.tasks[k]) && k.executor in w.sys.managers
    ensures SafeWorld(RecheckStep(w, k, c))
  {
    hide Safe, Inv, Ask, Known;
    ReadSafe(w, k, c.env);
    var (w1, a) := Ask(w, k, Read(k.id), c.env);
    var r := w.tasks[k].receipt;
    if && a.Success? && a.value.cancelRequested && a.value.phase == r.phase
       && a.value.executorGeneration == r.executorGeneration {
      PutCancelled(w1, k, a.value);
    }
  }

  /** Asking for authority only ever checks, learns of a cancellation, or gives up. */
  lemma AuthorizeSafe(w: World, k: Key, kind: Kind, c: Choice)
    requires SafeWorld(w) && k in w.tasks && k.executor in w.sys.managers
    requires w.tasks[k].pc.Top? && Candidate(w.tasks[k], kind)
    ensures SafeWorld(Authorize(w, k, kind, c))
  {
    hide Safe, Inv, Ask, Known, Unauthorized;
    UnauthorizedSafe(w, k, kind, false);
    ReadSafe(w, k, c.env);
    var (w1, a) := Ask(w, k, Read(k.id), c.env);
    var r := w.tasks[k].receipt;
    CheckCounter(w1, k, kind);
    if && a.Success? && a.value.cancelRequested && a.value.phase == r.phase
       && a.value.executorGeneration == r.executorGeneration {
      PutCancelled(w1, k, a.value);
    }
  }

  lemma CheckCounter(w: World, k: Key, kind: Kind)
    requires SafeWorld(w) && k in w.tasks && Candidate(w.tasks[k], kind)
    ensures SafeWorld(At(w, k, Checked(kind)))
  {
    var t := w.tasks[k].(pc := Checked(kind));
    assert TaskSound(w.sys, k, w.tasks[k]) && Fresh(k, w.tasks[k], w.log);
    assert forall other :: Candidate(t, other) ==> Candidate(w.tasks[k], other);
    hide Known, Reached, EffectSound, Inv, Once, ArmedAlone;
    PutTask(w, k, t);
  }

  lemma UnauthorizedSafe(w: World, k: Key, kind: Kind, policy: bool)
    requires SafeWorld(w) && k in w.tasks && Running(w.tasks[k])
    ensures SafeWorld(Unauthorized(w, k, kind, policy))
  {
    hide Safe;
    MoveCounter(w, k, CleanFail(if policy then ArtifactRejected else TransportFailed));
    MoveCounter(w, k, InstallRefused);
    MoveCounter(w, k, Recovering(VerificationRequired));
  }

  /**
   * Passing the barrier proves the worker's claim current, so nobody has
   * performed this mutation and nobody else is about to.
   */
  lemma ArmSafe(w: World, k: Key, kind: Kind, env: Env)
    requires SafeWorld(w) && k in w.tasks && k.executor in w.sys.managers
    requires w.tasks[k].pc == Checked(kind)
    ensures var r := w.tasks[k].receipt;
            var (w1, a) := Ask(w, k, Barrier(k.id, r.revision, r.phase), env);
            a.Success? ==> !Performed(w.log, kind, k.id) && SafeWorld(At(w1, k, Armed(kind)))
  {
    if Ask(w, k, Barrier(k.id, w.tasks[k].receipt.revision, w.tasks[k].receipt.phase), env).1.Success? {
      var r := w.tasks[k].receipt;
      var call := Barrier(k.id, r.revision, r.phase);
      var w1 := Ask(w, k, call, env).0;
      AskKeepsSafe(w, k, call, env);
      BarrierFacts(w, k, call, env);
      hide Perform, After, Ask, Inv;
      NeverPerformed(w, k, kind);
      NobodyElseArmed(w, k, kind);
      PutArmed(w1, k, kind);
    }
  }

  /** A passed barrier: the copy is the durable receipt, and the claim on it is this manager's. */
  lemma BarrierFacts(w: World, k: Key, call: Call, env: Env)
    requires SafeWorld(w) && k in w.tasks && k.executor in w.sys.managers && Running(w.tasks[k])
    requires call == Barrier(k.id, w.tasks[k].receipt.revision, w.tasks[k].receipt.phase)
    ensures var (w1, a) := Ask(w, k, call, env);
            a.Success? ==>
              && k.id in w.sys.disk && w.sys.disk[k.id] == w.tasks[k].receipt
              && Lookup(w.sys.issued, (k.id, w.tasks[k].receipt.executorGeneration)) == Some(k.executor)
              && w1.sys.disk == w.sys.disk && w1.sys.issued == w.sys.issued
  {
    hide Perform, Reached, Once, ArmedAlone, Accepted, DiskStep, ClaimsStep;
    if Ask(w, k, call, env).1.Success? {
      PerformStep(w.sys.disk, w.sys.managers[k.executor], call, env);
      AnswerIsDurable(w.sys.disk, w.sys.managers[k.executor], call, env);
      assert TaskSound(w.sys, k, w.tasks[k]);
      assert Backed(w.sys, k.executor);
    }
  }

  lemma NeverPerformed(w: World, k: Key, kind: Kind)
    requires SafeWorld(w) && k in w.tasks && Candidate(w.tasks[k], kind)
    requires k.id in w.sys.disk && w.sys.disk[k.id] == w.tasks[k].receipt
    requires Lookup(w.sys.issued, (k.id, w.tasks[k].receipt.executorGeneration)) == Some(k.executor)
    ensures !Performed(w.log, kind, k.id)
  {
    hide Inv, Once, ArmedAlone, TaskSound;
    forall i | 0 <= i < |w.log|
      ensures !(w.log[i].kind == kind && w.log[i].id == k.id)
    {
      assert EffectSound(w.sys, w.log[i]);
      assert Fresh(k, w.tasks[k], w.log);
    }
  }

  lemma NobodyElseArmed(w: World, k: Key, kind: Kind)
    requires SafeWorld(w) && k in w.tasks && Candidate(w.tasks[k], kind)
    requires k.id in w.sys.disk && w.sys.disk[k.id] == w.tasks[k].receipt
    requires Lookup(w.sys.issued, (k.id, w.tasks[k].receipt.executorGeneration)) == Some(k.executor)
    ensures forall b :: b in w.tasks && b.id == k.id && w.tasks[b].pc == Armed(kind) ==>
              b.executor == k.executor
  {
    hide Inv, Once, ArmedAlone, EffectSound, Fresh, Known;
    forall b | b in w.tasks && b.id == k.id && w.tasks[b].pc == Armed(kind)
      ensures b.executor == k.executor
    {
      assert TaskSound(w.sys, b, w.tasks[b]);
    }
  }

  lemma PutArmed(w: World, k: Key, kind: Kind)
    requires SafeWorld(w) && k in w.tasks && w.tasks[k].pc == Checked(kind)
    requires k.id in w.sys.disk && w.sys.disk[k.id] == w.tasks[k].receipt
    requires Lookup(w.sys.issued, (k.id, w.tasks[k].receipt.executorGeneration)) == Some(k.executor)
    requires !Performed(w.log, kind, k.id)
    requires forall b :: b in w.tasks && b.id == k.id && w.tasks[b].pc == Armed(kind) ==>
               b.executor == k.executor
    ensures SafeWorld(At(w, k, Armed(kind)))
  {
    hide Inv, Once, EffectSound, Fresh, TaskSound, Known, Reached, Performed;
    ArmedTask(w, k, kind);
  }

  lemma ArmedTask(w: World, k: Key, kind: Kind)
    requires SafeWorld(w) && k in w.tasks && w.tasks[k].pc == Checked(kind)
    requires k.id in w.sys.disk && w.sys.disk[k.id] == w.tasks[k].receipt
    requires Lookup(w.sys.issued, (k.id, w.tasks[k].receipt.executorGeneration)) == Some(k.executor)
    requires !Performed(w.log, kind, k.id)
    ensures TaskSound(w.sys, k, w.tasks[k].(pc := Armed(kind)))
    ensures Fresh(k, w.tasks[k].(pc := Armed(kind)), w.log)
  {
    hide Once, EffectSound, Performed, ArmedAlone;
    var t := w.tasks[k].(pc := Armed(kind));
    assert TaskSound(w.sys, k, w.tasks[k]) && Fresh(k, w.tasks[k], w.log);
    assert forall other :: Candidate(t, other) ==> Candidate(w.tasks[k], other);
  }

  lemma TaskFacts(w: World, k: Key)
    requires SafeWorld(w) && k in w.tasks
    ensures k.executor in w.sys.managers && Known(w.sys, k.id, w.tasks[k].receipt)
    ensures Running(w.tasks[k]) ==> k.role.Runner?
    ensures w.tasks[k].pc.Checked? || w.tasks[k].pc.Armed? ==>
              Candidate(w.tasks[k], w.tasks[k].pc.kind)
    ensures w.tasks[k].pc.Top? && !w.tasks[k].receipt.cancelRequested ==>
              forall kind :: w.tasks[k].receipt.phase == KindPhase(kind) ==> kind !in w.tasks[k].done
  {
    assert TaskSound(w.sys, k, w.tasks[k]);
  }

  lemma CheckedSafe(w: World, k: Key, c: Choice)
    requires SafeWorld(w) && k in w.tasks && k.executor in w.sys.managers && w.tasks[k].pc.Checked?
    ensures SafeWorld(Work(w, k, c))
  {
    hide Safe, Inv, Ask, Known, Reached, Unauthorized;
    TaskFacts(w, k);
    var t := w.tasks[k];
    var call := Barrier(k.id, t.receipt.revision, t.receipt.phase);
    var (w1, a) := Ask(w, k, call, c.env);
    AskKeepsSafe(w, k, call, c.env);
    DropTask(w1, k, true);
    UnauthorizedSafe(w1, k, t.pc.kind, c.branch.Refused?);
    if a.Success? {
      ArmSafe(w, k, t.pc.kind, c.env);
    }
  }

  /** The mutation is recorded once, and nobody is left intending it again. */
  lemma MutateSafe(w: World, k: Key, c: Choice)
    requires SafeWorld(w) && k in w.tasks && w.tasks[k].pc.Armed?
    ensures SafeWorld(MutateStep(w, k, w.tasks[k].pc.kind, c))
  {
    hide Safe, Inv, Known, Reached;
    TaskFacts(w, k);
    var kind := w.tasks[k].pc.kind;
    if c.branch.Declined? {
      MoveCounter(w, k, CleanFail(TransportFailed));
      MoveCounter(w, k, InstallRefused);
    } else {
      LogSafe(w, k, kind, Mutated(w.tasks[k], kind, c));
    }
  }

  lemma LogSafe(w: World, k: Key, kind: Kind, t: Worker)
    requires SafeWorld(w) && k in w.tasks && w.tasks[k].pc == Armed(kind)
    requires t.receipt == w.tasks[k].receipt && t.done == w.tasks[k].done + {kind}
    requires Running(t) && !t.pc.Top? && !t.pc.Checked? && !t.pc.Armed?
    ensures Safe(w.sys, w.tasks[k := t],
                 w.log + [Effect(kind, k.id, k.executor, w.tasks[k].receipt.executorGeneration)])
  {
    var e := Effect(kind, k.id, k.executor, w.tasks[k].receipt.executorGeneration);
    var log' := w.log + [e];
    assert TaskSound(w.sys, k, w.tasks[k]) && Fresh(k, w.tasks[k], w.log);
    assert TaskSound(w.sys, k, t);
    assert EffectSound(w.sys, e);
    LoggedOnce(w.log, e);
    PerformedGrows(w.log, e);
    var tasks' := w.tasks[k := t];
    forall b | b in tasks'
      ensures Fresh(b, tasks'[b], log')
    {
      if b == k {
        DoneStaysFresh(w, k, kind, t);
      } else {
        assert TaskSound(w.sys, b, w.tasks[b]);
        OthersStayFresh(w, k, kind, b);
      }
    }
    hide Inv, Fresh, Known, Reached, Once, Performed, TaskSound, EffectSound;
  }

  lemma LoggedOnce(log: seq<Effect>, e: Effect)
    requires Once(log) && !Performed(log, e.kind, e.id)
    ensures Once(log + [e])
  {
  }

  lemma PerformedGrows(log: seq<Effect>, e: Effect)
    ensures forall kind, id :: Performed(log, kind, id) ==> Performed(log + [e], kind, id)
    ensures Performed(log + [e], e.kind, e.id)
    ensures forall kind, id ::
              Performed(log + [e], kind, id) && !Performed(log, kind, id) ==> kind == e.kind && id == e.id
  {
    assert (log + [e])[|log|] == e;
    forall kind, id | Performed(log, kind, id) ensures Performed(log + [e], kind, id) {
      var i :| 0 <= i < |log| && log[i].kind == kind && log[i].id == id;
      assert (log + [e])[i] == log[i];
    }
  }

  lemma DoneStaysFresh(w: World, k: Key, kind: Kind, t: Worker)
    requires k in w.tasks && w.tasks[k].pc == Armed(kind) && Candidate(w.tasks[k], kind)
    requires Fresh(k, w.tasks[k], w.log)
    requires t.receipt == w.tasks[k].receipt && t.done == w.tasks[k].done + {kind}
    requires Running(t) && !t.pc.Armed?
    ensures Fresh(k, t, w.log + [Effect(kind, k.id, k.executor, t.receipt.executorGeneration)])
  {
    var e := Effect(kind, k.id, k.executor, t.receipt.executorGeneration);
    PerformedGrows(w.log, e);
    hide Performed;
    assert forall other :: !Candidate(t, other);
  }

  lemma OthersStayFresh(w: World, k: Key, kind: Kind, b: Key)
    requires k in w.tasks && b in w.tasks && b != k && Fresh(b, w.tasks[b], w.log)
    requires w.tasks[k].pc == Armed(kind) && k.role.Runner?
    requires Running(w.tasks[b]) ==> b.role.Runner?
    requires ArmedAlone(w.tasks)
    ensures Fresh(b, w.tasks[b], w.log + [Effect(kind, k.id, k.executor,
                                                 w.tasks[k].receipt.executorGeneration)])
  {
    var e := Effect(kind, k.id, k.executor, w.tasks[k].receipt.executorGeneration);
    PerformedGrows(w.log, e);
    hide Performed;
  }

  lemma DownloadSafe(w: World, k: Key, c: Choice, next: Phase)
    requires SafeWorld(w) && k in w.tasks && w.tasks[k].pc.Top?
    requires forall kind :: w.tasks[k].receipt.phase != KindPhase(kind)
    ensures SafeWorld(Download(w, k, c, next))
    ensures SafeWorld(HaveArtifact(w, k, c, next))
  {
    hide Safe, Known, Reached;
    TaskFacts(w, k);
    var t := w.tasks[k];
    DropTask(w, k, true);
    DropTask(w, k, false);
    CleanedSafe(w, k.id);
    PutElsewhere(Cleaned(w, k.id), k, t.(staleRemoved := true));
    if c.branch.Refused? {
      MoveCounter(w, k, CleanFail(c.branch.code));
    }
    MoveCounter(w, k, Moving(To(next)));
    FilesFree(w, w.files + {k.id});
    var advance :=
      if next.ArtifactReady? then To(next).(actualApkBytes := Some(t.receipt.artifact.apkSize))
      else To(next);
    PutElsewhere(w.(files := w.files + {k.id}), k, t.(pc := Moving(advance), local := true));
  }

  lemma FilesFree(w: World, files: set<JobId>)
    requires SafeWorld(w)
    ensures SafeWorld(w.(files := files))
  {
  }

  /** A remote step under a barrier only moves the counter. */
  lemma GuardedSafe(w: World, k: Key, call: Call, c: Choice, good: Pc, bad: Pc)
    requires SafeWorld(w) && k in w.tasks && Running(w.tasks[k]) && k.executor in w.sys.managers
    requires !call.Create?
    requires forall pc :: pc == good || pc == bad ==>
               !pc.Armed? && !pc.Checked? && !pc.Top? && Running(w.tasks[k].(pc := pc))
    ensures SafeWorld(Guarded(w, k, call, c, good, bad))
  {
    hide Safe, Ask, Inv;
    AskKeepsSafe(w, k, call, c.env);
    var w1 := Ask(w, k, call, c.env).0;
    MoveCounter(w, k, bad);
    MoveCounter(w1, k, bad);
    MoveCounter(w1, k, good);
    DropTask(w1, k, true);
  }

  lemma CancelSafe(w: World, k: Key, c: Choice)
    requires SafeWorld(w) && k in w.tasks && w.tasks[k].pc.Top? && k.executor in w.sys.managers
    ensures SafeWorld(CancelStep(w, k, c))
  {
    hide Safe, Ask, Inv;
    var t := w.tasks[k];
    var call := CleanupBarrier(k.id, t.receipt.revision, t.receipt.phase);
    AskKeepsSafe(w, k, call, c.env);
    var w1 := Ask(w, k, call, c.env).0;
    MoveCounter(w, k, CancelLocal);
    MoveCounter(w1, k, CancelLocal);
    MoveCounter(w, k, Recovering(VerificationRequired));
    MoveCounter(w1, k, Recovering(VerificationRequired));
    MoveCounter(w1, k, Recovering(AmbiguousMutation));
    DropTask(w1, k, true);
  }

  lemma TopSafe(w: World, k: Key, c: Choice)
    requires SafeWorld(w) && k in w.tasks && w.tasks[k].pc.Top? && k.executor in w.sys.managers
    ensures SafeWorld(TopStep(w, k, c))
  {
    hide Safe, Inv, Ask, CancelStep, Authorize, Download, HaveArtifact, Known, Reached;
    var t := w.tasks[k];
    DropTask(w, k, false);
    CancelSafe(w, k, c);
    TaskFacts(w, k);
    if !t.receipt.cancelRequested {
      match t.receipt.phase {
        case Approved => MoveCounter(w, k, Moving(To(Authorizing)));
        case Authorizing =>
          if c.branch.Refused? { MoveCounter(w, k, Failing(c.branch.code)); }
          MoveCounter(w, k, Moving(To(Preflight)));
        case Preflight =>
          if c.branch.Refused? { MoveCounter(w, k, Failing(c.branch.code)); }
          MoveCounter(w, k, Moving(To(Installed).(rootMode := Some(c.rootMode), actualApkBytes := Some(c.bytes))));
          MoveCounter(w, k, Moving(To(Downloading).(rootMode := Some(c.rootMode))));
        case Downloading => DownloadSafe(w, k, c, ArtifactReady);
        case ArtifactReady => DownloadSafe(w, k, c, Revalidating);
        case Revalidating => DownloadSafe(w, k, c, Staging);
        case Staging =>
          MoveCounter(w, k, Recovering(AmbiguousMutation));
          if t.local { AuthorizeSafe(w, k, StagePush, c); }
        case Installing =>
          MoveCounter(w, k, Recovering(AmbiguousMutation));
          if t.staged { AuthorizeSafe(w, k, PackageInstall, c); }
        case Installed =>
          CleanedSafe(w, k.id);
          PutElsewhere(Cleaned(w, k.id), k, t.(pc := Moving(To(Launching)), staged := true));
          PutElsewhere(w, k, t.(pc := Recovering(VerificationRequired), staged := true));
        case Launching =>
          LaunchSafe(w, k, c);
        case HealthCheck =>
          MoveCounter(w, k, Moving(To(HealthyUnclaimed).(healthCheckedAt := Some(c.env.now))));
          MoveCounter(w, k, Recovering(VerificationRequired));
        case _ =>
      }
    }
  }

  lemma LaunchSafe(w: World, k: Key, c: Choice)
    requires SafeWorld(w) && k in w.tasks && w.tasks[k].pc.Top? && k.executor in w.sys.managers
    requires w.tasks[k].receipt.phase.Launching? && !w.tasks[k].receipt.cancelRequested
    ensures SafeWorld(TopStep(w, k, c))
  {
    hide Safe, Ask, Inv;
    var t := w.tasks[k];
    var call := CleanupBarrier(k.id, t.receipt.revision, t.receipt.phase);
    AskKeepsSafe(w, k, call, c.env);
    var w1 := Ask(w, k, call, c.env).0;
    MoveCounter(w, k, Recovering(AmbiguousMutation));
    MoveCounter(w, k, Recovering(VerificationRequired));
    MoveCounter(w1, k, Lost(c));
    MoveCounter(w1, k, LaunchReady);
    DropTask(w1, k, true);
  }

  /** Removing custody, then going on, failing over to recovery, or stopping. */
  lemma LocalSafe(w: World, k: Key, good: Pc, bad: Pc)
    requires SafeWorld(w) && k in w.tasks && Running(w.tasks[k])
    requires forall pc :: pc == good || pc == bad ==>
               !pc.Armed? && !pc.Checked? && !pc.Top? && Running(w.tasks[k].(pc := pc))
    ensures SafeWorld(At(w, k, good)) && SafeWorld(At(Cleaned(w, k.id), k, good))
    ensures SafeWorld(At(w, k, bad)) && SafeWorld(Stop(w, k, true)) && SafeWorld(Stop(w, k, false))
  {
    hide Safe;
    CleanedSafe(w, k.id);
    MoveCounter(w, k, good);
    MoveCounter(Cleaned(w, k.id), k, good);
    MoveCounter(w, k, bad);
    DropTask(w, k, true);
    DropTask(w, k, false);
  }

  /** The points where the worker reads the receipt again before it ends the job. */
  lemma RereadingSafe(w: World, k: Key, c: Choice)
    requires SafeWorld(w) && k in w.tasks && k.executor in w.sys.managers
    requires var pc := w.tasks[k].pc; pc.Failing? || pc.Recovering? || pc.RecoverRead?
    ensures SafeWorld(Work(w, k, c))
  {
    hide Safe, Inv, Ask, Reread, TopStep, MoveStep, RecheckStep, MutateStep, StartStep, EndAt, Guarded,
         CancelLocalStep, CleanFailStep;
    match w.tasks[k].pc {
      case Failing(code) => RereadSafe(w, k, c, (revision: nat) => FailAt(revision, code));
      case Recovering(code) => RereadSafe(w, k, c, (_: nat) => RecoverClean(code));
      case RecoverRead(code) => RereadSafe(w, k, c, (revision: nat) => RecoverAt(revision, code));
    }
  }

  /** The points where the worker removes custody. */
  lemma RemovingSafe(w: World, k: Key, c: Choice)
    requires SafeWorld(w) && k in w.tasks && k.executor in w.sys.managers
    requires var pc := w.tasks[k].pc;
             pc.CancelLocal? || pc.CleanFail? || pc.RecoverClean? || pc.RefusedClean?
    ensures SafeWorld(Work(w, k, c))
  {
    hide Safe, Inv, Ask, Reread, TopStep, MoveStep, RecheckStep, MutateStep, StartStep, EndAt, Guarded,
         CancelLocalStep, Cleaned;
    var verify := Recovering(VerificationRequired);
    match w.tasks[k].pc {
      case CancelLocal => CancelLocalSafe(w, k, c);
      case CleanFail(code) => LocalSafe(w, k, Failing(code), verify);
      case RecoverClean(code) => LocalSafe(w, k, RecoverRead(code), verify);
      case RefusedClean => LocalSafe(w, k, Failing(InstallFailed), verify);
    }
  }

  lemma CancelLocalSafe(w: World, k: Key, c: Choice)
    requires SafeWorld(w) && k in w.tasks && w.tasks[k].pc.CancelLocal?
    ensures SafeWorld(CancelLocalStep(w, k, c))
  {
    hide Safe, Cleaned;
    var cancelled := Moving(Ending(Cancelled,
      if w.tasks[k].receipt.phase.Staging? then CancelledAfterStagingCleanup else CancelledByUser));
    LocalSafe(w, k, cancelled, Recovering(VerificationRequired));
  }

  lemma WorkSafe(w: World, k: Key, c: Choice)
    requires SafeWorld(w) && k in w.tasks && k.executor in w.sys.managers
    ensures SafeWorld(Work(w, k, c))
  {
    hide Safe, Inv, Ask, TopStep, MoveStep, RecheckStep, MutateStep, StartStep, Reread, EndAt, Guarded, Unauthorized;
    var t := w.tasks[k];
    match t.pc {
      case Top => TopSafe(w, k, c);
      case Checked(_) => CheckedSafe(w, k, c);
      case Armed(_) => MutateSafe(w, k, c);
      case Moving(_) => MoveSafe(w, k, c);
      case Rechecking => RecheckSafe(w, k, c);
      case FailAt(_, _) => MoveSafe(w, k, c);
      case RecoverAt(_, _) => MoveSafe(w, k, c);
      case InstallRefused =>
        GuardedSafe(w, k, CleanupBarrier(k.id, t.receipt.revision, t.receipt.phase), c, RefusedClean, Lost(c));
      case LaunchReady =>
        GuardedSafe(w, k, Barrier(k.id, t.receipt.revision, t.receipt.phase), c,
                    Moving(To(HealthCheck)),
                    if c.branch.Refused? || c.branch.Declined? then Failing(LaunchFailed) else Lost(c));
      case Failing(_) => RereadingSafe(w, k, c);
      case Recovering(_) => RereadingSafe(w, k, c);
      case RecoverRead(_) => RereadingSafe(w, k, c);
      case _ => if Running(t) { RemovingSafe(w, k, c); } else { StartSafe(w, k, c); }
    }
  }

  lemma NextSafe(w: World, a: Action)
    requires SafeWorld(w)
    ensures SafeWorld(Next(w, a))
  {
    hide Inv, Step, TaskSound, EffectSound, Fresh, Once, ArmedAlone, Work, Started, History;
    match a {
      case Boot =>
        StepKeepsInv(w.sys, StartManager);
        StepHistory(w.sys, StartManager);
        assert w.sys.managers.Keys <= Step(w.sys, StartManager).managers.Keys by { BootGrows(w.sys); }
        StoreMovesSafely(w.sys, Step(w.sys, StartManager), w.tasks, w.log);
      case Crash =>
        StepKeepsInv(w.sys, Event.Crash);
        StepHistory(w.sys, Event.Crash);
        ForgetSafely(w.sys, Step(w.sys, Event.Crash), w.log, w.tasks);
      case Outside(who, call, env) =>
        StepKeepsInv(w.sys, Invoke(who, call, env));
        StepHistory(w.sys, Invoke(who, call, env));
        InvokeKeepsManagers(w.sys, who, call, env);
        StoreMovesSafely(w.sys, Step(w.sys, Invoke(who, call, env)), w.tasks, w.log);
      case Ensure(k, env) =>
        if k.executor in w.sys.managers && k !in w.tasks && k !in w.parked {
          EnsureSafe(w, k, env);
        }
      case Proceed(k, c) =>
        if k in w.tasks && k.executor in w.sys.managers { WorkSafe(w, k, c); }
      case Touch(k) => FilesFree(w, w.files + {k.id});
      case Cancel(k) => DropTask(w, k, true);
    }
  }

  lemma BootGrows(s: System)
    ensures s.managers.Keys <= Step(s, StartManager).managers.Keys
  {
  }

  lemma InvokeKeepsManagers(s: System, who: nat, call: Call, env: Env)
    ensures s.managers.Keys <= Step(s, Invoke(who, call, env)).managers.Keys
  {
    hide Perform, Admissible;
  }

  /** A crash forgets every task; what it did to the panel stays on record. */
  lemma ForgetSafely(s: System, t: System, log: seq<Effect>, tasks: map<Key, Worker>)
    requires Safe(s, tasks, log) && Inv(t) && History(s, t)
    ensures Safe(t, map[], log)
  {
    hide Inv, History, Reached, Once, TaskSound, Fresh;
    forall i | 0 <= i < |log| ensures EffectSound(t, log[i]) {
      ReachedStays(s, t, log[i].kind, log[i].id, log[i].executor, log[i].generation);
    }
  }

  lemma EnsureSafe(w: World, k: Key, env: Env)
    requires SafeWorld(w) && k.executor in w.sys.managers
    ensures SafeWorld(Started(w, k, env))
  {
    hide Safe, Inv, Ask, Known;
    AskKeepsSafe(w, k, Read(k.id), env);
    var (w1, a) := Ask(w, k, Read(k.id), env);
    if a.Success? {
      AnswerIsKnown(w, k, Read(k.id), env);
      PutIdle(w1, k, Worker(Starting(false), a.value, false, false, false, {}));
    }
  }

  lemma {:induction false} PlaySafe(w: World, actions: seq<Action>)
    requires SafeWorld(w)
    ensures SafeWorld(Play(w, actions))
    decreases |actions|
  {
    hide Safe, Next;
    if actions != [] {
      NextSafe(w, actions[0]);
      PlaySafe(Next(w, actions[0]), actions[1..]);
    }
  }

  /**
   * Over every run, with any number of executors, crashes, lost claims, failed
   * saves and cancellations, each job's APK is pushed at most once and its
   * package installed at most once, and each time under a claim that the same
   * executor had made durable.
   */
  lemma PanelMutationsHappenOnce(actions: seq<Action>, i: nat, j: nat)
    requires i < |Play(FRESH_WORLD, actions).log| && j < |Play(FRESH_WORLD, actions).log|
    ensures var w := Play(FRESH_WORLD, actions);
            && (i != j ==> w.log[i].kind != w.log[j].kind || w.log[i].id != w.log[j].id)
            && Lookup(w.sys.issued, (w.log[i].id, w.log[i].generation)) == Some(w.log[i].executor)
  {
    FreshSystemInv();
    assert SafeWorld(FRESH_WORLD);
    PlaySafe(FRESH_WORLD, actions);
    var w := Play(FRESH_WORLD, actions);
    assert EffectSound(w.sys, w.log[i]);
  }
}
