/**
 * What the workers are for: left alone by everyone, with every answer a good
 * one, they bring an approved job to a healthy app with one push and one install.
 */
module InstallProgress {
  import opened Wrappers
  import opened InstallReceipt
  import opened InstallJobs
  import opened InstallJobsLaws
  import opened InstallRuns
  import opened InstallExecutor
  import opened InstallMissing

  /** The worker's manager has the store in memory, and the claim on the job. */
  predicate InHand(s: System, k: Key) {
    && k.executor in s.managers && k.id in s.disk && Accepted(s.disk)
    && !s.disk[k.id].IsTerminal() && !s.disk[k.id].phase.HealthyUnclaimed?
    && s.managers[k.executor].jobs == Some(s.disk)
    && s.managers[k.executor].Holds(k.id, s.disk[k.id].executorGeneration)
  }

  predicate Good(c: Choice, clock: int) {
    c.branch.Fine? && c.cleanable && c.env.readable && c.env.save.Committed? && clock <= c.env.now
  }

  // ------------------------------------------------------------------------ single calls

  lemma StillHeld(s: System, k: Key)
    requires InHand(s, k)
    ensures var m := Manager(Some(s.disk), Reconciled(s.managers[k.executor].claimed, s.disk));
            m.Holds(k.id, s.disk[k.id].executorGeneration)
  {
  }

  lemma LookInHand(s: System, k: Key, call: Call, env: Env)
    requires InHand(s, k) && env.readable
    requires var r := s.disk[k.id];
             || call == Read(k.id)
             || (call == Barrier(k.id, r.revision, r.phase) && MutationBarrier(r.phase) && !r.cancelRequested)
             || (call == CleanupBarrier(k.id, r.revision, r.phase)
                 && CleanupBarrierCancel(r.phase) == Some(r.cancelRequested))
    ensures Perform(s.disk, s.managers[k.executor], call, env).result == Success(s.disk[k.id])
    ensures var s' := After(s, k.executor, call, env);
            s'.disk == s.disk && InHand(s', k)
  {
    hide Accepted;
    StillHeld(s, k);
    hide Reconciled;
  }

  lemma MoveInHand(s: System, k: Key, a: Advance, env: Env)
    requires InHand(s, k) && env.readable && env.save.Committed? && s.disk[k.id].updatedAt <= env.now
    requires Advances(s.managers[k.executor], k.id, s.disk[k.id], a, env.now) && !Terminal(a.phase)
    ensures var r := s.disk[k.id];
            var r' := AdvancedReceipt(r, a, env.now);
            && Perform(s.disk, s.managers[k.executor], Move(k.id, r.revision, a), env).result == Success(r')
            && var s' := After(s, k.executor, Move(k.id, r.revision, a), env);
               && k.id in s'.disk && s'.disk[k.id] == r' && k.executor in s'.managers
               && (!a.phase.HealthyUnclaimed? ==> InHand(s', k))
  {
    hide Accepted, Valid, FactsFit, ResultFits, Pruned, ClockAdvances, Transition, Reconciled, Advances;
    MoveLands(s, k, a, env);
    var m1 := Refreshed(s.disk, s.managers[k.executor], true).0;
    var r' := AdvancedReceipt(s.disk[k.id], a, env.now);
    var jobs := Pruned(s.disk[k.id := r'], env.now);
    AdvanceRefreshed(s, k, a, env);
    if !a.phase.HealthyUnclaimed? { ClaimOutlives(m1, jobs, k.id, r'.executorGeneration); }
  }

  lemma ClaimOutlives(m: Manager, jobs: Jobs, id: JobId, generation: nat)
    requires m.Holds(id, generation) && id in jobs && jobs[id].executorGeneration == generation
    requires !jobs[id].IsTerminal() && !jobs[id].phase.HealthyUnclaimed?
    ensures Manager(Some(jobs), Reconciled(m.claimed, jobs)).Holds(id, generation)
  {
  }

  /** An undisturbed step of the table commits. */
  lemma MoveLands(s: System, k: Key, a: Advance, env: Env)
    requires InHand(s, k) && env.readable && env.save.Committed? && s.disk[k.id].updatedAt <= env.now
    requires Advances(s.managers[k.executor], k.id, s.disk[k.id], a, env.now) && !Terminal(a.phase)
    ensures var r' := AdvancedReceipt(s.disk[k.id], a, env.now);
            var jobs := Pruned(s.disk[k.id := r'], env.now);
            var m1 := Refreshed(s.disk, s.managers[k.executor], true).0;
            && Accepted(jobs) && k.id in jobs && jobs[k.id] == r'
            && Transition(s.disk, s.managers[k.executor], k.id, s.disk[k.id].revision, a, env)
               == Reply(jobs, Manager(Some(jobs), Reconciled(m1.claimed, jobs)), Success(r'))
  {
    hide Accepted, Valid, FactsFit, ResultFits, Pruned, ClockAdvances, Reconciled;
    var r' := AdvancedReceipt(s.disk[k.id], a, env.now);
    AdvanceRefreshed(s, k, a, env);
    PrunedReplaceAccepted(s.disk, k.id, r', env.now);
    PrunedClockAdvances(s.disk, k.id, r', env.now);
    LiveStays(s.disk, k.id, r', env.now);
  }

  /** Refreshing from a store that is in memory already changes nothing that matters. */
  lemma AdvanceRefreshed(s: System, k: Key, a: Advance, env: Env)
    requires InHand(s, k) && env.readable
    ensures var m1 := Refreshed(s.disk, s.managers[k.executor], true).0;
            && Refreshed(s.disk, s.managers[k.executor], true).1
            && m1.Holds(k.id, s.disk[k.id].executorGeneration)
            && (Advances(s.managers[k.executor], k.id, s.disk[k.id], a, env.now) ==>
                  Advances(m1, k.id, s.disk[k.id], a, env.now))
  {
    hide Accepted, Valid, FactsFit, ResultFits;
  }

  // --------------------------------------------------------------------------- the course

  /** The step of the table that this phase leads to when all goes well. */
  predicate Proper(r: Receipt, a: Advance, clock: int) {
    match r.phase
    case Approved => a == To(Authorizing)
    case Authorizing => a == To(Preflight)
    case Preflight => a.rootMode.Some? && a == To(Downloading).(rootMode := a.rootMode)
    case Downloading => a == To(ArtifactReady).(actualApkBytes := Some(r.artifact.apkSize))
    case ArtifactReady => a == To(Revalidating)
    case Revalidating => a == To(Staging)
    case Staging => a == To(Installing)
    case Installing => a == To(Installed)
    case Installed => a == To(Launching)
    case Launching => a == To(HealthCheck)
    case HealthCheck =>
      a.healthCheckedAt.Some? && r.createdAt <= a.healthCheckedAt.value <= clock
      && a == To(HealthyUnclaimed).(healthCheckedAt := a.healthCheckedAt)
    case _ => false
  }

  lemma ProperAdvances(r: Receipt, m: Manager, id: JobId, a: Advance, clock: int, now: int)
    requires Valid(r) && !r.cancelRequested && m.Holds(id, r.executorGeneration)
    requires Proper(r, a, clock) && clock <= now && r.updatedAt <= now
    ensures Advances(m, id, r, a, now) && !Terminal(a.phase) && Rank(a.phase) == Rank(r.phase) + 1
  {
  }

  /** Where a worker on course stands, and what it has and has done by then. */
  predicate Placed(t: Worker, clock: int) {
    var p := t.receipt.phase;
    && (match t.pc
        case Top => true
        case Moving(a) => Proper(t.receipt, a, clock)
        case Checked(kind) => p == KindPhase(kind)
        case Armed(kind) => p == KindPhase(kind)
        case LaunchReady => p.Launching?
        case _ => false)
    && t.local == (Rank(p) >= Rank(ArtifactReady) || (p.Downloading? && t.pc.Moving?))
    && t.staged == (Rank(p) >= Rank(Installing) || (p.Staging? && t.pc.Moving?))
    && t.done == (if Rank(p) < Rank(Staging) || (p.Staging? && !t.pc.Moving?) then {}
                  else if p.Staging? || (p.Installing? && !t.pc.Moving?) then {StagePush}
                  else {StagePush, PackageInstall})
  }

  /** What it has sent to the panel by then. */
  function Sent(k: Key, generation: nat, done: set<Kind>): seq<Effect> {
    (if StagePush in done then [Effect(StagePush, k.id, k.executor, generation)] else [])
    + (if PackageInstall in done then [Effect(PackageInstall, k.id, k.executor, generation)] else [])
  }

  predicate OnCourse(w: World, k: Key, clock: int, log: seq<Effect>) {
    && k in w.tasks && InHand(w.sys, k) && w.sys.disk[k.id] == w.tasks[k].receipt
    && var t := w.tasks[k];
       && !t.receipt.cancelRequested && t.receipt.updatedAt <= clock && Placed(t, clock)
       && w.log == log + Sent(k, t.receipt.executorGeneration, t.done)
       && (Rank(t.receipt.phase) >= Rank(Launching) || (t.receipt.phase.Installed? && t.pc.Moving?) ==>
             k.id !in w.files)
  }

  /** The app is healthy, and it took exactly one push and one install. */
  predicate Arrived(w: World, k: Key, log: seq<Effect>, generation: nat) {
    && k in w.tasks && k.id in w.sys.disk && w.sys.disk[k.id].phase.HealthyUnclaimed?
    && w.sys.disk[k.id].executorGeneration == generation
    && w.log == log + [Effect(StagePush, k.id, k.executor, generation),
                       Effect(PackageInstall, k.id, k.executor, generation)]
    && k.id !in w.files
  }

  /** How many steps are left. */
  function Left(t: Worker): nat {
    var turn := if t.pc.Top? then 1 else 0;
    match t.receipt.phase
    case Approved => 26 + turn
    case Authorizing => 24 + turn
    case Preflight => 22 + turn
    case Downloading => 20 + turn
    case ArtifactReady => 18 + turn
    case Revalidating => 16 + turn
    case Staging =>
      if t.pc.Top? then 15 else if t.pc.Checked? then 14 else if t.pc.Armed? then 13 else 12
    case Installing =>
      if t.pc.Top? then 11 else if t.pc.Checked? then 10 else if t.pc.Armed? then 9 else 8
    case Installed => 6 + turn
    case Launching => if t.pc.Top? then 5 else if t.pc.LaunchReady? then 4 else 3
    case HealthCheck => 1 + turn
    case _ => 0
  }

  /** One step on, or there. */
  predicate Closer(w: World, w': World, k: Key, clock: int, log: seq<Effect>)
    requires k in w.tasks
  {
    || (OnCourse(w', k, clock, log) && Left(w'.tasks[k]) + 1 == Left(w.tasks[k])
        && w'.tasks[k].receipt.executorGeneration == w.tasks[k].receipt.executorGeneration)
    || (Arrived(w', k, log, w.tasks[k].receipt.executorGeneration) && Left(w.tasks[k]) == 1)
  }

  /** Landing keeps the worker placed, one step on. */
  lemma LandsPlaced(t: Worker, clock: int, now: int)
    requires Placed(t, clock) && t.pc.Moving? && clock <= now && !t.receipt.IsTerminal()
    requires Rank(t.pc.advance.phase) == Rank(t.receipt.phase) + 1
    ensures var a := t.pc.advance;
            var t' := t.(pc := Top, receipt := AdvancedReceipt(t.receipt, a, now));
            && (a.phase.HealthyUnclaimed? <==> t.receipt.phase.HealthCheck?)
            && (a.phase.HealthyUnclaimed? ==> Left(t) == 1 && t.done == {StagePush, PackageInstall})
            && (!a.phase.HealthyUnclaimed? ==> Placed(t', now) && Left(t') + 1 == Left(t))
            && (Rank(a.phase) >= Rank(Launching) ==>
                  Rank(t.receipt.phase) >= Rank(Launching) || t.receipt.phase.Installed?)
  {
  }

  lemma MoveCloser(w: World, k: Key, clock: int, log: seq<Effect>, c: Choice)
    requires OnCourse(w, k, clock, log) && Good(c, clock) && w.tasks[k].pc.Moving?
    ensures Closer(w, Work(w, k, c), k, c.env.now, log)
  {
    hide Accepted, Perform, Valid, Advances, InHand, Proper, Left;
    var t := w.tasks[k];
    var a := t.pc.advance;
    InHandValid(w.sys, k);
    ProperAdvances(t.receipt, w.sys.managers[k.executor], k.id, a, clock, c.env.now);
    MoveInHand(w.sys, k, a, c.env);
    InHandLive(w.sys, k);
    LandsPlaced(t, clock, c.env.now);
    hide Placed;
  }

  lemma InHandLive(s: System, k: Key)
    requires InHand(s, k)
    ensures k.executor in s.managers
    ensures k.id in s.disk && !s.disk[k.id].IsTerminal() && !s.disk[k.id].phase.HealthyUnclaimed?
  {
    hide Accepted;
  }

  lemma InHandValid(s: System, k: Key)
    requires InHand(s, k)
    ensures k.executor in s.managers && k.id in s.disk && Valid(s.disk[k.id])
    ensures s.managers[k.executor].Holds(k.id, s.disk[k.id].executorGeneration)
  {
    hide Valid;
  }

  /** A worker that stands in another place, with the store as it was. */
  lemma StandsCloser(w: World, w': World, k: Key, clock: int, log: seq<Effect>, now: int)
    requires OnCourse(w, k, clock, log) && clock <= now
    requires k in w'.tasks && InHand(w'.sys, k) && w'.sys.disk == w.sys.disk
    requires var t, t' := w.tasks[k], w'.tasks[k];
             && t'.receipt == t.receipt && Placed(t', now) && Left(t') + 1 == Left(t)
             && w'.log == log + Sent(k, t.receipt.executorGeneration, t'.done)
             && w'.files <= w.files + {k.id}
             && (Rank(t.receipt.phase) >= Rank(Launching) ==> w'.files <= w.files)
             && (t.receipt.phase.Installed? && t'.pc.Moving? ==> k.id !in w'.files)
    ensures Closer(w, w', k, now, log)
  {
    hide InHand, Placed, Left, Sent;
  }

  lemma LookCloser(w: World, k: Key, call: Call, c: Choice)
    requires k in w.tasks && InHand(w.sys, k) && w.sys.disk[k.id] == w.tasks[k].receipt && c.env.readable
    requires var r := w.sys.disk[k.id];
             || call == Read(k.id)
             || (call == Barrier(k.id, r.revision, r.phase) && MutationBarrier(r.phase) && !r.cancelRequested)
             || (call == CleanupBarrier(k.id, r.revision, r.phase)
                 && CleanupBarrierCancel(r.phase) == Some(r.cancelRequested))
    ensures var (w1, a) := Ask(w, k, call, c.env);
            && a == Success(w.tasks[k].receipt) && InHand(w1.sys, k) && w1.sys.disk == w.sys.disk
            && w1.tasks == w.tasks && w1.log == w.log && w1.files == w.files
  {
    hide InHand, Perform;
    LookInHand(w.sys, k, call, c.env);
  }

  /** The phases in which the store is asked before the panel is touched. */
  lemma AskingCloser(w: World, k: Key, clock: int, log: seq<Effect>, c: Choice)
    requires OnCourse(w, k, clock, log) && Good(c, clock) && w.tasks[k].pc.Top?
    requires var p := w.tasks[k].receipt.phase; p.Staging? || p.Installing? || p.Launching?
    ensures k.executor in w.sys.managers && Closer(w, Work(w, k, c), k, c.env.now, log)
  {
    hide InHand, Sent, Ask, Closer;
    var t := w.tasks[k];
    InHandLive(w.sys, k);
    if t.receipt.phase.Launching? {
      LookCloser(w, k, CleanupBarrier(k.id, t.receipt.revision, t.receipt.phase), c);
    } else {
      LookCloser(w, k, Read(k.id), c);
    }
    StandsCloser(w, Work(w, k, c), k, clock, log, c.env.now);
  }

  /** The phases in which the artifact is fetched, or is there. */
  lemma FetchCloser(w: World, k: Key, clock: int, log: seq<Effect>, c: Choice)
    requires OnCourse(w, k, clock, log) && Good(c, clock) && w.tasks[k].pc.Top?
    requires var p := w.tasks[k].receipt.phase; p.Downloading? || p.ArtifactReady? || p.Revalidating?
    ensures k.executor in w.sys.managers && Closer(w, Work(w, k, c), k, c.env.now, log)
  {
    hide InHand, Sent, Closer;
    InHandLive(w.sys, k);
    StandsCloser(w, Work(w, k, c), k, clock, log, c.env.now);
  }

  /** The phases in which nobody but the panel or the network is asked. */
  lemma TurnCloser(w: World, k: Key, clock: int, log: seq<Effect>, c: Choice)
    requires OnCourse(w, k, clock, log) && Good(c, clock) && w.tasks[k].pc.Top?
    requires var p := w.tasks[k].receipt.phase;
             p.Approved? || p.Authorizing? || p.Preflight? || p.Installed? || p.HealthCheck?
    ensures k.executor in w.sys.managers && Closer(w, Work(w, k, c), k, c.env.now, log)
  {
    hide InHand, Sent, Closer, CancelStep, Authorize, Download, HaveArtifact, Ask;
    InHandLive(w.sys, k);
    assert w.tasks[k].receipt.createdAt <= w.tasks[k].receipt.updatedAt by { InHandValid(w.sys, k); }
    StandsCloser(w, Work(w, k, c), k, clock, log, c.env.now);
  }

  lemma CheckedCloser(w: World, k: Key, clock: int, log: seq<Effect>, c: Choice)
    requires OnCourse(w, k, clock, log) && Good(c, clock) && w.tasks[k].pc.Checked?
    ensures k.executor in w.sys.managers && Closer(w, Work(w, k, c), k, c.env.now, log)
  {
    hide InHand, Sent, Ask, Closer;
    var t := w.tasks[k];
    InHandLive(w.sys, k);
    LookCloser(w, k, Barrier(k.id, t.receipt.revision, t.receipt.phase), c);
    StandsCloser(w, Work(w, k, c), k, clock, log, c.env.now);
  }

  lemma ArmedCloser(w: World, k: Key, clock: int, log: seq<Effect>, c: Choice)
    requires OnCourse(w, k, clock, log) && Good(c, clock) && w.tasks[k].pc.Armed?
    ensures k.executor in w.sys.managers && Closer(w, Work(w, k, c), k, c.env.now, log)
  {
    hide InHand, Closer;
    var t := w.tasks[k];
    InHandLive(w.sys, k);
    SentMore(k, t.receipt.executorGeneration, t.done, t.pc.kind, log);
    StandsCloser(w, Work(w, k, c), k, clock, log, c.env.now);
  }

  lemma SentMore(k: Key, generation: nat, done: set<Kind>, kind: Kind, log: seq<Effect>)
    requires done == (if kind.StagePush? then {} else {StagePush})
    ensures log + Sent(k, generation, done) + [Effect(kind, k.id, k.executor, generation)]
            == log + Sent(k, generation, done + {kind})
  {
  }

  lemma ReadyCloser(w: World, k: Key, clock: int, log: seq<Effect>, c: Choice)
    requires OnCourse(w, k, clock, log) && Good(c, clock) && w.tasks[k].pc.LaunchReady?
    ensures k.executor in w.sys.managers && Closer(w, Work(w, k, c), k, c.env.now, log)
  {
    hide InHand, Sent, Ask, Closer;
    var t := w.tasks[k];
    InHandLive(w.sys, k);
    LookCloser(w, k, Barrier(k.id, t.receipt.revision, t.receipt.phase), c);
    StandsCloser(w, Work(w, k, c), k, clock, log, c.env.now);
  }

  /** A partial file left by an earlier process delays the download by one step, once. */
  lemma StaleFileDelays(w: World, k: Key, clock: int, log: seq<Effect>, c: Choice)
    requires OnCourse(w, k, clock, log) && w.tasks[k].pc.Top? && w.tasks[k].receipt.phase.Downloading?
    requires c.branch.Busy? && c.cleanable && !w.tasks[k].staleRemoved
    ensures k.executor in w.sys.managers
    ensures var w' := Work(w, k, c);
            && OnCourse(w', k, clock, log) && w'.tasks[k] == w.tasks[k].(staleRemoved := true)
            && Left(w'.tasks[k]) == Left(w.tasks[k]) && w'.sys == w.sys && w'.files == w.files - {k.id}
  {
    hide InHand, Sent;
    InHandLive(w.sys, k);
  }

  lemma WorkCloser(w: World, k: Key, clock: int, log: seq<Effect>, c: Choice)
    requires OnCourse(w, k, clock, log) && Good(c, clock)
    ensures k.executor in w.sys.managers && Closer(w, Work(w, k, c), k, c.env.now, log)
  {
    hide Work, Closer, InHand, Sent;
    InHandLive(w.sys, k);
    match w.tasks[k].pc {
      case Top =>
        match w.tasks[k].receipt.phase {
          case Staging => AskingCloser(w, k, clock, log, c);
          case Installing => AskingCloser(w, k, clock, log, c);
          case Launching => AskingCloser(w, k, clock, log, c);
          case Downloading => FetchCloser(w, k, clock, log, c);
          case ArtifactReady => FetchCloser(w, k, clock, log, c);
          case Revalidating => FetchCloser(w, k, clock, log, c);
          case _ => TurnCloser(w, k, clock, log, c);
        }
      case Moving(_) => MoveCloser(w, k, clock, log, c);
      case Checked(_) => CheckedCloser(w, k, clock, log, c);
      case Armed(_) => ArmedCloser(w, k, clock, log, c);
      case LaunchReady => ReadyCloser(w, k, clock, log, c);
    }
  }

  // ----------------------------------------------------------------------- the whole way

  /** A run in which only this worker moves. */
  function Proceeds(k: Key, choices: seq<Choice>): seq<Action> {
    seq(|choices|, i requires 0 <= i < |choices| => Proceed(k, choices[i]))
  }

  /** Every answer is a good one, and time does not run backwards. */
  predicate AllGood(choices: seq<Choice>, clock: int)
    decreases |choices|
  {
    choices == [] || (Good(choices[0], clock) && AllGood(choices[1..], choices[0].env.now))
  }

  lemma {:induction false} RidesHome(w: World, k: Key, clock: int, log: seq<Effect>, choices: seq<Choice>)
    requires OnCourse(w, k, clock, log) && AllGood(choices, clock) && |choices| == Left(w.tasks[k])
    ensures Arrived(Play(w, Proceeds(k, choices)), k, log, w.tasks[k].receipt.executorGeneration)
    decreases |choices|
  {
    hide Work, InHand, Sent, Good, Placed, Left;
    assert |choices| > 0 by { SomethingLeft(w, k, clock, log); }
    WorkCloser(w, k, clock, log, choices[0]);
    var w' := Work(w, k, choices[0]);
    assert Proceeds(k, choices)[0] == Proceed(k, choices[0]);
    assert Proceeds(k, choices)[1..] == Proceeds(k, choices[1..]);
    if |choices| == 1 {
      assert Proceeds(k, choices[1..]) == [];
      if OnCourse(w', k, choices[0].env.now, log) { SomethingLeft(w', k, choices[0].env.now, log); }
    } else {
      RidesHome(w', k, choices[0].env.now, log, choices[1..]);
    }
    hide Arrived;
  }

  lemma SomethingLeft(w: World, k: Key, clock: int, log: seq<Effect>)
    requires OnCourse(w, k, clock, log)
    ensures Left(w.tasks[k]) > 0
  {
    hide Accepted, Placed, Sent;
  }

  // ------------------------------------------------------------------------------ the start

  /** An undisturbed claim of a fresh job is answered from memory, or commits. */
  lemma ClaimLands(disk: Jobs, m: Manager, id: JobId, env: Env)
    requires id in disk && Accepted(disk) && Undisturbed(disk, m, env) && disk[id].updatedAt <= env.now
    requires disk[id].phase.Approved? && !Exhausted(disk[id])
    ensures var r := Claim(disk, m, id, disk[id].revision, None, env);
            var m1 := Refreshed(disk, m, true).0;
            var updated := ClaimedReceipt(disk[id], env.now);
            var jobs := Pruned(disk[id := updated], env.now);
            if m1.Holds(id, disk[id].executorGeneration) then r == Reply(disk, m1, Success(disk[id]))
            else
              && Accepted(jobs) && id in jobs && jobs[id] == updated
              && r == Reply(jobs, Manager(Some(jobs), Reconciled(m1.claimed, jobs)[id := updated.executorGeneration]),
                            Success(updated))
  {
    hide Accepted, Pruned, ClockAdvances, Evolves, ClaimsUndisturbed, Valid, Reconciled;
    var updated := ClaimedReceipt(disk[id], env.now);
    assert Valid(disk[id]) by { AcceptedAt(disk, id); }
    ClaimKeepsReceipt(disk[id], env.now);
    PrunedReplaceAccepted(disk, id, updated, env.now);
    PrunedClockAdvances(disk, id, updated, env.now);
    LiveStays(disk, id, updated, env.now);
  }

  /** The claim is made, and the worker has the job in hand. */
  lemma ClaimInHand(s: System, k: Key, env: Env)
    requires k.executor in s.managers && k.id in s.disk && Accepted(s.disk)
    requires Undisturbed(s.disk, s.managers[k.executor], env) && s.disk[k.id].updatedAt <= env.now
    requires s.disk[k.id].phase.Approved? && !Exhausted(s.disk[k.id])
    ensures var revision := s.disk[k.id].revision;
            var r := Claim(s.disk, s.managers[k.executor], k.id, revision, None, env);
            && r.result.Success? && var t := r.result.value;
            && t.phase.Approved? && t.cancelRequested == s.disk[k.id].cancelRequested && t.updatedAt <= env.now
            && k.id in r.disk && r.disk[k.id] == t
            && InHand(After(s, k.executor, Take(k.id, revision, None), env), k)
  {
    hide Accepted, Claim, Pruned, Reconciled, ClaimsUndisturbed, Exhausted;
    ClaimLands(s.disk, s.managers[k.executor], k.id, env);
    RefreshedInMemory(s.disk, s.managers[k.executor]);
    FreshClaim(s.disk[k.id], env.now);
  }

  lemma FreshClaim(r: Receipt, now: int)
    requires r.phase.Approved? && !Exhausted(r)
    ensures var t := ClaimedReceipt(r, now);
            t.phase.Approved? && t.cancelRequested == r.cancelRequested && t.updatedAt == now
  {
  }

  lemma RefreshedInMemory(disk: Jobs, m: Manager)
    requires ClaimsUndisturbed(disk, m)
    ensures Refreshed(disk, m, true).0.jobs == Some(disk)
  {
  }

  /** Reading first leaves everything ready for the claim. */
  lemma ReadStaysReady(s: System, k: Key, env: Env, next: Env)
    requires k.executor in s.managers && k.id in s.disk && env.readable
    requires Undisturbed(s.disk, s.managers[k.executor], next)
    ensures Perform(s.disk, s.managers[k.executor], Read(k.id), env).result == Success(s.disk[k.id])
    ensures var s' := After(s, k.executor, Read(k.id), env);
            s'.disk == s.disk && k.executor in s'.managers && Undisturbed(s.disk, s'.managers[k.executor], next)
  {
  }

  /**
   * What the whole thing is for. An approved job that nobody cancels, worked on
   * by one worker whom nobody disturbs, with every answer a good one, ends up as
   * a healthy app, with exactly one push and one install on the panel, both under
   * the claim the job then shows, and nothing left in custody.
   */
  lemma ApprovedJobIsInstalled(w: World, k: Key, asked: Env, choices: seq<Choice>)
    requires k.role.Runner? && k.executor in w.sys.managers && k !in w.tasks && k !in w.parked
    requires Accepted(w.sys.disk) && ClaimsUndisturbed(w.sys.disk, w.sys.managers[k.executor]) && asked.readable
    requires k.id in w.sys.disk && w.sys.disk[k.id].phase.Approved?
    requires !w.sys.disk[k.id].cancelRequested && !Exhausted(w.sys.disk[k.id])
    requires |choices| == 29 && AllGood(choices, w.sys.disk[k.id].updatedAt)
    ensures var w' := Play(w, [Ensure(k, asked)] + Proceeds(k, choices));
            k.id in w'.sys.disk && Arrived(w', k, w.log, w'.sys.disk[k.id].executorGeneration)
  {
    hide InHand, Arrived, OnCourse, Accepted, ClaimsUndisturbed, Exhausted, Good, Next, Proceeds, Left;
    var w3 := Begins(w, k, asked, choices[0], choices[1]);
    var rest := choices[2..];
    assert choices[1..][0] == choices[1] && choices[1..][1..] == rest;
    RidesHome(w3, k, choices[1].env.now, w.log, rest);
    FirstThree(k, asked, choices);
    PlayThree(w, Ensure(k, asked), Proceed(k, choices[0]), Proceed(k, choices[1]), Proceeds(k, rest));
    ArrivedAt(Play(w3, Proceeds(k, rest)), k, w.log, w3.tasks[k].receipt.executorGeneration);
  }

  lemma ArrivedAt(w: World, k: Key, log: seq<Effect>, generation: nat)
    requires Arrived(w, k, log, generation)
    ensures k.id in w.sys.disk && w.sys.disk[k.id].executorGeneration == generation
  {
  }

  lemma FirstThree(k: Key, asked: Env, choices: seq<Choice>)
    requires |choices| >= 2
    ensures [Ensure(k, asked)] + Proceeds(k, choices)
            == [Ensure(k, asked), Proceed(k, choices[0]), Proceed(k, choices[1])] + Proceeds(k, choices[2..])
  {
  }

  lemma {:induction false} PlayThree(w: World, a: Action, b: Action, c: Action, rest: seq<Action>)
    ensures Play(w, [a, b, c] + rest) == Play(Next(Next(Next(w, a), b), c), rest)
  {
    hide Next;
    assert ([a, b, c] + rest)[1..] == [b, c] + rest;
    assert ([b, c] + rest)[1..] == [c] + rest;
    assert ([c] + rest)[1..] == rest;
    assert Play(Next(Next(w, a), b), [c] + rest) == Play(Next(Next(Next(w, a), b), c), rest);
    assert Play(Next(w, a), [b, c] + rest) == Play(Next(Next(w, a), b), [c] + rest);
  }

  /** The worker has read a fresh job, and may claim it undisturbed. */
  predicate ReadyToClaim(w: World, k: Key, r: Receipt, next: Env) {
    && k in w.tasks && k.executor in w.sys.managers && k.id in w.sys.disk && w.sys.disk[k.id] == r
    && w.tasks[k] == Worker(Claiming(r.revision, None, false), r, false, false, false, {})
    && Undisturbed(w.sys.disk, w.sys.managers[k.executor], next)
  }

  /** Asked for, the worker reads. */
  lemma Asks(w: World, k: Key, asked: Env, c0: Choice, next: Env) returns (w2: World)
    requires k.role.Runner? && k.executor in w.sys.managers && k !in w.tasks && k !in w.parked
    requires Undisturbed(w.sys.disk, w.sys.managers[k.executor], next) && asked.readable && c0.env.readable
    requires k.id in w.sys.disk && w.sys.disk[k.id].phase.Approved?
    ensures w2 == Next(Next(w, Ensure(k, asked)), Proceed(k, c0))
    ensures ReadyToClaim(w2, k, w.sys.disk[k.id], next) && w2.log == w.log && w2.sys.disk == w.sys.disk
  {
    hide Undisturbed, Perform, After, Next;
    ReadStaysReady(w.sys, k, asked, next);
    EnsureStep(w, k, asked);
    var w1 := Next(w, Ensure(k, asked));
    ReadStaysReady(w1.sys, k, c0.env, next);
    ReadingStep(w1, k, c0);
    w2 := Next(w1, Proceed(k, c0));
  }

  /** And claims. */
  lemma Claims(w: World, k: Key, r: Receipt, c: Choice)
    requires k.role.Runner? && Accepted(w.sys.disk) && ReadyToClaim(w, k, r, c.env) && r.updatedAt <= c.env.now
    requires r.phase.Approved? && !r.cancelRequested && !Exhausted(r)
    ensures var w3 := Next(w, Proceed(k, c));
            OnCourse(w3, k, c.env.now, w.log) && Left(w3.tasks[k]) == 27
  {
    hide InHand, Accepted, Undisturbed, Exhausted, Perform, After, Work, Claim;
    ClaimInHand(w.sys, k, c.env);
    TakeIsClaim(w.sys.disk, w.sys.managers[k.executor], k.id, r.revision, c.env);
    ClaimStep(w, k, c);
    AfterDisk(w.sys, k, Take(k.id, r.revision, None), c.env);
    assert w.log == w.log + [];
  }

  /** Asked for, the worker reads, claims, and is on course. */
  lemma Begins(w: World, k: Key, asked: Env, c0: Choice, c1: Choice) returns (w3: World)
    requires k.role.Runner? && k.executor in w.sys.managers && k !in w.tasks && k !in w.parked
    requires Accepted(w.sys.disk) && ClaimsUndisturbed(w.sys.disk, w.sys.managers[k.executor]) && asked.readable
    requires k.id in w.sys.disk && w.sys.disk[k.id].phase.Approved?
    requires !w.sys.disk[k.id].cancelRequested && !Exhausted(w.sys.disk[k.id])
    requires Good(c0, w.sys.disk[k.id].updatedAt) && Good(c1, c0.env.now)
    ensures w3 == Next(Next(Next(w, Ensure(k, asked)), Proceed(k, c0)), Proceed(k, c1))
    ensures OnCourse(w3, k, c1.env.now, w.log) && k in w3.tasks && Left(w3.tasks[k]) == 27
  {
    hide Accepted, ClaimsUndisturbed, Exhausted, Next, OnCourse, ReadyToClaim;
    var w2 := Asks(w, k, asked, c0, c1.env);
    Claims(w2, k, w.sys.disk[k.id], c1);
    w3 := Next(w2, Proceed(k, c1));
    assert k in w3.tasks by { CourseHasWorker(w3, k, c1.env.now, w.log); }
  }

  lemma CourseHasWorker(w: World, k: Key, clock: int, log: seq<Effect>)
    requires OnCourse(w, k, clock, log)
    ensures k in w.tasks
  {
    hide InHand, Placed;
  }

  lemma AfterDisk(s: System, k: Key, call: Call, env: Env)
    requires k.executor in s.managers
    ensures After(s, k.executor, call, env).disk == Perform(s.disk, s.managers[k.executor], call, env).disk
  {
    hide Perform;
  }

  lemma TakeIsClaim(disk: Jobs, m: Manager, id: JobId, revision: nat, env: Env)
    ensures Perform(disk, m, Take(id, revision, None), env) == Claim(disk, m, id, revision, None, env)
  {
    hide Claim;
  }

  lemma EnsureStep(w: World, k: Key, env: Env)
    requires k.executor in w.sys.managers && k !in w.tasks && k !in w.parked && k.id in w.sys.disk
    requires Perform(w.sys.disk, w.sys.managers[k.executor], Read(k.id), env).result == Success(w.sys.disk[k.id])
    requires w.sys.disk[k.id].phase.Approved?
    ensures var w' := Next(w, Ensure(k, env));
            && w'.sys == After(w.sys, k.executor, Read(k.id), env) && w'.log == w.log && w'.files == w.files
            && w'.tasks == w.tasks[k := Worker(Starting(false), w.sys.disk[k.id], false, false, false, {})]
  {
    hide Perform;
  }

  lemma ReadingStep(w: World, k: Key, c: Choice)
    requires k in w.tasks && k.executor in w.sys.managers && k.role.Runner? && w.tasks[k].pc.Starting?
    requires Perform(w.sys.disk, w.sys.managers[k.executor], Read(k.id), c.env).result.Success?
    ensures var t := w.tasks[k];
            var r := Perform(w.sys.disk, w.sys.managers[k.executor], Read(k.id), c.env).result.value;
            var w' := Next(w, Proceed(k, c));
            && w'.sys == After(w.sys, k.executor, Read(k.id), c.env) && w'.log == w.log && w'.files == w.files
            && w'.tasks == w.tasks[k := t.(pc := Claiming(r.revision, None, t.pc.retried), receipt := r)]
  {
    hide Perform;
  }

  /** A claim that is granted puts the worker at the head of its loop. */
  lemma ClaimStep(w: World, k: Key, c: Choice)
    requires k in w.tasks && k.executor in w.sys.managers && k.role.Runner?
    requires w.tasks[k].pc.Claiming?
    requires var t := w.tasks[k];
             var call := Take(k.id, t.pc.revision, t.pc.cleaned);
             Perform(w.sys.disk, w.sys.managers[k.executor], call, c.env).result.Success?
    ensures var t := w.tasks[k];
            var call := Take(k.id, t.pc.revision, t.pc.cleaned);
            var w' := Work(w, k, c);
            && w'.sys == After(w.sys, k.executor, call, c.env) && w'.log == w.log && w'.files == w.files
            && w'.tasks == w.tasks[k := t.(pc := Top,
                 receipt := Perform(w.sys.disk, w.sys.managers[k.executor], call, c.env).result.value)]
  {
    hide Perform;
  }
}
