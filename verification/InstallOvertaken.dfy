/**
 * The limit of the mutation fence, as a run: the barrier is checked before the
 * panel is touched, not while it is, so a worker that has passed it pushes the
 * APK of a job that an interrupted-claim sweep has meanwhile ended.
 */
module InstallOvertaken {
  import opened Wrappers
  import opened InstallReceipt
  import opened InstallJobs
  import opened InstallJobsLaws
  import opened InstallRuns
  import opened InstallExecutor
  import opened InstallCustody

  const ID: JobId := 7
  const WORKER := Key(0, ID, Runner)
  const SWEEP := Key(0, ID, Resumer)
  const CALM := Env(true, 0, Committed)
  const BLIND := Env(false, 0, Committed)
  const GOOD := Choice(CALM, Fine, true, Rootless, 1)
  const PANEL := Target("panel", "10.0.0.2", "serial", "arm64", 30)
  const APK := Artifact("sha", 1, 26, ["arm64"])

  ghost predicate Reachable(w: World) {
    exists actions :: DisciplinedRun(FRESH_WORLD, actions) && Play(FRESH_WORLD, actions) == w
  }

  lemma {:induction false} PlayMore(w: World, actions: seq<Action>, a: Action)
    requires DisciplinedRun(w, actions) && Disciplined(Play(w, actions), a)
    ensures DisciplinedRun(w, actions + [a]) && Play(w, actions + [a]) == Next(Play(w, actions), a)
    decreases |actions|
  {
    hide Next, Disciplined;
    if actions == [] {
      assert [a][1..] == [];
      assert actions + [a] == [a];
      assert Play(w, [a]) == Play(Next(w, a), []);
    } else {
      PlayMore(Next(w, actions[0]), actions[1..], a);
      assert (actions + [a])[1..] == actions[1..] + [a];
    }
  }

  lemma ReachNext(w: World, a: Action)
    requires Reachable(w) && Disciplined(w, a)
    ensures Reachable(Next(w, a))
  {
    hide Next, Disciplined;
    var actions :| DisciplinedRun(FRESH_WORLD, actions) && Play(FRESH_WORLD, actions) == w;
    PlayMore(FRESH_WORLD, actions, a);
  }

  // ----------------------------------------------------------- one job, one manager

  function Solo(r: Receipt, m: Manager, issued: map<(JobId, nat), nat>, tasks: map<Key, Worker>,
                files: set<JobId>): World
  {
    World(System(map[ID := r], map[0 := m], 1, issued, {ID}), tasks, {}, files, [])
  }

  function Holding(r: Receipt): Manager { Manager(Some(map[ID := r]), map[ID := 1]) }

  const FIRST := map[(ID, 1) := 0]

  /** A single valid receipt of this moment is a document that pruning leaves alone. */
  lemma SoloDocument(r: Receipt)
    requires Valid(r) && r.updatedAt == 0
    ensures Accepted(map[ID := r]) && Pruned(map[ID := r], 0) == map[ID := r]
  {
    hide Valid;
    var jobs: Jobs := map[ID := r];
    assert |ActiveIds(jobs)| <= 1 by { SubsetSize(ActiveIds(jobs), {ID}); }
    assert |TerminalIds(jobs)| <= 1 by { SubsetSize(TerminalIds(jobs), {ID}); }
    assert NewerTerminals(jobs, ID) == {};
  }

  lemma SoloRead(r: Receipt, m: Manager, issued: map<(JobId, nat), nat>, tasks: map<Key, Worker>,
                 files: set<JobId>, k: Key)
    requires m.jobs == Some(map[ID := r]) && Reconciled(m.claimed, map[ID := r]) == m.claimed
    requires k.executor == 0
    ensures var w := Solo(r, m, issued, tasks, files);
            Ask(w, k, Read(ID), CALM) == (w, Success(r))
  {
    var w := Solo(r, m, issued, tasks, files);
    assert Perform(w.sys.disk, m, Read(ID), CALM) == Reply(w.sys.disk, m, Success(r));
    SoloSystem(r, r, m, m);
  }

  lemma SoloMove(r: Receipt, a: Advance, tasks: map<Key, Worker>, files: set<JobId>)
    requires Valid(r) && r.updatedAt == 0 && r.executorGeneration == 1
    requires Advances(Holding(r), ID, r, a, 0) && !Terminal(a.phase) && !a.phase.HealthyUnclaimed?
    ensures var r' := AdvancedReceipt(r, a, 0);
            Ask(Solo(r, Holding(r), FIRST, tasks, files), WORKER, Move(ID, r.revision, a), CALM)
            == (Solo(r', Holding(r'), FIRST, tasks, files), Success(r'))
  {
    hide Valid, Accepted, Pruned, FactsFit, ResultFits, NextPhase;
    NextLive(r, a);
    assert Reconciled(map[ID := 1], map[ID := r]) == map[ID := 1];
    var r' := AdvancedReceipt(r, a, 0);
    SoloDocument(r');
    assert map[ID := r][ID := r'] == map[ID := r'];
    assert Reconciled(map[ID := 1], map[ID := r']) == map[ID := 1];
    var disk: Jobs := map[ID := r];
    assert Perform(disk, Holding(r), Move(ID, r.revision, a), CALM)
           == Reply(map[ID := r'], Holding(r'), Success(r'));
    SoloSystem(r, r', Holding(r), Holding(r'));
  }

  lemma SoloSystem(r: Receipt, r': Receipt, m: Manager, m': Manager)
    ensures var managers: map<nat, Manager> := map[0 := m]; managers[0 := m'] == map[0 := m']
    ensures var disk: Jobs := map[ID := r']; {ID} + disk.Keys == {ID}
  {
  }

  lemma NextLive(r: Receipt, a: Advance)
    requires NextPhase(r.phase, a.phase) && !Terminal(a.phase)
    ensures !r.IsTerminal() && !r.phase.HealthyUnclaimed?
  {
  }

  // ------------------------------------------------------------------ up to the push

  /** The job's receipt under its first claim. */
  function Rec(revision: nat, phase: Phase, rootMode: Option<RootMode>, bytes: Option<int>): Receipt {
    Receipt(revision, 1, 0, 0, phase, false, 1, PANEL, APK, "plan", "credential",
            rootMode, bytes, None, None, None, None, None)
  }

  function Walking(r: Receipt, pc: Pc, local: bool, files: set<JobId>): World {
    Solo(r, Holding(r), FIRST, map[WORKER := Worker(pc, r, local, false, false, {})], files)
  }

  /** A planned step of the table lands. */
  lemma Land(r: Receipt, a: Advance, local: bool, files: set<JobId>)
    requires Reachable(Walking(r, Moving(a), local, files))
    requires Valid(r) && r.updatedAt == 0 && r.executorGeneration == 1
    requires Advances(Holding(r), ID, r, a, 0) && !Terminal(a.phase) && !a.phase.HealthyUnclaimed?
    ensures Reachable(Walking(AdvancedReceipt(r, a, 0), Top, local, files))
  {
    hide Reachable, Advances, Valid, After, Perform, Ask, AdvancedReceipt;
    var w := Walking(r, Moving(a), local, files);
    SoloMove(r, a, w.tasks, files);
    ReachNext(w, Proceed(WORKER, GOOD));
    var r' := AdvancedReceipt(r, a, 0);
    var tasks := w.tasks;
    assert tasks[WORKER := Worker(Top, r', local, false, false, {})]
           == map[WORKER := Worker(Top, r', local, false, false, {})];
  }

  /** A worker at the head of its loop plans a step without asking anyone. */
  lemma Plan(r: Receipt, a: Advance, local: bool, local': bool, files: set<JobId>, files': set<JobId>)
    requires Reachable(Walking(r, Top, local, files))
    requires TopStep(Walking(r, Top, local, files), WORKER, GOOD)
             == Walking(r, Moving(a), local', files')
    ensures Reachable(Walking(r, Moving(a), local', files'))
  {
    hide Reachable, TopStep;
    ReachNext(Walking(r, Top, local, files), Proceed(WORKER, GOOD));
  }

  lemma WalkingKey(r: Receipt, pc: Pc, was: Pc, local: bool, local': bool, files: set<JobId>)
    ensures Walking(r, was, local, files).tasks[WORKER := Worker(pc, r, local', false, false, {})]
            == map[WORKER := Worker(pc, r, local', false, false, {})]
  {
  }

  lemma FromApproved()
    requires Reachable(Walking(Rec(1, Approved, None, None), Top, false, {}))
    ensures Reachable(Walking(Rec(2, Authorizing, None, None), Top, false, {}))
  {
    hide Reachable, Ask, CancelStep, Authorize, Download, HaveArtifact;
    var r, a := Rec(1, Approved, None, None), To(Authorizing);
    WalkingKey(r, Moving(a), Top, false, false, {});
    Plan(r, a, false, false, {}, {});
    Land(r, a, false, {});
  }

  lemma FromAuthorizing()
    requires Reachable(Walking(Rec(2, Authorizing, None, None), Top, false, {}))
    ensures Reachable(Walking(Rec(3, Preflight, None, None), Top, false, {}))
  {
    hide Reachable, Ask, CancelStep, Authorize, Download, HaveArtifact;
    var r, a := Rec(2, Authorizing, None, None), To(Preflight);
    WalkingKey(r, Moving(a), Top, false, false, {});
    Plan(r, a, false, false, {}, {});
    Land(r, a, false, {});
  }

  lemma FromPreflight()
    requires Reachable(Walking(Rec(3, Preflight, None, None), Top, false, {}))
    ensures Reachable(Walking(Rec(4, Downloading, Some(Rootless), None), Top, false, {}))
  {
    hide Reachable, Ask, CancelStep, Authorize, Download, HaveArtifact;
    var r, a := Rec(3, Preflight, None, None), To(Downloading).(rootMode := Some(Rootless));
    WalkingKey(r, Moving(a), Top, false, false, {});
    Plan(r, a, false, false, {}, {});
    Land(r, a, false, {});
  }

  lemma FromDownloading()
    requires Reachable(Walking(Rec(4, Downloading, Some(Rootless), None), Top, false, {}))
    ensures Reachable(Walking(Rec(5, ArtifactReady, Some(Rootless), Some(1)), Top, true, {ID}))
  {
    hide Reachable, Ask, CancelStep, Authorize;
    var r, a := Rec(4, Downloading, Some(Rootless), None), To(ArtifactReady).(actualApkBytes := Some(1));
    WalkingKey(r, Moving(a), Top, false, true, {});
    assert {} + {ID} == {ID};
    Plan(r, a, false, true, {}, {ID});
    Land(r, a, true, {ID});
  }

  lemma FromReady()
    requires Reachable(Walking(Rec(5, ArtifactReady, Some(Rootless), Some(1)), Top, true, {ID}))
    ensures Reachable(Walking(Rec(6, Revalidating, Some(Rootless), Some(1)), Top, true, {ID}))
  {
    hide Reachable, Ask, CancelStep, Authorize, Download;
    var r, a := Rec(5, ArtifactReady, Some(Rootless), Some(1)), To(Revalidating);
    WalkingKey(r, Moving(a), Top, true, true, {ID});
    Plan(r, a, true, true, {ID}, {ID});
    Land(r, a, true, {ID});
  }

  lemma FromRevalidating()
    requires Reachable(Walking(Rec(6, Revalidating, Some(Rootless), Some(1)), Top, true, {ID}))
    ensures Reachable(Walking(STAGED, Top, true, {ID}))
  {
    hide Reachable, Ask, CancelStep, Authorize, Download;
    var r, a := Rec(6, Revalidating, Some(Rootless), Some(1)), To(Staging);
    WalkingKey(r, Moving(a), Top, true, true, {ID});
    Plan(r, a, true, true, {ID}, {ID});
    Land(r, a, true, {ID});
  }

  const BORN := NewReceipt(PANEL, APK, "plan", "credential", 0)

  function Knowing(r: Receipt): Manager { Manager(Some(map[ID := r]), map[]) }

  lemma Created()
    ensures Reachable(Solo(BORN, Knowing(BORN), map[], map[], {}))
  {
    hide Reachable;
    BornReachable();
    var empty := World(System(map[], map[0 := FORGETFUL], 1, map[], {}), map[], {}, {}, []);
    var call := Create(PANEL, APK, "plan", "credential", Free, ID);
    assert ActiveIds(Pruned(map[], 0)) == {};
    CreateLands();
    SoloSystem(BORN, BORN, FORGETFUL, Knowing(BORN));
    assert {} + map[ID := BORN].Keys == {ID};
    assert Next(empty, Outside(0, call, CALM)) == Solo(BORN, Knowing(BORN), map[], map[], {}) by {
      hide Perform;
    }
    ReachNext(empty, Outside(0, call, CALM));
  }

  lemma CreateLands()
    ensures Perform(map[], FORGETFUL, Create(PANEL, APK, "plan", "credential", Free, ID), CALM)
            == Reply(map[ID := BORN], Knowing(BORN), Success(BORN))
  {
    hide Accepted;
    var disk: Jobs := map[];
    SoloDocument(BORN);
    assert ActiveIds(disk) == {} && Pruned(disk, 0) == disk && Reconciled(map[], map[ID := BORN]) == map[];
    assert disk[ID := BORN] == map[ID := BORN];
  }

  lemma BornReachable()
    ensures Reachable(World(System(map[], map[0 := FORGETFUL], 1, map[], {}), map[], {}, {}, []))
  {
    assert DisciplinedRun(FRESH_WORLD, []) && Play(FRESH_WORLD, []) == FRESH_WORLD;
    assert RetainedFiles({}, map[]) == {};
    assert map[][0 := FORGETFUL] == map[0 := FORGETFUL];
    ReachNext(FRESH_WORLD, Boot);
  }

  /** A manager without a claim takes the job. */
  lemma Claimed()
    requires Reachable(Solo(BORN, Knowing(BORN), map[], map[], {}))
    ensures Reachable(Walking(Rec(1, Approved, None, None), Top, false, {}))
  {
    hide Reachable;
    var idle := Solo(BORN, Knowing(BORN), map[], map[], {});
    var starting := Worker(Starting(false), BORN, false, false, false, {});
    var claiming := Worker(Claiming(0, None, false), BORN, false, false, false, {});
    assert Reconciled(map[], map[ID := BORN]) == map[];
    SoloRead(BORN, Knowing(BORN), map[], map[], {}, WORKER);
    ReachNext(idle, Ensure(WORKER, CALM));
    assert Next(idle, Ensure(WORKER, CALM))
           == Solo(BORN, Knowing(BORN), map[], map[WORKER := starting], {}) by { hide Ask; }
    SoloRead(BORN, Knowing(BORN), map[], map[WORKER := starting], {}, WORKER);
    var w := Solo(BORN, Knowing(BORN), map[], map[WORKER := starting], {});
    ReachNext(w, Proceed(WORKER, GOOD));
    var tasks := w.tasks;
    assert tasks[WORKER := claiming] == map[WORKER := claiming];
    assert Next(w, Proceed(WORKER, GOOD))
           == Solo(BORN, Knowing(BORN), map[], map[WORKER := claiming], {}) by { hide Ask; }
    TakeLands(map[WORKER := claiming]);
    var v := Solo(BORN, Knowing(BORN), map[], map[WORKER := claiming], {});
    ReachNext(v, Proceed(WORKER, GOOD));
    var r := Rec(1, Approved, None, None);
    var tasks' := v.tasks;
    assert tasks'[WORKER := Worker(Top, r, false, false, false, {})]
           == map[WORKER := Worker(Top, r, false, false, false, {})];
    assert Next(v, Proceed(WORKER, GOOD)) == Walking(r, Top, false, {}) by { hide Ask; }
  }

  lemma TakeLands(tasks: map<Key, Worker>)
    ensures var r := Rec(1, Approved, None, None);
            Ask(Solo(BORN, Knowing(BORN), map[], tasks, {}), WORKER, Take(ID, 0, None), CALM)
            == (Solo(r, Holding(r), FIRST, tasks, {}), Success(r))
  {
    hide Accepted, Pruned;
    var r := Rec(1, Approved, None, None);
    var disk: Jobs := map[ID := BORN];
    assert ClaimedReceipt(BORN, 0) == r && Valid(r);
    hide Valid, ClaimedReceipt, Accepted;
    SoloDocument(r);
    assert disk[ID := r] == map[ID := r];
    assert Reconciled(map[], disk) == map[] && Reconciled(map[], map[ID := r]) == map[];
    var none: map<JobId, nat> := map[];
    assert none[ID := 1] == map[ID := 1];
    assert Perform(disk, Knowing(BORN), Take(ID, 0, None), CALM)
           == Reply(map[ID := r], Holding(r), Success(r)) by {
      hide Accepted, Pruned, ClaimedReceipt, Valid;
    }
    SoloSystem(BORN, r, Knowing(BORN), Holding(r));
    hide Perform;
  }

  // ------------------------------------------------------------------------ the race

  const STAGED := Rec(7, Staging, Some(Rootless), Some(1))
  const READY := Worker(Armed(StagePush), STAGED, true, false, false, {})

  lemma ArmedHolding()
    requires Reachable(Walking(STAGED, Top, true, {ID}))
    ensures Reachable(Walking(STAGED, Armed(StagePush), true, {ID}))
  {
    hide Reachable;
    var w := Walking(STAGED, Top, true, {ID});
    var v := Walking(STAGED, Checked(StagePush), true, {ID});
    assert Reconciled(map[ID := 1], map[ID := STAGED]) == map[ID := 1];
    SoloRead(STAGED, Holding(STAGED), FIRST, w.tasks, {ID}, WORKER);
    WalkingKey(STAGED, Checked(StagePush), Top, true, true, {ID});
    assert Next(w, Proceed(WORKER, GOOD)) == v by { hide Ask; }
    ReachNext(w, Proceed(WORKER, GOOD));
    SoloBarrier(v.tasks);
    WalkingKey(STAGED, Armed(StagePush), Checked(StagePush), true, true, {ID});
    assert Next(v, Proceed(WORKER, GOOD)) == Walking(STAGED, Armed(StagePush), true, {ID}) by { hide Ask; }
    ReachNext(v, Proceed(WORKER, GOOD));
  }

  lemma SoloBarrier(tasks: map<Key, Worker>)
    ensures var w := Solo(STAGED, Holding(STAGED), FIRST, tasks, {ID});
            Ask(w, WORKER, Barrier(ID, 7, Staging), CALM) == (w, Success(STAGED))
  {
    var w := Solo(STAGED, Holding(STAGED), FIRST, tasks, {ID});
    assert Reconciled(map[ID := 1], map[ID := STAGED]) == map[ID := 1];
    assert Perform(w.sys.disk, Holding(STAGED), Barrier(ID, 7, Staging), CALM)
           == Reply(w.sys.disk, Holding(STAGED), Success(STAGED));
    SoloSystem(STAGED, STAGED, Holding(STAGED), Holding(STAGED));
    hide Perform;
  }

  /** The armed worker beside a sweep of interrupted claims at some point of its own. */
  function Sweeping(r: Receipt, m: Manager, pc: Pc, copy: Receipt, files: set<JobId>): World {
    Solo(r, m, FIRST, map[WORKER := READY, SWEEP := Worker(pc, copy, false, false, false, {})], files)
  }

  /** One unreadable store, and the manager forgets its claim. */
  lemma Forgotten()
    requires Reachable(Walking(STAGED, Armed(StagePush), true, {ID}))
    ensures Reachable(Sweeping(STAGED, Knowing(STAGED), Starting(false), STAGED, {ID}))
  {
    hide Reachable;
    var w := Walking(STAGED, Armed(StagePush), true, {ID});
    var v := Solo(STAGED, FORGETFUL, FIRST, map[WORKER := READY], {ID});
    SoloSystem(STAGED, STAGED, Holding(STAGED), FORGETFUL);
    assert Next(w, Outside(0, Read(ID), BLIND)) == v;
    ReachNext(w, Outside(0, Read(ID), BLIND));
    SoloSystem(STAGED, STAGED, FORGETFUL, Knowing(STAGED));
    assert Reconciled(map[], map[ID := STAGED]) == map[];
    assert Ask(v, SWEEP, Read(ID), CALM)
           == (Solo(STAGED, Knowing(STAGED), FIRST, map[WORKER := READY], {ID}), Success(STAGED));
    var tasks: map<Key, Worker> := map[WORKER := READY];
    assert tasks[SWEEP := Worker(Starting(false), STAGED, false, false, false, {})]
           == map[WORKER := READY, SWEEP := Worker(Starting(false), STAGED, false, false, false, {})];
    assert Next(v, Ensure(SWEEP, CALM))
           == Sweeping(STAGED, Knowing(STAGED), Starting(false), STAGED, {ID}) by { hide Ask; }
    ReachNext(v, Ensure(SWEEP, CALM));
  }

  /** The sweep reads, is asked to clean up, does so, and may now end the job. */
  lemma SweptClean()
    requires Reachable(Sweeping(STAGED, Knowing(STAGED), Starting(false), STAGED, {ID}))
    ensures Reachable(Sweeping(STAGED, Knowing(STAGED), Claiming(7, Some(7), false), STAGED, {}))
  {
    hide Reachable;
    var m := Knowing(STAGED);
    assert Reconciled(map[], map[ID := STAGED]) == map[];
    SweepStep(Starting(false), Claiming(7, None, false), {ID}, {ID});
    SweepStep(Claiming(7, None, false), NeedsCleanup(false), {ID}, {ID});
    SweepStep(NeedsCleanup(false), CleaningFor(7, false), {ID}, {ID});
    assert {ID} - {ID} == {};
    SweepStep(CleaningFor(7, false), Claiming(7, Some(7), false), {ID}, {});
  }

  lemma SweepStep(pc: Pc, pc': Pc, files: set<JobId>, files': set<JobId>)
    requires Reachable(Sweeping(STAGED, Knowing(STAGED), pc, STAGED, files))
    requires || (pc == Starting(false) && pc' == Claiming(7, None, false) && files' == files)
             || (pc == Claiming(7, None, false) && pc' == NeedsCleanup(false) && files' == files)
             || (pc == NeedsCleanup(false) && pc' == CleaningFor(7, false) && files' == files)
             || (pc == CleaningFor(7, false) && pc' == Claiming(7, Some(7), false) && files' == files - {ID})
    ensures Reachable(Sweeping(STAGED, Knowing(STAGED), pc', STAGED, files'))
  {
    hide Reachable;
    var w := Sweeping(STAGED, Knowing(STAGED), pc, STAGED, files);
    assert Reconciled(map[], map[ID := STAGED]) == map[];
    SoloRead(STAGED, Knowing(STAGED), FIRST, w.tasks, files, SWEEP);
    SoloRefused(w.tasks, files);
    var t := Worker(pc', STAGED, false, false, false, {});
    var tasks := w.tasks;
    assert tasks[SWEEP := t] == map[WORKER := READY, SWEEP := t];
    assert Next(w, Proceed(SWEEP, GOOD)) == Sweeping(STAGED, Knowing(STAGED), pc', STAGED, files') by {
      hide Ask;
    }
    ReachNext(w, Proceed(SWEEP, GOOD));
  }

  lemma SoloRefused(tasks: map<Key, Worker>, files: set<JobId>)
    ensures var w := Solo(STAGED, Knowing(STAGED), FIRST, tasks, files);
            Ask(w, SWEEP, Take(ID, 7, None), CALM) == (w, Failure(CleanupRequired))
  {
    var w := Solo(STAGED, Knowing(STAGED), FIRST, tasks, files);
    assert Reconciled(map[], map[ID := STAGED]) == map[];
    SoloSystem(STAGED, STAGED, Knowing(STAGED), Knowing(STAGED));
    assert Perform(w.sys.disk, Knowing(STAGED), Take(ID, 7, None), CALM)
           == Reply(w.sys.disk, Knowing(STAGED), Failure(CleanupRequired));
    hide Perform;
  }

  const ENDED := ClaimedReceipt(STAGED, 0)

  lemma SweptAway()
    requires Reachable(Sweeping(STAGED, Knowing(STAGED), Claiming(7, Some(7), false), STAGED, {}))
    ensures exists w :: Reachable(w) && w.tasks == map[WORKER := READY] && w.log == []
                        && 0 in w.sys.managers && w.sys.disk == map[ID := ENDED]
  {
    hide Reachable;
    var w := Sweeping(STAGED, Knowing(STAGED), Claiming(7, Some(7), false), STAGED, {});
    SoloEnds(w.tasks);
    var v := Next(w, Proceed(SWEEP, GOOD));
    var tasks := w.tasks;
    assert tasks - {SWEEP} == map[WORKER := READY];
    assert v.tasks == map[WORKER := READY] && v.sys.disk == map[ID := ENDED] && v.log == [] by { hide Ask; }
    ReachNext(w, Proceed(SWEEP, GOOD));
  }

  lemma SoloEnds(tasks: map<Key, Worker>)
    ensures var w := Solo(STAGED, Knowing(STAGED), FIRST, tasks, {});
            var (w1, a) := Ask(w, SWEEP, Take(ID, 7, Some(7)), CALM);
            && 0 in w1.sys.managers && w1.sys.disk == map[ID := ENDED] && w1.tasks == tasks
            && w1.log == [] && a.Success?
  {
    hide Accepted, Pruned, Evolves;
    var disk: Jobs := map[ID := STAGED];
    assert Reconciled(map[], disk) == map[];
    ClaimKeepsReceipt(STAGED, 0);
    SoloDocument(ENDED);
    assert disk[ID := ENDED] == map[ID := ENDED];
    assert Perform(disk, Knowing(STAGED), Take(ID, 7, Some(7)), CALM).disk == map[ID := ENDED];
    hide Perform;
  }

  /**
   * A run in which an APK is pushed for a job that has already ended: the
   * manager loses its claim between the worker's barrier and its push, and a
   * sweep of interrupted claims ends the job in that gap. The sweep also
   * removes the file; the push reads it through the descriptor it opened after
   * the barrier, before it connected.
   */
  lemma PushAfterTheEnd()
    ensures exists w :: && Reachable(w)
                        && w.log == [Effect(StagePush, ID, 0, 1)]
                        && w.sys.disk == map[ID := ENDED] && ENDED.phase.RecoveryRequired?
  {
    hide Reachable;
    Created();
    Claimed();
    FromApproved();
    FromAuthorizing();
    FromPreflight();
    FromDownloading();
    FromReady();
    FromRevalidating();
    ArmedHolding();
    Forgotten();
    SweptClean();
    SweptAway();
    var w :| Reachable(w) && w.tasks == map[WORKER := READY] && w.log == []
             && 0 in w.sys.managers && w.sys.disk == map[ID := ENDED];
    hide Next, Disciplined, ClaimedReceipt;
    Pushes(w);
    ReachNext(w, Proceed(WORKER, GOOD));
  }

  lemma Pushes(w: World)
    requires w.tasks == map[WORKER := READY] && 0 in w.sys.managers && w.log == []
    ensures var v := Next(w, Proceed(WORKER, GOOD));
            v.log == [Effect(StagePush, ID, 0, 1)] && v.sys == w.sys
    ensures Disciplined(w, Proceed(WORKER, GOOD)) && ENDED.phase.RecoveryRequired?
  {
  }
}
