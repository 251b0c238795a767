/**
 * How a worker that cannot go on ends its job: each answer of the panel, the
 * network or the disk has one ending, and nothing but that is recorded.
 */
module InstallEndings {
  import opened Wrappers
  import opened InstallReceipt
  import opened InstallJobs
  import opened InstallJobsLaws
  import opened InstallRuns
  import opened InstallExecutor
  import opened InstallMissing
  import opened InstallProgress

  /** A worker whose copy is the record, and that has the claim. */
  predicate AtWork(w: World, k: Key, clock: int) {
    && k in w.tasks && InHand(w.sys, k) && w.sys.disk[k.id] == w.tasks[k].receipt
    && w.tasks[k].receipt.updatedAt <= clock
    && Standing(w.tasks[k])
  }

  /** Each place belongs to its phase, and only where a job can be cancelled is there a cancellation. */
  predicate Standing(t: Worker) {
    var r := t.receipt;
    && (r.cancelRequested ==> Cancellable(r.phase))
    && match t.pc
       case Checked(kind) => r.phase == KindPhase(kind) && !r.cancelRequested
       case Armed(kind) => r.phase == KindPhase(kind) && !r.cancelRequested
       case InstallRefused => r.phase.Installing? && !r.cancelRequested
       case RefusedClean => r.phase.Installing? && !r.cancelRequested
       case LaunchReady => r.phase.Launching? && !r.cancelRequested
       case CancelLocal => r.cancelRequested
       case Moving(a) => a.phase.Cancelled? ==> r.cancelRequested
       case FailAt(revision, _) => revision == r.revision
       case RecoverAt(revision, _) => revision == r.revision
       case _ => true
  }

  // -------------------------------------------------------------- which answer ends it how

  function Fails(code: ResultCode): Option<Advance> { Some(Ending(Failed, code)) }

  function PutAside(code: ResultCode): Option<Advance> { Some(Ending(RecoveryRequired, code)) }

  /** Who cannot tell what an operation did to the panel says so; otherwise somebody has to look. */
  function Doubt(b: Branch): Option<Advance> {
    PutAside(if b.Unclear? then AmbiguousMutation else VerificationRequired)
  }

  /** How a cancellation is recorded. */
  function Cancelling(r: Receipt): Advance {
    Ending(Cancelled, if r.phase.Staging? then CancelledAfterStagingCleanup else CancelledByUser)
  }

  /** The ending that an answer calls for, if it calls for one. */
  function Verdict(t: Worker, c: Choice): Option<Advance> {
    var b := c.branch;
    match t.pc
    case Top =>
      if t.receipt.cancelRequested then
        if !(t.receipt.phase.Staging? && t.staged) || b.Fine? then Some(Cancelling(t.receipt)) else Doubt(b)
      else TurnVerdict(t, c)
    case Checked(StagePush) =>
      if b.Refused? then Fails(ArtifactRejected) else if b.Declined? then Fails(TransportFailed) else None
    case Checked(PackageInstall) =>
      if b.Refused? then Fails(InstallFailed) else if b.Declined? then PutAside(VerificationRequired) else None
    case Armed(StagePush) =>
      (match b
       case Fine => None
       case Refused(code) => Fails(code)
       case Declined => Fails(TransportFailed)
       case _ => PutAside(AmbiguousMutation))
    case Armed(PackageInstall) =>
      if b.Fine? then None
      else if b.Refused? || b.Declined? then Fails(InstallFailed) else PutAside(AmbiguousMutation)
    case InstallRefused => if b.Fine? then Fails(InstallFailed) else Doubt(b)
    case RefusedClean => if c.cleanable then Fails(InstallFailed) else PutAside(VerificationRequired)
    case CleanFail(code) =>
      if c.cleanable then Fails(code)
      else if t.receipt.phase.Staging? then PutAside(VerificationRequired) else None
    case CancelLocal =>
      if c.cleanable || !(t.local || t.receipt.actualApkBytes.Some? || t.receipt.phase.Downloading?)
      then Some(Cancelling(t.receipt))
      else if t.receipt.phase.Staging? then PutAside(VerificationRequired) else None
    case LaunchReady =>
      if b.Fine? then None else if b.Refused? || b.Declined? then Fails(LaunchFailed) else Doubt(b)
    case _ => None
  }

  /** The same for the turn of a phase. A phase that somebody else left in doubt is never gone on with. */
  function TurnVerdict(t: Worker, c: Choice): Option<Advance> {
    var b := c.branch;
    match t.receipt.phase
    case Authorizing => if b.Refused? then Fails(b.code) else None
    case Preflight => if b.Refused? then Fails(b.code) else None
    case Downloading => if b.Refused? then Fails(b.code) else None
    case ArtifactReady => if b.Refused? then Fails(b.code) else None
    case Revalidating => if b.Refused? then Fails(b.code) else None
    case Staging =>
      if !t.local then PutAside(AmbiguousMutation) else if b.Declined? then Fails(TransportFailed) else None
    case Installing =>
      if !t.staged then PutAside(AmbiguousMutation)
      else if b.Declined? then PutAside(VerificationRequired) else None
    case Installed => if c.cleanable then None else PutAside(VerificationRequired)
    case Launching => if !t.staged then PutAside(AmbiguousMutation) else if b.Fine? then None else Doubt(b)
    case HealthCheck => if b.Fine? then None else PutAside(VerificationRequired)
    case _ => None
  }

  /** Which of these the receipt can record. */
  predicate Recordable(r: Receipt, a: Advance) {
    a.phase.Failed? ==> a.resultCode.Some? && FailureCodeAt(r.phase, a.resultCode.value)
  }

  // ------------------------------------------------------------------------ on the way there

  /** Where a worker that has given up is heading, and how many steps it is away. */
  function Course(t: Worker): Option<(Advance, nat)> {
    match t.pc
    case Failing(code) => Some((Ending(Failed, code), 2))
    case FailAt(_, code) => Some((Ending(Failed, code), 1))
    case CleanFail(code) => Some((Ending(Failed, code), 3))
    case InstallRefused => Some((Ending(Failed, InstallFailed), 4))
    case RefusedClean => Some((Ending(Failed, InstallFailed), 3))
    case Recovering(code) => Some((Ending(RecoveryRequired, code), 4))
    case RecoverClean(code) => Some((Ending(RecoveryRequired, code), 3))
    case RecoverRead(code) => Some((Ending(RecoveryRequired, code), 2))
    case RecoverAt(_, code) => Some((Ending(RecoveryRequired, code), 1))
    case CancelLocal => Some((Cancelling(t.receipt), 2))
    case Moving(a) => if a == Cancelling(t.receipt) then Some((a, 1)) else None
    case _ => None
  }

  /** What the worker still has to remove, it is going to. */
  predicate Clears(t: Worker) {
    match t.pc
    case CleanFail(_) => true
    case InstallRefused => true
    case RefusedClean => true
    case Recovering(_) => true
    case RecoverClean(_) => true
    case CancelLocal => t.local
    case _ => false
  }

  predicate Heading(w: World, k: Key, clock: int, a: Advance, n: nat, tidy: bool) {
    && AtWork(w, k, clock) && Course(w.tasks[k]) == Some((a, n))
    && (tidy ==> Clears(w.tasks[k]) || k.id !in w.files)
  }

  /** What an ending leaves in the store: this verdict, unless 32 others crowd it out. */
  predicate Ended(w: World, k: Key, a: Advance, crowded: bool) {
    && (k.id in w.sys.disk <==> !crowded)
    && (k.id in w.sys.disk ==> w.sys.disk[k.id].phase == a.phase && w.sys.disk[k.id].resultCode == a.resultCode)
  }

  lemma EndLands(s: System, k: Key, a: Advance, env: Env)
    requires InHand(s, k) && env.readable && env.save.Committed? && s.disk[k.id].updatedAt <= env.now
    requires Advances(s.managers[k.executor], k.id, s.disk[k.id], a, env.now) && Terminal(a.phase)
    ensures var r' := AdvancedReceipt(s.disk[k.id], a, env.now);
            var jobs := Pruned(s.disk[k.id := r'], env.now);
            && Transition(s.disk, s.managers[k.executor], k.id, s.disk[k.id].revision, a, env).disk == jobs
            && (k.id in jobs <==> !Crowded(s.disk, k.id, env.now)) && (k.id in jobs ==> jobs[k.id] == r')
  {
    hide Accepted, Valid, FactsFit, ResultFits, Pruned, ClockAdvances, Reconciled, Crowded;
    var r' := AdvancedReceipt(s.disk[k.id], a, env.now);
    AdvanceRefreshed(s, k, a, env);
    PrunedReplaceAccepted(s.disk, k.id, r', env.now);
    PrunedClockAdvances(s.disk, k.id, r', env.now);
    PrunedAway(s.disk, k.id, r', env.now);
    PrunedAt(s.disk[k.id := r'], k.id, env.now);
  }

  /** A recordable ending passes the checks of the table. */
  lemma EndingAdvances(r: Receipt, m: Manager, id: JobId, a: Advance, now: int)
    requires Valid(r) && m.Holds(id, r.executorGeneration) && r.updatedAt <= now && Recordable(r, a)
    requires || (a.phase.Failed? && a.resultCode.Some? && a == Ending(Failed, a.resultCode.value))
             || (a.phase.RecoveryRequired? && a.resultCode.Some? && RecoveryCode(a.resultCode.value)
                 && a == Ending(RecoveryRequired, a.resultCode.value)
                 && Rank(Staging) <= Rank(r.phase) <= Rank(HealthCheck))
             || (a == Cancelling(r) && r.cancelRequested && Cancellable(r.phase))
    ensures Advances(m, id, r, a, now) && Terminal(a.phase)
  {
  }

  /** What the answer has done before any of that: a mutation that was sent stays sent. */
  function Sends(k: Key, t: Worker, c: Choice): seq<Effect> {
    if t.pc.Armed? && !c.branch.Declined?
    then [Effect(t.pc.kind, k.id, k.executor, t.receipt.executorGeneration)] else []
  }

  /** The answers of the disk are good ones, whatever the panel and the network say. */
  predicate StoreGood(env: Env, clock: int) {
    env.readable && env.save.Committed? && clock <= env.now
  }

  /** Asking the store changes nothing but the manager's memory. */
  lemma Looks(w: World, k: Key, clock: int, call: Call, env: Env)
    requires AtWork(w, k, clock) && StoreGood(env, clock)
    requires var r := w.tasks[k].receipt;
             || call == Read(k.id)
             || (call == Barrier(k.id, r.revision, r.phase) && MutationBarrier(r.phase) && !r.cancelRequested)
             || (call == CleanupBarrier(k.id, r.revision, r.phase)
                 && CleanupBarrierCancel(r.phase) == Some(r.cancelRequested))
    ensures k.executor in w.sys.managers
    ensures var (w1, a) := Ask(w, k, call, env);
            && a == Success(w.tasks[k].receipt) && AtWork(w1, k, env.now)
            && w1.tasks == w.tasks && w1.log == w.log && w1.files == w.files && w1.sys.disk == w.sys.disk
  {
    hide InHand, Perform, Standing;
    InHandLive(w.sys, k);
    LookInHand(w.sys, k, call, env);
  }

  lemma RereadOn(w: World, k: Key, clock: int, a: Advance, n: nat, tidy: bool, c: Choice)
    requires Heading(w, k, clock, a, n, tidy) && Good(c, clock)
    requires var pc := w.tasks[k].pc; pc.Failing? || pc.Recovering? || pc.RecoverRead?
    ensures k.executor in w.sys.managers && n > 1 && Heading(Work(w, k, c), k, c.env.now, a, n - 1, tidy)
    ensures Work(w, k, c).log == w.log && Work(w, k, c).sys.disk == w.sys.disk
  {
    hide InHand, Ask;
    InHandLive(w.sys, k);
    Looks(w, k, clock, Read(k.id), c.env);
  }

  lemma RefusedOn(w: World, k: Key, clock: int, a: Advance, n: nat, tidy: bool, c: Choice)
    requires Heading(w, k, clock, a, n, tidy) && Good(c, clock) && w.tasks[k].pc.InstallRefused?
    ensures k.executor in w.sys.managers && n > 1 && Heading(Work(w, k, c), k, c.env.now, a, n - 1, tidy)
    ensures Work(w, k, c).log == w.log && Work(w, k, c).sys.disk == w.sys.disk
  {
    hide InHand, Ask, Reread, EndAt, MoveStep, RecheckStep, StartStep, TopStep, MutateStep;
    InHandLive(w.sys, k);
    var r := w.tasks[k].receipt;
    Looks(w, k, clock, CleanupBarrier(k.id, r.revision, r.phase), c.env);
  }

  lemma RemovalOn(w: World, k: Key, clock: int, a: Advance, n: nat, tidy: bool, c: Choice)
    requires Heading(w, k, clock, a, n, tidy) && Good(c, clock)
    requires var pc := w.tasks[k].pc; pc.CleanFail? || pc.RefusedClean? || pc.RecoverClean? || pc.CancelLocal?
    ensures k.executor in w.sys.managers && n > 1 && Heading(Work(w, k, c), k, c.env.now, a, n - 1, tidy)
    ensures Work(w, k, c).log == w.log && Work(w, k, c).sys.disk == w.sys.disk
  {
    hide InHand, Ask, Reread, EndAt, MoveStep, RecheckStep, StartStep, TopStep, MutateStep, Guarded;
    InHandLive(w.sys, k);
  }

  lemma StepOn(w: World, k: Key, clock: int, a: Advance, n: nat, tidy: bool, c: Choice)
    requires Heading(w, k, clock, a, n, tidy) && n > 1 && Good(c, clock)
    ensures k.executor in w.sys.managers && Heading(Work(w, k, c), k, c.env.now, a, n - 1, tidy)
    ensures Work(w, k, c).log == w.log && Work(w, k, c).sys.disk == w.sys.disk
  {
    hide InHand, Standing, Work, Good;
    var pc := w.tasks[k].pc;
    if pc.Failing? || pc.Recovering? || pc.RecoverRead? {
      RereadOn(w, k, clock, a, n, tidy, c);
    } else if pc.InstallRefused? {
      RefusedOn(w, k, clock, a, n, tidy, c);
    } else {
      RemovalOn(w, k, clock, a, n, tidy, c);
    }
  }

  lemma LastStep(w: World, k: Key, clock: int, a: Advance, tidy: bool, c: Choice)
    requires Heading(w, k, clock, a, 1, tidy) && Good(c, clock)
    requires Advances(w.sys.managers[k.executor], k.id, w.tasks[k].receipt, a, c.env.now) && Terminal(a.phase)
    ensures var w' := Work(w, k, c);
            && Ended(w', k, a, Crowded(w.sys.disk, k.id, c.env.now)) && w'.log == w.log
            && (tidy ==> k.id !in w'.files)
  {
    hide InHand, Advances, Crowded, Transition;
    EndLands(w.sys, k, a, c.env);
  }

  /** A worker under way arrives. */
  lemma {:induction false} Arrives(
    w: World, k: Key, clock: int, a: Advance, n: nat, tidy: bool, choices: seq<Choice>)
    requires Heading(w, k, clock, a, n, tidy) && AllGood(choices, clock) && |choices| == n
    requires Recordable(w.tasks[k].receipt, a)
    requires a.phase.RecoveryRequired? ==>
               && a.resultCode.Some? && RecoveryCode(a.resultCode.value)
               && Rank(Staging) <= Rank(w.tasks[k].receipt.phase) <= Rank(HealthCheck)
    ensures var w' := Play(w, Proceeds(k, choices));
            && n > 0 && Ended(w', k, a, Crowded(w.sys.disk, k.id, choices[n - 1].env.now)) && w'.log == w.log
            && (tidy ==> k.id !in w'.files)
    decreases n
  {
    hide InHand, Work, Crowded, Ended, Advances, Valid, Clears;
    var c := choices[0];
    assert Proceeds(k, choices)[0] == Proceed(k, c);
    assert Proceeds(k, choices)[1..] == Proceeds(k, choices[1..]);
    if n == 1 {
      assert Proceeds(k, choices[1..]) == [];
      InHandValid(w.sys, k);
      EndingAdvances(w.tasks[k].receipt, w.sys.managers[k.executor], k.id, a, c.env.now);
      LastStep(w, k, clock, a, tidy, c);
    } else {
      StepOn(w, k, clock, a, n, tidy, c);
      Arrives(Work(w, k, c), k, c.env.now, a, n - 1, tidy, choices[1..]);
    }
  }

  // ------------------------------------------------------------------------ the answer itself

  /** What is under way to be removed, whichever way the job ends. */
  predicate Tidied(t: Worker, a: Advance) {
    || a.phase.RecoveryRequired?
    || (a.phase.Failed? && Rank(Downloading) <= Rank(t.receipt.phase) <= Rank(Installing))
    || (a.phase.Cancelled? && t.local)
  }

  /** The answer sets the worker on its course, and sends nothing but what it answers. */
  predicate Heads(w: World, w': World, k: Key, c: Choice)
    requires k in w.tasks && Verdict(w.tasks[k], c).Some?
  {
    var t := w.tasks[k];
    var a := Verdict(t, c).value;
    && k in w'.tasks && Course(w'.tasks[k]).Some? && Course(w'.tasks[k]).value.1 <= 4
    && Heading(w', k, c.env.now, a, Course(w'.tasks[k]).value.1, Tidied(t, a))
    && w'.tasks[k].receipt == t.receipt
    && w'.log == w.log + Sends(k, t, c) && w'.sys.disk == w.sys.disk
  }

  /** Where only the counter moves, and perhaps the log. */
  lemma TurnsAway(w: World, w': World, k: Key, clock: int, c: Choice)
    requires AtWork(w, k, clock) && StoreGood(c.env, clock) && Verdict(w.tasks[k], c).Some?
    requires AtWork(w', k, c.env.now) && w'.sys.disk == w.sys.disk
    requires w'.tasks[k].receipt == w.tasks[k].receipt && w'.log == w.log + Sends(k, w.tasks[k], c)
    requires Course(w'.tasks[k]).Some? && Course(w'.tasks[k]).value.1 <= 4
    requires Course(w'.tasks[k]).value.0 == Verdict(w.tasks[k], c).value
    requires Tidied(w.tasks[k], Verdict(w.tasks[k], c).value) ==> Clears(w'.tasks[k]) || k.id !in w'.files
    ensures Heads(w, w', k, c)
  {
    hide InHand, Standing, Verdict, Tidied, Clears, Sends;
  }

  lemma PushHeads(w: World, k: Key, clock: int, c: Choice)
    requires AtWork(w, k, clock) && StoreGood(c.env, clock) && Verdict(w.tasks[k], c).Some?
    requires w.tasks[k].pc == Armed(StagePush)
    ensures k.executor in w.sys.managers && Heads(w, Work(w, k, c), k, c)
  {
    hide InHand, Heads, Reread, EndAt, MoveStep, RecheckStep, StartStep, TopStep, Guarded, CleanFailStep,
         CancelLocalStep;
    InHandLive(w.sys, k);
    TurnsAway(w, Work(w, k, c), k, clock, c);
  }

  lemma InstallHeads(w: World, k: Key, clock: int, c: Choice)
    requires AtWork(w, k, clock) && StoreGood(c.env, clock) && Verdict(w.tasks[k], c).Some?
    requires w.tasks[k].pc == Armed(PackageInstall)
    ensures k.executor in w.sys.managers && Heads(w, Work(w, k, c), k, c)
  {
    hide InHand, Heads, Reread, EndAt, MoveStep, RecheckStep, StartStep, TopStep, Guarded, CleanFailStep,
         CancelLocalStep;
    InHandLive(w.sys, k);
    TurnsAway(w, Work(w, k, c), k, clock, c);
  }

  lemma CancelLocalHeads(w: World, k: Key, clock: int, c: Choice)
    requires AtWork(w, k, clock) && StoreGood(c.env, clock) && Verdict(w.tasks[k], c).Some?
    requires w.tasks[k].pc.CancelLocal?
    ensures k.executor in w.sys.managers && Heads(w, Work(w, k, c), k, c)
  {
    hide InHand, Heads, Reread, EndAt, MoveStep, RecheckStep, StartStep, TopStep, Guarded, MutateStep;
    InHandLive(w.sys, k);
    TurnsAway(w, Work(w, k, c), k, clock, c);
  }

  lemma RemovalHeads(w: World, k: Key, clock: int, c: Choice)
    requires AtWork(w, k, clock) && StoreGood(c.env, clock) && Verdict(w.tasks[k], c).Some?
    requires var pc := w.tasks[k].pc; pc.RefusedClean? || pc.CleanFail?
    ensures k.executor in w.sys.managers && Heads(w, Work(w, k, c), k, c)
  {
    hide InHand, Heads, Reread, EndAt, MoveStep, RecheckStep, StartStep, TopStep, Guarded, MutateStep;
    InHandLive(w.sys, k);
    TurnsAway(w, Work(w, k, c), k, clock, c);
  }

  lemma CheckedHeads(w: World, k: Key, clock: int, c: Choice)
    requires AtWork(w, k, clock) && StoreGood(c.env, clock) && Verdict(w.tasks[k], c).Some?
    requires w.tasks[k].pc.Checked?
    ensures k.executor in w.sys.managers && Heads(w, Work(w, k, c), k, c)
  {
    hide InHand, Ask, Heads, Reread, EndAt, MoveStep, RecheckStep, StartStep, TopStep, Guarded, MutateStep,
         CleanFailStep, CancelLocalStep;
    InHandLive(w.sys, k);
    var r := w.tasks[k].receipt;
    Looks(w, k, clock, Barrier(k.id, r.revision, r.phase), c.env);
    TurnsAway(w, Work(w, k, c), k, clock, c);
  }

  lemma ReadyHeads(w: World, k: Key, clock: int, c: Choice)
    requires AtWork(w, k, clock) && StoreGood(c.env, clock) && Verdict(w.tasks[k], c).Some?
    requires w.tasks[k].pc.LaunchReady?
    ensures k.executor in w.sys.managers && Heads(w, Work(w, k, c), k, c)
  {
    hide InHand, Ask, Heads, Reread, EndAt, MoveStep, RecheckStep, StartStep, TopStep, MutateStep,
         CleanFailStep, CancelLocalStep;
    InHandLive(w.sys, k);
    var r := w.tasks[k].receipt;
    Looks(w, k, clock, Barrier(k.id, r.revision, r.phase), c.env);
    TurnsAway(w, Work(w, k, c), k, clock, c);
  }

  lemma RefusedHeads(w: World, k: Key, clock: int, c: Choice)
    requires AtWork(w, k, clock) && StoreGood(c.env, clock) && Verdict(w.tasks[k], c).Some?
    requires w.tasks[k].pc.InstallRefused?
    ensures k.executor in w.sys.managers && Heads(w, Work(w, k, c), k, c)
  {
    hide InHand, Ask, Heads, Reread, EndAt, MoveStep, RecheckStep, StartStep, TopStep, MutateStep,
         CleanFailStep, CancelLocalStep;
    InHandLive(w.sys, k);
    var r := w.tasks[k].receipt;
    Looks(w, k, clock, CleanupBarrier(k.id, r.revision, r.phase), c.env);
    TurnsAway(w, Work(w, k, c), k, clock, c);
  }

  lemma LaunchingHeads(w: World, k: Key, clock: int, c: Choice)
    requires AtWork(w, k, clock) && StoreGood(c.env, clock) && Verdict(w.tasks[k], c).Some?
    requires w.tasks[k].pc.Top? && !w.tasks[k].receipt.cancelRequested && w.tasks[k].receipt.phase.Launching?
    ensures k.executor in w.sys.managers && Heads(w, Work(w, k, c), k, c)
  {
    hide InHand, Ask, Heads, Reread, EndAt, MoveStep, RecheckStep, StartStep, Guarded, MutateStep,
         CleanFailStep, CancelLocalStep, CancelStep, Download, Authorize;
    InHandLive(w.sys, k);
    var r := w.tasks[k].receipt;
    Looks(w, k, clock, CleanupBarrier(k.id, r.revision, r.phase), c.env);
    TurnsAway(w, Work(w, k, c), k, clock, c);
  }

  lemma EarlyHeads(w: World, k: Key, clock: int, c: Choice)
    requires AtWork(w, k, clock) && StoreGood(c.env, clock) && Verdict(w.tasks[k], c).Some?
    requires w.tasks[k].pc.Top? && !w.tasks[k].receipt.cancelRequested
    requires Rank(w.tasks[k].receipt.phase) < Rank(Downloading)
    ensures k.executor in w.sys.managers && Heads(w, Work(w, k, c), k, c)
  {
    hide InHand, Ask, Heads, Reread, EndAt, MoveStep, RecheckStep, StartStep, Guarded, MutateStep,
         CleanFailStep, CancelLocalStep, CancelStep, Authorize;
    InHandLive(w.sys, k);
    TurnsAway(w, Work(w, k, c), k, clock, c);
  }

  lemma DownloadHeads(w: World, k: Key, clock: int, c: Choice)
    requires AtWork(w, k, clock) && StoreGood(c.env, clock) && Verdict(w.tasks[k], c).Some?
    requires w.tasks[k].pc.Top? && !w.tasks[k].receipt.cancelRequested
    requires w.tasks[k].receipt.phase.Downloading?
    ensures k.executor in w.sys.managers && Heads(w, Work(w, k, c), k, c)
  {
    hide HaveArtifact, InHand, Ask, Heads, Reread, EndAt, MoveStep, RecheckStep, StartStep, Guarded, MutateStep,
         CleanFailStep, CancelLocalStep, CancelStep, Authorize;
    InHandLive(w.sys, k);
    TurnsAway(w, Work(w, k, c), k, clock, c);
  }

  lemma FetchingHeads(w: World, k: Key, clock: int, c: Choice)
    requires AtWork(w, k, clock) && StoreGood(c.env, clock) && Verdict(w.tasks[k], c).Some?
    requires w.tasks[k].pc.Top? && !w.tasks[k].receipt.cancelRequested
    requires Rank(Downloading) < Rank(w.tasks[k].receipt.phase) < Rank(Staging)
    ensures k.executor in w.sys.managers && Heads(w, Work(w, k, c), k, c)
  {
    hide InHand, Ask, Heads, Reread, EndAt, MoveStep, RecheckStep, StartStep, Guarded, MutateStep,
         CleanFailStep, CancelLocalStep, CancelStep, Authorize;
    InHandLive(w.sys, k);
    TurnsAway(w, Work(w, k, c), k, clock, c);
  }

  lemma MutatingHeads(w: World, k: Key, clock: int, c: Choice)
    requires AtWork(w, k, clock) && StoreGood(c.env, clock) && Verdict(w.tasks[k], c).Some?
    requires w.tasks[k].pc.Top? && !w.tasks[k].receipt.cancelRequested
    requires w.tasks[k].receipt.phase.Staging? || w.tasks[k].receipt.phase.Installing?
    ensures k.executor in w.sys.managers && Heads(w, Work(w, k, c), k, c)
  {
    hide InHand, Ask, Heads, Reread, EndAt, MoveStep, RecheckStep, StartStep, Guarded, MutateStep,
         CleanFailStep, CancelLocalStep, CancelStep, Download;
    InHandLive(w.sys, k);
    TurnsAway(w, Work(w, k, c), k, clock, c);
  }

  lemma TurnHeads(w: World, k: Key, clock: int, c: Choice)
    requires AtWork(w, k, clock) && StoreGood(c.env, clock) && Verdict(w.tasks[k], c).Some?
    requires w.tasks[k].pc.Top? && !w.tasks[k].receipt.cancelRequested
    requires Rank(w.tasks[k].receipt.phase) >= Rank(Installed) && !w.tasks[k].receipt.phase.Launching?
    ensures k.executor in w.sys.managers && Heads(w, Work(w, k, c), k, c)
  {
    hide InHand, Ask, Heads, Reread, EndAt, MoveStep, RecheckStep, StartStep, Guarded, MutateStep,
         CleanFailStep, CancelLocalStep, CancelStep, Download;
    InHandLive(w.sys, k);
    TurnsAway(w, Work(w, k, c), k, clock, c);
  }

  lemma CancelHeads(w: World, k: Key, clock: int, c: Choice)
    requires AtWork(w, k, clock) && StoreGood(c.env, clock) && Verdict(w.tasks[k], c).Some?
    requires w.tasks[k].pc.Top? && w.tasks[k].receipt.cancelRequested
    ensures k.executor in w.sys.managers && Heads(w, Work(w, k, c), k, c)
  {
    hide InHand, Ask, Heads, Reread, EndAt, MoveStep, RecheckStep, StartStep, Guarded, MutateStep,
         CleanFailStep, CancelLocalStep, Download, Authorize;
    InHandLive(w.sys, k);
    var r := w.tasks[k].receipt;
    if r.phase.Staging? { Looks(w, k, clock, CleanupBarrier(k.id, r.revision, r.phase), c.env); }
    TurnsAway(w, Work(w, k, c), k, clock, c);
  }

  lemma AnswerHeads(w: World, k: Key, clock: int, c: Choice)
    requires AtWork(w, k, clock) && StoreGood(c.env, clock) && Verdict(w.tasks[k], c).Some?
    ensures k.executor in w.sys.managers && Heads(w, Work(w, k, c), k, c)
  {
    hide InHand, Standing, Heads, Work;
    match w.tasks[k].pc {
      case Armed(StagePush) => PushHeads(w, k, clock, c);
      case Armed(PackageInstall) => InstallHeads(w, k, clock, c);
      case Checked(_) => CheckedHeads(w, k, clock, c);
      case LaunchReady => ReadyHeads(w, k, clock, c);
      case InstallRefused => RefusedHeads(w, k, clock, c);
      case Top =>
        if w.tasks[k].receipt.cancelRequested { CancelHeads(w, k, clock, c); }
        else if w.tasks[k].receipt.phase.Launching? { LaunchingHeads(w, k, clock, c); }
        else if Rank(w.tasks[k].receipt.phase) < Rank(Downloading) { EarlyHeads(w, k, clock, c); }
        else if w.tasks[k].receipt.phase.Downloading? { DownloadHeads(w, k, clock, c); }
        else if Rank(w.tasks[k].receipt.phase) < Rank(Staging) { FetchingHeads(w, k, clock, c); }
        else if Rank(w.tasks[k].receipt.phase) < Rank(Installed) { MutatingHeads(w, k, clock, c); }
        else { TurnHeads(w, k, clock, c); }
      case CancelLocal => CancelLocalHeads(w, k, clock, c);
      case _ => RemovalHeads(w, k, clock, c);
    }
  }

  /**
   * Every answer has its ending. From wherever a worker stands, an answer that
   * does not let it go on is recorded as just what it was, within four further
   * steps whose own answers are good ones; nothing more is sent to the panel, and
   * what was in custody is gone.
   */
  lemma EveryAnswerHasItsEnding(w: World, k: Key, clock: int, c: Choice, choices: seq<Choice>)
    requires AtWork(w, k, clock) && StoreGood(c.env, clock) && Verdict(w.tasks[k], c).Some?
    requires Recordable(w.tasks[k].receipt, Verdict(w.tasks[k], c).value)
    requires |choices| == 4 && AllGood(choices, c.env.now)
    ensures var t := w.tasks[k];
            var a := Verdict(t, c).value;
            exists n :: 0 < n <= 4
              && var w' := Play(w, [Proceed(k, c)] + Proceeds(k, choices[..n]));
                 && Ended(w', k, a, Crowded(w.sys.disk, k.id, choices[n - 1].env.now))
                 && w'.log == w.log + Sends(k, t, c)
                 && (Tidied(t, a) ==> k.id !in w'.files)
  {
    hide InHand, Standing, Work, Crowded, Ended, Clears, Good;
    AnswerHeads(w, k, clock, c);
    var t, w1 := w.tasks[k], Work(w, k, c);
    var a, n := Verdict(t, c).value, Course(w1.tasks[k]).value.1;
    GoodPrefix(choices, c.env.now, n);
    if a.phase.RecoveryRequired? { VerdictFits(t, c); }
    Arrives(w1, k, c.env.now, a, n, Tidied(t, a), choices[..n]);
    var actions := [Proceed(k, c)] + Proceeds(k, choices[..n]);
    assert actions[0] == Proceed(k, c) && actions[1..] == Proceeds(k, choices[..n]);
  }

  lemma {:induction false} GoodPrefix(choices: seq<Choice>, clock: int, n: nat)
    requires AllGood(choices, clock) && n <= |choices|
    ensures AllGood(choices[..n], clock)
    decreases n
  {
    if n > 0 {
      GoodPrefix(choices[1..], choices[0].env.now, n - 1);
      assert choices[..n][1..] == choices[1..][..n - 1];
    }
  }

  /** A job is only ever set aside from a phase that allows it. */
  lemma VerdictFits(t: Worker, c: Choice)
    requires Standing(t) && Verdict(t, c).Some? && Verdict(t, c).value.phase.RecoveryRequired?
    ensures var a := Verdict(t, c).value;
            && a.resultCode.Some? && RecoveryCode(a.resultCode.value)
            && Rank(Staging) <= Rank(t.receipt.phase) <= Rank(HealthCheck)
  {
  }

  // ------------------------------------------------------------------ seeing a cancellation

  /** The store has a cancellation that the worker, otherwise in step with it, has not seen. */
  predicate Behind(w: World, k: Key, clock: int) {
    && k in w.tasks && InHand(w.sys, k) && !w.tasks[k].receipt.cancelRequested
    && w.sys.disk[k.id] == CancelMarked(w.tasks[k].receipt, w.sys.disk[k.id].updatedAt)
    && Cancellable(w.sys.disk[k.id].phase) && w.sys.disk[k.id].updatedAt <= clock
  }

  /** Back at the head of the loop, with the durable receipt and its cancellation. */
  predicate Sees(w: World, k: Key, clock: int) {
    AtWork(w, k, clock) && w.tasks[k].pc.Top? && w.tasks[k].receipt.cancelRequested
  }

  /** A transition on the revision before is refused, and takes nothing. */
  lemma StaleMove(s: System, k: Key, revision: nat, a: Advance, env: Env)
    requires InHand(s, k) && env.readable && revision != s.disk[k.id].revision
    ensures Perform(s.disk, s.managers[k.executor], Move(k.id, revision, a), env).result == Failure(RevisionError)
    ensures var s' := After(s, k.executor, Move(k.id, revision, a), env); s'.disk == s.disk && InHand(s', k)
  {
    hide Accepted;
    StillHeld(s, k);
    hide Reconciled;
  }

  /**
   * A worker whose step of the table meets a cancellation sees it two steps later,
   * without having recorded or sent anything.
   */
  lemma CancellationIsSeen(w: World, k: Key, clock: int, c0: Choice, c1: Choice)
    requires Behind(w, k, clock) && w.tasks[k].pc.Moving?
    requires StoreGood(c0.env, clock) && StoreGood(c1.env, c0.env.now)
    ensures var w' := Play(w, [Proceed(k, c0), Proceed(k, c1)]);
            Sees(w', k, c1.env.now) && w'.log == w.log && w'.sys.disk == w.sys.disk
  {
    hide InHand, Accepted, Perform;
    InHandLive(w.sys, k);
    StaleMove(w.sys, k, w.tasks[k].receipt.revision, w.tasks[k].pc.advance, c0.env);
    var w1 := Work(w, k, c0);
    InHandLive(w1.sys, k);
    LookInHand(w1.sys, k, Read(k.id), c1.env);
    PlayTwo(w, Proceed(k, c0), Proceed(k, c1));
  }

  lemma {:induction false} PlayTwo(w: World, a: Action, b: Action)
    ensures Play(w, [a, b]) == Next(Next(w, a), b)
  {
    hide Next;
    assert [a, b][1..] == [b] && [b][1..] == [];
    assert Play(Next(w, a), [b]) == Next(Next(w, a), b);
  }

  /** A worker about to push sees the cancellation instead. */
  lemma PushSeesCancellation(w: World, k: Key, clock: int, c: Choice)
    requires Behind(w, k, clock) && w.tasks[k].pc.Top? && w.tasks[k].receipt.phase.Staging? && w.tasks[k].local
    requires StoreGood(c.env, clock) && !c.branch.Declined?
    ensures k.executor in w.sys.managers
    ensures var w' := Work(w, k, c); Sees(w', k, c.env.now) && w'.log == w.log && w'.sys.disk == w.sys.disk
  {
    hide InHand, Accepted, Perform;
    InHandLive(w.sys, k);
    LookInHand(w.sys, k, Read(k.id), c.env);
  }
}
