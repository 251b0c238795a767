/**
 * What the panel and the network answered, and what the store may say because of
 * it: over every run, each phase and each verdict on record was earned by an
 * answer that one of the job's own workers was given.
 */
module InstallVerdicts {
  import opened Wrappers
  import opened InstallReceipt
  import opened InstallJobs
  import opened InstallRuns
  import opened InstallExecutor
  import opened InstallSafety
  import opened InstallAnswers

  datatype News =
    | Authorized | PreflightPassed | FoundInstalled | Fetched
    | Pushed | InstallDone | InstallTurnedDown
    | LaunchStarted | LaunchTurnedDown | HealthProven
    | PanelCleaned                 // what had been staged on it is gone again
    | Unsettled                    // nobody knows what the panel did, or what was staged on it

  /** What a worker learns from the outside world in one step. */
  function Told(w: World, k: Key, c: Choice): set<News>
    requires k in w.tasks && k.executor in w.sys.managers
  {
    var t := w.tasks[k];
    match t.pc
    case Top =>
      if t.receipt.cancelRequested then
        (if t.receipt.phase.Staging? && t.staged then ToldCleaning(w, k, c) else {})
      else ToldAt(t, c.branch)
    case Checked(kind) => if kind.PackageInstall? && c.branch.Refused? then {InstallTurnedDown} else {}
    case Armed(kind) =>
      (match kind
       case StagePush =>
         if c.branch.Fine? then {Pushed}
         else if c.branch.Refused? || c.branch.Declined? then {} else {Unsettled}
       case PackageInstall =>
         if c.branch.Fine? then {InstallDone}
         else if c.branch.Refused? || c.branch.Declined? then {InstallTurnedDown} else {Unsettled})
    case InstallRefused => ToldCleaning(w, k, c)
    case LaunchReady =>
      if c.branch.Refused? || c.branch.Declined? then {LaunchTurnedDown}
      else if c.branch.Fine?
              && Ask(w, k, Barrier(k.id, t.receipt.revision, t.receipt.phase), c.env).1.Success?
      then {LaunchStarted}
      else if c.branch.Unclear? then {Unsettled} else {}
    case _ => {}
  }

  /** What removing the staged APK from the panel learns, behind its barrier. */
  function ToldCleaning(w: World, k: Key, c: Choice): set<News>
    requires k in w.tasks && k.executor in w.sys.managers
  {
    var r := w.tasks[k].receipt;
    if Ask(w, k, CleanupBarrier(k.id, r.revision, r.phase), c.env).1.Failure? then {}
    else if c.branch.Fine? then {PanelCleaned}
    else if c.branch.Unclear? then {Unsettled} else {}
  }

  /** What the turn of a phase learns. */
  function ToldAt(t: Worker, b: Branch): set<News> {
    match t.receipt.phase
    case Authorizing => if b.Refused? then {} else {Authorized}
    case Preflight =>
      if b.Refused? then {} else if b.AlreadyInstalled? then {FoundInstalled} else {PreflightPassed}
    case Downloading => if b.Refused? || b.Busy? then {} else {Fetched}
    case Staging => if t.local then {} else {Unsettled}
    case Installing => if t.staged then {} else {Unsettled}
    case Launching => if !t.staged || b.Unclear? then {Unsettled} else {}
    case HealthCheck => if b.Fine? then {HealthProven} else {}
    case _ => {}
  }

  type Record = set<(JobId, News)>

  function Noted(w: World, a: Action, heard: Record): Record {
    if a.Proceed? && a.key in w.tasks && a.key.executor in w.sys.managers
    then heard + set n | n in Told(w, a.key, a.choice) :: (a.key.id, n)
    else heard
  }

  /** Everything the workers of a run have learned, job by job. */
  ghost function Heard(w: World, actions: seq<Action>, heard: Record): Record
    decreases |actions|
  {
    if actions == [] then heard else Heard(Next(w, actions[0]), actions[1..], Noted(w, actions[0], heard))
  }

  /** Everybody but the workers moves jobs only to where a finalizer puts them. */
  predicate OnlyWorkersAdvance(actions: seq<Action>) {
    forall i :: 0 <= i < |actions| && actions[i].Outside? ==> Settles(actions[i].call)
  }

  predicate Settles(call: Call) {
    call.Move? ==>
      || call.advance.phase.Consumed?
      || (call.advance.phase.RecoveryRequired? && call.advance.resultCode == Some(VerificationRequired))
  }

  // --------------------------------------------------------------------- what was earned

  predicate Knows(heard: Record, id: JobId, n: News) { (id, n) in heard }

  /** The app is on the panel: pushed and installed for this job, or found there before. */
  predicate OnPanel(heard: Record, id: JobId) {
    || Knows(heard, id, FoundInstalled)
    || (Knows(heard, id, PreflightPassed) && Knows(heard, id, Fetched) && Knows(heard, id, Pushed)
        && Knows(heard, id, InstallDone))
  }

  /** What must have been answered for a receipt to say what it says. */
  predicate Earned(heard: Record, id: JobId, r: Receipt) {
    match r.phase
    case Preflight => Knows(heard, id, Authorized)
    case Downloading => Knows(heard, id, PreflightPassed)
    case ArtifactReady => Knows(heard, id, PreflightPassed) && Knows(heard, id, Fetched)
    case Revalidating => Knows(heard, id, PreflightPassed) && Knows(heard, id, Fetched)
    case Staging => Knows(heard, id, PreflightPassed) && Knows(heard, id, Fetched)
    case Installing =>
      Knows(heard, id, PreflightPassed) && Knows(heard, id, Fetched) && Knows(heard, id, Pushed)
    case Installed => OnPanel(heard, id)
    case Launching => OnPanel(heard, id)
    case HealthCheck => OnPanel(heard, id) && Knows(heard, id, LaunchStarted)
    case HealthyUnclaimed =>
      OnPanel(heard, id) && Knows(heard, id, LaunchStarted) && Knows(heard, id, HealthProven)
    case Consumed =>
      OnPanel(heard, id) && Knows(heard, id, LaunchStarted) && Knows(heard, id, HealthProven)
    case Failed =>
      && (r.resultCode == Some(InstallFailed) ==>
            Knows(heard, id, InstallTurnedDown) && Knows(heard, id, PanelCleaned))
      && (r.resultCode == Some(LaunchFailed) ==> Knows(heard, id, LaunchTurnedDown))
    case RecoveryRequired => r.resultCode == Some(AmbiguousMutation) ==> Knows(heard, id, Unsettled)
    case _ => true
  }

  /** What a worker must have been told to ask for this step. */
  predicate Warranted(heard: Record, id: JobId, a: Advance) {
    match a.phase
    case Preflight => Knows(heard, id, Authorized)
    case Downloading => Knows(heard, id, PreflightPassed)
    case ArtifactReady => Knows(heard, id, Fetched)
    case Installing => Knows(heard, id, Pushed)
    case Installed => Knows(heard, id, if a.rootMode.Some? then FoundInstalled else InstallDone)
    case HealthCheck => Knows(heard, id, LaunchStarted)
    case HealthyUnclaimed => Knows(heard, id, HealthProven)
    case Failed => Blamed(heard, id, a.resultCode)
    case RecoveryRequired => Blamed(heard, id, a.resultCode)
    case _ => true
  }

  predicate Blamed(heard: Record, id: JobId, code: Option<ResultCode>) {
    && (code == Some(InstallFailed) ==> Knows(heard, id, InstallTurnedDown) && Knows(heard, id, PanelCleaned))
    && (code == Some(LaunchFailed) ==> Knows(heard, id, LaunchTurnedDown))
    && (code == Some(AmbiguousMutation) ==> Knows(heard, id, Unsettled))
  }

  predicate AllEarned(disk: Jobs, heard: Record) {
    forall id :: id in disk ==> Earned(heard, id, disk[id])
  }

  /** Where a worker stands is backed by what it was told. */
  predicate Backed(heard: Record, id: JobId, pc: Pc) {
    match pc
    case Moving(a) => Warranted(heard, id, a)
    case InstallRefused => Knows(heard, id, InstallTurnedDown)
    case RefusedClean => Knows(heard, id, InstallTurnedDown) && Knows(heard, id, PanelCleaned)
    case CleanFail(code) => Blamed(heard, id, Some(code))
    case Failing(code) => Blamed(heard, id, Some(code))
    case FailAt(_, code) => Blamed(heard, id, Some(code))
    case Recovering(code) => Blamed(heard, id, Some(code))
    case RecoverClean(code) => Blamed(heard, id, Some(code))
    case RecoverRead(code) => Blamed(heard, id, Some(code))
    case RecoverAt(_, code) => Blamed(heard, id, Some(code))
    case _ => true
  }

  predicate AllBacked(tasks: map<Key, Worker>, heard: Record) {
    forall k :: k in tasks ==> Backed(heard, k.id, tasks[k].pc)
  }

  lemma HeardMore(disk: Jobs, tasks: map<Key, Worker>, heard: Record, more: Record)
    requires AllEarned(disk, heard) && AllBacked(tasks, heard) && heard <= more
    ensures AllEarned(disk, more) && AllBacked(tasks, more)
  {
    forall id | id in disk ensures Earned(more, id, disk[id]) { assert Earned(heard, id, disk[id]); }
    forall k | k in tasks ensures Backed(more, k.id, tasks[k].pc) { assert Backed(heard, k.id, tasks[k].pc); }
  }

  // ------------------------------------------------------------------------- one call

  /** One receipt is advanced: what the step gains joins what was earned before. */
  lemma AdvanceEarned(heard: Record, id: JobId, r: Receipt, a: Advance, now: int)
    requires Earned(heard, id, r) && Warranted(heard, id, a) && NextPhase(r.phase, a.phase) && FactsFit(r, a)
    ensures Earned(heard, id, AdvancedReceipt(r, a, now))
  {
  }

  lemma ClaimEarned(heard: Record, id: JobId, r: Receipt, now: int)
    requires Earned(heard, id, r) && !r.IsTerminal()
    ensures Earned(heard, id, ClaimedReceipt(r, now))
  {
  }

  lemma CallEarned(disk: Jobs, m: Manager, call: Call, env: Env, heard: Record)
    requires AllEarned(disk, heard) && (call.Create? ==> call.id !in disk)
    requires call.Move? ==> Warranted(heard, call.id, call.advance)
    ensures AllEarned(Perform(disk, m, call, env).disk, heard)
  {
    hide Perform, Earned, Warranted, FactsFit, ResultFits, Valid, Licensed, Refreshed;
    var d := Perform(disk, m, call, env).disk;
    forall id | id in d ensures Earned(heard, id, d[id]) {
      if call.Take? || call.Move? || call.Cancel? {
        CallsWrite(disk, m, call, env);
        if d[id] != disk[id] { WrittenEarned(disk, m, call, env, heard); }
      } else if id in disk {
        QuietCall(disk, m, call, env, id);
      } else {
        NewIsApproved(disk, m, call, env, id);
        ApprovedEarned(heard, id, d[id]);
      }
    }
  }

  lemma ApprovedEarned(heard: Record, id: JobId, r: Receipt)
    requires r.phase.Approved?
    ensures Earned(heard, id, r)
  {
  }

  lemma WrittenEarned(disk: Jobs, m: Manager, call: Call, env: Env, heard: Record)
    requires call.Take? || call.Move? || call.Cancel?
    requires call.Move? ==> Warranted(heard, call.id, call.advance)
    requires call.id in disk && Earned(heard, call.id, disk[call.id])
    ensures var d := Perform(disk, m, call, env).disk;
            call.id in d && Written(disk, m, call, env, d[call.id]) ==> Earned(heard, call.id, d[call.id])
  {
    hide Perform, Warranted, FactsFit, ResultFits, Valid, Licensed, Refreshed;
    var d := Perform(disk, m, call, env).disk;
    if call.id in d && Written(disk, m, call, env, d[call.id]) {
      match call {
        case Take(_, _, _) => ClaimEarned(heard, call.id, disk[call.id], env.now);
        case Move(_, _, a) => AdvanceEarned(heard, call.id, disk[call.id], a, env.now);
        case Cancel(_, _) =>
      }
    }
  }

  /** Reading, creating and checking barriers change no receipt that is there. */
  lemma QuietCall(disk: Jobs, m: Manager, call: Call, env: Env, id: JobId)
    requires !call.Take? && !call.Move? && !call.Cancel? && (call.Create? ==> call.id !in disk)
    requires id in disk && id in Perform(disk, m, call, env).disk
    ensures Perform(disk, m, call, env).disk[id] == disk[id]
  {
    hide Perform, LicensedCall, ClaimsStep;
    PerformStep(disk, m, call, env);
  }

  lemma NewIsApproved(disk: Jobs, m: Manager, call: Call, env: Env, id: JobId)
    requires call.Create? ==> call.id !in disk
    requires id !in disk && id in Perform(disk, m, call, env).disk
    ensures Perform(disk, m, call, env).disk[id].phase.Approved?
  {
    hide Perform, LicensedCall, ClaimsStep, Evolves;
    PerformStep(disk, m, call, env);
  }

  // -------------------------------------------------------------------- one worker's step

  /** A call a worker may make on what it knows. */
  predicate Entitled(heard: Record, id: JobId, call: Call) {
    call.id == id && !call.Create? && (call.Move? ==> Warranted(heard, id, call.advance))
  }

  /** At most one call, on what is known, and the worker stands where what it knows has put it. */
  ghost predicate Follows(w: World, w': World, k: Key, heard: Record)
    requires k.executor in w.sys.managers
  {
    && (w'.sys == w.sys
        || exists call, env :: Entitled(heard, k.id, call) && w'.sys == After(w.sys, k.executor, call, env))
    && (if k in w'.tasks then w'.tasks == w.tasks[k := w'.tasks[k]] && Backed(heard, k.id, w'.tasks[k].pc)
        else w'.tasks == w.tasks - {k})
  }

  lemma StandFollows(w: World, k: Key, t: Worker, heard: Record)
    requires k.executor in w.sys.managers && Backed(heard, k.id, t.pc)
    ensures forall w': World :: w'.sys == w.sys && w'.tasks == w.tasks[k := t] ==> Follows(w, w', k, heard)
  {
  }

  lemma StopFollows(w: World, k: Key, heard: Record)
    requires k in w.tasks && k.executor in w.sys.managers
    ensures Follows(w, Stop(w, k, true), k, heard) && Follows(w, Stop(w, k, false), k, heard)
  {
  }

  /** A call, and then on to somewhere, or to a stop. */
  lemma CallFollows(w: World, k: Key, call: Call, env: Env, heard: Record)
    requires k in w.tasks && k.executor in w.sys.managers && Entitled(heard, k.id, call)
    ensures var w1 := Ask(w, k, call, env).0;
            && w1.tasks == w.tasks && w1.sys == After(w.sys, k.executor, call, env)
            && k.executor in w1.sys.managers
            && (forall t: Worker :: Backed(heard, k.id, t.pc) ==> Follows(w, Goto(w1, k, t), k, heard))
            && Follows(w, Stop(w1, k, true), k, heard) && Follows(w, Stop(w1, k, false), k, heard)
  {
    hide Perform, Backed;
  }

  lemma GuardedFollows(w: World, k: Key, call: Call, c: Choice, good: Pc, bad: Pc, heard: Record)
    requires k in w.tasks && k.executor in w.sys.managers && Entitled(heard, k.id, call)
    requires c.branch.Fine? && Ask(w, k, call, c.env).1.Success? ==> Backed(heard, k.id, good)
    requires c.branch.Declined? || (!c.branch.Fine? && Ask(w, k, call, c.env).1.Success?) ==> Backed(heard, k.id, bad)
    ensures Follows(w, Guarded(w, k, call, c, good, bad), k, heard)
  {
    hide Follows, Backed, Entitled, Ask;
    CallFollows(w, k, call, c.env, heard);
    StandHere(w, k, bad, heard);
  }

  /** Only the counter moves. */
  lemma StandHere(w: World, k: Key, pc: Pc, heard: Record)
    requires k in w.tasks && k.executor in w.sys.managers
    ensures Backed(heard, k.id, pc) ==>
              && Follows(w, At(w, k, pc), k, heard) && Follows(w, At(Cleaned(w, k.id), k, pc), k, heard)
  {
    if Backed(heard, k.id, pc) { StandFollows(w, k, w.tasks[k].(pc := pc), heard); }
  }

  lemma RereadFollows(w: World, k: Key, c: Choice, at: nat -> Pc, heard: Record)
    requires k in w.tasks && k.executor in w.sys.managers
    requires forall revision :: Backed(heard, k.id, at(revision))
    ensures Follows(w, Reread(w, k, c, at), k, heard)
  {
    hide Follows, Ask;
    CallFollows(w, k, Read(k.id), c.env, heard);
    assert Backed(heard, k.id, Top);
    hide Backed;
  }

  lemma MoveFollows(w: World, k: Key, revision: nat, a: Advance, c: Choice, heard: Record)
    requires k in w.tasks && k.executor in w.sys.managers && Warranted(heard, k.id, a)
    ensures Follows(w, EndAt(w, k, revision, a, c), k, heard)
    ensures Follows(w, MoveStep(w, k, a, c), k, heard)
  {
    hide Follows, Ask, Warranted;
    CallFollows(w, k, Move(k.id, revision, a), c.env, heard);
    CallFollows(w, k, Move(k.id, w.tasks[k].receipt.revision, a), c.env, heard);
  }

  lemma StartFollows(w: World, k: Key, c: Choice, heard: Record)
    requires k in w.tasks && k.executor in w.sys.managers
    requires var pc := w.tasks[k].pc; pc.Starting? || pc.Claiming? || pc.NeedsCleanup? || pc.CleaningFor?
    ensures Follows(w, StartStep(w, k, c), k, heard)
  {
    hide Follows, Ask, Cleaned;
    StopFollows(w, k, heard);
    match w.tasks[k].pc {
      case Starting(retried) => CallFollows(w, k, Read(k.id), c.env, heard);
      case Claiming(revision, cleaned, retried) => CallFollows(w, k, Take(k.id, revision, cleaned), c.env, heard);
      case NeedsCleanup(retried) => CallFollows(w, k, Read(k.id), c.env, heard);
      case CleaningFor(revision, retried) =>
        StandHere(w, k, Claiming(revision, Some(revision), retried), heard);
    }
  }

  lemma RecheckFollows(w: World, k: Key, c: Choice, heard: Record)
    requires k in w.tasks && k.executor in w.sys.managers
    ensures Follows(w, RecheckStep(w, k, c), k, heard)
  {
    hide Follows, Ask;
    CallFollows(w, k, Read(k.id), c.env, heard);
  }

  lemma AuthorizeFollows(w: World, k: Key, kind: Kind, c: Choice, heard: Record)
    requires k in w.tasks && k.executor in w.sys.managers
    ensures Follows(w, Authorize(w, k, kind, c), k, heard)
  {
    hide Follows, Ask;
    CallFollows(w, k, Read(k.id), c.env, heard);
    StandHere(w, k, CleanFail(TransportFailed), heard);
    StandHere(w, k, Recovering(VerificationRequired), heard);
  }

  /** A call, and then only the counter moves. */
  lemma CallThen(w: World, k: Key, call: Call, env: Env, pc: Pc, heard: Record)
    requires k in w.tasks && k.executor in w.sys.managers && Entitled(heard, k.id, call)
    ensures var w1 := Ask(w, k, call, env).0;
            && w1.tasks == w.tasks && k.executor in w1.sys.managers
            && Follows(w, Stop(w1, k, true), k, heard)
            && (Backed(heard, k.id, pc) ==> Follows(w, At(w1, k, pc), k, heard))
  {
    hide Follows, Ask, Backed, Entitled;
    CallFollows(w, k, call, env, heard);
  }

  lemma CheckedFollows(w: World, k: Key, c: Choice, heard: Record)
    requires k in w.tasks && k.executor in w.sys.managers && w.tasks[k].pc.Checked?
    requires forall n :: n in Told(w, k, c) ==> Knows(heard, k.id, n)
    ensures Follows(w, Work(w, k, c), k, heard)
  {
    hide Follows, Ask;
    var t := w.tasks[k];
    var kind := t.pc.kind;
    var call := Barrier(k.id, t.receipt.revision, t.receipt.phase);
    var policy := c.branch.Refused?;
    var denied := if kind.StagePush? then CleanFail(if policy then ArtifactRejected else TransportFailed)
                  else if policy then InstallRefused else Recovering(VerificationRequired);
    assert Backed(heard, k.id, Armed(kind));
    assert c.branch.Declined? || policy ==> Backed(heard, k.id, denied);
    hide Backed, Told;
    CallThen(w, k, call, c.env, Armed(kind), heard);
    CallThen(w, k, call, c.env, denied, heard);
  }

  lemma MutateFollows(w: World, k: Key, c: Choice, heard: Record)
    requires k in w.tasks && k.executor in w.sys.managers && w.tasks[k].pc.Armed?
    requires forall n :: n in Told(w, k, c) ==> Knows(heard, k.id, n)
    ensures Follows(w, Work(w, k, c), k, heard)
  {
    hide Follows;
    var t, kind := w.tasks[k], w.tasks[k].pc.kind;
    StandHere(w, k, if kind.StagePush? then CleanFail(TransportFailed) else InstallRefused, heard);
    if !c.branch.Declined? { StandFollows(w, k, Mutated(t, kind, c), heard); }
  }

  lemma DownloadFollows(w: World, k: Key, c: Choice, next: Phase, heard: Record)
    requires k in w.tasks && k.executor in w.sys.managers
    requires next.ArtifactReady? || next.Revalidating? || next.Staging?
    requires !c.branch.Refused? && !c.branch.Busy? && next.ArtifactReady? ==> Knows(heard, k.id, Fetched)
    requires w.tasks[k].pc.Top?
    ensures Follows(w, Download(w, k, c, next), k, heard)
    ensures !next.ArtifactReady? ==> Follows(w, HaveArtifact(w, k, c, next), k, heard)
  {
    hide Follows;
    var t := w.tasks[k];
    StopFollows(w, k, heard);
    if c.branch.Refused? { StandHere(w, k, CleanFail(c.branch.code), heard); }
    StandFollows(w, k, t.(staleRemoved := true), heard);
    var advance :=
      if next.ArtifactReady? then To(next).(actualApkBytes := Some(t.receipt.artifact.apkSize)) else To(next);
    if !c.branch.Refused? && !c.branch.Busy? {
      StandFollows(w, k, t.(pc := Moving(advance), local := true), heard);
    }
    StandHere(w, k, Moving(To(next)), heard);
  }

  lemma CancelFollows(w: World, k: Key, c: Choice, heard: Record)
    requires k in w.tasks && k.executor in w.sys.managers
    requires w.tasks[k].receipt.phase.Staging? && w.tasks[k].staged ==>
               forall n :: n in ToldCleaning(w, k, c) ==> Knows(heard, k.id, n)
    ensures Follows(w, CancelStep(w, k, c), k, heard)
  {
    hide Follows, Ask;
    var t := w.tasks[k];
    CallFollows(w, k, CleanupBarrier(k.id, t.receipt.revision, t.receipt.phase), c.env, heard);
    StandHere(w, k, CancelLocal, heard);
    StandHere(w, k, Recovering(VerificationRequired), heard);
  }

  lemma TopFollows(w: World, k: Key, c: Choice, heard: Record)
    requires k in w.tasks && k.executor in w.sys.managers && w.tasks[k].pc.Top?
    requires forall n :: n in Told(w, k, c) ==> Knows(heard, k.id, n)
    ensures Follows(w, TopStep(w, k, c), k, heard)
  {
    hide Follows, Ask, CancelStep, Download, HaveArtifact, Authorize;
    var t := w.tasks[k];
    StopFollows(w, k, heard);
    if t.receipt.cancelRequested {
      CancelFollows(w, k, c, heard);
    } else {
      match t.receipt.phase {
        case Approved => StandHere(w, k, Moving(To(Authorizing)), heard);
        case Authorizing =>
          if c.branch.Refused? { StandHere(w, k, Failing(c.branch.code), heard); }
          else { StandHere(w, k, Moving(To(Preflight)), heard); }
        case Preflight => PreflightFollows(w, k, c, heard);
        case Downloading => DownloadFollows(w, k, c, ArtifactReady, heard);
        case ArtifactReady => DownloadFollows(w, k, c, Revalidating, heard);
        case Revalidating => DownloadFollows(w, k, c, Staging, heard);
        case Staging =>
          AuthorizeFollows(w, k, StagePush, c, heard);
          if !t.local { StandHere(w, k, Recovering(AmbiguousMutation), heard); }
        case Installing =>
          AuthorizeFollows(w, k, PackageInstall, c, heard);
          if !t.staged { StandHere(w, k, Recovering(AmbiguousMutation), heard); }
        case Installed =>
          StandFollows(w, k, t.(pc := Moving(To(Launching)), staged := true), heard);
          StandFollows(w, k, t.(pc := Recovering(VerificationRequired), staged := true), heard);
        case Launching => LaunchFollows(w, k, c, heard);
        case HealthCheck =>
          if c.branch.Fine? {
            StandHere(w, k, Moving(To(HealthyUnclaimed).(healthCheckedAt := Some(c.env.now))), heard);
          }
          StandHere(w, k, Recovering(VerificationRequired), heard);
        case _ =>
      }
    }
  }

  lemma PreflightFollows(w: World, k: Key, c: Choice, heard: Record)
    requires k in w.tasks && k.executor in w.sys.managers && w.tasks[k].pc.Top?
    requires w.tasks[k].receipt.phase.Preflight? && !w.tasks[k].receipt.cancelRequested
    requires forall n :: n in Told(w, k, c) ==> Knows(heard, k.id, n)
    ensures Follows(w, TopStep(w, k, c), k, heard)
  {
    hide Follows;
    match c.branch {
      case Refused(code) => StandHere(w, k, Failing(code), heard);
      case AlreadyInstalled =>
        var found := To(Installed).(rootMode := Some(c.rootMode), actualApkBytes := Some(c.bytes));
        StandHere(w, k, Moving(found), heard);
      case _ => StandHere(w, k, Moving(To(Downloading).(rootMode := Some(c.rootMode))), heard);
    }
  }

  lemma LaunchFollows(w: World, k: Key, c: Choice, heard: Record)
    requires k in w.tasks && k.executor in w.sys.managers && w.tasks[k].pc.Top?
    requires w.tasks[k].receipt.phase.Launching? && !w.tasks[k].receipt.cancelRequested
    requires !w.tasks[k].staged || c.branch.Unclear? ==> Knows(heard, k.id, Unsettled)
    ensures Follows(w, TopStep(w, k, c), k, heard)
  {
    hide Follows, Ask;
    var t := w.tasks[k];
    var call := CleanupBarrier(k.id, t.receipt.revision, t.receipt.phase);
    if !t.staged { StandHere(w, k, Recovering(AmbiguousMutation), heard); }
    StandHere(w, k, Recovering(VerificationRequired), heard);
    assert Backed(heard, k.id, Lost(c)) && Backed(heard, k.id, LaunchReady);
    assert Backed(heard, k.id, Recovering(VerificationRequired));
    assert !t.staged ==> Backed(heard, k.id, Recovering(AmbiguousMutation));
    hide Backed;
    CallThen(w, k, call, c.env, LaunchReady, heard);
    CallThen(w, k, call, c.env, Lost(c), heard);
  }

  lemma ReadyFollows(w: World, k: Key, c: Choice, heard: Record)
    requires k in w.tasks && k.executor in w.sys.managers && w.tasks[k].pc.LaunchReady?
    requires forall n :: n in Told(w, k, c) ==> Knows(heard, k.id, n)
    ensures Follows(w, Work(w, k, c), k, heard)
  {
    hide Follows, Ask;
    var t := w.tasks[k];
    GuardedFollows(w, k, Barrier(k.id, t.receipt.revision, t.receipt.phase), c, Moving(To(HealthCheck)),
                   if c.branch.Refused? || c.branch.Declined? then Failing(LaunchFailed) else Lost(c), heard);
  }

  lemma EndingFollows(w: World, k: Key, c: Choice, heard: Record)
    requires k in w.tasks && k.executor in w.sys.managers && Backed(heard, k.id, w.tasks[k].pc)
    requires var pc := w.tasks[k].pc;
             pc.CancelLocal? || pc.CleanFail? || pc.RecoverClean? || pc.InstallRefused? || pc.RefusedClean?
    requires w.tasks[k].pc.InstallRefused? ==> forall n :: n in ToldCleaning(w, k, c) ==> Knows(heard, k.id, n)
    ensures Follows(w, Work(w, k, c), k, heard)
  {
    hide Follows, Ask, Reread, TopStep, Guarded, MoveStep, EndAt, RecheckStep, MutateStep, StartStep;
    var t := w.tasks[k];
    StopFollows(w, k, heard);
    StandHere(w, k, Recovering(VerificationRequired), heard);
    match t.pc {
      case CancelLocal =>
        StandHere(w, k, Moving(Ending(Cancelled,
          if t.receipt.phase.Staging? then CancelledAfterStagingCleanup else CancelledByUser)), heard);
      case CleanFail(code) => StandHere(w, k, Failing(code), heard);
      case RecoverClean(code) => StandHere(w, k, RecoverRead(code), heard);
      case InstallRefused =>
        var barrier := CleanupBarrier(k.id, t.receipt.revision, t.receipt.phase);
        GuardedFollows(w, k, barrier, c, RefusedClean, Lost(c), heard);
      case RefusedClean => StandHere(w, k, Failing(InstallFailed), heard);
    }
  }

  lemma RereadingFollows(w: World, k: Key, c: Choice, heard: Record)
    requires k in w.tasks && k.executor in w.sys.managers && Backed(heard, k.id, w.tasks[k].pc)
    requires var pc := w.tasks[k].pc; pc.Failing? || pc.Recovering? || pc.RecoverRead?
    ensures Follows(w, Work(w, k, c), k, heard)
  {
    hide Follows, Ask, Reread, TopStep, Guarded, MoveStep, EndAt, RecheckStep, MutateStep, StartStep;
    match w.tasks[k].pc {
      case Failing(code) => RereadFollows(w, k, c, (revision: nat) => FailAt(revision, code), heard);
      case Recovering(code) => RereadFollows(w, k, c, (_: nat) => RecoverClean(code), heard);
      case RecoverRead(code) => RereadFollows(w, k, c, (revision: nat) => RecoverAt(revision, code), heard);
    }
  }

  lemma WorkFollows(w: World, k: Key, c: Choice, heard: Record)
    requires k in w.tasks && k.executor in w.sys.managers && Backed(heard, k.id, w.tasks[k].pc)
    requires forall n :: n in Told(w, k, c) ==> Knows(heard, k.id, n)
    ensures Follows(w, Work(w, k, c), k, heard)
  {
    hide Follows, Ask, TopStep, Guarded, MoveStep, EndAt, RecheckStep, MutateStep, StartStep, Reread,
         CancelLocalStep, CleanFailStep, Unauthorized;
    assert w.tasks[k].pc.InstallRefused? ==> Told(w, k, c) == ToldCleaning(w, k, c);
    hide Told;
    match w.tasks[k].pc {
      case Top => TopFollows(w, k, c, heard);
      case Checked(_) => CheckedFollows(w, k, c, heard);
      case Armed(_) => MutateFollows(w, k, c, heard);
      case Moving(a) => MoveFollows(w, k, 0, a, c, heard);
      case Rechecking => RecheckFollows(w, k, c, heard);
      case FailAt(revision, code) => MoveFollows(w, k, revision, Ending(Failed, code), c, heard);
      case RecoverAt(revision, code) => MoveFollows(w, k, revision, Ending(RecoveryRequired, code), c, heard);
      case LaunchReady => ReadyFollows(w, k, c, heard);
      case Starting(_) => StartFollows(w, k, c, heard);
      case Claiming(_, _, _) => StartFollows(w, k, c, heard);
      case NeedsCleanup(_) => StartFollows(w, k, c, heard);
      case CleaningFor(_, _) => StartFollows(w, k, c, heard);
      case Failing(_) => RereadingFollows(w, k, c, heard);
      case Recovering(_) => RereadingFollows(w, k, c, heard);
      case RecoverRead(_) => RereadingFollows(w, k, c, heard);
      case _ => EndingFollows(w, k, c, heard);
    }
  }

  // ------------------------------------------------------------------------ whole runs

  predicate Earns(w: World, heard: Record) { AllEarned(w.sys.disk, heard) && AllBacked(w.tasks, heard) }

  lemma WorkEarns(w: World, k: Key, c: Choice, heard: Record)
    requires k in w.tasks && k.executor in w.sys.managers && Earns(w, heard)
    requires forall n :: n in Told(w, k, c) ==> Knows(heard, k.id, n)
    ensures Earns(Work(w, k, c), heard)
  {
    hide Work, Told, AllEarned, Perform, Backed;
    WorkFollows(w, k, c, heard);
    var w' := Work(w, k, c);
    if w'.sys != w.sys {
      var call, env :| Entitled(heard, k.id, call) && w'.sys == After(w.sys, k.executor, call, env);
      CallEarned(w.sys.disk, w.sys.managers[k.executor], call, env, heard);
    }
  }

  lemma NextEarns(w: World, a: Action, heard: Record)
    requires Inv(w.sys) && Earns(w, heard) && (a.Outside? ==> Settles(a.call))
    ensures Earns(Next(w, a), Noted(w, a, heard))
  {
    hide Work, Told, AllEarned, AllBacked, Perform, JoinOutcome, Inv;
    var more := Noted(w, a, heard);
    HeardMore(w.sys.disk, w.tasks, heard, more);
    match a {
      case Proceed(k, c) =>
        if k in w.tasks && k.executor in w.sys.managers { WorkEarns(w, k, c, more); }
      case Outside(who, call, env) =>
        InvSeen(w.sys);
        if who in w.sys.managers && Admissible(w.sys, call, env) {
          SettlesWarranted(heard, call);
          CallEarned(w.sys.disk, w.sys.managers[who], call, env, heard);
        }
      case Ensure(k, env) =>
        if k.executor in w.sys.managers {
          CallEarned(w.sys.disk, w.sys.managers[k.executor], Read(k.id), env, heard);
        }
        StartingBacked(w, a, heard);
      case _ => FewerBacked(w, a, heard);
    }
  }

  lemma SettlesWarranted(heard: Record, call: Call)
    requires Settles(call)
    ensures call.Move? ==> Warranted(heard, call.id, call.advance)
  {
  }

  lemma StartingBacked(w: World, a: Action, heard: Record)
    requires a.Ensure? && AllBacked(w.tasks, heard)
    ensures AllBacked(Next(w, a).tasks, heard)
    ensures Next(w, a).sys == w.sys
            || (a.key.executor in w.sys.managers
                && Next(w, a).sys == After(w.sys, a.key.executor, Read(a.key.id), a.env))
  {
    hide Perform;
  }

  lemma FewerBacked(w: World, a: Action, heard: Record)
    requires (a.Boot? || a.Crash? || a.Touch? || a.Cancel?) && AllBacked(w.tasks, heard)
    ensures AllBacked(Next(w, a).tasks, heard) && Next(w, a).sys.disk == w.sys.disk
  {
  }

  lemma {:induction false} PlayEarns(w: World, actions: seq<Action>, heard: Record)
    requires SafeWorld(w) && Earns(w, heard) && OnlyWorkersAdvance(actions)
    ensures Earns(Play(w, actions), Heard(w, actions, heard))
    decreases |actions|
  {
    hide Next, Earns, Settles, Noted;
    if actions != [] {
      assert Inv(w.sys) by { hide EffectSound, TaskSound, Fresh, ArmedAlone, Once; }
      assert actions[0].Outside? ==> Settles(actions[0].call);
      NextEarns(w, actions[0], heard);
      NextSafe(w, actions[0]);
      assert forall i :: 0 <= i < |actions[1..]| ==> actions[1..][i] == actions[i + 1];
      PlayEarns(Next(w, actions[0]), actions[1..], Noted(w, actions[0], heard));
    }
  }

  /**
   * Over every run: what a job's record says was earned. It is installed, and
   * everything after that, only if a worker of this very job was told that the
   * pushed APK was installed, or that the app was there before; launched only if
   * the launch was answered; healthy, or an entry, only if its health was proved;
   * it failed for a refused install or launch only if there was one, and is set
   * aside as ambiguous only if an answer, or the loss of what was staged, left it so.
   */
  lemma EveryPhaseIsEarned(actions: seq<Action>, id: JobId)
    requires OnlyWorkersAdvance(actions) && id in Play(FRESH_WORLD, actions).sys.disk
    ensures Earned(Heard(FRESH_WORLD, actions, {}), id, Play(FRESH_WORLD, actions).sys.disk[id])
  {
    hide Play, Heard, Earned, Next;
    FreshSystemInv();
    assert SafeWorld(FRESH_WORLD);
    PlayEarns(FRESH_WORLD, actions, {});
  }
}
