/**
 * The workers that carry a job from approval to a running app, over the durable
 * store, the custody directory and the panel.
 *
 * A worker is a program counter between the points where it can be interrupted;
 * every action below is one stretch without such a point. The panel is a log of
 * the two mutations that must never be replayed.
 */
module InstallExecutor {
  import opened Wrappers
  import opened InstallReceipt
  import opened InstallJobs
  import opened InstallRuns

  datatype Kind = StagePush | PackageInstall

  function KindPhase(kind: Kind): Phase {
    match kind
    case StagePush => Staging
    case PackageInstall => Installing
  }

  /** One panel mutation: who made it, for which job, under which claim. */
  datatype Effect = Effect(kind: Kind, id: JobId, executor: nat, generation: nat)

  /** `Runner` is the job's worker; `Resumer` only settles an interrupted claim at load. */
  datatype Role = Runner | Resumer

  datatype Key = Key(executor: nat, id: JobId, role: Role)

  datatype Pc =
    | Starting(retried: bool)                                   // about to read the receipt
    | Claiming(revision: nat, cleaned: Option<nat>, retried: bool)
    | NeedsCleanup(retried: bool)                               // the claim asked for cleanup
    | CleaningFor(revision: nat, retried: bool)                 // removing custody for the claim
    | Top                                                       // head of the worker's loop
    | CancelLocal                                               // cancel: remote cleanup is done
    | Checked(kind: Kind)                                       // durable copy re-read
    | Armed(kind: Kind)                                         // barrier passed
    | Moving(advance: Advance)
    | Rechecking                                                // a move met another revision
    | CleanFail(code: ResultCode)
    | Failing(code: ResultCode)
    | FailAt(revision: nat, code: ResultCode)
    | Recovering(code: ResultCode)
    | RecoverClean(code: ResultCode)
    | RecoverRead(code: ResultCode)
    | RecoverAt(revision: nat, code: ResultCode)
    | InstallRefused
    | RefusedClean
    | LaunchReady

  /** A worker's local variables; `receipt` is meaningful from Top on. */
  datatype Worker = Worker(
    pc: Pc, receipt: Receipt, local: bool, staged: bool, staleRemoved: bool, done: set<Kind>)

  datatype World = World(
    sys: System,
    tasks: map<Key, Worker>,
    parked: set<Key>,       // jobs this process must not run again
    files: set<JobId>,      // jobs with a partial or ready file in custody
    log: seq<Effect>)

  /** What a refusal before the install may be blamed on. */
  type Blame = c: ResultCode | FailureCode(c) && !c.InstallFailed? && !c.LaunchFailed? witness TransportFailed

  /** How the outside world answers the operation a step performs. */
  datatype Branch =
    | Fine | AlreadyInstalled | Busy | Refused(code: Blame) | Unclear | Declined

  datatype Choice = Choice(env: Env, branch: Branch, cleanable: bool, rootMode: RootMode, bytes: int)

  function To(p: Phase): Advance { Advance(p, None, None, None, None, None, None) }

  function Ending(p: Phase, code: ResultCode): Advance {
    Advance(p, None, None, None, Some(code), None, None)
  }

  // ----------------------------------------------------------------- plumbing

  function Goto(w: World, k: Key, t: Worker): World { w.(tasks := w.tasks[k := t]) }

  function At(w: World, k: Key, pc: Pc): World
    requires k in w.tasks
  {
    Goto(w, k, w.tasks[k].(pc := pc))
  }

  /** The worker stops; `park` marks its job as not to be run again by this process. */
  function Stop(w: World, k: Key, park: bool): World {
    w.(tasks := w.tasks - {k}, parked := if park && k.role.Runner? then w.parked + {k} else w.parked)
  }

  function Ask(w: World, k: Key, call: Call, env: Env): (World, Result<Receipt, JobError>)
    requires k.executor in w.sys.managers
  {
    (w.(sys := After(w.sys, k.executor, call, env)),
     Perform(w.sys.disk, w.sys.managers[k.executor], call, env).result)
  }

  function Cleaned(w: World, id: JobId): World { w.(files := w.files - {id}) }

  // -------------------------------------------------------------- the worker

  /** Up to the claim: at most one retry, and custody removed first where the claim will end the job. */
  function StartStep(w: World, k: Key, c: Choice): World
    requires k in w.tasks && k.executor in w.sys.managers
  {
    var t := w.tasks[k];
    match t.pc
    case Starting(retried) =>
      var (w1, r) := Ask(w, k, Read(k.id), c.env);
      if r.Failure? then Stop(w1, k, true)
      else if k.role.Resumer? && !RestartAmbiguous(r.value.phase) then Stop(w1, k, false)
      else Goto(w1, k, t.(pc := Claiming(r.value.revision, None, retried), receipt := r.value))
    case Claiming(revision, cleaned, retried) =>
      var (w1, r) := Ask(w, k, Take(k.id, revision, cleaned), c.env);
      (match r
       case Success(receipt) =>
         if k.role.Resumer? then Stop(w1, k, false)
         else Goto(w1, k, t.(pc := Top, receipt := receipt))
       case Failure(e) =>
         if e.CleanupRequired? then At(w1, k, NeedsCleanup(retried))
         else if e.RevisionError? && !retried then At(w1, k, Starting(true))
         else Stop(w1, k, true))
    case NeedsCleanup(retried) =>
      var (w1, r) := Ask(w, k, Read(k.id), c.env);
      if r.Failure? then Stop(w1, k, true)
      else Goto(w1, k, t.(pc := CleaningFor(r.value.revision, retried), receipt := r.value))
    case CleaningFor(revision, retried) =>
      if c.cleanable then At(Cleaned(w, k.id), k, Claiming(revision, Some(revision), retried))
      else Stop(w, k, true)
    case _ => w
  }

  /** A download ends: in custody, blocked by an older partial, or refused. */
  function Download(w: World, k: Key, c: Choice, next: Phase): World
    requires k in w.tasks
  {
    var t := w.tasks[k];
    match c.branch
    case Busy =>
      if t.staleRemoved then Stop(w, k, true)
      else if !c.cleanable then Stop(w, k, false)
      else Goto(Cleaned(w, k.id), k, t.(staleRemoved := true))
    case Refused(code) => At(w, k, CleanFail(code))
    case _ =>
      var advance :=
        if next.ArtifactReady? then To(next).(actualApkBytes := Some(t.receipt.artifact.apkSize))
        else To(next);
      Goto(w.(files := w.files + {k.id}), k, t.(pc := Moving(advance), local := true))
  }

  /** A worker that downloaded the artifact itself does not fetch it again. */
  function HaveArtifact(w: World, k: Key, c: Choice, next: Phase): World
    requires k in w.tasks
  {
    if !w.tasks[k].local then Download(w, k, c, next)
    else if c.branch.Refused? then At(w, k, CleanFail(c.branch.code))
    else At(w, k, Moving(To(next)))
  }

  /** One turn of the loop body for the phase the worker last saw. */
  function TopStep(w: World, k: Key, c: Choice): World
    requires k in w.tasks && k.executor in w.sys.managers
  {
    var t := w.tasks[k];
    var r := t.receipt;
    if r.IsTerminal() || r.phase.HealthyUnclaimed? then Stop(w, k, false)
    else if r.cancelRequested then CancelStep(w, k, c)
    else match r.phase
      case Approved => At(w, k, Moving(To(Authorizing)))
      case Authorizing =>
        if c.branch.Refused? then At(w, k, Failing(c.branch.code))
        else At(w, k, Moving(To(Preflight)))
      case Preflight =>
        (match c.branch
         case Refused(code) => At(w, k, Failing(code))
         case AlreadyInstalled =>
           At(w, k, Moving(To(Installed).(rootMode := Some(c.rootMode), actualApkBytes := Some(c.bytes))))
         case _ => At(w, k, Moving(To(Downloading).(rootMode := Some(c.rootMode)))))
      case Downloading => Download(w, k, c, ArtifactReady)
      case ArtifactReady => HaveArtifact(w, k, c, Revalidating)
      case Revalidating => HaveArtifact(w, k, c, Staging)
      case Staging =>
        if t.local then Authorize(w, k, StagePush, c) else At(w, k, Recovering(AmbiguousMutation))
      case Installing =>
        if t.staged then Authorize(w, k, PackageInstall, c)
        else At(w, k, Recovering(AmbiguousMutation))
      case Installed =>
        if c.cleanable then
          Goto(Cleaned(w, k.id), k, t.(pc := Moving(To(Launching)), staged := true))
        else Goto(w, k, t.(pc := Recovering(VerificationRequired), staged := true))
      case Launching =>
        if !t.staged then At(w, k, Recovering(AmbiguousMutation))
        else if c.branch.Declined? then At(w, k, Recovering(VerificationRequired))
        else
          var (w1, a) := Ask(w, k, CleanupBarrier(k.id, r.revision, r.phase), c.env);
          if a.Failure? then Stop(w1, k, true)
          else if c.branch.Fine? then At(w1, k, LaunchReady)
          else At(w1, k, Lost(c))
      case HealthCheck =>
        if c.branch.Fine? then
          At(w, k, Moving(To(HealthyUnclaimed).(healthCheckedAt := Some(c.env.now))))
        else At(w, k, Recovering(VerificationRequired))
      case _ => w
  }

  /** A cancelled job first removes what it may have staged on the panel. */
  function CancelStep(w: World, k: Key, c: Choice): World
    requires k in w.tasks && k.executor in w.sys.managers
  {
    var t := w.tasks[k];
    if !(t.receipt.phase.Staging? && t.staged) then At(w, k, CancelLocal)
    else if c.branch.Declined? then At(w, k, Recovering(VerificationRequired))
    else
      var (w1, a) := Ask(w, k, CleanupBarrier(k.id, t.receipt.revision, t.receipt.phase), c.env);
      if a.Failure? then Stop(w1, k, true)
      else if c.branch.Fine? then At(w1, k, CancelLocal)
      else At(w1, k, Lost(c))
  }

  /** Mutation authority, first half: the durable copy must still be ours. */
  function Authorize(w: World, k: Key, kind: Kind, c: Choice): World
    requires k in w.tasks && k.executor in w.sys.managers
  {
    if c.branch.Declined? then Unauthorized(w, k, kind, false)
    else
      var r := w.tasks[k].receipt;
      var (w1, a) := Ask(w, k, Read(k.id), c.env);
      match a
      case Failure(_) => Stop(w1, k, true)
      case Success(current) =>
        if current.revision == r.revision && current.phase == r.phase
           && current.executorGeneration == r.executorGeneration
        then At(w1, k, Checked(kind))
        else if && current.phase == r.phase && current.executorGeneration == r.executorGeneration
                && current.cancelRequested && kind.StagePush?
        then Goto(w1, k, w1.tasks[k].(pc := Top, receipt := current))
        else Stop(w1, k, true)
  }

  /** The build policy, or else the network pin or the credential, refused before any mutation. */
  function Unauthorized(w: World, k: Key, kind: Kind, policy: bool): World
    requires k in w.tasks
  {
    match kind
    case StagePush => At(w, k, CleanFail(if policy then ArtifactRejected else TransportFailed))
    case PackageInstall => At(w, k, if policy then InstallRefused else Recovering(VerificationRequired))
  }

  /** What the panel's answer to a mutation leads to. */
  function Mutated(t: Worker, kind: Kind, c: Choice): Worker {
    var after := t.(done := t.done + {kind});
    match kind
    case StagePush =>
      (match c.branch
       case Fine => after.(pc := Moving(To(Installing)), staged := true)
       case Refused(code) => after.(pc := CleanFail(code))
       case _ => after.(pc := Recovering(AmbiguousMutation)))
    case PackageInstall =>
      (match c.branch
       case Fine => after.(pc := Moving(To(Installed)))
       case Refused(_) => after.(pc := InstallRefused)
       case _ => after.(pc := Recovering(AmbiguousMutation)))
  }

  /** The mutation itself, unless it is refused before it reaches the panel. */
  function MutateStep(w: World, k: Key, kind: Kind, c: Choice): World
    requires k in w.tasks
  {
    var t := w.tasks[k];
    if c.branch.Declined? then
      At(w, k, if kind.StagePush? then CleanFail(TransportFailed) else InstallRefused)
    else
      Goto(w.(log := w.log + [Effect(kind, k.id, k.executor, t.receipt.executorGeneration)]),
           k, Mutated(t, kind, c))
  }

  /** Custody is removed before a definite failure is recorded. */
  function CleanFailStep(w: World, k: Key, code: ResultCode, c: Choice): World
    requires k in w.tasks
  {
    if c.cleanable then At(Cleaned(w, k.id), k, Failing(code))
    else if w.tasks[k].receipt.phase.Staging? then At(w, k, Recovering(VerificationRequired))
    else Stop(w, k, false)
  }

  function CancelLocalStep(w: World, k: Key, c: Choice): World
    requires k in w.tasks
  {
    var t := w.tasks[k];
    var r := t.receipt;
    var cancelled := Moving(Ending(Cancelled,
      if r.phase.Staging? then CancelledAfterStagingCleanup else CancelledByUser));
    if !(t.local || r.actualApkBytes.Some? || r.phase.Downloading?) then At(w, k, cancelled)
    else if c.cleanable then At(Cleaned(w, k.id), k, cancelled)
    else if Rank(r.phase) >= Rank(Staging) then At(w, k, Recovering(VerificationRequired))
    else Stop(w, k, false)
  }

  /** Re-read the receipt: stop if it has already ended, else go on at its revision. */
  function Reread(w: World, k: Key, c: Choice, at: nat -> Pc): World
    requires k in w.tasks && k.executor in w.sys.managers
  {
    var (w1, a) := Ask(w, k, Read(k.id), c.env);
    match a
    case Failure(_) => Stop(w1, k, true)
    case Success(current) =>
      if current.IsTerminal() then Goto(w1, k, w1.tasks[k].(pc := Top, receipt := current))
      else At(w1, k, at(current.revision))
  }

  function EndAt(w: World, k: Key, revision: nat, a: Advance, c: Choice): World
    requires k in w.tasks && k.executor in w.sys.managers
  {
    var (w1, r) := Ask(w, k, Move(k.id, revision, a), c.env);
    match r
    case Failure(_) => Stop(w1, k, true)
    case Success(receipt) => Goto(w1, k, w1.tasks[k].(pc := Top, receipt := receipt))
  }

  function MoveStep(w: World, k: Key, a: Advance, c: Choice): World
    requires k in w.tasks && k.executor in w.sys.managers
  {
    var (w1, r) := Ask(w, k, Move(k.id, w.tasks[k].receipt.revision, a), c.env);
    match r
    case Success(receipt) => Goto(w1, k, w1.tasks[k].(pc := Top, receipt := receipt))
    case Failure(e) => if e.RevisionError? then At(w1, k, Rechecking) else Stop(w1, k, true)
  }

  /** Only a fresh cancellation of the same claim explains another revision. */
  function RecheckStep(w: World, k: Key, c: Choice): World
    requires k in w.tasks && k.executor in w.sys.managers
  {
    var r := w.tasks[k].receipt;
    var (w1, a) := Ask(w, k, Read(k.id), c.env);
    match a
    case Failure(_) => Stop(w1, k, true)
    case Success(current) =>
      if && current.phase == r.phase && current.executorGeneration == r.executorGeneration
         && current.cancelRequested
      then Goto(w1, k, w1.tasks[k].(pc := Top, receipt := current))
      else Stop(w1, k, true)
  }

  /** What is recorded when the panel's answer does not settle what it did. */
  function Lost(c: Choice): Pc {
    Recovering(if c.branch.Unclear? then AmbiguousMutation else VerificationRequired)
  }

  /** A remote step that needs a barrier and then an answer from the panel. */
  function Guarded(w: World, k: Key, call: Call, c: Choice, good: Pc, bad: Pc): World
    requires k in w.tasks && k.executor in w.sys.managers
  {
    if c.branch.Declined? then At(w, k, bad)
    else
      var (w1, a) := Ask(w, k, call, c.env);
      if a.Failure? then Stop(w1, k, true)
      else if c.branch.Fine? then At(w1, k, good)
      else At(w1, k, bad)
  }

  function Work(w: World, k: Key, c: Choice): World
    requires k in w.tasks && k.executor in w.sys.managers
  {
    var t := w.tasks[k];
    match t.pc
    case Top => TopStep(w, k, c)
    case CancelLocal => CancelLocalStep(w, k, c)
    case Checked(kind) =>
      var (w1, a) := Ask(w, k, Barrier(k.id, t.receipt.revision, t.receipt.phase), c.env);
      if a.Failure? then Stop(w1, k, true)
      else if c.branch.Declined? || c.branch.Refused? then
        Unauthorized(w1, k, kind, c.branch.Refused?)
      else At(w1, k, Armed(kind))
    case Armed(kind) => MutateStep(w, k, kind, c)
    case Moving(a) => MoveStep(w, k, a, c)
    case Rechecking => RecheckStep(w, k, c)
    case CleanFail(code) => CleanFailStep(w, k, code, c)
    case Failing(code) => Reread(w, k, c, (revision: nat) => FailAt(revision, code))
    case FailAt(revision, code) => EndAt(w, k, revision, Ending(Failed, code), c)
    case Recovering(code) => Reread(w, k, c, (_: nat) => RecoverClean(code))
    case RecoverClean(code) =>
      if c.cleanable then At(Cleaned(w, k.id), k, RecoverRead(code)) else Stop(w, k, true)
    case RecoverRead(code) => Reread(w, k, c, (revision: nat) => RecoverAt(revision, code))
    case RecoverAt(revision, code) => EndAt(w, k, revision, Ending(RecoveryRequired, code), c)
    case InstallRefused =>
      Guarded(w, k, CleanupBarrier(k.id, t.receipt.revision, t.receipt.phase), c,
              RefusedClean, Lost(c))
    case RefusedClean =>
      if c.cleanable then At(Cleaned(w, k.id), k, Failing(InstallFailed))
      else At(w, k, Recovering(VerificationRequired))
    case LaunchReady =>
      Guarded(w, k, Barrier(k.id, t.receipt.revision, t.receipt.phase), c, Moving(To(HealthCheck)),
              if c.branch.Refused? || c.branch.Declined? then Failing(LaunchFailed) else Lost(c))
    case _ => StartStep(w, k, c)
  }

  // --------------------------------------------------------------- the world

  datatype Action =
    | Boot                                       // a process starts a manager and reconciles custody
    | Crash                                      // every process dies
    | Outside(manager: nat, call: Call, env: Env)  // any other use of a manager
    | Ensure(key: Key, env: Env)                 // ask for a job to be running
    | Proceed(key: Key, choice: Choice)          // one worker takes one step
    | Touch(key: Key)                            // a running download creates its file
    | Cancel(key: Key)                           // the worker's task is cancelled, or it raises

  predicate Downloads(t: Worker) {
    && t.pc.Top?
    && !t.receipt.cancelRequested
    && (|| t.receipt.phase.Downloading?
        || (!t.local && (t.receipt.phase.ArtifactReady? || t.receipt.phase.Revalidating?)))
  }

  /** Custody of jobs that have ended, or are unknown, is removed when a process starts. */
  function RetainedFiles(files: set<JobId>, disk: Jobs): set<JobId> {
    set id | id in files && id in disk && !disk[id].IsTerminal()
  }

  function Started(w: World, k: Key, env: Env): World
    requires k.executor in w.sys.managers
  {
    var (w1, r) := Ask(w, k, Read(k.id), env);
    match r
    case Failure(_) => w1
    case Success(receipt) =>
      if receipt.IsTerminal() || receipt.phase.HealthyUnclaimed? then w1
      else Goto(w1, k, Worker(Starting(false), receipt, false, false, false, {}))
  }

  ghost function Next(w: World, a: Action): World {
    match a
    case Boot =>
      w.(sys := Step(w.sys, StartManager), files := RetainedFiles(w.files, w.sys.disk))
    case Crash => w.(sys := Step(w.sys, Event.Crash), tasks := map[], parked := {})
    case Outside(who, call, env) => w.(sys := Step(w.sys, Invoke(who, call, env)))
    case Ensure(k, env) =>
      if k.executor !in w.sys.managers || k in w.tasks || k in w.parked then w
      else Started(w, k, env)
    case Proceed(k, c) =>
      if k in w.tasks && k.executor in w.sys.managers then Work(w, k, c) else w
    case Touch(k) =>
      if k in w.tasks && Downloads(w.tasks[k]) then w.(files := w.files + {k.id}) else w
    case Cancel(k) => if k in w.tasks then Stop(w, k, true) else w
  }

  const FRESH_WORLD := World(FRESH_SYSTEM, map[], {}, {}, [])

  ghost function Play(w: World, actions: seq<Action>): World
    decreases |actions|
  {
    if actions == [] then w else Play(Next(w, actions[0]), actions[1..])
  }
}
