/**
 * The durable receipt store and the operations a manager performs on it.
 *
 * Each operation runs under the one store lock, so it is a function of the
 * durable map, the manager's memory and what the outside world does to it: can
 * the files be read, what time is it, and how does the one write end.
 */
module InstallJobs {
  import opened Wrappers
  import opened InstallReceipt

  type JobId = nat
  type Jobs = map<JobId, Receipt>

  const MAX_ACTIVE_JOBS: nat := 4
  const MAX_TERMINAL_JOBS: nat := 32
  const TERMINAL_RETENTION: nat := 604800 // seven days in seconds

  datatype JobError =
    | StoreError | NotFound | RevisionError | TransitionError
    | Conflict | Capacity | CleanupRequired
    | MissingAfterSave // the saved receipt was pruned with its own save

  /** How the write of one candidate map ends. */
  datatype SaveEvent =
    | Committed           // written and read back
    | NotWritten          // refused, failed or interrupted before the primary file changed
    | WrittenUnverified   // the primary file changed but the caller is told it failed

  datatype Env = Env(readable: bool, now: int, save: SaveEvent)

  /** A manager's memory: its cached map, and the generation of each claim it holds. */
  datatype Manager = Manager(jobs: Option<Jobs>, claimed: map<JobId, nat>)
  {
    predicate Holds(id: JobId, generation: nat) { Lookup(claimed, id) == Some(generation) }
  }

  const FORGETFUL := Manager(None, map[])

  datatype Reply<+T> = Reply(disk: Jobs, manager: Manager, result: Result<T, JobError>)

  // ---------------------------------------------------------------- documents

  function ActiveIds(jobs: Jobs): set<JobId> { set id | id in jobs && !jobs[id].IsTerminal() }

  function TerminalIds(jobs: Jobs): set<JobId> { set id | id in jobs && jobs[id].IsTerminal() }

  /** Two targets that may not both have an active job. */
  predicate Collide(a: Target, b: Target) {
    a.address == b.address || a.pinnedAddress == b.pinnedAddress || a.adbSerial == b.adbSerial
  }

  predicate ActiveDistinct(jobs: Jobs) {
    forall i, j :: i in ActiveIds(jobs) && j in ActiveIds(jobs) && i != j ==>
      !Collide(jobs[i].target, jobs[j].target)
  }

  /** A map the store's parser accepts. */
  predicate Accepted(jobs: Jobs) {
    AllValid(jobs) && ActiveDistinct(jobs) && WithinBounds(jobs)
  }

  predicate AllValid(jobs: Jobs) {
    forall id :: id in jobs ==> Valid(jobs[id])
  }

  predicate WithinBounds(jobs: Jobs) {
    |ActiveIds(jobs)| <= MAX_ACTIVE_JOBS && |TerminalIds(jobs)| <= MAX_TERMINAL_JOBS
  }

  // ------------------------------------------------------------------ pruning

  /** The order in which terminal receipts are retained: newest first, then by id. */
  predicate Newer(jobs: Jobs, a: JobId, b: JobId)
    requires a in jobs && b in jobs
  {
    jobs[a].updatedAt > jobs[b].updatedAt || (jobs[a].updatedAt == jobs[b].updatedAt && a > b)
  }

  function NewerTerminals(jobs: Jobs, id: JobId): set<JobId>
    requires id in jobs
  {
    set k | k in TerminalIds(jobs) && Newer(jobs, k, id)
  }

  predicate Retained(jobs: Jobs, now: int, id: JobId)
    requires id in jobs
  {
    !jobs[id].IsTerminal()
    || (|NewerTerminals(jobs, id)| < MAX_TERMINAL_JOBS
        && jobs[id].updatedAt >= now - TERMINAL_RETENTION)
  }

  function Pruned(jobs: Jobs, now: int): Jobs {
    map id | id in jobs && Retained(jobs, now, id) :: jobs[id]
  }

  // ------------------------------------------------------- load, save, lookup

  /** Claims survive a refresh only for a live receipt of that exact generation. */
  function Reconciled(claimed: map<JobId, nat>, jobs: Jobs): map<JobId, nat> {
    map id | id in claimed && id in jobs && !jobs[id].IsTerminal()
             && !jobs[id].phase.HealthyUnclaimed?
             && jobs[id].executorGeneration == claimed[id]
      :: claimed[id]
  }

  /** Nobody else may have touched a receipt this manager believes it has claimed. */
  predicate ClaimsUndisturbed(disk: Jobs, m: Manager) {
    m.jobs.Some? ==>
      forall id :: id in m.claimed ==> Lookup(disk, id) == Lookup(m.jobs.value, id)
  }

  /** Re-read the store; any doubt drops the cache and every claim with it. */
  function Refreshed(disk: Jobs, m: Manager, readable: bool): (r: (Manager, bool)) {
    if readable && ClaimsUndisturbed(disk, m)
    then (Manager(Some(disk), Reconciled(m.claimed, disk)), true)
    else (FORGETFUL, false)
  }

  /** No receipt's clock may run backwards across a save. */
  predicate ClockAdvances(previous: Jobs, next: Jobs) {
    forall id :: id in previous && id in next ==> previous[id].updatedAt <= next[id].updatedAt
  }

  /** Write a candidate map over `disk`, which the manager has just read. */
  function Save(disk: Jobs, m: Manager, jobs: Jobs, event: SaveEvent): (Jobs, Manager, bool) {
    if !Accepted(jobs) || !ClockAdvances(disk, jobs) then (disk, FORGETFUL, false)
    else match event
      case Committed => (jobs, Manager(Some(jobs), Reconciled(m.claimed, jobs)), true)
      case NotWritten => (disk, FORGETFUL, false)
      case WrittenUnverified => (jobs, FORGETFUL, false)
  }

  function CheckedCurrent(jobs: Jobs, id: JobId, revision: nat): Result<Receipt, JobError> {
    if id !in jobs then Failure(NotFound)
    else if jobs[id].revision != revision then Failure(RevisionError)
    else Success(jobs[id])
  }

  /** Save `jobs` and answer with the receipt the manager now caches for `id`. */
  function SaveAndReturn(disk: Jobs, m: Manager, jobs: Jobs, id: JobId, event: SaveEvent)
    : Reply<Receipt>
  {
    var (disk', m', ok) := Save(disk, m, jobs, event);
    if !ok then Reply(disk', m', Failure(StoreError))
    else if id !in jobs then Reply(disk', m', Failure(MissingAfterSave))
    else Reply(disk', m', Success(jobs[id]))
  }

  // --------------------------------------------------------------- operations

  function Get(disk: Jobs, m: Manager, id: JobId, env: Env): Reply<Receipt> {
    var (m', ok) := Refreshed(disk, m, env.readable);
    if !ok then Reply(disk, m', Failure(StoreError))
    else if id !in disk then Reply(disk, m', Failure(NotFound))
    else Reply(disk, m', Success(disk[id]))
  }

  /** The outcome of scanning active receipts for the requested plan. */
  datatype Join = Joins(id: JobId) | Conflicts | Free

  predicate SamePlan(r: Receipt, t: Target, a: Artifact, plan: string, credential: string) {
    r.target == t && r.artifact == a && r.planSha256 == plan && r.credentialId == credential
  }

  /**
   * What scanning an accepted map for a target finds. Active targets are
   * pairwise distinct but a new target can still meet several of them, by
   * different fields; the scan stops at the first in document order.
   */
  ghost predicate JoinOutcome(
    jobs: Jobs, t: Target, a: Artifact, plan: string, credential: string, j: Join)
  {
    match j
    case Free => forall id :: id in ActiveIds(jobs) ==> !Collide(jobs[id].target, t)
    case Joins(id) => id in ActiveIds(jobs) && SamePlan(jobs[id], t, a, plan, credential)
    case Conflicts =>
      exists id :: id in ActiveIds(jobs) && Collide(jobs[id].target, t)
                   && !SamePlan(jobs[id], t, a, plan, credential)
  }

  function NewReceipt(t: Target, a: Artifact, plan: string, credential: string, now: int): Receipt {
    Receipt(0, 0, now, now, Approved, false, 0, t, a, plan, credential,
            None, None, None, None, None, None, None)
  }

  function CreateOrJoin(
    disk: Jobs, m: Manager, t: Target, a: Artifact, plan: string, credential: string,
    scan: Join, newId: JobId, env: Env): Reply<(Receipt, bool)>
  {
    if !Compatible(t, a) then Reply(disk, m, Failure(TransitionError))
    else
      var (m1, ok) := Refreshed(disk, m, env.readable);
      if !ok then Reply(disk, m1, Failure(StoreError))
      else
        var jobs := Pruned(disk, env.now);
        if scan.Joins? && scan.id in jobs then Reply(disk, m1, Success((jobs[scan.id], false)))
        else if scan.Conflicts? then Reply(disk, m1, Failure(Conflict))
        else if |ActiveIds(jobs)| >= MAX_ACTIVE_JOBS then Reply(disk, m1, Failure(Capacity))
        else
          var jobs' := jobs[newId := NewReceipt(t, a, plan, credential, env.now)];
          var r := SaveAndReturn(disk, m1, jobs', newId, env.save);
          match r.result
          case Success(receipt) => Reply(r.disk, r.manager, Success((receipt, true)))
          case Failure(e) => Reply(r.disk, r.manager, Failure(e))
  }

  function CancelMarked(r: Receipt, now: int): Receipt {
    r.(revision := r.revision + 1, updatedAt := now, cancelRequested := true)
  }

  function RequestCancel(disk: Jobs, m: Manager, id: JobId, revision: nat, env: Env): Reply<Receipt> {
    var (m1, ok) := Refreshed(disk, m, env.readable);
    if !ok then Reply(disk, m1, Failure(StoreError))
    else match CheckedCurrent(disk, id, revision)
      case Failure(e) => Reply(disk, m1, Failure(e))
      case Success(current) =>
        if !Cancellable(current.phase) then Reply(disk, m1, Failure(TransitionError))
        else if current.cancelRequested then Reply(disk, m1, Success(current))
        else SaveAndReturn(disk, m1, disk[id := CancelMarked(current, env.now)], id, env.save)
  }

  /** No further claim fits in the bounds. */
  predicate Exhausted(r: Receipt) {
    r.executorGeneration >= MAX_EXECUTOR_GENERATION || r.attempt >= MAX_ATTEMPTS
  }

  /** The receipt a claim by a manager without one makes durable. */
  function ClaimedReceipt(r: Receipt, now: int): Receipt {
    if Exhausted(r) then
      r.(revision := r.revision + 1, updatedAt := now, phase := RecoveryRequired,
         resultCode := Some(VerificationRequired), failureStage := Some(r.phase),
         resultSubcode := Some("job:attempts_exhausted"))
    else if RestartAmbiguous(r.phase) then
      r.(revision := r.revision + 1, executorGeneration := r.executorGeneration + 1,
         updatedAt := now, phase := RecoveryRequired, attempt := r.attempt + 1,
         resultCode := Some(VerificationRequired), failureStage := Some(r.phase),
         resultSubcode := Some("job:interrupted_mutation"))
    else
      r.(revision := r.revision + 1, executorGeneration := r.executorGeneration + 1,
         updatedAt := now, attempt := r.attempt + 1, resultCode := None,
         failureStage := None, resultSubcode := None)
  }

  function Claim(
    disk: Jobs, m: Manager, id: JobId, revision: nat, cleaned: Option<nat>, env: Env)
    : Reply<Receipt>
  {
    var (m1, ok) := Refreshed(disk, m, env.readable);
    if !ok then Reply(disk, m1, Failure(StoreError))
    else match CheckedCurrent(disk, id, revision)
      case Failure(e) => Reply(disk, m1, Failure(e))
      case Success(current) =>
        if current.IsTerminal() || current.phase.HealthyUnclaimed? then
          Reply(disk, m1, Failure(TransitionError))
        else if cleaned.Some? && cleaned.value != current.revision then
          Reply(disk, m1, Failure(RevisionError))
        else if m1.Holds(id, current.executorGeneration) then
          Reply(disk, m1, Success(current))
        else if (Exhausted(current) || RestartAmbiguous(current.phase)) && cleaned.None? then
          Reply(disk, m1, Failure(CleanupRequired))
        else
          var updated := ClaimedReceipt(current, env.now);
          var r := SaveAndReturn(disk, m1, Pruned(disk[id := updated], env.now), id, env.save);
          if r.result.Success? && !r.result.value.IsTerminal() then
            r.(manager := r.manager.(claimed := r.manager.claimed[id := updated.executorGeneration]))
          else r
  }

  /** The facts a caller supplies with a requested phase. */
  datatype Advance = Advance(
    phase: Phase,
    rootMode: Option<RootMode>,
    actualApkBytes: Option<int>,
    healthCheckedAt: Option<int>,
    resultCode: Option<ResultCode>,
    resultSubcode: Option<string>,
    consumedEntryId: Option<string>)

  /** Whether the supplied facts are exactly those this step of the table learns. */
  predicate FactsFit(current: Receipt, a: Advance) {
    && (if current.phase.Preflight? && (a.phase.Downloading? || a.phase.Installed?)
        then a.rootMode.Some? && current.rootMode.None? else a.rootMode.None?)
    && (if a.phase.ArtifactReady? || (current.phase.Preflight? && a.phase.Installed?)
        then a.actualApkBytes.Some? && current.actualApkBytes.None? else a.actualApkBytes.None?)
    && (if a.phase.HealthyUnclaimed?
        then a.healthCheckedAt.Some? && current.healthCheckedAt.None? else a.healthCheckedAt.None?)
  }

  predicate ResultFits(current: Receipt, a: Advance) {
    match a.phase
    case Cancelled =>
      && current.cancelRequested
      && a.resultCode == Some(if current.phase.Staging? then CancelledAfterStagingCleanup
                              else CancelledByUser)
      && a.consumedEntryId.None?
    case Failed => a.consumedEntryId.None?
    case RecoveryRequired =>
      a.resultCode.Some? && RecoveryCode(a.resultCode.value) && a.consumedEntryId.None?
    case Consumed => a.resultCode == Some(EntryCreated) && a.consumedEntryId.Some?
    case _ => a.resultCode.None? && a.consumedEntryId.None?
  }

  function Or<T>(a: Option<T>, b: Option<T>): Option<T> { if a.Some? then a else b }

  function AdvancedReceipt(r: Receipt, a: Advance, now: int): Receipt {
    var fails := a.phase.Failed? || a.phase.RecoveryRequired?;
    r.(revision := r.revision + 1,
       updatedAt := now,
       phase := a.phase,
       rootMode := Or(a.rootMode, r.rootMode),
       actualApkBytes := Or(a.actualApkBytes, r.actualApkBytes),
       healthCheckedAt :=
         if r.phase.HealthyUnclaimed? && a.phase.RecoveryRequired? then None
         else Or(a.healthCheckedAt, r.healthCheckedAt),
       resultCode := a.resultCode,
       failureStage := if fails then Some(r.phase) else None,
       resultSubcode := if fails && a.resultCode.Some? then a.resultSubcode else None,
       consumedEntryId := a.consumedEntryId)
  }

  /** A transition is licensed by a held claim, or by a receipt waiting to be claimed. */
  predicate Licensed(m: Manager, id: JobId, current: Receipt, p: Phase) {
    || (current.phase.HealthyUnclaimed? && (p.Consumed? || p.RecoveryRequired?))
    || m.Holds(id, current.executorGeneration)
  }

  predicate Advances(m: Manager, id: JobId, current: Receipt, a: Advance, now: int) {
    && NextPhase(current.phase, a.phase)
    && (current.cancelRequested ==>
          a.phase.Cancelled? || a.phase.Failed? || a.phase.RecoveryRequired?)
    && Licensed(m, id, current, a.phase)
    && FactsFit(current, a)
    && ResultFits(current, a)
    && Valid(AdvancedReceipt(current, a, now))
  }

  function Transition(disk: Jobs, m: Manager, id: JobId, revision: nat, a: Advance, env: Env)
    : Reply<Receipt>
  {
    var (m1, ok) := Refreshed(disk, m, env.readable);
    if !ok then Reply(disk, m1, Failure(StoreError))
    else match CheckedCurrent(disk, id, revision)
      case Failure(e) => Reply(disk, m1, Failure(e))
      case Success(current) =>
        if !Advances(m1, id, current, a, env.now) then Reply(disk, m1, Failure(TransitionError))
        else
          SaveAndReturn(
            disk, m1, Pruned(disk[id := AdvancedReceipt(current, a, env.now)], env.now),
            id, env.save)
  }

  /**
   * Re-read the store before touching the panel. `cancel` is the flag the
   * barrier demands: false for a mutation, per phase for remote cleanup.
   */
  function VerifyBarrier(
    disk: Jobs, m: Manager, id: JobId, revision: nat, phase: Phase, cancel: bool, env: Env)
    : Reply<Receipt>
  {
    var (m1, ok) := if m.jobs.Some? then (m, true) else Refreshed(disk, m, env.readable);
    if !ok || m1.jobs.None? then Reply(disk, m1, Failure(StoreError))
    else match CheckedCurrent(m1.jobs.value, id, revision)
      case Failure(e) => Reply(disk, m1, Failure(e))
      case Success(inMemory) =>
        if !env.readable then Reply(disk, FORGETFUL, Failure(StoreError))
        else
          var m2 := Manager(Some(disk), Reconciled(m1.claimed, disk));
          match CheckedCurrent(disk, id, revision)
          case Failure(e) => Reply(disk, m2, Failure(e))
          case Success(receipt) =>
            if || receipt != inMemory || receipt.phase != phase
               || receipt.cancelRequested != cancel
               || !m2.Holds(id, receipt.executorGeneration)
            then Reply(disk, FORGETFUL, Failure(TransitionError))
            else Reply(disk, m2, Success(receipt))
  }
}
