/**
 * One durable install receipt: its phases, the tables over them, and the
 * invariant every stored receipt satisfies.
 */
module InstallReceipt {
  import opened Wrappers

  datatype Phase =
    | Approved | Authorizing | Preflight | Downloading | ArtifactReady | Revalidating
    | Staging | Installing | Installed | Launching | HealthCheck | HealthyUnclaimed
    | Consumed | Cancelled | Failed | RecoveryRequired

  datatype ResultCode =
    | EntryCreated | CancelledByUser | CancelledAfterStagingCleanup
    | AuthorizationFailed | PreflightRejected | ArtifactRejected | TransportFailed
    | InstallFailed | LaunchFailed | HealthCheckFailed
    | AmbiguousMutation | VerificationRequired

  datatype RootMode = RootAdbd | Rootless | RootSu

  datatype Target = Target(
    address: string, pinnedAddress: string, adbSerial: string, primaryAbi: string, androidSdk: int)

  datatype Artifact = Artifact(
    apkSha256: string, apkSize: int, minSdk: int, supportedAbis: seq<string>)

  datatype Receipt = Receipt(
    revision: nat,
    executorGeneration: nat,
    createdAt: int,
    updatedAt: int,
    phase: Phase,
    cancelRequested: bool,
    attempt: nat,
    target: Target,
    artifact: Artifact,
    planSha256: string,
    credentialId: string,
    rootMode: Option<RootMode>,
    actualApkBytes: Option<int>,
    healthCheckedAt: Option<int>,
    resultCode: Option<ResultCode>,
    consumedEntryId: Option<string>,
    failureStage: Option<Phase>,
    resultSubcode: Option<string>)
  {
    predicate IsTerminal() { Terminal(phase) }
  }

  const MAX_ATTEMPTS: nat := 32
  const MAX_EXECUTOR_GENERATION: nat := 0x7FFF_FFFF

  predicate Terminal(p: Phase) {
    p.Consumed? || p.Cancelled? || p.Failed? || p.RecoveryRequired?
  }

  /** Phases in which an earlier process may already have changed the panel. */
  predicate RestartAmbiguous(p: Phase) {
    p.Staging? || p.Installing? || p.Launching?
  }

  predicate MutationBarrier(p: Phase) {
    p.Staging? || p.Installing? || p.Launching? || p.HealthCheck?
  }

  /** Whether remote cleanup is allowed in a phase, and which cancel flag it then demands. */
  function CleanupBarrierCancel(p: Phase): Option<bool> {
    match p
    case Staging => Some(true)
    case Installing => Some(false)
    case Launching => Some(false)
    case _ => None
  }

  predicate Cancellable(p: Phase) {
    p.Approved? || p.Authorizing? || p.Preflight? || p.Downloading?
    || p.ArtifactReady? || p.Revalidating? || p.Staging?
  }

  predicate ArtifactRequired(p: Phase) {
    p.ArtifactReady? || p.Revalidating? || p.Staging? || p.Installing? || p.Installed?
    || p.Launching? || p.HealthCheck? || p.HealthyUnclaimed? || p.Consumed?
  }

  predicate RootModeRequired(p: Phase) {
    p.Downloading? || ArtifactRequired(p)
  }

  predicate RootModeForbidden(p: Phase) {
    p.Approved? || p.Authorizing? || p.Preflight?
  }

  predicate FailureCode(c: ResultCode) {
    c.AuthorizationFailed? || c.PreflightRejected? || c.ArtifactRejected? || c.TransportFailed?
    || c.InstallFailed? || c.LaunchFailed? || c.HealthCheckFailed?
  }

  predicate RecoveryCode(c: ResultCode) {
    c.AmbiguousMutation? || c.VerificationRequired?
  }

  /** Which failure codes a job may end with when it fails in phase `p`. */
  predicate FailureCodeAt(p: Phase, c: ResultCode) {
    match p
    case Authorizing => c.AuthorizationFailed? || c.TransportFailed?
    case Preflight => c.PreflightRejected? || c.TransportFailed?
    case Downloading => c.ArtifactRejected? || c.TransportFailed?
    case ArtifactReady => c.ArtifactRejected? || c.TransportFailed?
    case Revalidating => c.ArtifactRejected? || c.PreflightRejected? || c.TransportFailed?
    case Staging => c.ArtifactRejected? || c.TransportFailed?
    case Installing => c.InstallFailed?
    case Installed => c.InstallFailed?
    case Launching => c.LaunchFailed? || c.TransportFailed?
    case HealthCheck => c.HealthCheckFailed? || c.TransportFailed?
    case _ => false
  }

  predicate NextPhase(p: Phase, q: Phase) {
    match p
    case Approved => q.Authorizing? || q.Cancelled? || q.Failed?
    case Authorizing => q.Preflight? || q.Cancelled? || q.Failed?
    case Preflight => q.Downloading? || q.Installed? || q.Cancelled? || q.Failed?
    case Downloading => q.ArtifactReady? || q.Cancelled? || q.Failed?
    case ArtifactReady => q.Revalidating? || q.Cancelled? || q.Failed?
    case Revalidating => q.Staging? || q.Cancelled? || q.Failed?
    case Staging => q.Installing? || q.Cancelled? || q.Failed? || q.RecoveryRequired?
    case Installing => q.Installed? || q.Failed? || q.RecoveryRequired?
    case Installed => q.Launching? || q.Failed? || q.RecoveryRequired?
    case Launching => q.HealthCheck? || q.Failed? || q.RecoveryRequired?
    case HealthCheck => q.HealthyUnclaimed? || q.Failed? || q.RecoveryRequired?
    case HealthyUnclaimed => q.Consumed? || q.RecoveryRequired?
    case _ => false
  }

  /** Progress of a phase along the forward path; every terminal phase is last. */
  function Rank(p: Phase): nat {
    match p
    case Approved => 0
    case Authorizing => 1
    case Preflight => 2
    case Downloading => 3
    case ArtifactReady => 4
    case Revalidating => 5
    case Staging => 6
    case Installing => 7
    case Installed => 8
    case Launching => 9
    case HealthCheck => 10
    case HealthyUnclaimed => 11
    case _ => 12
  }

  /** The facts a plan freezes agree with each other. */
  predicate Compatible(t: Target, a: Artifact) {
    t.primaryAbi in a.supportedAbis && t.androidSdk >= a.minSdk
  }

  /**
   * The invariant a receipt must meet to be stored, read back or joined with
   * its failure details. Text shape and the plan digest are left out.
   */
  predicate Valid(r: Receipt) {
    && ValidFailure(r)
    && r.updatedAt >= r.createdAt
    && (r.actualApkBytes.Some? ==> r.actualApkBytes.value == r.artifact.apkSize)
    && Compatible(r.target, r.artifact)
    && r.attempt == r.executorGeneration
    && r.revision >= r.executorGeneration
    && r.executorGeneration <= MAX_EXECUTOR_GENERATION
    && r.attempt <= MAX_ATTEMPTS
    && (RootModeForbidden(r.phase) ==> r.rootMode.None?)
    && (RootModeRequired(r.phase) ==> r.rootMode.Some?)
    && (ArtifactRequired(r.phase) ==> r.actualApkBytes.Some?)
    && (!ArtifactRequired(r.phase) && !r.IsTerminal() ==> r.actualApkBytes.None?)
    && ValidResult(r)
    && (r.healthCheckedAt.Some? <==> r.phase.HealthyUnclaimed? || r.phase.Consumed?)
    && (r.healthCheckedAt.Some? ==> r.createdAt <= r.healthCheckedAt.value <= r.updatedAt)
  }

  predicate ValidFailure(r: Receipt) {
    && (r.resultSubcode.Some? ==> r.failureStage.Some? && !Terminal(r.failureStage.value))
    && (!r.phase.Failed? && !r.phase.RecoveryRequired? ==>
          r.failureStage.None? && r.resultSubcode.None?)
    && (r.phase.Failed? && r.failureStage.Some? ==>
          r.resultCode.Some? && FailureCodeAt(r.failureStage.value, r.resultCode.value))
  }

  predicate ValidResult(r: Receipt) {
    && (r.phase.Consumed? <==> r.consumedEntryId.Some?)
    && match r.phase
       case Consumed => r.resultCode == Some(EntryCreated)
       case Cancelled =>
         r.cancelRequested
         && (r.resultCode == Some(CancelledByUser)
             || r.resultCode == Some(CancelledAfterStagingCleanup))
       case Failed => r.resultCode.Some? && FailureCode(r.resultCode.value)
       case RecoveryRequired => r.resultCode.Some? && RecoveryCode(r.resultCode.value)
       case _ => r.resultCode.None?
  }

  /** What a receipt keeps for its whole life. */
  predicate SameJob(a: Receipt, b: Receipt) {
    && a.createdAt == b.createdAt
    && a.target == b.target
    && a.artifact == b.artifact
    && a.planSha256 == b.planSha256
    && a.credentialId == b.credentialId
  }

  /**
   * `b` is a later durable state of the job whose state was `a`: either nothing
   * changed, or the revision grew and with it the cancel flag alone, the claim
   * of a phase that is safe to resume, or the phase.
   */
  predicate Evolves(a: Receipt, b: Receipt) {
    a == b
    || (&& SameJob(a, b)
        && a.revision < b.revision
        && a.executorGeneration <= b.executorGeneration
        && (a.cancelRequested ==> b.cancelRequested)
        && !a.IsTerminal()
        && (|| Rank(a.phase) < Rank(b.phase)
            || (&& a.phase == b.phase && a.executorGeneration < b.executorGeneration
                && !RestartAmbiguous(a.phase))
            || (&& a.phase == b.phase && a.executorGeneration == b.executorGeneration
                && !a.cancelRequested && b.cancelRequested)))
  }

  /** Histories compose, so a copy read long ago still bounds what is durable now. */
  lemma EvolvesTransitive(a: Receipt, b: Receipt, c: Receipt)
    requires Evolves(a, b) && Evolves(b, c)
    ensures Evolves(a, c)
  {
  }

  /** The phase table only ever moves forward, and never out of a terminal phase. */
  lemma NextPhaseAdvances(p: Phase, q: Phase)
    requires NextPhase(p, q)
    ensures !Terminal(p) && Rank(p) < Rank(q)
  {
  }

  /** The table offers Approved to Failed, but no receipt can record it. */
  lemma ApprovedNeverFails(r: Receipt)
    requires r.phase.Failed? && r.failureStage == Some(Approved)
    ensures !Valid(r)
  {
  }

  /**
   * The tables agree with one another: a job can be cancelled exactly where it
   * can become CANCELLED, set aside only once something may have reached the
   * panel, and exactly the phases a restart leaves in doubt allow remote cleanup;
   * what a phase may fail with is a failure, of a phase that may fail.
   */
  lemma TablesAgree(p: Phase, c: ResultCode)
    ensures Cancellable(p) <==> NextPhase(p, Cancelled)
    ensures NextPhase(p, RecoveryRequired) <==> Rank(Staging) <= Rank(p) <= Rank(HealthyUnclaimed)
    ensures RestartAmbiguous(p) <==> CleanupBarrierCancel(p).Some?
    ensures RestartAmbiguous(p) <==> MutationBarrier(p) && !p.HealthCheck?
    ensures FailureCodeAt(p, c) ==> FailureCode(c) && NextPhase(p, Failed) && !RecoveryCode(c)
    ensures CleanupBarrierCancel(p) == Some(true) ==> Cancellable(p)
    ensures CleanupBarrierCancel(p) == Some(false) ==> !Cancellable(p)
    ensures !(RootModeRequired(p) && RootModeForbidden(p))
    ensures !Terminal(p) ==> (RootModeForbidden(p) <==> Rank(p) <= Rank(Preflight))
  {
  }
}
