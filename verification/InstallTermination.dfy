/**
 * A worker always stops: each step it takes ends it or lowers a measure made of
 * the phases left, a cancellation not yet seen, an older partial file not yet
 * removed, and the place within one turn of its loop.
 */
module InstallTermination {
  import opened Wrappers
  import opened InstallReceipt
  import opened InstallJobs
  import opened InstallRuns
  import opened InstallExecutor
  import opened InstallSafety

  /** Phases left, then whether a cancellation can still be noticed. */
  function Remaining(r: Receipt): nat {
    (12 - Rank(r.phase)) * 2 + (if r.cancelRequested then 0 else 1)
  }

  /** Distance to the end of one turn, and before it of the claim. */
  function Stage(pc: Pc): nat {
    match pc
    case Starting(retried) => if retried then 25 else 30
    case Claiming(_, None, retried) => if retried then 24 else 29
    case NeedsCleanup(retried) => if retried then 23 else 28
    case CleaningFor(_, retried) => if retried then 22 else 27
    case Claiming(_, Some(_), retried) => if retried then 21 else 26
    case Top => 20
    case Checked(_) => 19
    case Armed(_) => 18
    case CancelLocal => 17
    case LaunchReady => 16
    case CleanFail(_) => 15
    case InstallRefused => 14
    case RefusedClean => 13
    case Moving(_) => 12
    case Rechecking => 11
    case Failing(_) => 10
    case FailAt(_, _) => 9
    case Recovering(_) => 8
    case RecoverClean(_) => 7
    case RecoverRead(_) => 6
    case RecoverAt(_, _) => 5
  }

  function Measure(t: Worker): nat {
    (Remaining(t.receipt) * 2 + (if t.staleRemoved then 0 else 1)) * 31 + Stage(t.pc)
  }

  const MAX_STEPS: nat := 1611

  /** Past the head of its loop a worker's job was live, and a refused move was overtaken. */
  ghost predicate Steady(sys: System, k: Key, t: Worker) {
    && (Running(t) && !t.pc.Top? ==> !t.receipt.IsTerminal())
    && (t.pc.Rechecking? && k.id in sys.disk ==> t.receipt.revision < sys.disk[k.id].revision)
  }

  ghost predicate SteadyWorld(w: World) {
    SafeWorld(w) && forall k :: k in w.tasks ==> Steady(w.sys, k, w.tasks[k])
  }

  /** What one step must do to its worker. */
  ghost predicate Descends(t: Worker, w': World, k: Key) {
    k in w'.tasks ==> Measure(w'.tasks[k]) < Measure(t) && Steady(w'.sys, k, w'.tasks[k])
  }

  /** The only calls a worker makes. */
  predicate Own(k: Key, call: Call) {
    call.id == k.id && !call.Create? && !call.Cancel?
  }

  lemma RemainingShrinks(a: Receipt, b: Receipt)
    requires Evolves(a, b)
    ensures Rank(a.phase) <= Rank(b.phase) && Remaining(b) <= Remaining(a)
    ensures a.revision <= b.revision && (a.cancelRequested ==> b.cancelRequested)
    ensures a.phase == b.phase && a.executorGeneration == b.executorGeneration && a.cancelRequested
            ==> a == b
  {
    hide SameJob;
  }

  /** A successful answer is a later state of the copy the worker had. */
  lemma Told(w: World, k: Key, call: Call, env: Env)
    requires SafeWorld(w) && k in w.tasks && k.executor in w.sys.managers && Own(k, call)
    ensures var (w1, a) := Ask(w, k, call, env);
            && w1.tasks == w.tasks
            && (a.Success? ==>
                  && Evolves(w.tasks[k].receipt, a.value)
                  && k.id in w1.sys.disk && w1.sys.disk[k.id] == a.value
                  && (call.Move? ==> a.value.phase == call.advance.phase
                                     && Rank(w.tasks[k].receipt.phase) < Rank(a.value.phase)))
  {
    hide Perform, Inv, Evolves, EffectSound, Fresh, Once, ArmedAlone, Reached;
    AskKeepsSafe(w, k, call, env);
    var (w1, a) := Ask(w, k, call, env);
    assert TaskSound(w.sys, k, w.tasks[k]) && TaskSound(w1.sys, k, w.tasks[k]);
    if a.Success? {
      AnswerIsDurable(w.sys.disk, w.sys.managers[k.executor], call, env);
      RemainingShrinks(w.tasks[k].receipt, w.sys.disk[k.id]);
      if call.Move? { NextPhaseAdvances(w.sys.disk[k.id].phase, call.advance.phase); }
    }
  }

  /** A move that meets another revision has been overtaken by it. */
  lemma Overtaken(w: World, k: Key, call: Call, env: Env)
    requires SafeWorld(w) && k in w.tasks && k.executor in w.sys.managers && Own(k, call)
    requires call.Move? && call.revision == w.tasks[k].receipt.revision
    requires Ask(w, k, call, env).1 == Failure(RevisionError)
    ensures var w1 := Ask(w, k, call, env).0;
            k.id in w1.sys.disk ==> w.tasks[k].receipt.revision < w1.sys.disk[k.id].revision
  {
    hide Perform, Inv, Evolves, EffectSound, Fresh, Once, ArmedAlone, Reached;
    assert TaskSound(w.sys, k, w.tasks[k]);
    RevisionMetChangesNothing(w.sys.disk, w.sys.managers[k.executor], call, env);
    MetAnother(w.sys.disk, w.sys.managers[k.executor], call, env);
    if k.id in w.sys.disk { RemainingShrinks(w.tasks[k].receipt, w.sys.disk[k.id]); }
  }

  lemma MetAnother(disk: Jobs, m: Manager, call: Call, env: Env)
    requires call.Move? && Perform(disk, m, call, env).result == Failure(RevisionError)
    ensures call.id in disk && disk[call.id].revision != call.revision
  {
    hide Refreshed, AdvancedReceipt, Pruned, Accepted, ClockAdvances, Advances;
  }

  // ----------------------------------------------------------------- one step each

  lemma Lowered(t: Worker, w: World, k: Key, t': Worker)
    requires t'.receipt == t.receipt && (t.staleRemoved ==> t'.staleRemoved)
    requires Stage(t'.pc) < Stage(t.pc) || (t'.staleRemoved && !t.staleRemoved)
    requires Running(t') && !t'.pc.Top? ==> !t.receipt.IsTerminal()
    requires !t'.pc.Rechecking?
    ensures Descends(t, Goto(w, k, t'), k)
  {
    StageBound(t.pc);
    StageBound(t'.pc);
    hide Stage, Remaining;
  }

  lemma StageBound(pc: Pc)
    ensures Stage(pc) <= 30
  {
  }

  lemma Gone(t: Worker, w: World, k: Key, park: bool)
    ensures Descends(t, Stop(w, k, park), k)
  {
  }

  /** The worker goes on with a receipt that has fewer phases left or a new cancellation. */
  lemma Renewed(t: Worker, w: World, k: Key, r: Receipt)
    requires Remaining(r) < Remaining(t.receipt)
    ensures Descends(t, Goto(w, k, t.(pc := Top, receipt := r)), k)
  {
    StageBound(t.pc);
    assert Stage(Top) == 20;
    hide Stage, Remaining;
  }

  /** Before the claim, reading again never puts the worker back. */
  lemma CameCloser(t: Worker, w: World, k: Key, r: Receipt, pc: Pc)
    requires Remaining(r) <= Remaining(t.receipt) && Stage(pc) < Stage(t.pc)
    requires pc.Top? || pc.Claiming? || pc.CleaningFor?
    ensures Descends(t, Goto(w, k, t.(pc := pc, receipt := r)), k)
  {
    StageBound(t.pc);
    hide Stage, Remaining;
  }

  lemma StartDescends(w: World, k: Key, c: Choice)
    requires SafeWorld(w) && k in w.tasks && k.executor in w.sys.managers && !Running(w.tasks[k])
    ensures Descends(w.tasks[k], StartStep(w, k, c), k)
  {
    hide Safe, Ask, Evolves, Descends, Measure, Remaining, Steady;
    var t := w.tasks[k];
    match t.pc {
      case Claiming(revision, cleaned, retried) =>
        var call := Take(k.id, revision, cleaned);
        Told(w, k, call, c.env);
        var (w1, a) := Ask(w, k, call, c.env);
        Gone(t, w1, k, true);
        Gone(t, w1, k, false);
        match a {
          case Success(r) =>
            RemainingShrinks(t.receipt, r);
            CameCloser(t, w1, k, r, Top);
          case Failure(e) =>
            if e.CleanupRequired? {
              AskedOnce(w, k, call, c.env);
              Lowered(t, w1, k, t.(pc := NeedsCleanup(retried)));
            } else if !retried {
              Lowered(t, w1, k, t.(pc := Starting(true)));
            }
        }
      case CleaningFor(revision, retried) =>
        Gone(t, w, k, true);
        Lowered(t, Cleaned(w, k.id), k, t.(pc := Claiming(revision, Some(revision), retried)));
      case _ => ReadingDescends(w, k, c);
    }
  }

  lemma ReadingDescends(w: World, k: Key, c: Choice)
    requires SafeWorld(w) && k in w.tasks && k.executor in w.sys.managers
    requires w.tasks[k].pc.Starting? || w.tasks[k].pc.NeedsCleanup?
    ensures Descends(w.tasks[k], StartStep(w, k, c), k)
  {
    hide Safe, Ask, Evolves, Descends, Measure, Remaining, Steady;
    var t := w.tasks[k];
    Told(w, k, Read(k.id), c.env);
    var (w1, a) := Ask(w, k, Read(k.id), c.env);
    Gone(t, w1, k, true);
    Gone(t, w1, k, false);
    if a.Success? {
      RemainingShrinks(t.receipt, a.value);
      if t.pc.Starting? {
        CameCloser(t, w1, k, a.value, Claiming(a.value.revision, None, t.pc.retried));
      } else {
        CameCloser(t, w1, k, a.value, CleaningFor(a.value.revision, t.pc.retried));
      }
    }
  }

  lemma AskedOnce(w: World, k: Key, call: Call, env: Env)
    requires k.executor in w.sys.managers && call.Take?
    requires Ask(w, k, call, env).1 == Failure(CleanupRequired)
    ensures call.cleaned.None?
  {
    hide Perform;
    CleanupAskedWithoutClaim(w.sys.disk, w.sys.managers[k.executor], call, env);
  }

  /** Re-reading to learn of a cancellation, or to give up. */
  lemma LearnedOfCancel(w: World, k: Key, env: Env)
    requires SafeWorld(w) && k in w.tasks && k.executor in w.sys.managers
    ensures var (w1, a) := Ask(w, k, Read(k.id), env);
            var r := w.tasks[k].receipt;
            && w1.tasks == w.tasks
            && (a.Success? && a.value.phase == r.phase && a.value.cancelRequested
                && !r.cancelRequested ==>
                  Descends(w.tasks[k], Goto(w1, k, w.tasks[k].(pc := Top, receipt := a.value)), k))
  {
    hide Safe, Ask, Evolves, Descends;
    var t := w.tasks[k];
    Told(w, k, Read(k.id), env);
    var (w1, a) := Ask(w, k, Read(k.id), env);
    if && a.Success? && a.value.phase == t.receipt.phase && a.value.cancelRequested
       && !t.receipt.cancelRequested {
      Renewed(t, w1, k, a.value);
    }
  }

  lemma UnauthorizedDescends(t: Worker, w: World, k: Key, kind: Kind, policy: bool)
    requires k in w.tasks && w.tasks[k] == t && !t.receipt.IsTerminal() && Stage(t.pc) > 15
    ensures Descends(t, Unauthorized(w, k, kind, policy), k)
  {
    hide Descends;
    Lowered(t, w, k, t.(pc := CleanFail(if policy then ArtifactRejected else TransportFailed)));
    Lowered(t, w, k, t.(pc := InstallRefused));
    Lowered(t, w, k, t.(pc := Recovering(VerificationRequired)));
  }

  lemma AuthorizeDescends(w: World, k: Key, kind: Kind, c: Choice)
    requires SafeWorld(w) && k in w.tasks && k.executor in w.sys.managers
    requires w.tasks[k].pc.Top? && !w.tasks[k].receipt.cancelRequested
    requires !w.tasks[k].receipt.IsTerminal()
    ensures Descends(w.tasks[k], Authorize(w, k, kind, c), k)
  {
    hide Safe, Ask, Descends, Unauthorized;
    var t := w.tasks[k];
    var w1 := Ask(w, k, Read(k.id), c.env).0;
    LearnedOfCancel(w, k, c.env);
    UnauthorizedDescends(t, w, k, kind, false);
    Lowered(t, w1, k, t.(pc := Checked(kind)));
    Gone(t, w1, k, true);
  }

  lemma CheckedDescends(w: World, k: Key, c: Choice)
    requires SafeWorld(w) && k in w.tasks && k.executor in w.sys.managers && w.tasks[k].pc.Checked?
    requires !w.tasks[k].receipt.IsTerminal()
    ensures Descends(w.tasks[k], Work(w, k, c), k)
  {
    hide Safe, Ask, Descends, Unauthorized;
    var t := w.tasks[k];
    var call := Barrier(k.id, t.receipt.revision, t.receipt.phase);
    Told(w, k, call, c.env);
    var w1 := Ask(w, k, call, c.env).0;
    UnauthorizedDescends(t, w1, k, t.pc.kind, c.branch.Refused?);
    Lowered(t, w1, k, t.(pc := Armed(t.pc.kind)));
    Gone(t, w1, k, true);
  }

  lemma MutateDescends(w: World, k: Key, kind: Kind, c: Choice)
    requires k in w.tasks && w.tasks[k].pc.Armed? && !w.tasks[k].receipt.IsTerminal()
    ensures Descends(w.tasks[k], MutateStep(w, k, kind, c), k)
  {
    hide Descends;
    var t := w.tasks[k];
    Lowered(t, w, k, t.(pc := if kind.StagePush? then CleanFail(TransportFailed) else InstallRefused));
    Lowered(t, w.(log := w.log + [Effect(kind, k.id, k.executor, t.receipt.executorGeneration)]), k,
            Mutated(t, kind, c));
  }

  lemma GuardedDescends(w: World, k: Key, call: Call, c: Choice, good: Pc, bad: Pc)
    requires SafeWorld(w) && k in w.tasks && k.executor in w.sys.managers && Own(k, call)
    requires !w.tasks[k].receipt.IsTerminal() && !good.Rechecking? && !bad.Rechecking?
    requires Stage(good) < Stage(w.tasks[k].pc) && Stage(bad) < Stage(w.tasks[k].pc)
    ensures Descends(w.tasks[k], Guarded(w, k, call, c, good, bad), k)
  {
    hide Safe, Ask, Stage, Descends, Evolves;
    var t := w.tasks[k];
    Told(w, k, call, c.env);
    var w1 := Ask(w, k, call, c.env).0;
    Gone(t, w1, k, true);
    Lowered(t, w, k, t.(pc := bad));
    Lowered(t, w1, k, t.(pc := bad));
    Lowered(t, w1, k, t.(pc := good));
  }

  lemma CancelDescends(w: World, k: Key, c: Choice)
    requires SafeWorld(w) && k in w.tasks && k.executor in w.sys.managers && w.tasks[k].pc.Top?
    requires !w.tasks[k].receipt.IsTerminal()
    ensures Descends(w.tasks[k], CancelStep(w, k, c), k)
  {
    hide Safe, Ask, Descends, Evolves;
    var t := w.tasks[k];
    var call := CleanupBarrier(k.id, t.receipt.revision, t.receipt.phase);
    Told(w, k, call, c.env);
    var w1 := Ask(w, k, call, c.env).0;
    Gone(t, w1, k, true);
    Lowered(t, w, k, t.(pc := CancelLocal));
    Lowered(t, w1, k, t.(pc := CancelLocal));
    Lowered(t, w, k, t.(pc := Recovering(VerificationRequired)));
    Lowered(t, w1, k, t.(pc := Recovering(VerificationRequired)));
    Lowered(t, w1, k, t.(pc := Recovering(AmbiguousMutation)));
  }

  lemma DownloadDescends(w: World, k: Key, c: Choice, next: Phase)
    requires k in w.tasks && w.tasks[k].pc.Top? && !w.tasks[k].receipt.IsTerminal()
    ensures Descends(w.tasks[k], Download(w, k, c, next), k)
    ensures Descends(w.tasks[k], HaveArtifact(w, k, c, next), k)
  {
    hide Descends;
    var t := w.tasks[k];
    Gone(t, w, k, true);
    Gone(t, w, k, false);
    if !t.staleRemoved { Lowered(t, Cleaned(w, k.id), k, t.(staleRemoved := true)); }
    if c.branch.Refused? { Lowered(t, w, k, t.(pc := CleanFail(c.branch.code))); }
    var advance :=
      if next.ArtifactReady? then To(next).(actualApkBytes := Some(t.receipt.artifact.apkSize))
      else To(next);
    Lowered(t, w.(files := w.files + {k.id}), k, t.(pc := Moving(advance), local := true));
    Lowered(t, w, k, t.(pc := Moving(To(next))));
  }

  /** The phases whose turn asks nobody and fetches nothing. */
  lemma QuietTurn(w: World, k: Key, c: Choice)
    requires k in w.tasks && w.tasks[k].pc.Top? && k.executor in w.sys.managers
    requires var r := w.tasks[k].receipt;
             !r.IsTerminal() && !r.cancelRequested
             && (r.phase.Approved? || r.phase.Authorizing? || r.phase.Preflight?
                 || r.phase.Installed? || r.phase.HealthCheck?)
    ensures Descends(w.tasks[k], TopStep(w, k, c), k)
  {
    hide Descends, CancelStep, Authorize, Download, HaveArtifact, Ask;
    var t := w.tasks[k];
    match t.receipt.phase {
      case Approved => Lowered(t, w, k, t.(pc := Moving(To(Authorizing))));
      case Authorizing =>
        if c.branch.Refused? { Lowered(t, w, k, t.(pc := Failing(c.branch.code))); }
        Lowered(t, w, k, t.(pc := Moving(To(Preflight))));
      case Preflight =>
        if c.branch.Refused? { Lowered(t, w, k, t.(pc := Failing(c.branch.code))); }
        var installed := To(Installed).(rootMode := Some(c.rootMode), actualApkBytes := Some(c.bytes));
        Lowered(t, w, k, t.(pc := Moving(installed)));
        Lowered(t, w, k, t.(pc := Moving(To(Downloading).(rootMode := Some(c.rootMode)))));
      case Installed =>
        Lowered(t, Cleaned(w, k.id), k, t.(pc := Moving(To(Launching)), staged := true));
        Lowered(t, w, k, t.(pc := Recovering(VerificationRequired), staged := true));
      case _ =>
        Lowered(t, w, k, t.(pc := Moving(To(HealthyUnclaimed).(healthCheckedAt := Some(c.env.now)))));
        Lowered(t, w, k, t.(pc := Recovering(VerificationRequired)));
    }
  }

  lemma LaunchDescends(w: World, k: Key, c: Choice)
    requires SafeWorld(w) && k in w.tasks && k.executor in w.sys.managers && w.tasks[k].pc.Top?
    requires w.tasks[k].receipt.phase.Launching? && !w.tasks[k].receipt.cancelRequested
    ensures Descends(w.tasks[k], TopStep(w, k, c), k)
  {
    hide Safe, Ask, Descends, Evolves;
    var t := w.tasks[k];
    var call := CleanupBarrier(k.id, t.receipt.revision, t.receipt.phase);
    Told(w, k, call, c.env);
    var w1 := Ask(w, k, call, c.env).0;
    Gone(t, w1, k, true);
    Lowered(t, w, k, t.(pc := Recovering(AmbiguousMutation)));
    Lowered(t, w, k, t.(pc := Recovering(VerificationRequired)));
    Lowered(t, w1, k, t.(pc := Lost(c)));
    Lowered(t, w1, k, t.(pc := LaunchReady));
  }

  lemma TopDescends(w: World, k: Key, c: Choice)
    requires SafeWorld(w) && k in w.tasks && k.executor in w.sys.managers && w.tasks[k].pc.Top?
    ensures Descends(w.tasks[k], TopStep(w, k, c), k)
  {
    hide Safe, Ask, CancelStep, Authorize, Download, HaveArtifact, Descends;
    var t := w.tasks[k];
    Gone(t, w, k, false);
    if !t.receipt.IsTerminal() && !t.receipt.phase.HealthyUnclaimed? {
      if t.receipt.cancelRequested {
        CancelDescends(w, k, c);
      } else {
        match t.receipt.phase {
          case Downloading => DownloadDescends(w, k, c, ArtifactReady);
          case ArtifactReady => DownloadDescends(w, k, c, Revalidating);
          case Revalidating => DownloadDescends(w, k, c, Staging);
          case Staging =>
            Lowered(t, w, k, t.(pc := Recovering(AmbiguousMutation)));
            AuthorizeDescends(w, k, StagePush, c);
          case Installing =>
            Lowered(t, w, k, t.(pc := Recovering(AmbiguousMutation)));
            AuthorizeDescends(w, k, PackageInstall, c);
          case Launching => LaunchDescends(w, k, c);
          case _ => QuietTurn(w, k, c);
        }
      }
    }
  }

  lemma EndDescends(w: World, k: Key, revision: nat, a: Advance, c: Choice)
    requires SafeWorld(w) && k in w.tasks && k.executor in w.sys.managers
    ensures Descends(w.tasks[k], EndAt(w, k, revision, a, c), k)
  {
    hide Safe, Ask, Evolves, Descends;
    var t := w.tasks[k];
    Told(w, k, Move(k.id, revision, a), c.env);
    var (w1, r) := Ask(w, k, Move(k.id, revision, a), c.env);
    Gone(t, w1, k, true);
    if r.Success? { Renewed(t, w1, k, r.value); }
  }

  lemma MoveDescends(w: World, k: Key, c: Choice)
    requires SafeWorld(w) && k in w.tasks && k.executor in w.sys.managers && w.tasks[k].pc.Moving?
    requires Steady(w.sys, k, w.tasks[k])
    ensures Descends(w.tasks[k], MoveStep(w, k, w.tasks[k].pc.advance, c), k)
  {
    hide Safe, Ask, Evolves;
    var t := w.tasks[k];
    var call := Move(k.id, t.receipt.revision, t.pc.advance);
    Told(w, k, call, c.env);
    var (w1, r) := Ask(w, k, call, c.env);
    Gone(t, w1, k, true);
    if r.Success? { Renewed(t, w1, k, r.value); }
    if r == Failure(RevisionError) { Overtaken(w, k, call, c.env); }
  }

  /** Only a cancellation the worker had not seen lets it go on after being overtaken. */
  lemma RecheckDescends(w: World, k: Key, c: Choice)
    requires SafeWorld(w) && k in w.tasks && k.executor in w.sys.managers && w.tasks[k].pc.Rechecking?
    requires Steady(w.sys, k, w.tasks[k])
    ensures Descends(w.tasks[k], RecheckStep(w, k, c), k)
  {
    hide Safe, Ask, Evolves, Descends;
    var t := w.tasks[k];
    Told(w, k, Read(k.id), c.env);
    LearnedOfCancel(w, k, c.env);
    var (w1, r) := Ask(w, k, Read(k.id), c.env);
    Gone(t, w1, k, true);
    if r.Success? {
      RemainingShrinks(t.receipt, r.value);
      ReadIsDurable(w, k, c.env);
    }
  }

  lemma ReadIsDurable(w: World, k: Key, env: Env)
    requires k.executor in w.sys.managers && Ask(w, k, Read(k.id), env).1.Success?
    ensures k.id in w.sys.disk && w.sys.disk[k.id] == Ask(w, k, Read(k.id), env).1.value
  {
    hide Perform;
    AnswerIsDurable(w.sys.disk, w.sys.managers[k.executor], Read(k.id), env);
  }

  lemma RereadDescends(w: World, k: Key, c: Choice, at: nat -> Pc)
    requires SafeWorld(w) && k in w.tasks && k.executor in w.sys.managers
    requires Running(w.tasks[k]) && !w.tasks[k].pc.Top? && !w.tasks[k].receipt.IsTerminal()
    requires forall n :: var pc := at(n);
               (pc.FailAt? || pc.RecoverClean? || pc.RecoverAt?) && Stage(pc) < Stage(w.tasks[k].pc)
    ensures Descends(w.tasks[k], Reread(w, k, c, at), k)
  {
    hide Safe, Ask, Evolves, Descends, Stage, Running;
    var t := w.tasks[k];
    Told(w, k, Read(k.id), c.env);
    var (w1, r) := Ask(w, k, Read(k.id), c.env);
    Gone(t, w1, k, true);
    if r.Success? {
      RemainingShrinks(t.receipt, r.value);
      if r.value.IsTerminal() {
        EndedIsLess(t.receipt, r.value);
        Renewed(t, w1, k, r.value);
      } else {
        Lowered(t, w1, k, t.(pc := at(r.value.revision)));
      }
    }
  }

  lemma EndedIsLess(a: Receipt, b: Receipt)
    requires !a.IsTerminal() && b.IsTerminal()
    ensures Remaining(b) < Remaining(a)
  {
  }

  /** Removing custody on the way out. */
  lemma LocalDescends(w: World, k: Key, c: Choice)
    requires k in w.tasks && !w.tasks[k].receipt.IsTerminal() && k.executor in w.sys.managers
    requires var pc := w.tasks[k].pc;
             pc.CancelLocal? || pc.CleanFail? || pc.RecoverClean? || pc.RefusedClean?
    ensures Descends(w.tasks[k], Work(w, k, c), k)
  {
    hide Descends;
    var t := w.tasks[k];
    Gone(t, w, k, true);
    Gone(t, w, k, false);
    if !t.pc.RecoverClean? { Lowered(t, w, k, t.(pc := Recovering(VerificationRequired))); }
    match t.pc {
      case CancelLocal =>
        var cancelled := Moving(Ending(Cancelled,
          if t.receipt.phase.Staging? then CancelledAfterStagingCleanup else CancelledByUser));
        Lowered(t, w, k, t.(pc := cancelled));
        Lowered(t, Cleaned(w, k.id), k, t.(pc := cancelled));
      case CleanFail(code) => Lowered(t, Cleaned(w, k.id), k, t.(pc := Failing(code)));
      case RecoverClean(code) => Lowered(t, Cleaned(w, k.id), k, t.(pc := RecoverRead(code)));
      case _ => Lowered(t, Cleaned(w, k.id), k, t.(pc := Failing(InstallFailed)));
    }
  }

  /** Every step ends the worker or brings it closer to its end. */
  lemma WorkDescends(w: World, k: Key, c: Choice)
    requires SafeWorld(w) && k in w.tasks && k.executor in w.sys.managers
    requires Steady(w.sys, k, w.tasks[k])
    ensures Descends(w.tasks[k], Work(w, k, c), k)
  {
    hide Safe, Ask, TopStep, MoveStep, RecheckStep, StartStep, Reread, EndAt, Guarded, MutateStep,
         CancelLocalStep, CleanFailStep, Descends;
    var t := w.tasks[k];
    match t.pc {
      case Top => TopDescends(w, k, c);
      case Checked(_) => CheckedDescends(w, k, c);
      case Armed(kind) => MutateDescends(w, k, kind, c);
      case Moving(_) => MoveDescends(w, k, c);
      case Rechecking => RecheckDescends(w, k, c);
      case Failing(code) => RereadDescends(w, k, c, (revision: nat) => FailAt(revision, code));
      case FailAt(revision, code) => EndDescends(w, k, revision, Ending(Failed, code), c);
      case Recovering(code) => RereadDescends(w, k, c, (_: nat) => RecoverClean(code));
      case RecoverRead(code) => RereadDescends(w, k, c, (revision: nat) => RecoverAt(revision, code));
      case RecoverAt(revision, code) => EndDescends(w, k, revision, Ending(RecoveryRequired, code), c);
      case InstallRefused =>
        GuardedDescends(w, k, CleanupBarrier(k.id, t.receipt.revision, t.receipt.phase), c,
                        RefusedClean, Lost(c));
      case LaunchReady =>
        GuardedDescends(w, k, Barrier(k.id, t.receipt.revision, t.receipt.phase), c,
                        Moving(To(HealthCheck)),
                        if c.branch.Refused? || c.branch.Declined? then Failing(LaunchFailed) else Lost(c));
      case _ => if Running(t) { LocalDescends(w, k, c); } else { StartDescends(w, k, c); }
    }
  }

  // ------------------------------------------------------------------ whole runs

  lemma HistorySteady(s: System, t: System, k: Key, worker: Worker)
    requires History(s, t) && Steady(s, k, worker) && Known(s, k.id, worker.receipt)
    ensures Steady(t, k, worker)
  {
    hide SameJob;
  }

  /** A step of one worker touches no other worker and only moves the store forward. */
  ghost predicate Framed(w: World, w': World, k: Key) {
    && History(w.sys, w'.sys)
    && forall b :: b in w'.tasks && b != k ==> b in w.tasks && w'.tasks[b] == w.tasks[b]
  }

  /** Everything a step can go on to do with its own worker stays framed. */
  ghost predicate Frames(w: World, v: World, k: Key) {
    && Framed(w, v, k)
    && (forall t :: Framed(w, Goto(v, k, t), k))
    && (forall park :: Framed(w, Stop(v, k, park), k))
  }

  lemma FramedFrames(w: World, v: World, k: Key)
    requires Framed(w, v, k)
    ensures Frames(w, v, k)
  {
    hide History;
  }

  lemma AskFramed(w: World, k: Key, call: Call, env: Env)
    requires SafeWorld(w) && k.executor in w.sys.managers && Own(k, call)
    ensures Frames(w, Ask(w, k, call, env).0, k) && Ask(w, k, call, env).0.tasks == w.tasks
  {
    hide Inv, History, Perform, Frames;
    StepHistory(w.sys, Invoke(k.executor, call, env));
    FramedFrames(w, Ask(w, k, call, env).0, k);
  }

  lemma StillFramed(w: World, k: Key, files: set<JobId>, log: seq<Effect>)
    requires SafeWorld(w)
    ensures Frames(w, w.(files := files, log := log), k) && Frames(w, w, k)
  {
    SafeHistory(w);
    hide History;
    FramedFrames(w, w, k);
    FramedFrames(w, w.(files := files, log := log), k);
  }

  lemma StartFramed(w: World, k: Key, c: Choice)
    requires SafeWorld(w) && k in w.tasks && k.executor in w.sys.managers
    ensures Framed(w, StartStep(w, k, c), k)
  {
    hide Safe, Ask, Framed, Goto, Stop;
    StillFramed(w, k, w.files, w.log);
    StillFramed(w, k, w.files - {k.id}, w.log);
    AskFramed(w, k, Read(k.id), c.env);
    if w.tasks[k].pc.Claiming? {
      AskFramed(w, k, Take(k.id, w.tasks[k].pc.revision, w.tasks[k].pc.cleaned), c.env);
    }
  }

  lemma SafeHistory(w: World)
    requires SafeWorld(w)
    ensures History(w.sys, w.sys)
  {
    hide Inv, History;
    HistoryReflexive(w.sys);
  }

  lemma TopFramed(w: World, k: Key, c: Choice)
    requires SafeWorld(w) && k in w.tasks && k.executor in w.sys.managers
    ensures Framed(w, TopStep(w, k, c), k)
  {
    hide Safe, Ask, Framed, Goto, Stop;
    StillFramed(w, k, w.files, w.log);
    StillFramed(w, k, w.files - {k.id}, w.log);
    StillFramed(w, k, w.files + {k.id}, w.log);
    AskFramed(w, k, Read(k.id), c.env);
    AskFramed(w, k, CleanupBarrier(k.id, w.tasks[k].receipt.revision, w.tasks[k].receipt.phase), c.env);
  }

  lemma WorkFramed(w: World, k: Key, c: Choice)
    requires SafeWorld(w) && k in w.tasks && k.executor in w.sys.managers
    ensures Framed(w, Work(w, k, c), k)
  {
    hide Safe, Ask, TopStep, StartStep, Framed, Goto, Stop;
    var t := w.tasks[k];
    StillFramed(w, k, w.files, w.log);
    StillFramed(w, k, w.files - {k.id}, w.log);
    TopFramed(w, k, c);
    StartFramed(w, k, c);
    AskFramed(w, k, Read(k.id), c.env);
    AskFramed(w, k, CleanupBarrier(k.id, t.receipt.revision, t.receipt.phase), c.env);
    AskFramed(w, k, Barrier(k.id, t.receipt.revision, t.receipt.phase), c.env);
    match t.pc {
      case Armed(kind) =>
        StillFramed(w, k, w.files,
                    w.log + [Effect(kind, k.id, k.executor, t.receipt.executorGeneration)]);
      case Moving(a) => AskFramed(w, k, Move(k.id, t.receipt.revision, a), c.env);
      case FailAt(revision, code) => AskFramed(w, k, Move(k.id, revision, Ending(Failed, code)), c.env);
      case RecoverAt(revision, code) =>
        AskFramed(w, k, Move(k.id, revision, Ending(RecoveryRequired, code)), c.env);
      case _ =>
    }
  }

  // ------------------------------------------------------------------ whole runs

  /** Whoever acts, every other worker stays where it was. */
  lemma NextFramed(w: World, a: Action, k: Key)
    requires SafeWorld(w) && k in w.tasks && k in Next(w, a).tasks
    requires !(a.Proceed? && a.key == k)
    ensures Next(w, a).tasks[k] == w.tasks[k]
  {
    hide Safe, Work, Step, Ask, Framed;
    if a.Proceed? && a.key in w.tasks && a.key.executor in w.sys.managers {
      WorkFramed(w, a.key, a.choice);
      FramedOther(w, Next(w, a), a.key, k);
    }
    if a.Ensure? && a.key.executor in w.sys.managers { AskTasks(w, a.key, Read(a.key.id), a.env); }
  }

  lemma FramedOther(w: World, w': World, k: Key, b: Key)
    requires Framed(w, w', k) && b in w'.tasks && b != k
    ensures b in w.tasks && w'.tasks[b] == w.tasks[b]
  {
    hide History;
  }

  lemma AskTasks(w: World, k: Key, call: Call, env: Env)
    requires k.executor in w.sys.managers
    ensures Ask(w, k, call, env).0.tasks == w.tasks
  {
    hide Perform;
  }

  lemma NextHistory(w: World, a: Action)
    requires SafeWorld(w)
    ensures History(w.sys, Next(w, a).sys)
  {
    hide Inv, History, Work, Perform, JoinOutcome, TaskSound, EffectSound, Fresh, Once, ArmedAlone;
    SafeHistory(w);
    match a {
      case Boot => StepHistory(w.sys, StartManager);
      case Crash => StepHistory(w.sys, Event.Crash);
      case Outside(who, call, env) => StepHistory(w.sys, Invoke(who, call, env));
      case Ensure(k, env) => StepHistory(w.sys, Invoke(k.executor, Read(k.id), env));
      case Proceed(k, c) =>
        if k in w.tasks && k.executor in w.sys.managers { WorkFramed(w, k, c); }
      case _ =>
    }
  }

  lemma NextSteady(w: World, a: Action)
    requires SteadyWorld(w)
    ensures SteadyWorld(Next(w, a))
  {
    hide Safe, Steady, History, Next, Known;
    NextSafe(w, a);
    NextHistory(w, a);
    var w' := Next(w, a);
    forall k | k in w'.tasks
      ensures Steady(w'.sys, k, w'.tasks[k])
    {
      NextSteadyOne(w, a, k);
    }
  }

  lemma NextSteadyOne(w: World, a: Action, k: Key)
    requires SteadyWorld(w) && k in Next(w, a).tasks && History(w.sys, Next(w, a).sys)
    ensures Steady(Next(w, a).sys, k, Next(w, a).tasks[k])
  {
    hide Safe, Steady, History, Work, Known, Step, Measure, Started;
    if k !in w.tasks {
      NewcomerSteady(w, a, k);
    } else {
      TaskFacts(w, k);
      if a.Proceed? && a.key == k {
        WorkDescends(w, k, a.choice);
      } else {
        NextFramed(w, a, k);
        HistorySteady(w.sys, Next(w, a).sys, k, w.tasks[k]);
      }
    }
  }

  lemma NewcomerSteady(w: World, a: Action, k: Key)
    requires SafeWorld(w) && k !in w.tasks && k in Next(w, a).tasks
    ensures Steady(Next(w, a).sys, k, Next(w, a).tasks[k])
  {
    hide Safe, Work, Step, Ask, Framed;
    if a.Proceed? && a.key in w.tasks && a.key.executor in w.sys.managers {
      WorkFramed(w, a.key, a.choice);
      if k != a.key { FramedOther(w, Next(w, a), a.key, k); }
    }
    if a.Ensure? && a.key.executor in w.sys.managers { AskTasks(w, a.key, Read(a.key.id), a.env); }
  }

  /** How many of these actions are steps of this worker. */
  function Steps(actions: seq<Action>, k: Key): nat {
    if actions == [] then 0
    else (if actions[0].Proceed? && actions[0].key == k then 1 else 0) + Steps(actions[1..], k)
  }

  /** The worker exists throughout the run. */
  ghost predicate Lives(w: World, actions: seq<Action>, k: Key)
    decreases |actions|
  {
    k in w.tasks && (actions != [] ==> Lives(Next(w, actions[0]), actions[1..], k))
  }

  lemma {:induction false} LivingDescends(w: World, actions: seq<Action>, k: Key)
    requires SteadyWorld(w) && Lives(w, actions, k)
    ensures Steps(actions, k) <= Measure(w.tasks[k])
    decreases |actions|
  {
    hide SteadyWorld, Next, Measure;
    if actions != [] {
      var w' := Next(w, actions[0]);
      NextSteady(w, actions[0]);
      LivingDescends(w', actions[1..], k);
      OneDescends(w, actions[0], k);
    }
  }

  lemma OneDescends(w: World, a: Action, k: Key)
    requires SteadyWorld(w) && k in w.tasks && k in Next(w, a).tasks
    ensures Measure(Next(w, a).tasks[k])
            <= Measure(w.tasks[k]) - (if a.Proceed? && a.key == k then 1 else 0)
  {
    hide Safe, Steady, Work, Known, Step, Measure, Started;
    TaskFacts(w, k);
    if a.Proceed? && a.key == k {
      WorkDescends(w, k, a.choice);
    } else {
      NextFramed(w, a, k);
    }
  }

  lemma {:induction false} PlaySteady(w: World, actions: seq<Action>)
    requires SteadyWorld(w)
    ensures SteadyWorld(Play(w, actions))
    decreases |actions|
  {
    hide SteadyWorld, Next;
    if actions != [] {
      NextSteady(w, actions[0]);
      PlaySteady(Next(w, actions[0]), actions[1..]);
    }
  }

  /**
   * However the rest of the world interferes, no worker takes more than a fixed
   * number of steps: the loop of a worker that is scheduled always ends.
   */
  lemma WorkersStop(before: seq<Action>, actions: seq<Action>, k: Key)
    requires Lives(Play(FRESH_WORLD, before), actions, k)
    ensures Steps(actions, k) <= MAX_STEPS
  {
    hide Next, Lives;
    FreshSystemInv();
    assert SteadyWorld(FRESH_WORLD);
    PlaySteady(FRESH_WORLD, before);
    var w := Play(FRESH_WORLD, before);
    assert k in w.tasks by { LivesNow(w, actions, k); }
    LivingDescends(w, actions, k);
    MeasureBound(w.tasks[k]);
  }

  lemma LivesNow(w: World, actions: seq<Action>, k: Key)
    requires Lives(w, actions, k)
    ensures k in w.tasks
  {
  }

  lemma MeasureBound(t: Worker)
    ensures Measure(t) <= MAX_STEPS
  {
    StageBound(t.pc);
  }

  /** What everyone else may do to a world while one worker is between two of its steps. */
  ghost predicate Interference(k: Key, others: (nat, World) -> World) {
    forall i, v :: SteadyWorld(v) ==>
      && SteadyWorld(others(i, v))
      && (k in others(i, v).tasks ==> k in v.tasks && others(i, v).tasks[k] == v.tasks[k])
  }

  /** Any action but the worker's own, and but starting it again, is such an interference. */
  lemma ActionsInterfere(k: Key, a: Action, w: World)
    requires SteadyWorld(w) && !(a.Proceed? && a.key == k) && (a.Ensure? ==> a.key != k)
    ensures SteadyWorld(Next(w, a))
    ensures k in Next(w, a).tasks ==> k in w.tasks && Next(w, a).tasks[k] == w.tasks[k]
  {
    hide Safe, Steady, Work, Step, Ask, Framed;
    NextSteady(w, a);
    if k in w.tasks && k in Next(w, a).tasks { NextFramed(w, a, k); }
    if a.Proceed? && a.key in w.tasks && a.key.executor in w.sys.managers {
      WorkFramed(w, a.key, a.choice);
      if k in Next(w, a).tasks { FramedOther(w, Next(w, a), a.key, k); }
    }
    if a.Ensure? && a.key.executor in w.sys.managers { AskTasks(w, a.key, Read(a.key.id), a.env); }
  }

  /** The worker's loop itself: it runs to its end among interfering steps, and stays safe. */
  method RunWorker(start: World, k: Key, choose: nat -> Choice, others: (nat, World) -> World)
    returns (w: World, steps: nat)
    requires SteadyWorld(start) && Interference(k, others)
    ensures k !in w.tasks && steps <= MAX_STEPS && SteadyWorld(w)
  {
    hide SteadyWorld, Work, Measure;
    w, steps := start, 0;
    if k in w.tasks { MeasureBound(w.tasks[k]); }
    while k in w.tasks
      invariant SteadyWorld(w)
      invariant steps <= MAX_STEPS
      invariant k in w.tasks ==> steps + Measure(w.tasks[k]) <= MAX_STEPS
      decreases if k in w.tasks then 1 + Measure(w.tasks[k]) else 0
    {
      assert k.executor in w.sys.managers by { SteadyManager(w, k); }
      StepOfLoop(w, k, choose(steps));
      w := Work(w, k, choose(steps));
      w := others(steps, w);
      steps := steps + 1;
    }
  }

  lemma SteadyManager(w: World, k: Key)
    requires SteadyWorld(w) && k in w.tasks
    ensures k.executor in w.sys.managers
  {
    hide Safe;
    TaskFacts(w, k);
  }

  lemma StepOfLoop(w: World, k: Key, c: Choice)
    requires SteadyWorld(w) && k in w.tasks && k.executor in w.sys.managers
    ensures SteadyWorld(Work(w, k, c)) && 0 < Measure(w.tasks[k])
    ensures k in Work(w, k, c).tasks ==> Measure(Work(w, k, c).tasks[k]) < Measure(w.tasks[k])
  {
    hide SteadyWorld, Work, Measure;
    NextSteady(w, Proceed(k, c));
    MeasurePositive(w.tasks[k]);
    if k in Work(w, k, c).tasks { OneDescends(w, Proceed(k, c), k); }
  }

  lemma MeasurePositive(t: Worker)
    ensures Measure(t) > 0
  {
  }
}
