/**
 * What a cancellation is good for: a worker sees it, nothing is sent to the panel
 * on its account any more, and what had been sent is removed before the job is
 * recorded as cancelled.
 */
module InstallCancellation {
  import opened Wrappers
  import opened InstallReceipt
  import opened InstallJobs
  import opened InstallRuns
  import opened InstallExecutor
  import opened InstallSafety
  import opened InstallAnswers
  import opened InstallVerdicts
  import InstallTermination

  // ------------------------------------------------------------------- one worker's step

  /** On its way to be recorded as cancelled. */
  predicate Cancels(pc: Pc) { pc.CancelLocal? || (pc.Moving? && pc.advance.phase.Cancelled?) }

  /** The worker sees a cancellation, and has nothing left on the panel, or has just removed it. */
  predicate FreeToCancel(w: World, k: Key, c: Choice)
    requires k in w.tasks && k.executor in w.sys.managers
  {
    var t := w.tasks[k];
    && t.pc.Top? && t.receipt.cancelRequested
    && (t.receipt.phase.Staging? && t.staged ==> PanelCleaned in Told(w, k, c))
  }

  /** Its own barrier lets the worker through. */
  predicate LetThrough(w: World, k: Key, c: Choice)
    requires k in w.tasks && k.executor in w.sys.managers
  {
    var r := w.tasks[k].receipt;
    w.tasks[k].pc.Checked? && Ask(w, k, Barrier(k.id, r.revision, r.phase), c.env).1.Success?
  }

  /** The step that touches the panel. */
  predicate Sends(t: Worker, c: Choice) { t.pc.Armed? && !c.branch.Declined? }

  /** How far one step can take a worker that goes on. */
  predicate Grows(w: World, k: Key, c: Choice, disk: Jobs, t': Worker)
    requires k in w.tasks && k.executor in w.sys.managers
  {
    var t := w.tasks[k];
    && (t.staged ==> t'.staged)
    && (if Sends(t, c)
        then t'.done == t.done + {t.pc.kind} && (t.pc.kind.StagePush? && c.branch.Fine? ==> t'.staged)
        else t'.done == t.done)
    && (t'.pc.Armed? ==> LetThrough(w, k, c))
    && (t'.receipt == t.receipt || (k.id in disk && t'.receipt == disk[k.id]))
    && (Cancels(t'.pc) ==>
          && t'.receipt == t.receipt && t'.staged == t.staged
          && (Cancels(t.pc) || FreeToCancel(w, k, c)))
  }

  /** The one call a step can make. */
  predicate Makes(t: Worker, id: JobId, call: Call) {
    && call.id == id && !call.Create? && !call.Cancel?
    && (call.Move? && call.advance.phase.Cancelled? ==>
          t.pc == Moving(call.advance) && call.revision == t.receipt.revision)
  }

  predicate Parks(w: World, k: Key)
    requires k in w.tasks
  {
    k.role.Runner? && w.tasks[k].receipt.phase.Staging?
  }

  function Sent(k: Key, t: Worker): Effect
    requires t.pc.Armed?
  {
    Effect(t.pc.kind, k.id, k.executor, t.receipt.executorGeneration)
  }

  ghost predicate Steps(w: World, w': World, k: Key, c: Choice)
    requires k in w.tasks && k.executor in w.sys.managers
  {
    && (w'.sys == w.sys
        || exists call, env :: Makes(w.tasks[k], k.id, call) && w'.sys == After(w.sys, k.executor, call, env))
    && (if k in w'.tasks
        then && w'.tasks == w.tasks[k := w'.tasks[k]] && w'.parked == w.parked
             && Grows(w, k, c, w'.sys.disk, w'.tasks[k])
        else && w'.tasks == w.tasks - {k}
             && (w'.parked == w.parked + {k} || (w'.parked == w.parked && !Parks(w, k))))
    && w'.log == (if Sends(w.tasks[k], c) then w.log + [Sent(k, w.tasks[k])] else w.log)
    && (Sends(w.tasks[k], c) ==> k in w'.tasks)
  }

  /** A call, and then somewhere, or nowhere. */
  lemma AsksSteps(w: World, k: Key, c: Choice, call: Call)
    requires k in w.tasks && k.executor in w.sys.managers && Makes(w.tasks[k], k.id, call)
    ensures var (w1, r) := Ask(w, k, call, c.env);
            && w1.tasks == w.tasks && w1.parked == w.parked && w1.log == w.log
            && (forall t' :: Grows(w, k, c, w1.sys.disk, t') && !Sends(w.tasks[k], c) ==>
                  Steps(w, Goto(w1, k, t'), k, c))
            && (!Sends(w.tasks[k], c) ==> Steps(w, Stop(w1, k, true), k, c))
            && (!Sends(w.tasks[k], c) && !Parks(w, k) ==> Steps(w, Stop(w1, k, false), k, c))
            && (r.Success? ==> k.id in w1.sys.disk && r.value == w1.sys.disk[k.id])
  {
    hide Perform, Told, LetThrough, FreeToCancel;
    if Ask(w, k, call, c.env).1.Success? {
      AnswerIsDurable(w.sys.disk, w.sys.managers[k.executor], call, c.env);
    }
  }

  /** No call: only the worker itself changes, and perhaps what is in custody. */
  lemma StaysSteps(w: World, k: Key, c: Choice)
    requires k in w.tasks && k.executor in w.sys.managers
    ensures forall t', files :: Grows(w, k, c, w.sys.disk, t') && !Sends(w.tasks[k], c) ==>
              Steps(w, Goto(w.(files := files), k, t'), k, c)
    ensures !Sends(w.tasks[k], c) ==> Steps(w, Stop(w, k, true), k, c)
    ensures !Sends(w.tasks[k], c) && !Parks(w, k) ==> Steps(w, Stop(w, k, false), k, c)
  {
    hide Told, LetThrough, FreeToCancel;
  }

  lemma FetchSteps(w: World, k: Key, c: Choice)
    requires k in w.tasks && k.executor in w.sys.managers
    requires w.tasks[k].pc.Top? && !w.tasks[k].receipt.cancelRequested
    requires var p := w.tasks[k].receipt.phase; p.Downloading? || p.ArtifactReady? || p.Revalidating?
    ensures Steps(w, TopStep(w, k, c), k, c)
  {
    hide Ask, Steps, Told, LetThrough, FreeToCancel, CancelStep, Authorize;
    StaysSteps(w, k, c);
  }

  lemma AuthorizeSteps(w: World, k: Key, c: Choice)
    requires k in w.tasks && k.executor in w.sys.managers
    requires w.tasks[k].pc.Top? && !w.tasks[k].receipt.cancelRequested
    requires w.tasks[k].receipt.phase.Staging? || w.tasks[k].receipt.phase.Installing?
    ensures Steps(w, TopStep(w, k, c), k, c)
  {
    hide Ask, Steps, Told, LetThrough, FreeToCancel, CancelStep, Download, HaveArtifact;
    StaysSteps(w, k, c);
    AsksSteps(w, k, c, Read(k.id));
  }

  lemma LaunchSteps(w: World, k: Key, c: Choice)
    requires k in w.tasks && k.executor in w.sys.managers
    requires w.tasks[k].pc.Top? && !w.tasks[k].receipt.cancelRequested
    requires w.tasks[k].receipt.phase.Launching?
    ensures Steps(w, TopStep(w, k, c), k, c)
  {
    hide Ask, Steps, Told, LetThrough, FreeToCancel, CancelStep, Download, HaveArtifact, Authorize;
    StaysSteps(w, k, c);
    var r := w.tasks[k].receipt;
    AsksSteps(w, k, c, CleanupBarrier(k.id, r.revision, r.phase));
  }

  lemma PlainSteps(w: World, k: Key, c: Choice)
    requires k in w.tasks && k.executor in w.sys.managers
    requires w.tasks[k].pc.Top? && !w.tasks[k].receipt.cancelRequested
    requires var p := w.tasks[k].receipt.phase;
             || p.Approved? || p.Authorizing? || p.Preflight? || p.Installed? || p.HealthCheck?
             || p.HealthyUnclaimed? || Terminal(p)
    ensures Steps(w, TopStep(w, k, c), k, c)
  {
    hide Ask, Steps, Told, LetThrough, FreeToCancel, CancelStep, Download, HaveArtifact, Authorize;
    StaysSteps(w, k, c);
  }

  lemma CancelSteps(w: World, k: Key, c: Choice)
    requires k in w.tasks && k.executor in w.sys.managers && w.tasks[k].pc.Top?
    requires w.tasks[k].receipt.cancelRequested
    ensures Steps(w, TopStep(w, k, c), k, c)
  {
    hide Ask, Steps, LetThrough;
    StaysSteps(w, k, c);
    var r := w.tasks[k].receipt;
    AsksSteps(w, k, c, CleanupBarrier(k.id, r.revision, r.phase));
  }

  lemma StartSteps(w: World, k: Key, c: Choice)
    requires k in w.tasks && k.executor in w.sys.managers
    requires w.tasks[k].pc.Starting? || w.tasks[k].pc.NeedsCleanup?
    ensures Steps(w, Work(w, k, c), k, c)
  {
    hide Ask, Steps, TopStep, Told, FreeToCancel, LetThrough, Guarded, Reread, EndAt, MoveStep, RecheckStep, MutateStep;
    StaysSteps(w, k, c);
    AsksSteps(w, k, c, Read(k.id));
    var pc := w.tasks[k].pc;
    var (w1, r) := Ask(w, k, Read(k.id), c.env);
    if r.Success? {
      var to := if pc.Starting? then Claiming(r.value.revision, None, pc.retried)
                else CleaningFor(r.value.revision, pc.retried);
      assert Grows(w, k, c, w1.sys.disk, w.tasks[k].(pc := to, receipt := r.value));
    }
  }

  lemma ClaimSteps(w: World, k: Key, c: Choice)
    requires k in w.tasks && k.executor in w.sys.managers
    requires w.tasks[k].pc.Claiming? || w.tasks[k].pc.CleaningFor?
    ensures Steps(w, Work(w, k, c), k, c)
  {
    hide Ask, Steps, TopStep, Told, FreeToCancel, LetThrough, Guarded, Reread, EndAt, MoveStep, RecheckStep, MutateStep;
    StaysSteps(w, k, c);
    var pc := w.tasks[k].pc;
    if pc.Claiming? { AsksSteps(w, k, c, Take(k.id, pc.revision, pc.cleaned)); }
  }

  lemma CheckedSteps(w: World, k: Key, c: Choice)
    requires k in w.tasks && k.executor in w.sys.managers
    requires w.tasks[k].pc.Checked?
    ensures Steps(w, Work(w, k, c), k, c)
  {
    hide Ask, Steps, TopStep, Told, FreeToCancel, Guarded, Reread, EndAt, MoveStep, RecheckStep,
         MutateStep, StartStep;
    StaysSteps(w, k, c);
    var r := w.tasks[k].receipt;
    AsksSteps(w, k, c, Barrier(k.id, r.revision, r.phase));
  }

  lemma MutateSteps(w: World, k: Key, c: Choice)
    requires k in w.tasks && k.executor in w.sys.managers
    requires w.tasks[k].pc.Armed?
    ensures Steps(w, Work(w, k, c), k, c)
  {
    hide TopStep, Told, FreeToCancel, LetThrough, Ask, Guarded, Reread, EndAt, MoveStep, RecheckStep, StartStep;
    StaysSteps(w, k, c);
  }

  lemma RefusedSteps(w: World, k: Key, c: Choice)
    requires k in w.tasks && k.executor in w.sys.managers
    requires w.tasks[k].pc.InstallRefused?
    ensures Steps(w, Work(w, k, c), k, c)
  {
    hide Ask, Steps, TopStep, Told, FreeToCancel, LetThrough, Reread, EndAt, MoveStep, RecheckStep,
         MutateStep, StartStep;
    StaysSteps(w, k, c);
    var r := w.tasks[k].receipt;
    AsksSteps(w, k, c, CleanupBarrier(k.id, r.revision, r.phase));
  }

  lemma ReadySteps(w: World, k: Key, c: Choice)
    requires k in w.tasks && k.executor in w.sys.managers
    requires w.tasks[k].pc.LaunchReady?
    ensures Steps(w, Work(w, k, c), k, c)
  {
    hide Ask, Steps, TopStep, Told, FreeToCancel, LetThrough, Reread, EndAt, MoveStep, RecheckStep,
         MutateStep, StartStep;
    StaysSteps(w, k, c);
    var r := w.tasks[k].receipt;
    AsksSteps(w, k, c, Barrier(k.id, r.revision, r.phase));
  }

  lemma RereadTo(w: World, k: Key, c: Choice, at: nat -> Pc)
    requires k in w.tasks && k.executor in w.sys.managers && !w.tasks[k].pc.Armed?
    requires forall revision :: !at(revision).Armed? && !Cancels(at(revision))
    ensures Steps(w, Reread(w, k, c, at), k, c)
  {
    hide Ask, Steps, Told, FreeToCancel, LetThrough;
    AsksSteps(w, k, c, Read(k.id));
  }

  lemma RereadSteps(w: World, k: Key, c: Choice)
    requires k in w.tasks && k.executor in w.sys.managers
    requires var pc := w.tasks[k].pc; pc.Failing? || pc.Recovering? || pc.RecoverRead?
    ensures Steps(w, Work(w, k, c), k, c)
  {
    hide Ask, Steps, TopStep, Told, FreeToCancel, LetThrough, Guarded, Reread, EndAt, MoveStep, RecheckStep,
         MutateStep, StartStep;
    match w.tasks[k].pc {
      case Failing(code) => RereadTo(w, k, c, (revision: nat) => FailAt(revision, code));
      case Recovering(code) => RereadTo(w, k, c, (_: nat) => RecoverClean(code));
      case RecoverRead(code) => RereadTo(w, k, c, (revision: nat) => RecoverAt(revision, code));
    }
  }

  lemma RecheckSteps(w: World, k: Key, c: Choice)
    requires k in w.tasks && k.executor in w.sys.managers
    requires w.tasks[k].pc.Rechecking?
    ensures Steps(w, Work(w, k, c), k, c)
  {
    hide Ask, Steps, TopStep, Told, FreeToCancel, LetThrough, Guarded, Reread, EndAt, MoveStep, MutateStep, StartStep;
    StaysSteps(w, k, c);
    AsksSteps(w, k, c, Read(k.id));
  }

  lemma LandSteps(w: World, k: Key, c: Choice)
    requires k in w.tasks && k.executor in w.sys.managers
    requires var pc := w.tasks[k].pc; pc.Moving? || pc.FailAt? || pc.RecoverAt?
    ensures Steps(w, Work(w, k, c), k, c)
  {
    hide Ask, Steps, TopStep, Told, FreeToCancel, LetThrough, Guarded, Reread, RecheckStep,
         MutateStep, StartStep;
    StaysSteps(w, k, c);
    match w.tasks[k].pc {
      case Moving(a) => AsksSteps(w, k, c, Move(k.id, w.tasks[k].receipt.revision, a));
      case FailAt(revision, code) => AsksSteps(w, k, c, Move(k.id, revision, Ending(Failed, code)));
      case RecoverAt(revision, code) => AsksSteps(w, k, c, Move(k.id, revision, Ending(RecoveryRequired, code)));
    }
  }

  lemma RemovalSteps(w: World, k: Key, c: Choice)
    requires k in w.tasks && k.executor in w.sys.managers
    requires var pc := w.tasks[k].pc; pc.CleanFail? || pc.RefusedClean? || pc.RecoverClean? || pc.CancelLocal?
    ensures Steps(w, Work(w, k, c), k, c)
  {
    hide Ask, Steps, TopStep, Told, FreeToCancel, LetThrough, Guarded, Reread, EndAt, MoveStep, RecheckStep,
         MutateStep, StartStep;
    StaysSteps(w, k, c);
  }

  /** Each step makes at most one call, and takes its worker no further than this. */
  lemma WorkSteps(w: World, k: Key, c: Choice)
    requires k in w.tasks && k.executor in w.sys.managers
    ensures Steps(w, Work(w, k, c), k, c)
  {
    hide Ask, Steps, TopStep, Guarded, Reread, EndAt, MoveStep, RecheckStep,
         MutateStep, StartStep;
    var pc, p := w.tasks[k].pc, w.tasks[k].receipt.phase;
    match pc {
      case Top =>
        if w.tasks[k].receipt.cancelRequested { CancelSteps(w, k, c); }
        else if p.Downloading? || p.ArtifactReady? || p.Revalidating? { FetchSteps(w, k, c); }
        else if p.Staging? || p.Installing? { AuthorizeSteps(w, k, c); }
        else if p.Launching? { LaunchSteps(w, k, c); }
        else { PlainSteps(w, k, c); }
      case Checked(_) => CheckedSteps(w, k, c);
      case Armed(_) => MutateSteps(w, k, c);
      case InstallRefused => RefusedSteps(w, k, c);
      case LaunchReady => ReadySteps(w, k, c);
      case Failing(_) => RereadSteps(w, k, c);
      case Recovering(_) => RereadSteps(w, k, c);
      case RecoverRead(_) => RereadSteps(w, k, c);
      case Rechecking => RecheckSteps(w, k, c);
      case Moving(_) => LandSteps(w, k, c);
      case FailAt(_, _) => LandSteps(w, k, c);
      case RecoverAt(_, _) => LandSteps(w, k, c);
      case CleanFail(_) => RemovalSteps(w, k, c);
      case RefusedClean => RemovalSteps(w, k, c);
      case RecoverClean(_) => RemovalSteps(w, k, c);
      case CancelLocal => RemovalSteps(w, k, c);
      case Claiming(_, _, _) => ClaimSteps(w, k, c);
      case CleaningFor(_, _) => ClaimSteps(w, k, c);
      case _ => StartSteps(w, k, c);
    }
  }

  // --------------------------------------------------------------- nothing more is sent

  /** A cancellation is on record, or the job is gone; and nobody is past the barrier of a mutation. */
  ghost predicate Quiet(w: World, id: JobId) {
    && id in w.sys.seen && (id in w.sys.disk ==> w.sys.disk[id].cancelRequested)
    && forall k :: k in w.tasks && k.id == id ==> !w.tasks[k].pc.Armed?
  }

  lemma QuietStore(w: World, a: Action, id: JobId)
    requires SafeWorld(w) && Quiet(w, id)
    ensures var s := Next(w, a).sys; id in s.seen && (id in s.disk ==> s.disk[id].cancelRequested)
  {
    hide Safe, Next;
    InstallTermination.NextHistory(w, a);
  }

  lemma NextQuiet(w: World, a: Action, id: JobId)
    requires SafeWorld(w) && Quiet(w, id)
    ensures Quiet(Next(w, a), id)
    ensures forall kind :: Performed(Next(w, a).log, kind, id) ==> Performed(w.log, kind, id)
  {
    hide Safe, Work, Perform, JoinOutcome;
    QuietStore(w, a, id);
    if a.Proceed? && a.key in w.tasks && a.key.executor in w.sys.managers {
      var k, c := a.key, a.choice;
      var r := w.tasks[k].receipt;
      WorkSteps(w, k, c);
      if LetThrough(w, k, c) && k.id == id {
        MutationHeedsCancel(w.sys.disk, w.sys.managers[k.executor], id, r.revision, r.phase, c.env);
      }
    }
  }

  lemma {:induction false} NothingIsSentAfterwards(w: World, actions: seq<Action>, id: JobId)
    requires SafeWorld(w) && Quiet(w, id)
    ensures forall kind :: Performed(Play(w, actions).log, kind, id) ==> Performed(w.log, kind, id)
    decreases |actions|
  {
    hide Safe, Quiet, Next, Performed;
    if actions != [] {
      NextQuiet(w, actions[0], id);
      NextSafe(w, actions[0]);
      NothingIsSentAfterwards(Next(w, actions[0]), actions[1..], id);
    }
  }

  /**
   * Over every run: once a cancellation is on record, and nobody had passed the
   * barrier of a mutation before, neither push nor install of that job is ever
   * sent, whatever happens next, if it had not been before.
   */
  lemma NothingIsSentAfterCancelling(before: seq<Action>, after: seq<Action>, id: JobId, kind: Kind)
    requires var w := Play(FRESH_WORLD, before);
             && id in w.sys.disk && w.sys.disk[id].cancelRequested
             && (forall k :: k in w.tasks && k.id == id ==> !w.tasks[k].pc.Armed?)
             && !Performed(w.log, kind, id)
    ensures !Performed(Play(Play(FRESH_WORLD, before), after).log, kind, id)
  {
    hide Play;
    FreshSystemInv();
    assert SafeWorld(FRESH_WORLD);
    PlaySafe(FRESH_WORLD, before);
    var w := Play(FRESH_WORLD, before);
    InvSeen(w.sys);
    NothingIsSentAfterwards(w, after, id);
  }

  // ------------------------------------------------------------- nothing is left behind

  predicate Pushed(w: World, id: JobId) { Performed(w.log, StagePush, id) }

  /** Who has staged something knows it, and cancels only once it is removed. */
  predicate WorkerTidy(heard: Record, k: Key, t: Worker) {
    && (Cancels(t.pc) && t.receipt.phase.Staging? && t.staged ==> Knows(heard, k.id, PanelCleaned))
    && (StagePush in t.done ==>
          Rank(t.receipt.phase) >= Rank(Staging) && (Knows(heard, k.id, News.Pushed) ==> t.staged))
  }

  /** While a job is STAGING, whoever has pushed its APK is still at work, or is never to work on it again. */
  predicate PushTidy(w: World, e: Effect) {
    && e.executor < w.sys.next
    && (e.executor in w.sys.managers && e.id in w.sys.disk && w.sys.disk[e.id].phase.Staging? ==>
          var k := Key(e.executor, e.id, Runner);
          k in w.parked || (k in w.tasks && StagePush in w.tasks[k].done))
  }

  predicate JobTidy(w: World, heard: Record, id: JobId) {
    && (Knows(heard, id, News.Pushed) ==> Pushed(w, id))
    && (CancelledIn(w.sys.disk, id) ==>
          && (Knows(heard, id, News.Pushed) ==> Knows(heard, id, PanelCleaned))
          && forall k :: k in w.tasks && k.id == id ==> w.tasks[k].pc != Armed(StagePush))
  }

  ghost predicate Tidy(w: World, heard: Record) {
    && (forall k :: k in w.tasks ==> k !in w.parked && WorkerTidy(heard, k, w.tasks[k]))
    && (forall i :: 0 <= i < |w.log| && w.log[i].kind.StagePush? ==> PushTidy(w, w.log[i]))
    && (forall id :: JobTidy(w, heard, id))
  }

  /** A job that is STAGING now, and whose APK had been pushed before, was STAGING then. */
  lemma WasStaging(s: System, t: System, e: Effect)
    requires EffectSound(s, e) && e.kind.StagePush? && History(s, t)
    requires e.id in t.disk && t.disk[e.id].phase.Staging?
    ensures e.id in s.disk && s.disk[e.id].phase.Staging?
  {
  }

  /** Only a worker on its way to cancel, with the claim of the durable generation, makes a job CANCELLED. */
  predicate MayCancel(w: World, k: Key, id: JobId)
    requires k in w.tasks
  {
    && id == k.id && Cancels(w.tasks[k].pc) && w.tasks[k].pc.Moving?
    && id in w.sys.disk && w.sys.disk[id] == w.tasks[k].receipt && Cancellable(w.sys.disk[id].phase)
    && Lookup(w.sys.issued, (id, w.sys.disk[id].executorGeneration)) == Some(k.executor)
  }

  predicate CancelledIn(disk: Jobs, id: JobId) { id in disk && disk[id].phase.Cancelled? }

  lemma TurnsCancelled(w: World, k: Key, c: Choice, id: JobId)
    requires SafeWorld(w) && k in w.tasks && k.executor in w.sys.managers
    ensures CancelledIn(Work(w, k, c).sys.disk, id) && !CancelledIn(w.sys.disk, id) ==> MayCancel(w, k, id)
  {
    hide Safe, Work, Perform;
    WorkSteps(w, k, c);
    if CancelledIn(Work(w, k, c).sys.disk, id) && !CancelledIn(w.sys.disk, id) {
      var call, env :| Makes(w.tasks[k], k.id, call) && Work(w, k, c).sys == After(w.sys, k.executor, call, env);
      CallCancels(w, k, call, env, id);
    }
  }

  lemma CallCancels(w: World, k: Key, call: Call, env: Env, id: JobId)
    requires SafeWorld(w) && k in w.tasks && k.executor in w.sys.managers && Makes(w.tasks[k], k.id, call)
    ensures var disk := Perform(w.sys.disk, w.sys.managers[k.executor], call, env).disk;
            CancelledIn(disk, id) && !CancelledIn(w.sys.disk, id) ==> MayCancel(w, k, id)
  {
    hide Perform, Accepted, EffectSound, Fresh, Once, ArmedAlone, Reached, SameJob, Valid, FactsFit, ResultFits;
    var m := w.sys.managers[k.executor];
    if CancelledIn(Perform(w.sys.disk, m, call, env).disk, id) && !CancelledIn(w.sys.disk, id) {
      if call.Take? || call.Move? {
        CallsWrite(w.sys.disk, m, call, env);
        assert TaskSound(w.sys, k, w.tasks[k]) && InstallRuns.Backed(w.sys, k.executor);
      } else if id in w.sys.disk {
        QuietCall(w.sys.disk, m, call, env, id);
      } else {
        NewIsApproved(w.sys.disk, m, call, env, id);
      }
    }
  }

  /** What one step teaches. */
  lemma Learns(w: World, k: Key, c: Choice, heard: Record)
    requires k in w.tasks && k.executor in w.sys.managers
    ensures var more := Noted(w, Proceed(k, c), heard);
            && heard <= more
            && (forall n :: n in Told(w, k, c) ==> Knows(more, k.id, n))
            && (forall id :: Knows(more, id, News.Pushed) && !Knows(heard, id, News.Pushed) ==>
                  id == k.id && w.tasks[k].pc == Armed(StagePush) && c.branch.Fine?)
  {
    hide Ask;
  }

  lemma OwnTidy(w: World, k: Key, c: Choice, heard: Record)
    requires SafeWorld(w) && Tidy(w, heard) && k in w.tasks && k.executor in w.sys.managers
    ensures var w' := Work(w, k, c);
            SafeWorld(w') && k in w'.tasks ==>
              k !in w'.parked && WorkerTidy(Noted(w, Proceed(k, c), heard), k, w'.tasks[k])
  {
    hide Work, Noted, Told, Inv, EffectSound, Once, ArmedAlone, Known, Ask, PushTidy;
    var w', more := Work(w, k, c), Noted(w, Proceed(k, c), heard);
    WorkSteps(w, k, c);
    Learns(w, k, c, heard);
    assert WorkerTidy(heard, k, w.tasks[k]) && k !in w.parked;
    assert Fresh(k, w.tasks[k], w.log) && JobTidy(w, heard, k.id);
    if SafeWorld(w') && k in w'.tasks && StagePush in w'.tasks[k].done {
      RankOfPusher(w', k);
      assert TaskSound(w.sys, k, w.tasks[k]);
    }
  }

  /** A receipt that is the durable one stands at STAGING at least, once its APK has been pushed. */
  lemma RankOfPusher(w: World, k: Key)
    requires SafeWorld(w) && k in w.tasks && StagePush in w.tasks[k].done
    ensures k.id in w.sys.disk && w.tasks[k].receipt == w.sys.disk[k.id] ==>
              Rank(w.tasks[k].receipt.phase) >= Rank(Staging)
  {
    hide Inv, TaskSound, Once, ArmedAlone, EffectSound;
    assert Fresh(k, w.tasks[k], w.log);
    if k.id in w.sys.disk { NothingAfterItsPhase(w, StagePush, k.id); }
  }

  lemma OtherTidy(w: World, k: Key, c: Choice, heard: Record, b: Key)
    requires SafeWorld(w) && Tidy(w, heard)
    requires k in w.tasks && k.executor in w.sys.managers && b in w.tasks && b != k
    ensures var w' := Work(w, k, c);
            b in w'.tasks && b !in w'.parked && WorkerTidy(Noted(w, Proceed(k, c), heard), b, w'.tasks[b])
  {
    hide Work, Noted, Told, Inv, EffectSound, Once, ArmedAlone, TaskSound, Known, Ask, PushTidy, JobTidy;
    WorkSteps(w, k, c);
    Learns(w, k, c, heard);
    assert WorkerTidy(heard, b, w.tasks[b]) && b !in w.parked;
    assert Fresh(b, w.tasks[b], w.log) && Fresh(k, w.tasks[k], w.log);
  }

  lemma OldPushTidy(w: World, k: Key, c: Choice, heard: Record, e: Effect)
    requires SafeWorld(w) && Tidy(w, heard) && k in w.tasks && k.executor in w.sys.managers
    requires e in w.log && e.kind.StagePush?
    ensures PushTidy(Work(w, k, c), e)
  {
    hide Work, Told, Inv, Once, ArmedAlone, Fresh, Ask, JobTidy, EffectSound, History, Perform;
    var w' := Work(w, k, c);
    WorkSteps(w, k, c);
    InstallTermination.NextHistory(w, Proceed(k, c));
    assert PushTidy(w, e) && EffectSound(w.sys, e);
    if e.id in w'.sys.disk && w'.sys.disk[e.id].phase.Staging? {
      WasStaging(w.sys, w'.sys, e);
      assert WorkerTidy(heard, k, w.tasks[k]) && TaskSound(w.sys, k, w.tasks[k]);
    }
  }

  lemma NewPushTidy(w: World, k: Key, c: Choice)
    requires SafeWorld(w) && k in w.tasks && k.executor in w.sys.managers && Sends(w.tasks[k], c)
    ensures PushTidy(Work(w, k, c), Sent(k, w.tasks[k])) || !w.tasks[k].pc.kind.StagePush?
  {
    hide Work, Told, Once, ArmedAlone, Fresh, Ask, EffectSound, Perform, Accepted;
    WorkSteps(w, k, c);
    assert TaskSound(w.sys, k, w.tasks[k]);
  }

  lemma JobStaysTidy(w: World, k: Key, c: Choice, heard: Record, id: JobId)
    requires SafeWorld(w) && Tidy(w, heard) && k in w.tasks && k.executor in w.sys.managers
    ensures JobTidy(Work(w, k, c), Noted(w, Proceed(k, c), heard), id)
  {
    hide Work, Noted, Told, Inv, Once, ArmedAlone, Fresh, Ask, PushTidy, EffectSound, Perform, TaskSound, WorkerTidy;
    var w', more := Work(w, k, c), Noted(w, Proceed(k, c), heard);
    WorkSteps(w, k, c);
    Learns(w, k, c, heard);
    assert JobTidy(w, heard, id);
    if Knows(more, id, News.Pushed) {
      if Knows(heard, id, News.Pushed) {
        var i :| 0 <= i < |w.log| && w.log[i].kind == StagePush && w.log[i].id == id;
        assert w'.log[i] == w.log[i];
      } else {
        assert w'.log[|w.log|] == Sent(k, w.tasks[k]);
      }
    }
    if id in w'.sys.disk && w'.sys.disk[id].phase.Cancelled? {
      if id in w.sys.disk && w.sys.disk[id].phase.Cancelled? {
        StaysUnarmed(w, k, c, id);
      } else {
        TurnsCancelled(w, k, c, id);
        BecomesCancelled(w, k, c, heard, id);
      }
    }
  }

  /** Nobody passes the barrier of a push for a job that is not STAGING. */
  lemma StaysUnarmed(w: World, k: Key, c: Choice, id: JobId)
    requires SafeWorld(w) && k in w.tasks && k.executor in w.sys.managers
    requires id in w.sys.disk && w.sys.disk[id].phase.Cancelled?
    requires forall b :: b in w.tasks && b.id == id ==> w.tasks[b].pc != Armed(StagePush)
    ensures var w' := Work(w, k, c); forall b :: b in w'.tasks && b.id == id ==> w'.tasks[b].pc != Armed(StagePush)
  {
    hide Work, Told, Inv, Once, ArmedAlone, Fresh, Ask, EffectSound, Perform, Known;
    WorkSteps(w, k, c);
    if LetThrough(w, k, c) && k.id == id {
      var r := w.tasks[k].receipt;
      AskIs(w, k, Barrier(id, r.revision, r.phase), c.env);
      MutationHeedsCancel(w.sys.disk, w.sys.managers[k.executor], id, r.revision, r.phase, c.env);
    }
  }

  lemma AskIs(w: World, k: Key, call: Call, env: Env)
    requires k.executor in w.sys.managers
    ensures Ask(w, k, call, env).1 == Perform(w.sys.disk, w.sys.managers[k.executor], call, env).result
  {
    hide Perform;
  }

  /** When a job becomes CANCELLED, whoever had staged its APK has removed it, and nobody is about to stage it. */
  lemma BecomesCancelled(w: World, k: Key, c: Choice, heard: Record, id: JobId)
    requires SafeWorld(w) && Tidy(w, heard) && k in w.tasks && k.executor in w.sys.managers
    requires MayCancel(w, k, id)
    ensures Knows(heard, id, News.Pushed) ==> Knows(heard, id, PanelCleaned)
    ensures !Knows(Noted(w, Proceed(k, c), heard), id, News.Pushed) || Knows(heard, id, News.Pushed)
    ensures var w' := Work(w, k, c); forall b :: b in w'.tasks && b.id == id ==> w'.tasks[b].pc != Armed(StagePush)
  {
    hide Work, Noted, Told, Inv, Once, ArmedAlone, Fresh, Ask, Perform, Known;
    WorkSteps(w, k, c);
    Learns(w, k, c, heard);
    assert WorkerTidy(heard, k, w.tasks[k]) && k !in w.parked && TaskSound(w.sys, k, w.tasks[k]);
    if Knows(heard, id, News.Pushed) {
      assert JobTidy(w, heard, id);
      var i :| 0 <= i < |w.log| && w.log[i].kind == StagePush && w.log[i].id == id;
      assert PushTidy(w, w.log[i]) && EffectSound(w.sys, w.log[i]);
    }
    forall b | b in w.tasks && b.id == id ensures b != k ==> w.tasks[b].pc != Armed(StagePush) {
      assert TaskSound(w.sys, b, w.tasks[b]);
    }
  }

  lemma WorkTidy(w: World, k: Key, c: Choice, heard: Record)
    requires SafeWorld(w) && Tidy(w, heard) && k in w.tasks && k.executor in w.sys.managers
    ensures SafeWorld(Work(w, k, c)) ==> Tidy(Work(w, k, c), Noted(w, Proceed(k, c), heard))
  {
    hide Work, Noted, Safe, Steps, WorkerTidy, PushTidy, JobTidy;
    var w', more := Work(w, k, c), Noted(w, Proceed(k, c), heard);
    WorkFrame(w, k, c);
    if SafeWorld(w') {
      forall b | b in w'.tasks ensures b !in w'.parked && WorkerTidy(more, b, w'.tasks[b]) {
        if b == k { OwnTidy(w, k, c, heard); } else { OtherTidy(w, k, c, heard, b); }
      }
      forall i | 0 <= i < |w'.log| && w'.log[i].kind.StagePush? ensures PushTidy(w', w'.log[i]) {
        if i < |w.log| { OldPushTidy(w, k, c, heard, w.log[i]); } else { NewPushTidy(w, k, c); }
      }
      forall id ensures JobTidy(w', more, id) { JobStaysTidy(w, k, c, heard, id); }
    }
  }

  lemma WorkFrame(w: World, k: Key, c: Choice)
    requires k in w.tasks && k.executor in w.sys.managers
    ensures var w' := Work(w, k, c);
            && (forall b :: b in w'.tasks ==> b in w.tasks)
            && w'.log == (if Sends(w.tasks[k], c) then w.log + [Sent(k, w.tasks[k])] else w.log)
  {
    hide Work, Grows;
    WorkSteps(w, k, c);
  }

  /** Everybody but a worker leaves all of that as it is. */
  lemma RestTidy(w: World, a: Action, heard: Record)
    requires SafeWorld(w) && Tidy(w, heard) && !a.Proceed? && (a.Outside? ==> Settles(a.call))
    ensures Tidy(Next(w, a), heard)
  {
    hide Safe, Next, WorkerTidy, PushTidy, JobTidy;
    var w' := Next(w, a);
    RestFrame(w, a);
    forall k | k in w'.tasks ensures k !in w'.parked && WorkerTidy(heard, k, w'.tasks[k]) {
      RestWorker(w, a, heard, k);
    }
    forall i | 0 <= i < |w'.log| && w'.log[i].kind.StagePush? ensures PushTidy(w', w'.log[i]) {
      RestPush(w, a, heard, w.log[i]);
    }
    forall id ensures JobTidy(w', heard, id) { RestJob(w, a, heard, id); }
  }

  lemma RestFrame(w: World, a: Action)
    requires !a.Proceed?
    ensures Next(w, a).log == w.log
    ensures forall k :: k in Next(w, a).tasks && k !in w.tasks ==>
              k !in w.parked && Next(w, a).parked == w.parked && Next(w, a).tasks[k].pc.Starting?
              && Next(w, a).tasks[k].done == {}
    ensures forall k :: k in Next(w, a).tasks && k in w.tasks ==> Next(w, a).tasks[k] == w.tasks[k]
    ensures forall k :: k in w.tasks && k !in Next(w, a).tasks ==> a.Crash? || (a == Action.Cancel(k))
    ensures w.parked <= Next(w, a).parked || a.Crash?
    ensures Next(w, a).parked <= w.parked + (if a.Cancel? then {a.key} else {})
    ensures a.Cancel? ==>
              a.key !in Next(w, a).tasks && (a.key in w.tasks && a.key.role.Runner? ==> a.key in Next(w, a).parked)
  {
    hide Perform, JoinOutcome;
  }

  lemma RestWorker(w: World, a: Action, heard: Record, k: Key)
    requires SafeWorld(w) && Tidy(w, heard) && !a.Proceed? && k in Next(w, a).tasks
    ensures k !in Next(w, a).parked && WorkerTidy(heard, k, Next(w, a).tasks[k])
  {
    hide Safe, Next, PushTidy, JobTidy;
    RestFrame(w, a);
  }

  lemma RestPush(w: World, a: Action, heard: Record, e: Effect)
    requires SafeWorld(w) && Tidy(w, heard) && !a.Proceed? && e in w.log && e.kind.StagePush?
    ensures PushTidy(Next(w, a), e)
  {
    hide Inv, Once, ArmedAlone, Fresh, TaskSound, EffectSound, Next, JobTidy, WorkerTidy, History;
    var w' := Next(w, a);
    RestFrame(w, a);
    InstallTermination.NextHistory(w, a);
    assert PushTidy(w, e) && EffectSound(w.sys, e);
    ManagersGrow(w, a);
    if e.id in w'.sys.disk && w'.sys.disk[e.id].phase.Staging? { WasStaging(w.sys, w'.sys, e); }
  }

  lemma ManagersGrow(w: World, a: Action)
    requires !a.Proceed?
    ensures var s := Next(w, a).sys;
            && s.next >= w.sys.next
            && (a.Crash? ==> s.managers == map[])
            && forall who :: who in s.managers ==> who in w.sys.managers || who >= w.sys.next
  {
    hide Perform, JoinOutcome;
  }

  lemma RestJob(w: World, a: Action, heard: Record, id: JobId)
    requires SafeWorld(w) && Tidy(w, heard) && !a.Proceed? && (a.Outside? ==> Settles(a.call))
    ensures JobTidy(Next(w, a), heard, id)
  {
    hide Safe, Next, WorkerTidy, PushTidy;
    RestFrame(w, a);
    assert JobTidy(w, heard, id);
    RestCancels(w, a, id);
  }

  lemma RestCancels(w: World, a: Action, id: JobId)
    requires SafeWorld(w) && !a.Proceed? && (a.Outside? ==> Settles(a.call))
    ensures var disk := Next(w, a).sys.disk;
            id in disk && disk[id].phase.Cancelled? ==> id in w.sys.disk && w.sys.disk[id].phase.Cancelled?
  {
    hide Perform, Accepted, EffectSound, TaskSound, Fresh, Once, ArmedAlone, JoinOutcome,
         InstallRuns.Backed, IssueSound;
    match a {
      case Outside(who, call, env) =>
        if who in w.sys.managers && Admissible(w.sys, call, env) {
          OthersNeverCancel(w.sys.disk, w.sys.managers[who], call, env, id);
        }
      case Ensure(k, env) =>
        if k.executor in w.sys.managers {
          OthersNeverCancel(w.sys.disk, w.sys.managers[k.executor], Read(k.id), env, id);
        }
      case _ =>
    }
  }

  lemma OthersNeverCancel(disk: Jobs, m: Manager, call: Call, env: Env, id: JobId)
    requires (call.Create? ==> call.id !in disk) && Settles(call)
    ensures var d := Perform(disk, m, call, env).disk;
            id in d && d[id].phase.Cancelled? ==> id in disk && disk[id].phase.Cancelled?
  {
    hide Perform, Valid, FactsFit, Refreshed, Licensed;
    if id !in Perform(disk, m, call, env).disk {
    } else if call.Take? || call.Move? || call.Cancel? {
      CallsWrite(disk, m, call, env);
    } else if id in disk {
      QuietCall(disk, m, call, env, id);
    } else {
      NewIsApproved(disk, m, call, env, id);
    }
  }

  lemma NextTidy(w: World, a: Action, heard: Record)
    requires SafeWorld(w) && Tidy(w, heard) && (a.Outside? ==> Settles(a.call))
    ensures Tidy(Next(w, a), Noted(w, a, heard))
  {
    hide Safe, Tidy, Work, Told, Settles;
    if a.Proceed? {
      if a.key in w.tasks && a.key.executor in w.sys.managers {
        NextSafe(w, a);
        WorkTidy(w, a.key, a.choice, heard);
      }
    } else {
      RestTidy(w, a, heard);
    }
  }

  lemma {:induction false} PlayTidy(w: World, actions: seq<Action>, heard: Record)
    requires SafeWorld(w) && Tidy(w, heard) && OnlyWorkersAdvance(actions)
    ensures Tidy(Play(w, actions), Heard(w, actions, heard))
    decreases |actions|
  {
    hide Safe, Next, Tidy, Settles, Noted;
    if actions != [] {
      NextTidy(w, actions[0], heard);
      NextSafe(w, actions[0]);
      assert forall i :: 0 <= i < |actions[1..]| ==> actions[1..][i] == actions[i + 1];
      PlayTidy(Next(w, actions[0]), actions[1..], Noted(w, actions[0], heard));
    }
  }

  /**
   * Over every run: a job is recorded as CANCELLED only if its APK has never been
   * staged on the panel, or has been removed from it by a removal that the panel
   * confirmed.
   */
  lemma NothingIsLeftBehind(actions: seq<Action>, id: JobId)
    requires OnlyWorkersAdvance(actions)
    requires var w := Play(FRESH_WORLD, actions); id in w.sys.disk && w.sys.disk[id].phase.Cancelled?
    ensures var heard := Heard(FRESH_WORLD, actions, {});
            Knows(heard, id, News.Pushed) ==> Knows(heard, id, PanelCleaned)
  {
    hide Play, Heard;
    FreshSystemInv();
    assert SafeWorld(FRESH_WORLD);
    PlayTidy(FRESH_WORLD, actions, {});
    assert JobTidy(Play(FRESH_WORLD, actions), Heard(FRESH_WORLD, actions, {}), id);
  }
}
