/**
 * A blocking operation handed to a thread pool by an event loop that may be
 * cancelled at any moment. One lock decides whether the thread's start or the
 * future's cancellation came first, and a cleanup is submitted again until the
 * thread has won once.
 */
module WorkerArbitration {
  datatype State = Queued | Running | Finished | Aborted

  /** Where the pool thread stands with this operation. */
  datatype Thread = Waiting | Skipped | Returned | Working | Recording | Signalling | Done

  datatype Operation = Operation(
    state: State,
    thread: Thread,
    futureCancelled: bool,
    callbackRan: bool,
    completion: bool,
    runs: nat)            // how often the target has been called

  const SUBMITTED := Operation(Queued, Waiting, false, false, false, 0)

  datatype Event =
    | PickUp              // the thread takes the operation and claims it under the lock
    | Skip                // the pool drops work whose future was cancelled first
    | RunTarget
    | Record
    | Signal
    | CancelFuture
    | Callback            // the future is done: arbitrate its cancellation

  function Step(o: Operation, e: Event): Operation {
    match e
    case PickUp =>
      if !o.thread.Waiting? then o
      else if o.state.Aborted? then o.(thread := Returned)
      else if !o.state.Queued? then o.(state := Finished, completion := true, thread := Done)
      else o.(state := Running, thread := Working)
    case Skip => if o.thread.Waiting? && o.futureCancelled then o.(thread := Skipped) else o
    case RunTarget => if o.thread.Working? then o.(runs := o.runs + 1, thread := Recording) else o
    case Record => if o.thread.Recording? then o.(state := Finished, thread := Signalling) else o
    case Signal => if o.thread.Signalling? then o.(completion := true, thread := Done) else o
    case CancelFuture => if o.callbackRan then o else o.(futureCancelled := true)
    case Callback =>
      if o.callbackRan || !(o.futureCancelled || o.thread.Done? || o.thread.Returned?) then o
      else if o.futureCancelled && o.state.Queued? then
        o.(callbackRan := true, state := Aborted, completion := true)
      else o.(callbackRan := true)
  }

  function Run(o: Operation, events: seq<Event>): Operation
    decreases |events|
  {
    if events == [] then o else Run(Step(o, events[0]), events[1..])
  }

  predicate Sound(o: Operation) {
    && (o.runs == if o.thread.Recording? || o.thread.Signalling? || o.thread.Done? then 1 else 0)
    && (o.state.Running? <==> o.thread.Working? || o.thread.Recording?)
    && (o.state.Finished? <==> o.thread.Signalling? || o.thread.Done?)
    && (o.completion <==> o.thread.Done? || o.state.Aborted?)
    && (o.thread.Returned? ==> o.state.Aborted?)
    && (o.thread.Skipped? ==> o.futureCancelled)
    && (o.callbackRan && o.futureCancelled ==> !o.state.Queued?)
    && (o.state.Aborted? ==> o.callbackRan && o.futureCancelled)
  }

  lemma StepSound(o: Operation, e: Event)
    requires Sound(o)
    ensures Sound(Step(o, e))
    ensures o.completion ==> Step(o, e).completion && Step(o, e).state == o.state && Step(o, e).runs == o.runs
  {
  }

  lemma {:induction false} RunSound(o: Operation, events: seq<Event>)
    requires Sound(o)
    ensures Sound(Run(o, events))
    ensures o.completion ==>
              Run(o, events).completion && Run(o, events).state == o.state && Run(o, events).runs == o.runs
    decreases |events|
  {
    if events != [] {
      StepSound(o, events[0]);
      RunSound(Step(o, events[0]), events[1..]);
    }
  }

  /**
   * In every interleaving the target runs once or never, and once completion
   * is signalled which of the two it is can no longer change: finished after
   * exactly one run, or aborted and never to run at all.
   */
  lemma RunsOnceOrNever(before: seq<Event>, after: seq<Event>)
    requires Run(SUBMITTED, before).completion
    ensures var o := Run(SUBMITTED, before);
            var later := Run(o, after);
            && ((o.state.Finished? && o.runs == 1) || (o.state.Aborted? && o.runs == 0))
            && later.completion && later.state == o.state && later.runs == o.runs
  {
    RunSound(SUBMITTED, before);
    RunSound(Run(SUBMITTED, before), after);
  }

  /** Steps still to come before completion, for a thread and a loop that keep going. */
  function Distance(o: Operation): nat {
    if o.completion then 0
    else match o.thread
      case Waiting => 4
      case Working => 3
      case Recording => 2
      case _ => 1
  }

  /** Whoever is waiting is never forgotten: some step always brings completion closer. */
  lemma SomebodyWillSignal(events: seq<Event>)
    requires !Run(SUBMITTED, events).completion
    ensures exists e :: Distance(Step(Run(SUBMITTED, events), e)) < Distance(Run(SUBMITTED, events))
  {
    RunSound(SUBMITTED, events);
    var o := Run(SUBMITTED, events);
    var e := match o.thread
             case Waiting => PickUp
             case Skipped => Callback
             case Returned => Callback
             case Working => RunTarget
             case Recording => Record
             case _ => Signal;
    assert Distance(Step(o, e)) < Distance(o);
  }

  // ----------------------------------------------------------------- the cleanup loop

  datatype Ending = Going | ReturnedOrRaised | CancelledAtEnd | SubmissionRefused

  /** Every operation submitted so far; all but the last were aborted before they started. */
  datatype Cleanup = Cleanup(operations: seq<Operation>, cancelled: bool, ending: Ending)

  datatype Action =
    | Submit(accepted: bool)
    | Happens(operation: nat, event: Event)   // to any operation, even one given up on
    | CancelCaller
    | Observe                                 // completion was signalled: resubmit or end

  const STARTED := Cleanup([], false, Going)

  predicate Awaiting(c: Cleanup) {
    c.ending.Going? && c.operations != []
    && !(c.operations[|c.operations| - 1].completion && c.operations[|c.operations| - 1].state.Aborted?)
  }

  function Act(c: Cleanup, a: Action): Cleanup {
    match a
    case Submit(accepted) =>
      if !c.ending.Going? || Awaiting(c) then c
      else if accepted then c.(operations := c.operations + [SUBMITTED])
      else c.(ending := SubmissionRefused)
    case Happens(i, e) =>
      if i < |c.operations| then c.(operations := c.operations[i := Step(c.operations[i], e)]) else c
    case CancelCaller => if Awaiting(c) then c.(cancelled := true) else c
    case Observe =>
      if !Awaiting(c) || !c.operations[|c.operations| - 1].completion then c
      else c.(ending := if c.cancelled then CancelledAtEnd else ReturnedOrRaised)
  }

  function Acts(c: Cleanup, actions: seq<Action>): Cleanup
    decreases |actions|
  {
    if actions == [] then c else Acts(Act(c, actions[0]), actions[1..])
  }

  /** How often the cleanup itself has been called, over all submissions. */
  function Abandons(operations: seq<Operation>): nat
    decreases |operations|
  {
    if operations == [] then 0
    else Abandons(operations[..|operations| - 1]) + operations[|operations| - 1].runs
  }

  predicate GivenUp(o: Operation) { Sound(o) && o.completion && o.state.Aborted? }

  predicate Orderly(c: Cleanup) {
    && (forall i :: 0 <= i < |c.operations| ==> Sound(c.operations[i]))
    && (forall i :: 0 <= i < |c.operations| - 1 ==> GivenUp(c.operations[i]))
    && (c.ending.ReturnedOrRaised? || c.ending.CancelledAtEnd? ==>
          c.operations != [] && c.operations[|c.operations| - 1].completion
          && c.operations[|c.operations| - 1].state.Finished?)
    && (c.ending.SubmissionRefused? ==>
          forall i :: 0 <= i < |c.operations| ==> GivenUp(c.operations[i]))
  }

  lemma ActOrderly(c: Cleanup, a: Action)
    requires Orderly(c)
    ensures Orderly(Act(c, a))
  {
    if a.Happens? && a.operation < |c.operations| {
      StepSound(c.operations[a.operation], a.event);
    }
  }

  lemma {:induction false} ActsOrderly(c: Cleanup, actions: seq<Action>)
    requires Orderly(c)
    ensures Orderly(Acts(c, actions))
    decreases |actions|
  {
    if actions != [] {
      ActOrderly(c, actions[0]);
      ActsOrderly(Act(c, actions[0]), actions[1..]);
    }
  }

  lemma {:induction false} GivenUpNeverRan(operations: seq<Operation>)
    requires forall i :: 0 <= i < |operations| ==> GivenUp(operations[i])
    ensures Abandons(operations) == 0
    decreases |operations|
  {
    if operations != [] {
      GivenUpNeverRan(operations[..|operations| - 1]);
    }
  }

  /**
   * The cleanup is called at most once, however often it is resubmitted. When
   * its caller goes on, it has been called exactly once, except if the thread
   * pool refused to take it, and then not at all.
   */
  lemma AbandonsExactlyOnce(actions: seq<Action>)
    ensures var c := Acts(STARTED, actions);
            && Abandons(c.operations) <= 1
            && (!c.ending.Going? ==>
                  (Abandons(c.operations) == 1 <==> !c.ending.SubmissionRefused?))
  {
    ActsOrderly(STARTED, actions);
    var c := Acts(STARTED, actions);
    if c.operations != [] {
      GivenUpNeverRan(c.operations[..|c.operations| - 1]);
    }
  }

  /** A pool that is shutting down does refuse it, and the partial file stays behind. */
  lemma RefusalSkipsCleanup()
    ensures Acts(STARTED, [Submit(false)]).ending.SubmissionRefused?
    ensures Abandons(Acts(STARTED, [Submit(false)]).operations) == 0
  {
    assert [Submit(false)][1..] == [];
    assert Acts(STARTED, [Submit(false)]) == Act(STARTED, Submit(false));
  }
}
