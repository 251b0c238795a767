/**
 * The bundle cache as the integration keeps it: an object whose fields change
 * between the points where it waits.
 */
module BrowserReleaseService {
  import opened Wrappers
  import opened BrowserReleaseCache

  class ReleaseCache {
    var entries: Entries
    var activity: Activity
    var initialized: bool
    var closed: bool
    var failed: bool
    // Its surroundings: the clock, the directory, and the leases that are out.
    var now: int
    var files: set<Id>
    var held: multiset<Id>

    constructor (files: set<Id>)
      ensures State() == Cold(files) && Valid()
    {
      entries, activity, initialized, closed, failed := map[], Idle, false, false, false;
      now, held := 0, multiset{};
      this.files := files;
      new;
      ColdSound(files);
    }

    function State(): Cache
      reads this
    {
      Cache(entries, activity, initialized, closed, failed, now, files, held)
    }

    ghost predicate Valid()
      reads this
    {
      Sound(State())
    }

    /** What every call leaves alone: no lease loses its bundle, and a failure is for good. */
    twostate predicate Keeps()
      reads this
    {
      && Valid()
      && (forall id :: id in held ==> id in entries && id in files && Cleaning(State()) != Some(id))
      && (old(failed) ==> failed)
    }

    /** One request at a time, and none of a cache that is closed or has failed. */
    method StartPreparing(user: User, order: seq<Id>) returns (started: bool)
      requires Valid() && Lists(order, entries)
      modifies this`activity
      ensures State() == Happened(old(State()), Prepare(user, order)) && Keeps()
      ensures started <==> !failed && !closed && old(activity).Idle?
      ensures started <==> activity != old(activity)
    {
      Stays(State(), Prepare(user, order));
      started := !failed && !closed && activity.Idle?;
      if started {
        activity := if initialized then Reaping(ForPrepare(user), order, None) else Reconciling(user);
      }
    }

    /** The first preparation has removed what an earlier process left, or has not. */
    method FinishReconciling(ok: bool, cancelled: bool, left: set<Id>, order: seq<Id>)
      requires Valid() && activity.Reconciling? && Lists(order, entries)
      modifies this`files, this`initialized, this`failed, this`activity
      ensures State() == Happened(old(State()), Reconciled(ok, cancelled, left, order)) && Keeps()
      ensures if ok then files == {} else failed && files <= old(files)
    {
      Stays(State(), Reconciled(ok, cancelled, left, order));
      if !ok {
        files, failed, activity := files * left, true, Idle;
        return;
      }
      files := {};
      if cancelled {
        activity := Idle;
        return;
      }
      initialized, activity := true, Reaping(ForPrepare(activity.user), order, None);
    }

    /** Mark an entry, if there is one, as on its way out. */
    method Retire(id: Id)
      modifies this`entries
      ensures entries == Retired(old(entries), id)
    {
      if id in entries {
        entries := entries[id := entries[id].(retiring := true)];
      }
    }

    /** With no slot free, the least useful idle entry is evicted first; with none idle, give up. */
    method FindRoom(user: User, cancelled: bool, token: Id) returns (victim: Option<Id>)
      modifies this`entries, this`activity
      ensures Victim(old(entries), victim)
      ensures State() == MakeRoom(old(State()), user, cancelled, victim, token)
    {
      victim := OldestIdle(entries);
      activity := Idle;
      if cancelled {
        return;
      }
      if |entries| < CAPACITY {
        activity := Downloading(user, token);
      } else if victim.Some? {
        Retire(victim.value);
        activity := Evicting(user, victim.value);
      }
    }

    /** One turn of the loop over the entries. */
    method Reap(cancelled: bool, token: Id) returns (victim: Option<Id>)
      requires Valid() && activity.Reaping? && activity.cleaning.None? && Unused(State(), token)
      modifies this`entries, this`activity
      ensures State() == Happened(old(State()), Event.Reap(cancelled, victim, token)) && Keeps()
      ensures forall id :: id in old(entries) && !old(entries)[id].retiring ==>
                id in entries && (entries[id].retiring ==> Due(old(State()), id) && Cleaning(State()) == Some(id))
      ensures old(activity.todo) != [] ==>
                var id := old(activity.todo[0]);
                (Cleaning(State()) == Some(id)
                 <==> id in old(entries) && old(entries)[id].leases == 0
                      && (closed || old(entries)[id].expires <= now))
    {
      hide Sound, Happened, MakeRoom, Victim, Cleaning, Due;
      ghost var before := State();
      if activity.todo == [] && activity.purpose.ForPrepare? {
        var user := activity.purpose.user;
        activity := Idle;
        assert State() == before.(activity := Idle);
        victim := FindRoom(user, cancelled, token);
      } else {
        victim := OldestIdle(entries);
        TakeNext(cancelled, victim, token);
      }
      assert State() == ReapTurn(before, cancelled, victim, token);
      TurnRetires(before, cancelled, victim, token);
      ReapIs(before, cancelled, victim, token);
      Stays(before, Event.Reap(cancelled, victim, token));
    }

    /** The loop is over, or looks at its next entry. */
    method TakeNext(ghost cancelled: bool, ghost victim: Option<Id>, ghost token: Id)
      requires activity.Reaping? && activity.cleaning.None? && !(activity.todo == [] && activity.purpose.ForPrepare?)
      modifies this`entries, this`activity
      ensures State() == ReapTurn(old(State()), cancelled, victim, token)
    {
      if activity.todo == [] {
        activity := Idle;
        return;
      }
      var id := activity.todo[0];
      if id in entries && entries[id].leases == 0 && (closed || entries[id].expires <= now) {
        Retire(id);
        activity := activity.(cleaning := Some(id));
      } else {
        activity := activity.(todo := activity.todo[1..]);
      }
    }

    /** An entry leaves the table once its file is gone, and nobody had a lease on it. */
    method FinishCleaning(ok: bool)
      requires Valid() && activity.Reaping? && activity.cleaning.Some?
      requires ok ==> activity.cleaning.value !in files
      modifies this`entries, this`failed, this`activity
      ensures State() == Happened(old(State()), Cleaned(ok)) && Keeps()
      ensures var id := old(activity.cleaning.value);
              id !in held && (if ok then id !in entries else failed && entries == old(entries))
    {
      hide Sound, Happened, Cleaning;
      Stays(State(), Cleaned(ok));
      CleanedFacts(State(), ok);
      if !ok {
        failed, activity := true, Idle;
        return;
      }
      entries := entries - {activity.cleaning.value};
      activity := activity.(todo := if activity.todo == [] then [] else activity.todo[1..], cleaning := None);
    }

    /** The evicted entry makes room for the download that waited for it, or for nobody. */
    method FinishEvicting(ok: bool, cancelled: bool, token: Id)
      requires Valid() && activity.Evicting? && Unused(State(), token) && (ok ==> activity.id !in files)
      modifies this`entries, this`failed, this`activity
      ensures State() == Happened(old(State()), Evicted(ok, cancelled, token)) && Keeps()
      ensures var id := old(activity.id);
              id !in held && (if ok then id !in entries else failed && entries == old(entries))
      ensures ok && !cancelled ==> activity == Downloading(old(activity.user), token) && |entries| < CAPACITY
    {
      hide Sound;
      Stays(State(), Evicted(ok, cancelled, token));
      Untaken(State());
      if !ok {
        failed, activity := true, Idle;
        return;
      }
      RemovedSize(entries, activity.id);
      entries := entries - {activity.id};
      if !cancelled && |entries| < CAPACITY {
        activity := Downloading(activity.user, token);
      } else {
        activity := Idle;
      }
    }

    /** A download that ends well fills its slot; any other ending leaves nothing to lease. */
    method FinishDownload(ok: bool, expires: int)
      requires Valid() && activity.Downloading? && (ok ==> activity.reservation in files)
      modifies this`entries, this`activity
      ensures State() == Happened(old(State()), Downloaded(ok, expires)) && Keeps()
      ensures |entries| <= CAPACITY
      ensures var id := old(activity.reservation);
              && id !in old(entries) && (id in entries <==> ok)
              && (ok ==> id in files && entries[id] == Entry(old(activity.user), expires, 0, false, false))
    {
      hide Sound;
      Stays(State(), Downloaded(ok, expires));
      Shape(State());
      if ok {
        entries := entries[activity.reservation := Entry(activity.user, expires, 0, false, false)];
        activity := Idle;
      } else {
        activity := Discarding(activity.reservation);
      }
      Shape(State());
    }

    method FinishDiscarding(ok: bool)
      requires Valid() && activity.Discarding? && (ok ==> activity.reservation !in files)
      modifies this`failed, this`activity
      ensures State() == Happened(old(State()), Discarded(ok)) && Keeps()
      ensures activity.Idle? && (!ok ==> failed)
    {
      hide Sound;
      Stays(State(), Discarded(ok));
      failed, activity := failed || !ok, Idle;
    }

    /** A grant pins the user's own, unexpired bundle; a failed or closed cache grants nothing. */
    method Lease(user: User, id: Id) returns (granted: bool)
      requires Valid()
      modifies this`entries, this`held
      ensures State() == Happened(old(State()), Event.Lease(user, id)) && Keeps()
      ensures held == if granted then old(held) + multiset{id} else old(held)
      ensures failed || closed ==> !granted
      ensures granted <==> && !failed && !closed && id in old(entries) && !old(entries)[id].retiring
                           && old(entries)[id].user == user && old(entries)[id].expires > now
      ensures granted ==> && id in files && entries.Keys == old(entries).Keys
                          && entries[id].leases == old(entries)[id].leases + 1 && entries[id].served
                          && forall k :: k in entries && k != id ==> entries[k] == old(entries)[k]
      ensures !granted ==> entries == old(entries)
    {
      hide Sound;
      Stays(State(), Event.Lease(user, id));
      granted := false;
      if !failed && !closed && id in entries && !entries[id].retiring && entries[id].user == user
         && entries[id].expires > now
      {
        entries := entries[id := entries[id].(leases := entries[id].leases + 1, served := true)];
        held := held + multiset{id};
        granted := true;
      }
    }

    /** A lease ends; whoever ends it tidies up, unless somebody is busy already. */
    method EndLease(id: Id, order: seq<Id>)
      requires Valid() && id in held && Lists(order, entries)
      modifies this`entries, this`held, this`activity
      ensures State() == Happened(old(State()), Event.EndLease(id, order)) && Keeps()
      ensures held == old(held) - multiset{id} && entries.Keys == old(entries.Keys)
      ensures !activity.Idle?
    {
      hide Sound, Happened, Cleaning, Lists;
      ghost var before := State();
      LeaseEndedFacts(before, id, order);
      Stays(before, Event.EndLease(id, order));
      Uncount(id);
      if activity.Idle? {
        activity := Reaping(AfterLease, order, None);
      }
    }

    method Uncount(id: Id)
      requires id in entries && entries[id].leases > 0
      modifies this`entries, this`held
      ensures entries == old(entries)[id := old(entries)[id].(leases := old(entries)[id].leases - 1)]
      ensures held == old(held) - multiset{id}
    {
      entries := entries[id := entries[id].(leases := entries[id].leases - 1)];
      held := held - multiset{id};
    }

    /** Closing is refused while somebody is busy; from then on nothing is granted. */
    method Close(order: seq<Id>) returns (accepted: bool)
      requires Valid() && Lists(order, entries)
      modifies this`closed, this`activity
      ensures State() == Happened(old(State()), Event.Close(order)) && Keeps()
      ensures accepted <==> old(activity).Idle?
      ensures if accepted then closed && activity.Reaping? else closed == old(closed)
    {
      hide Sound;
      Stays(State(), Event.Close(order));
      accepted := activity.Idle?;
      if accepted {
        closed := true;
        activity := Reaping(ForClose, order, None);
      }
    }
  }

  /** What every event keeps, in the terms of one state and the next. */
  lemma Stays(c: Cache, e: Event)
    requires Sound(c)
    ensures var c' := Happened(c, e);
            && Sound(c') && (c.failed ==> c'.failed)
            && forall id :: id in c'.held ==> id in c'.entries && id in c'.files && Cleaning(c') != Some(id)
  {
    HappenedSound(c, e);
    FailureStays(c, e);
    var c' := Happened(c, e);
    hide Happened, ShapeSound;
    forall id | id in c'.held ensures id in c'.entries && id in c'.files && Cleaning(c') != Some(id) {
      assert IdSound(c', id);
    }
  }

  /** A turn of the loop retires what is due, one entry at a time; looking at an entry it judges it exactly. */
  lemma TurnRetires(c: Cache, cancelled: bool, victim: Option<Id>, token: Id)
    requires c.activity.Reaping? && c.activity.cleaning.None? && Victim(c.entries, victim)
    ensures var c' := ReapTurn(c, cancelled, victim, token);
            && (forall id :: id in c.entries && !c.entries[id].retiring ==>
                  id in c'.entries && (c'.entries[id].retiring ==> Due(c, id) && Cleaning(c') == Some(id)))
            && (c.activity.todo != [] ==>
                  var id := c.activity.todo[0];
                  (Cleaning(c') == Some(id)
                   <==> id in c.entries && c.entries[id].leases == 0 && (c.closed || c.entries[id].expires <= c.now)))
  {
  }

  lemma ReapIs(c: Cache, cancelled: bool, victim: Option<Id>, token: Id)
    requires c.activity.Reaping? && c.activity.cleaning.None? && Victim(c.entries, victim) && Unused(c, token)
    ensures Happened(c, Event.Reap(cancelled, victim, token)) == ReapTurn(c, cancelled, victim, token)
  {
    hide ReapTurn, Victim;
  }

  lemma CleanedFacts(c: Cache, ok: bool)
    requires Sound(c) && c.activity.Reaping? && c.activity.cleaning.Some?
    requires ok ==> c.activity.cleaning.value !in c.files
    ensures c.activity.cleaning.value !in c.held
    ensures Happened(c, Cleaned(ok))
            == if !ok then c.(failed := true, activity := Idle)
               else c.(entries := c.entries - {c.activity.cleaning.value},
                       activity := c.activity.(todo := if c.activity.todo == [] then [] else c.activity.todo[1..],
                                               cleaning := None))
  {
    hide Sound;
    Untaken(c);
  }

  lemma LeaseEndedFacts(c: Cache, id: Id, order: seq<Id>)
    requires Sound(c) && id in c.held && Lists(order, c.entries)
    ensures id in c.entries && c.entries[id].leases > 0
    ensures var entries := c.entries[id := c.entries[id].(leases := c.entries[id].leases - 1)];
            && entries.Keys == c.entries.Keys
            && Happened(c, Event.EndLease(id, order))
               == Cache(entries, if c.activity.Idle? then Reaping(AfterLease, order, None) else c.activity,
                        c.initialized, c.closed, c.failed, c.now, c.files, c.held - multiset{id})
  {
    hide ReapTurn, Victim, MakeRoom, Lists, Cleaning, Sound;
    Counted(c, id);
  }

  lemma FailureStays(c: Cache, e: Event)
    ensures c.failed ==> Happened(c, e).failed
  {
    hide Victim, Lists, Unused, Cleaning, Retired, MakeRoom, ReapTurn;
    match e {
      case Reap(cancelled, victim, token) =>
        if c.activity.Reaping? && c.activity.cleaning.None? { TurnFails(c, cancelled, victim, token); }
      case Evicted(_, cancelled, token) =>
        if c.activity.Evicting? {
          var gone := c.(entries := c.entries - {c.activity.id}, activity := Idle);
          RoomFails(gone, c.activity.user, cancelled, None, token);
        }
      case _ =>
    }
  }

  lemma RoomFails(c: Cache, user: User, cancelled: bool, victim: Option<Id>, token: Id)
    ensures MakeRoom(c, user, cancelled, victim, token).failed == c.failed
  {
  }

  lemma TurnFails(c: Cache, cancelled: bool, victim: Option<Id>, token: Id)
    requires c.activity.Reaping? && c.activity.cleaning.None?
    ensures ReapTurn(c, cancelled, victim, token).failed == c.failed
  {
  }

  /** What is being cleaned has no lease. */
  lemma Untaken(c: Cache)
    requires Sound(c)
    ensures Cleaning(c).Some? ==> Cleaning(c).value !in c.held
    ensures c.activity.Evicting? ==> c.activity.id in c.entries && |c.entries| <= CAPACITY
  {
    if Cleaning(c).Some? { assert IdSound(c, Cleaning(c).value); }
  }

  lemma Shape(c: Cache)
    requires Sound(c)
    ensures |c.entries| <= CAPACITY
    ensures c.activity.Downloading? ==> c.activity.reservation !in c.entries
  {
    hide IdSound;
  }

  lemma Counted(c: Cache, id: Id)
    requires Sound(c) && id in c.held
    ensures id in c.entries && c.entries[id].leases > 0
  {
    assert IdSound(c, id);
  }
}
