/**
 * The lease under which a healthy receipt becomes a configured entry: who may
 * prove the panel once more, when a release takes effect, and how often the
 * receipt is consumed.
 */
module InstallFinalizer {
  import opened Wrappers
  import opened InstallReceipt
  import opened InstallJobs
  import opened InstallRuns
  import InstallAnswers

  type Owner = string

  datatype Lease = Lease(owner: Owner, verifying: bool, releaseRequested: bool)

  type Leases = map<JobId, Lease>

  /** Grant the lease to an owner who asks for it, unless someone else holds it. */
  function Granted(leases: Leases, id: JobId, owner: Owner): (Leases, bool) {
    if id !in leases then (leases[id := Lease(owner, false, false)], true)
    else (leases, leases[id].owner == owner)
  }

  /** Start verifying, unless someone else holds the lease or a verification is under way. */
  function Begun(leases: Leases, id: JobId, owner: Owner): (Leases, bool) {
    if id !in leases then (leases[id := Lease(owner, true, false)], true)
    else if leases[id].owner != owner || leases[id].verifying then (leases, false)
    else (leases[id := leases[id].(verifying := true)], true)
  }

  function Released(leases: Leases, id: JobId, owner: Owner): Leases {
    if id !in leases || leases[id].owner != owner then leases
    else if leases[id].verifying then leases[id := leases[id].(releaseRequested := true)]
    else leases - {id}
  }

  /** A verification ends, keeping the lease only for a proof nobody has let go of. */
  function Ended(leases: Leases, id: JobId, owner: Owner, keep: bool): Leases
    requires id in leases
  {
    var over := leases[id := leases[id].(verifying := false)];
    if !keep || over[id].releaseRequested then Released(over, id, owner) else over
  }

  /** The executor's finalizer table, as its calls update it. */
  class FinalizerTable {
    var leases: Leases

    constructor ()
      ensures leases == map[]
    {
      leases := map[];
    }

    function Holder(id: JobId): Option<Owner>
      reads this
    {
      if id in leases then Some(leases[id].owner) else None
    }

    /** A verification of this job is in flight. */
    predicate InFlight(id: JobId)
      reads this
    {
      id in leases && leases[id].verifying
    }

    /** A call about one job says nothing about the others. */
    twostate predicate OthersStand(id: JobId)
      reads this
    {
      forall k :: k != id ==> Lookup(leases, k) == Lookup(old(leases), k)
    }

    /**
     * Granted means held, by this owner alone. Asking again neither renews a
     * lease nor takes back a release of it, and never disturbs another's.
     */
    method Acquire(id: JobId, owner: Owner) returns (granted: bool)
      modifies this
      ensures (leases, granted) == Granted(old(leases), id, owner)
      ensures granted <==> Holder(id) == Some(owner)
      ensures Holder(id).Some? && OthersStand(id)
      ensures old(Holder(id)).Some? ==> leases == old(leases)
    {
      if id !in leases {
        leases := leases[id := Lease(owner, false, false)];
        return true;
      }
      return leases[id].owner == owner;
    }

    /**
     * An owner that lets go holds the lease no longer, unless its own
     * verification is in flight: that goes on, and only the wish is noted.
     */
    method Release(id: JobId, owner: Owner)
      modifies this
      ensures leases == Released(old(leases), id, owner)
      ensures InFlight(id) == old(InFlight(id)) && OthersStand(id)
      ensures Holder(id) == Some(owner) ==> InFlight(id) && leases[id].releaseRequested
      ensures old(Holder(id)) != Some(owner) ==> leases == old(leases)
    {
      if id !in leases || leases[id].owner != owner {
        return;
      }
      if leases[id].verifying {
        leases := leases[id := leases[id].(releaseRequested := true)];
        return;
      }
      leases := leases - {id};
    }

    /** Begun means that it is the one verification in flight, and that it is this owner's. */
    method BeginVerification(id: JobId, owner: Owner) returns (begun: bool)
      modifies this
      ensures (leases, begun) == Begun(old(leases), id, owner)
      ensures begun <==> !old(InFlight(id)) && (old(Holder(id)).None? || old(Holder(id)) == Some(owner))
      ensures begun ==> InFlight(id) && Holder(id) == Some(owner) && OthersStand(id)
      ensures !begun ==> leases == old(leases)
    {
      if id !in leases {
        leases := leases[id := Lease(owner, true, false)];
      } else if leases[id].owner != owner || leases[id].verifying {
        return false;
      } else {
        leases := leases[id := leases[id].(verifying := true)];
      }
      return true;
    }

    /** Nothing is in flight any more, and the lease is kept exactly by a proof nobody let go of. */
    method EndVerification(id: JobId, owner: Owner, keep: bool)
      requires InFlight(id) && Holder(id) == Some(owner)
      modifies this
      ensures leases == Ended(old(leases), id, owner, keep)
      ensures !InFlight(id) && OthersStand(id)
      ensures Holder(id) == if keep && !old(leases[id].releaseRequested) then Some(owner) else None
    {
      leases := leases[id := leases[id].(verifying := false)];
      if !keep || leases[id].releaseRequested {
        Release(id, owner);
      }
    }
  }

  /**
   * One owner verifies while it, and another owner, ask for whatever they like:
   * the other one never gets in, and a lease let go of meanwhile is gone at the
   * end, proof or not.
   */
  method VerifyAmong(table: FinalizerTable, id: JobId, owner: Owner, other: Owner, wishes: seq<bool>, keep: bool)
    returns (begun: bool, admitted: bool)
    requires other != owner
    modifies table
    ensures begun ==> !admitted && !table.InFlight(id)
    ensures begun && (!keep || false in wishes) ==> table.Holder(id).None?
    ensures begun && keep && (forall i :: 0 <= i < |wishes| ==> wishes[i]) && old(table.Holder(id)).None? ==>
              table.Holder(id) == Some(owner)
  {
    admitted := false;
    begun := table.BeginVerification(id, owner);
    if !begun {
      return;
    }
    for i := 0 to |wishes|
      invariant table.InFlight(id) && table.Holder(id) == Some(owner) && !admitted
      invariant false in wishes[..i] ==> table.leases[id].releaseRequested
      invariant (forall k :: 0 <= k < i ==> wishes[k]) && old(table.Holder(id)).None? ==>
                  !table.leases[id].releaseRequested
    {
      if !wishes[i] {
        table.Release(id, owner);
      }
      table.Release(id, other);
      var acquired := table.Acquire(id, other);
      var verifying := table.BeginVerification(id, other);
      var twice := table.BeginVerification(id, owner);
      admitted := acquired || verifying || twice;
    }
    assert wishes[..|wishes|] == wishes;
    table.EndVerification(id, owner, keep);
  }

  // -------------------------------------------------------------- concurrent calls

  /** A call that has started and is waiting for the store or the panel. */
  datatype Flight =
    | Reading(id: JobId, owner: Owner)                       // verifying: the receipt is being read
    | Proving(id: JobId, owner: Owner, receipt: Receipt)     // verifying: the panel is being asked
    | Consuming(id: JobId, owner: Owner, receipt: Receipt, entry: string, healthy: bool)
  {
    predicate Verification() { Reading? || Proving? }
  }

  datatype Outcome = Verified | Retry | Drifted

  /** A receipt that became an entry. */
  datatype Claimed = Claimed(id: JobId, entry: string)

  datatype Office = Office(
    sys: System,
    leases: Leases,
    flights: map<nat, Flight>,
    consumed: seq<Claimed>)

  datatype Act =
    | Verify(call: nat, id: JobId, owner: Owner)
    | ReadOn(call: nat, env: Env)
    | Conclude(call: nat, outcome: Outcome, env: Env)
    | Interrupt(call: nat)                                   // cancelled, or an exception
    | LetGo(id: JobId, owner: Owner)
    | Settle(call: nat, id: JobId, owner: Owner, entry: string, healthy: bool, env: Env)
    | Commit(call: nat, env: Env)
    | Elsewhere(event: Event)                                // any use of the store

  function Drop(o: Office, call: nat): Office { o.(flights := o.flights - {call}) }

  function Finish(o: Office, call: nat, keep: bool): Office
    requires call in o.flights
  {
    var f := o.flights[call];
    if f.Verification() && f.id in o.leases
    then Drop(o, call).(leases := Ended(o.leases, f.id, f.owner, keep))
    else Drop(o, call).(leases := Released(o.leases, f.id, f.owner))
  }

  function Asked(o: Office, who: nat, call: Call, env: Env): (Office, Result<Receipt, JobError>)
    requires who in o.sys.managers
  {
    (o.(sys := After(o.sys, who, call, env)),
     Perform(o.sys.disk, o.sys.managers[who], call, env).result)
  }

  /** The step a settled receipt takes: it becomes an entry, or is put aside. */
  function Settlement(f: Flight): Advance
    requires f.Consuming?
  {
    if f.healthy then Advance(Consumed, None, None, None, Some(EntryCreated), None, Some(f.entry))
    else Advance(RecoveryRequired, None, None, None, Some(VerificationRequired),
                 Some("finalization:entry_health_mismatch"), None)
  }

  const DRIFT :=
    Advance(RecoveryRequired, None, None, None, Some(VerificationRequired), Some("health"), None)

  ghost function Acted(o: Office, who: nat, a: Act): Office {
    if a.Elsewhere? then
      if a.event.Crash? then Office(Step(o.sys, a.event), map[], map[], o.consumed)
      else o.(sys := Step(o.sys, a.event))
    else if who !in o.sys.managers then o
    else match a
      case Verify(call, id, owner) =>
        if call in o.flights then o
        else
          var (leases, begun) := Begun(o.leases, id, owner);
          if begun then o.(leases := leases, flights := o.flights[call := Reading(id, owner)]) else o
      case ReadOn(call, env) =>
        if call !in o.flights || !o.flights[call].Reading? then o
        else ReadReceipt(o, who, call, env)
      case Conclude(call, outcome, env) =>
        if call !in o.flights || !o.flights[call].Proving? then o
        else
          var f := o.flights[call];
          (match outcome
           case Verified => Finish(o, call, true)
           case Retry => Finish(o, call, false)
           case Drifted => Finish(Asked(o, who, Move(f.id, f.receipt.revision, DRIFT), env).0, call, false))
      case Interrupt(call) => if call in o.flights then Finish(o, call, false) else o
      case LetGo(id, owner) => o.(leases := Released(o.leases, id, owner))
      case Settle(call, id, owner, entry, healthy, env) =>
        if call in o.flights then o else Acquire(o, who, a)
      case Commit(call, env) =>
        if call !in o.flights || !o.flights[call].Consuming? then o
        else
          var f := o.flights[call];
          var (o1, r) := Asked(o, who, Move(f.id, f.receipt.revision, Settlement(f)), env);
          var o2 := Finish(o1, call, false);
          if r.Success? && f.healthy then o2.(consumed := o2.consumed + [Claimed(f.id, f.entry)]) else o2
  }

  /** The receipt is read under the lease: it must still be waiting, and still be wanted. */
  function ReadReceipt(o: Office, who: nat, call: nat, env: Env): Office
    requires who in o.sys.managers && call in o.flights && o.flights[call].Reading?
  {
    var f := o.flights[call];
    var (o1, r) := Asked(o, who, Read(f.id), env);
    if || r.Failure? || !r.value.phase.HealthyUnclaimed?
       || (f.id in o1.leases && o1.leases[f.id].releaseRequested)
    then Finish(o1, call, false)
    else o1.(flights := o1.flights[call := Proving(f.id, f.owner, r.value)])
  }

  function Acquire(o: Office, who: nat, a: Act): Office
    requires who in o.sys.managers && a.Settle? && a.call !in o.flights
  {
    var (o1, r) := Asked(o, who, Read(a.id), a.env);
    if r.Failure? || !r.value.phase.HealthyUnclaimed? then
      o1.(leases := Released(o1.leases, a.id, a.owner))
    else
      var (leases, granted) := Granted(o1.leases, a.id, a.owner);
      if granted then
        o1.(leases := leases,
            flights := o1.flights[a.call := Consuming(a.id, a.owner, r.value, a.entry, a.healthy)])
      else o1
  }

  ghost function Operated(o: Office, acts: seq<(nat, Act)>): Office
    decreases |acts|
  {
    if acts == [] then o else Operated(Acted(o, acts[0].0, acts[0].1), acts[1..])
  }

  const CLOSED := Office(FRESH_SYSTEM, map[], map[], [])

  // ---------------------------------------------------------------- the invariant

  predicate Verifying(o: Office, call: nat) {
    call in o.flights && o.flights[call].Verification()
  }

  /** Each verification in flight has the lease to itself; a lease that verifies has a flight. */
  ghost predicate Exclusive(o: Office) {
    && (forall c :: Verifying(o, c) ==>
          && o.flights[c].id in o.leases
          && o.leases[o.flights[c].id].owner == o.flights[c].owner
          && o.leases[o.flights[c].id].verifying)
    && (forall b, c :: Verifying(o, b) && Verifying(o, c) && o.flights[b].id == o.flights[c].id
          ==> b == c)
    && (forall id :: id in o.leases && o.leases[id].verifying ==>
          exists c :: Verifying(o, c) && o.flights[c].id == id)
    && (forall id :: id in o.leases && o.leases[id].releaseRequested ==> o.leases[id].verifying)
  }

  lemma AskedSame(o: Office, who: nat, call: Call, env: Env)
    requires who in o.sys.managers
    ensures var o1 := Asked(o, who, call, env).0;
            o1.leases == o.leases && o1.flights == o.flights && o1.consumed == o.consumed
  {
    hide Perform;
  }

  lemma FinishExclusive(o: Office, call: nat, keep: bool)
    requires Exclusive(o) && call in o.flights
    ensures Exclusive(Finish(o, call, keep))
  {
    var o' := Finish(o, call, keep);
    FinishKeepsRest(o, call, keep);
    forall id | id in o'.leases && o'.leases[id].verifying
      ensures exists c :: Verifying(o', c) && o'.flights[c].id == id
    {
      StillFlown(o, call, keep, id);
    }
    hide Finish, Verifying;
  }

  lemma FinishKeepsRest(o: Office, call: nat, keep: bool)
    requires Exclusive(o) && call in o.flights
    ensures var o' := Finish(o, call, keep);
            && (forall c :: Verifying(o', c) <==> Verifying(o, c) && c != call)
            && (forall c :: Verifying(o', c) ==>
                  && o'.flights[c] == o.flights[c] && o.flights[c].id in o'.leases
                  && o'.leases[o.flights[c].id].owner == o.flights[c].owner && o'.leases[o.flights[c].id].verifying)
  {
  }

  lemma StillFlown(o: Office, call: nat, keep: bool, id: JobId)
    requires Exclusive(o) && call in o.flights
    requires var o' := Finish(o, call, keep); id in o'.leases && o'.leases[id].verifying
    ensures var o' := Finish(o, call, keep); exists c :: Verifying(o', c) && o'.flights[c].id == id
  {
    assert id in o.leases && o.leases[id].verifying;
    var c :| Verifying(o, c) && o.flights[c].id == id;
    assert c != call;
    assert Verifying(Finish(o, call, keep), c);
  }

  /** A verification that ends leaves a lease behind only if it is kept and still wanted. */
  lemma FinishEffect(o: Office, call: nat, keep: bool)
    requires Exclusive(o) && Verifying(o, call)
    ensures var f := o.flights[call];
            var o' := Finish(o, call, keep);
            && f.id in o.leases
            && (if keep && !o.leases[f.id].releaseRequested
                then Lookup(o'.leases, f.id) == Some(Lease(f.owner, false, false))
                else f.id !in o'.leases)
  {
  }

  lemma ReleaseExclusive(o: Office, id: JobId, owner: Owner)
    requires Exclusive(o)
    ensures Exclusive(o.(leases := Released(o.leases, id, owner)))
  {
    var o' := o.(leases := Released(o.leases, id, owner));
    assert forall c :: Verifying(o', c) <==> Verifying(o, c);
  }

  lemma BeginExclusive(o: Office, call: nat, id: JobId, owner: Owner)
    requires Exclusive(o) && call !in o.flights && Begun(o.leases, id, owner).1
    ensures Exclusive(o.(leases := Begun(o.leases, id, owner).0,
                         flights := o.flights[call := Reading(id, owner)]))
  {
    var o' := o.(leases := Begun(o.leases, id, owner).0,
                 flights := o.flights[call := Reading(id, owner)]);
    assert forall c :: c != call ==> (Verifying(o', c) <==> Verifying(o, c));
    assert Verifying(o', call);
  }

  lemma ReadExclusive(o: Office, who: nat, call: nat, env: Env)
    requires Exclusive(o) && who in o.sys.managers && call in o.flights && o.flights[call].Reading?
    ensures Exclusive(ReadReceipt(o, who, call, env))
  {
    hide Perform, Asked, Finish, Exclusive;
    var f := o.flights[call];
    AskedSame(o, who, Read(f.id), env);
    var (o1, r) := Asked(o, who, Read(f.id), env);
    SameDesk(o, o1);
    FinishExclusive(o1, call, false);
    var o' := ReadReceipt(o, who, call, env);
    if o' != Finish(o1, call, false) {
      SameVerifiers(o, o');
    }
  }

  /** Who verifies what has not changed. */
  lemma SameVerifiers(o: Office, o': Office)
    requires Exclusive(o) && o'.leases == o.leases
    requires forall c :: Verifying(o', c) <==> Verifying(o, c)
    requires forall c :: Verifying(o, c) && Verifying(o', c) ==>
               o'.flights[c].id == o.flights[c].id && o'.flights[c].owner == o.flights[c].owner
    ensures Exclusive(o')
  {
    hide Verifying;
  }

  lemma SameDesk(o: Office, o1: Office)
    requires Exclusive(o) && o1.leases == o.leases && o1.flights == o.flights
    ensures Exclusive(o1)
  {
    assert forall c :: Verifying(o1, c) <==> Verifying(o, c);
  }

  lemma AcquireExclusive(o: Office, who: nat, a: Act)
    requires Exclusive(o) && who in o.sys.managers && a.Settle? && a.call !in o.flights
    ensures Exclusive(Acquire(o, who, a))
  {
    hide Perform, Asked;
    AskedSame(o, who, Read(a.id), a.env);
    var o1 := Asked(o, who, Read(a.id), a.env).0;
    SameDesk(o, o1);
    hide Exclusive, Granted, Released;
    ReleaseExclusive(o1, a.id, a.owner);
    var r := Asked(o, who, Read(a.id), a.env).1;
    if r.Success? {
      GrantExclusive(o1, a.call, Consuming(a.id, a.owner, r.value, a.entry, a.healthy));
    }
  }

  lemma GrantExclusive(o: Office, call: nat, f: Flight)
    requires Exclusive(o) && call !in o.flights && f.Consuming?
    ensures Exclusive(o.(leases := Granted(o.leases, f.id, f.owner).0, flights := o.flights[call := f]))
  {
    var o' := o.(leases := Granted(o.leases, f.id, f.owner).0, flights := o.flights[call := f]);
    assert forall c :: Verifying(o', c) <==> Verifying(o, c);
    assert forall c :: Verifying(o', c) ==> o'.flights[c] == o.flights[c];
  }

  lemma ActExclusive(o: Office, who: nat, a: Act)
    requires Exclusive(o)
    ensures Exclusive(Acted(o, who, a))
  {
    hide Exclusive, Asked, Finish, ReadReceipt, Acquire, Step, Begun, Released;
    match a {
      case Elsewhere(event) =>
        SameDesk(o, o.(sys := Step(o.sys, event)));
        EmptyDesk(Step(o.sys, event), o.consumed);
      case Verify(call, id, owner) =>
        if call !in o.flights && Begun(o.leases, id, owner).1 { BeginExclusive(o, call, id, owner); }
      case ReadOn(call, env) =>
        if who in o.sys.managers && call in o.flights && o.flights[call].Reading? {
          ReadExclusive(o, who, call, env);
        }
      case LetGo(id, owner) => ReleaseExclusive(o, id, owner);
      case Settle(call, id, owner, entry, healthy, env) =>
        if who in o.sys.managers && call !in o.flights { AcquireExclusive(o, who, a); }
      case _ => if who in o.sys.managers { EndExclusive(o, who, a); }
    }
  }

  lemma EmptyDesk(sys: System, consumed: seq<Claimed>)
    ensures Exclusive(Office(sys, map[], map[], consumed))
  {
    assert forall c :: !Verifying(Office(sys, map[], map[], consumed), c);
  }

  lemma EndExclusive(o: Office, who: nat, a: Act)
    requires Exclusive(o) && who in o.sys.managers
    requires a.Conclude? || a.Interrupt? || a.Commit?
    ensures Exclusive(Acted(o, who, a))
  {
    hide Exclusive, Asked, Finish;
    if a.call in o.flights {
      var f := o.flights[a.call];
      FinishExclusive(o, a.call, true);
      FinishExclusive(o, a.call, false);
      if !a.Interrupt? && !f.Reading? {
        var call := Move(f.id, f.receipt.revision, if f.Consuming? then Settlement(f) else DRIFT);
        AskedSame(o, who, call, a.env);
        var o1 := Asked(o, who, call, a.env).0;
        SameDesk(o, o1);
        FinishExclusive(o1, a.call, false);
        var o2 := Finish(o1, a.call, false);
        if f.Consuming? { SameDesk(o2, o2.(consumed := o2.consumed + [Claimed(f.id, f.entry)])); }
        SameDesk(o2, o2);
      }
    }
  }

  lemma {:induction false} OperatedExclusive(o: Office, acts: seq<(nat, Act)>)
    requires Exclusive(o)
    ensures Exclusive(Operated(o, acts))
    decreases |acts|
  {
    hide Exclusive, Acted;
    if acts != [] {
      ActExclusive(o, acts[0].0, acts[0].1);
      OperatedExclusive(Acted(o, acts[0].0, acts[0].1), acts[1..]);
    }
  }

  // ---------------------------------------------------------------- what it gives

  /**
   * Whatever interleaves, a job has at most one verification in flight. It
   * holds the lease, no second one can begin for any owner, and no other owner
   * can acquire.
   */
  lemma OneVerificationPerJob(acts: seq<(nat, Act)>, b: nat, c: nat, other: Owner)
    requires var o := Operated(CLOSED, acts);
             Verifying(o, b) && Verifying(o, c) && o.flights[b].id == o.flights[c].id
    ensures var o := Operated(CLOSED, acts);
            var f := o.flights[b];
            && b == c
            && !Begun(o.leases, f.id, other).1
            && (Granted(o.leases, f.id, other).1 <==> other == f.owner)
  {
    EmptyDesk(FRESH_SYSTEM, []);
    hide Acted;
    OperatedExclusive(CLOSED, acts);
  }

  /**
   * However a verification stops being in flight, its lease is gone, unless
   * it concluded in a proof and nobody had asked to let go of it meanwhile.
   */
  lemma OnlyAProofKeepsTheLease(o: Office, who: nat, a: Act, c: nat)
    requires Exclusive(o) && Verifying(o, c) && c !in Acted(o, who, a).flights
    ensures var f := o.flights[c];
            var proof := a.Conclude? && a.call == c && a.outcome.Verified? && f.Proving?
                         && !o.leases[f.id].releaseRequested;
            && (f.id in Acted(o, who, a).leases <==> proof)
            && (proof ==> Acted(o, who, a).leases[f.id] == Lease(f.owner, false, false))
  {
    hide Asked, Finish, Step, Exclusive;
    assert o.flights[c].id in o.leases by { HasLease(o, c); }
    FinishRemoves(o, c);
    if !a.Elsewhere? && who in o.sys.managers && !a.LetGo? && !a.Verify? && !a.Settle? && a.call == c {
      FinishEffect(o, c, true);
      FinishEffect(o, c, false);
      var f := o.flights[c];
      if a.Conclude? && f.Proving? {
        var call := Move(f.id, f.receipt.revision, DRIFT);
        AskedSame(o, who, call, a.env);
        SameDesk(o, Asked(o, who, call, a.env).0);
        SameVerifying(o, Asked(o, who, call, a.env).0, c);
        FinishEffect(Asked(o, who, call, a.env).0, c, false);
      }
      if a.ReadOn? && f.Reading? {
        AskedSame(o, who, Read(f.id), a.env);
        SameDesk(o, Asked(o, who, Read(f.id), a.env).0);
        SameVerifying(o, Asked(o, who, Read(f.id), a.env).0, c);
        FinishEffect(Asked(o, who, Read(f.id), a.env).0, c, false);
      }
    } else {
      OthersKeepFlight(o, who, a, c);
    }
  }

  lemma SameVerifying(o: Office, o1: Office, c: nat)
    requires o1.flights == o.flights && Verifying(o, c)
    ensures Verifying(o1, c)
  {
  }

  lemma HasLease(o: Office, c: nat)
    requires Exclusive(o) && Verifying(o, c)
    ensures o.flights[c].id in o.leases
  {
  }

  lemma FinishRemoves(o: Office, c: nat)
    ensures forall b, keep :: b in o.flights && b != c && c in o.flights ==> c in Finish(o, b, keep).flights
  {
  }

  lemma OthersKeepFlight(o: Office, who: nat, a: Act, c: nat)
    requires c in o.flights && c !in Acted(o, who, a).flights
    requires !(!a.Elsewhere? && who in o.sys.managers && !a.LetGo? && !a.Verify? && !a.Settle? && a.call == c)
    ensures a.Elsewhere? && a.event.Crash? && Acted(o, who, a).leases == map[]
  {
    hide Perform, Step;
  }

  /** The verification is in flight, its lease is held, and somebody has asked to let go of it. */
  ghost predicate LettingGo(o: Office, c: nat) {
    && Verifying(o, c)
    && Lookup(o.leases, o.flights[c].id) == Some(Lease(o.flights[c].owner, true, true))
  }

  /**
   * From here on the lease stays for as long as the verification, and not a moment
   * longer; and a verification that has not got as far as asking the panel never does.
   */
  ghost predicate GoneWhenOver(o: Office, acts: seq<(nat, Act)>, c: nat, id: JobId)
    requires c in o.flights
    decreases |acts|
  {
    acts == []
    || (var next := Acted(o, acts[0].0, acts[0].1);
        if c in next.flights
        then && id in next.leases && next.leases[id].releaseRequested
             && next.flights[c] == o.flights[c] && GoneWhenOver(next, acts[1..], c, id)
        else id !in next.leases)
  }

  lemma LettingGoStays(o: Office, who: nat, a: Act, c: nat)
    requires Exclusive(o) && LettingGo(o, c)
    ensures var o' := Acted(o, who, a);
            if c in o'.flights then LettingGo(o', c) && o'.flights[c] == o.flights[c]
            else o.flights[c].id !in o'.leases
  {
    hide Step, Perform;
    if c !in Acted(o, who, a).flights {
      OnlyAProofKeepsTheLease(o, who, a, c);
    } else if !a.Elsewhere? && who in o.sys.managers {
      StillLettingGo(o, who, a, c);
    }
  }

  lemma StillLettingGo(o: Office, who: nat, a: Act, c: nat)
    requires Exclusive(o) && LettingGo(o, c) && who in o.sys.managers && !a.Elsewhere?
    requires c in Acted(o, who, a).flights
    ensures LettingGo(Acted(o, who, a), c)
    ensures Acted(o, who, a).flights[c] == o.flights[c]
  {
    hide Asked;
    match a {
      case Verify(_, id, owner) =>
      case LetGo(id, owner) =>
      case Interrupt(call) => OthersFinish(o, call, false, c);
      case ReadOn(call, env) =>
        if call in o.flights && o.flights[call].Reading? {
          AskedSame(o, who, Read(o.flights[call].id), env);
          var o1 := Asked(o, who, Read(o.flights[call].id), env).0;
          OthersFinish(o1, call, false, c);
        }
      case Settle(call, id, owner, entry, healthy, env) => AskedSame(o, who, Read(id), env);
      case Conclude(_, _, _) => OthersEnd(o, who, a, c);
      case Commit(_, _) => OthersEnd(o, who, a, c);
      case Elsewhere(_) =>
    }
  }

  lemma OthersEnd(o: Office, who: nat, a: Act, c: nat)
    requires Exclusive(o) && LettingGo(o, c) && who in o.sys.managers && (a.Conclude? || a.Commit?)
    requires c in Acted(o, who, a).flights
    ensures LettingGo(Acted(o, who, a), c)
    ensures Acted(o, who, a).flights[c] == o.flights[c]
  {
    hide Asked;
    if a.call in o.flights && !o.flights[a.call].Reading? {
      var f := o.flights[a.call];
      var call := Move(f.id, f.receipt.revision, if f.Consuming? then Settlement(f) else DRIFT);
      AskedSame(o, who, call, a.env);
      OthersFinish(Asked(o, who, call, a.env).0, a.call, false, c);
      OthersFinish(o, a.call, false, c);
      OthersFinish(o, a.call, true, c);
    }
  }

  /** Another call's end never takes the lease from under a verification. */
  lemma OthersFinish(o: Office, call: nat, keep: bool, c: nat)
    requires LettingGo(o, c)
    requires forall b :: Verifying(o, b) && o.flights[b].id == o.flights[c].id ==> b == c
    ensures call in o.flights && call != c ==>
              LettingGo(Finish(o, call, keep), c) && Finish(o, call, keep).flights[c] == o.flights[c]
  {
  }

  lemma {:induction false} LettingGoToTheEnd(o: Office, acts: seq<(nat, Act)>, c: nat)
    requires Exclusive(o) && LettingGo(o, c)
    ensures GoneWhenOver(o, acts, c, o.flights[c].id)
    decreases |acts|
  {
    hide Exclusive, Acted;
    if acts != [] {
      var next := Acted(o, acts[0].0, acts[0].1);
      LettingGoStays(o, acts[0].0, acts[0].1, c);
      ActExclusive(o, acts[0].0, acts[0].1);
      if c in next.flights { LettingGoToTheEnd(next, acts[1..], c); }
    }
  }

  /**
   * A release asked for while the owner's own verification is in flight never
   * opens the door beside it: the lease stays until that verification ends,
   * however it ends, and is gone at that very moment. The panel is not asked
   * any more for an owner that has let go before.
   */
  lemma DeferredReleaseTakesEffect(before: seq<(nat, Act)>, who: nat, c: nat, after: seq<(nat, Act)>)
    requires Verifying(Operated(CLOSED, before), c) && who in Operated(CLOSED, before).sys.managers
    ensures var o := Operated(CLOSED, before);
            var f := o.flights[c];
            var o' := Acted(o, who, LetGo(f.id, f.owner));
            c in o'.flights && o'.flights[c] == f && GoneWhenOver(o', after, c, f.id)
  {
    EmptyDesk(FRESH_SYSTEM, []);
    OperatedExclusive(CLOSED, before);
    var o := Operated(CLOSED, before);
    var f := o.flights[c];
    ActExclusive(o, who, LetGo(f.id, f.owner));
    assert LettingGo(Acted(o, who, LetGo(f.id, f.owner)), c) by { hide Perform, Step, Operated; }
    hide Acted, Exclusive, Operated;
    LettingGoToTheEnd(Acted(o, who, LetGo(f.id, f.owner)), after, c);
  }

  // ------------------------------------------------------------ consumed only once

  predicate Distinct(s: seq<Claimed>) {
    forall i, j :: 0 <= i < j < |s| ==> s[i].id != s[j].id
  }

  /** This is what the store says of a receipt that became this entry, for as long as it says anything. */
  predicate Became(disk: Jobs, c: Claimed) {
    c.id in disk ==> disk[c.id].phase.Consumed? && disk[c.id].consumedEntryId == Some(c.entry)
  }

  /** Every consumed job is recorded as the entry it became. */
  ghost predicate Accounted(o: Office) {
    && Inv(o.sys)
    && Distinct(o.consumed)
    && (forall c :: c in o.consumed ==> c.id in o.sys.seen && Became(o.sys.disk, c))
  }

  lemma AccountedStays(o: Office, o': Office)
    requires Accounted(o) && Inv(o'.sys) && History(o.sys, o'.sys) && o'.consumed == o.consumed
    ensures Accounted(o')
  {
    hide Inv;
    forall c | c in o'.consumed ensures c.id in o'.sys.seen && Became(o'.sys.disk, c) {
      assert c.id in o.sys.seen && Became(o.sys.disk, c);
      assert c.id in o'.sys.disk ==> Evolves(o.sys.disk[c.id], o'.sys.disk[c.id]);
    }
  }

  lemma AskedAccounted(o: Office, who: nat, call: Call, env: Env)
    requires Accounted(o) && who in o.sys.managers && !call.Create?
    ensures Accounted(Asked(o, who, call, env).0)
  {
    hide Inv, History, Perform;
    StepKeepsInv(o.sys, Invoke(who, call, env));
    StepHistory(o.sys, Invoke(who, call, env));
    AccountedStays(o, Asked(o, who, call, env).0);
  }

  lemma CommitAccounted(o: Office, who: nat, a: Act)
    requires Accounted(o) && who in o.sys.managers && a.Commit?
    requires a.call in o.flights && o.flights[a.call].Consuming?
    ensures Accounted(Acted(o, who, a))
  {
    hide Inv, Perform, Finish, Became;
    var f := o.flights[a.call];
    var call := Move(f.id, f.receipt.revision, Settlement(f));
    var (o1, r) := Asked(o, who, call, a.env);
    AskedAccounted(o, who, call, a.env);
    AskedSame(o, who, call, a.env);
    FinishKeepsStore(o1, a.call, false);
    if r.Success? && f.healthy {
      SettledIsNew(o, who, f, a.env);
      assert f.id in o1.sys.seen by { InvSeen(o1.sys); }
    }
  }

  /** What is settled now was not settled before. */
  lemma SettledIsNew(o: Office, who: nat, f: Flight, env: Env)
    requires Accounted(o) && who in o.sys.managers && f.Consuming? && f.healthy
    ensures var (o1, r) := Asked(o, who, Move(f.id, f.receipt.revision, Settlement(f)), env);
            r.Success? ==>
              && f.id in o1.sys.disk && Became(o1.sys.disk, Claimed(f.id, f.entry))
              && forall c :: c in o.consumed ==> c.id != f.id
  {
    hide Inv, Transition;
    if Asked(o, who, Move(f.id, f.receipt.revision, Settlement(f)), env).1.Success? {
      var call := Move(f.id, f.receipt.revision, Settlement(f));
      AnswerIsDurable(o.sys.disk, o.sys.managers[who], call, env);
      InstallAnswers.MoveIsRecorded(o.sys.disk, o.sys.managers[who], f.id, f.receipt.revision, Settlement(f), env);
      NextPhaseAdvances(o.sys.disk[f.id].phase, Consumed);
      forall c | c in o.consumed ensures c.id != f.id {
        assert Became(o.sys.disk, c);
      }
    }
  }

  lemma FinishKeepsStore(o: Office, call: nat, keep: bool)
    requires call in o.flights
    ensures Finish(o, call, keep).sys == o.sys && Finish(o, call, keep).consumed == o.consumed
  {
  }

  lemma ActAccounted(o: Office, who: nat, a: Act)
    requires Accounted(o)
    ensures Accounted(Acted(o, who, a))
  {
    hide Accounted, Asked, Finish, Step;
    match a {
      case Elsewhere(event) => StoreAccounted(o, event);
      case Commit(call, env) =>
        if who in o.sys.managers && call in o.flights && o.flights[call].Consuming? {
          CommitAccounted(o, who, a);
        }
      case _ => if who in o.sys.managers { QuietAccounted(o, who, a); }
    }
  }

  lemma StoreAccounted(o: Office, event: Event)
    requires Accounted(o)
    ensures Accounted(Office(Step(o.sys, event), map[], map[], o.consumed))
    ensures Accounted(o.(sys := Step(o.sys, event)))
  {
    hide Accounted, Step;
    assert Inv(o.sys) by { AccountedInv(o); }
    StepKeepsInv(o.sys, event);
    StepHistory(o.sys, event);
    AccountedStays(o, Office(Step(o.sys, event), map[], map[], o.consumed));
    AccountedStays(o, o.(sys := Step(o.sys, event)));
  }

  lemma AccountedInv(o: Office)
    requires Accounted(o)
    ensures Inv(o.sys) && History(o.sys, o.sys)
  {
    hide Inv, History;
    HistoryReflexive(o.sys);
  }

  lemma QuietAccounted(o: Office, who: nat, a: Act)
    requires Accounted(o) && who in o.sys.managers && !a.Elsewhere? && !a.Commit?
    ensures Accounted(Acted(o, who, a))
  {
    hide Accounted, Asked, Finish;
    AccountedInv(o);
    forall o': Office | o'.sys == o.sys && o'.consumed == o.consumed ensures Accounted(o') {
      AccountedStays(o, o');
    }
    if a.ReadOn? && a.call in o.flights && o.flights[a.call].Reading? {
      AskedQuiet(o, who, Read(o.flights[a.call].id), a.env);
    }
    if a.Settle? { AskedQuiet(o, who, Read(a.id), a.env); }
    if a.Conclude? && a.call in o.flights && o.flights[a.call].Proving? {
      var f := o.flights[a.call];
      AskedQuiet(o, who, Move(f.id, f.receipt.revision, DRIFT), a.env);
    }
    if (a.ReadOn? || a.Conclude? || a.Interrupt?) && a.call in o.flights {
      FinishKeepsStore(o, a.call, true);
      FinishKeepsStore(o, a.call, false);
    }
  }

  lemma AskedQuiet(o: Office, who: nat, call: Call, env: Env)
    requires Accounted(o) && who in o.sys.managers && !call.Create?
    ensures var o1 := Asked(o, who, call, env).0;
            && o1.flights == o.flights
            && (forall o': Office :: o'.sys == o1.sys && o'.consumed == o1.consumed ==> Accounted(o'))
            && (forall c :: c in o1.flights ==>
                  Finish(o1, c, false).sys == o1.sys && Finish(o1, c, false).consumed == o1.consumed)
  {
    hide Accounted, Asked, Finish;
    AskedAccounted(o, who, call, env);
    AskedSame(o, who, call, env);
    var o1 := Asked(o, who, call, env).0;
    AccountedInv(o1);
    forall o': Office | o'.sys == o1.sys && o'.consumed == o1.consumed ensures Accounted(o') {
      AccountedStays(o1, o');
    }
    forall c | c in o1.flights
      ensures Finish(o1, c, false).sys == o1.sys && Finish(o1, c, false).consumed == o1.consumed
    {
      FinishKeepsStore(o1, c, false);
    }
  }

  lemma {:induction false} OperatedAccounted(o: Office, acts: seq<(nat, Act)>)
    requires Accounted(o)
    ensures Accounted(Operated(o, acts))
    decreases |acts|
  {
    hide Accounted, Acted;
    if acts != [] {
      ActAccounted(o, acts[0].0, acts[0].1);
      OperatedAccounted(Acted(o, acts[0].0, acts[0].1), acts[1..]);
    }
  }

  /**
   * However many owners settle a receipt, it becomes an entry at most once; and
   * as long as the store knows it, it is recorded as that entry.
   */
  lemma ConsumedOnce(acts: seq<(nat, Act)>, i: nat, j: nat)
    requires i < |Operated(CLOSED, acts).consumed| && j < |Operated(CLOSED, acts).consumed|
    ensures var o := Operated(CLOSED, acts);
            && (i != j ==> o.consumed[i].id != o.consumed[j].id)
            && Became(o.sys.disk, o.consumed[i])
  {
    FreshSystemInv();
    OperatedAccounted(CLOSED, acts);
    hide Operated, Inv;
    var o := Operated(CLOSED, acts);
    assert o.consumed[i] in o.consumed;
  }

  /** A receipt has become this since the state before. */
  predicate Turned(disk: Jobs, disk': Jobs, id: JobId, p: Phase) {
    id in disk' && disk'[id].phase == p && (id in disk ==> disk[id].phase != p)
  }

  /**
   * Among all the calls, only a settlement consumes a receipt: its own, as the
   * entry it was given, and only with health that matches. A verification
   * consumes nothing.
   */
  lemma OnlyHealthConsumes(o: Office, who: nat, a: Act, id: JobId)
    requires !a.Elsewhere? && Turned(o.sys.disk, Acted(o, who, a).sys.disk, id, Consumed)
    ensures a.Commit? && a.call in o.flights && o.flights[a.call].Consuming?
    ensures var f := o.flights[a.call];
            id == f.id && f.healthy && Acted(o, who, a).sys.disk[id].consumedEntryId == Some(f.entry)
  {
    hide Perform, Acted;
    StoreOf(o, who, a);
    var f := o.flights[a.call];
    var m := o.sys.managers[who];
    var call := Move(f.id, f.receipt.revision, if a.Commit? then Settlement(f) else DRIFT);
    InstallAnswers.CallsWrite(o.sys.disk, m, call, a.env);
    hide Advances;
  }

  /** Which acts reach the store, and how. */
  lemma StoreOf(o: Office, who: nat, a: Act)
    requires !a.Elsewhere?
    ensures var o' := Acted(o, who, a);
            || o'.sys.disk == o.sys.disk
            || (&& who in o.sys.managers && (a.Commit? || a.Conclude?) && a.call in o.flights
                && var f := o.flights[a.call];
                   && (if a.Commit? then f.Consuming? else f.Proving?)
                   && o'.sys.disk == Perform(o.sys.disk, o.sys.managers[who],
                        Move(f.id, f.receipt.revision, if a.Commit? then Settlement(f) else DRIFT), a.env).disk)
  {
    hide Perform, Finish;
    if who in o.sys.managers {
      if a.ReadOn? && a.call in o.flights && o.flights[a.call].Reading? {
        ReadKeepsStore(o, who, Read(o.flights[a.call].id), a.env);
      }
      if a.Settle? { ReadKeepsStore(o, who, Read(a.id), a.env); }
      FinishesKeepStore();
    }
  }

  lemma FinishesKeepStore()
    ensures forall o: Office, call, keep :: call in o.flights ==> Finish(o, call, keep).sys == o.sys
  {
  }

  lemma ReadKeepsStore(o: Office, who: nat, call: Call, env: Env)
    requires who in o.sys.managers && call.Read?
    ensures Asked(o, who, call, env).0.sys.disk == o.sys.disk
  {
    hide LicensedCall, ClaimsStep;
    BarrierEffect(o.sys.disk, o.sys.managers[who], call, env);
    hide Perform;
  }

  /**
   * A settlement that succeeds is recorded as what the health said: the entry
   * it was given, or set aside with the reason.
   */
  lemma SettlementIsRecorded(o: Office, who: nat, a: Act)
    requires who in o.sys.managers && a.Commit? && a.call in o.flights && o.flights[a.call].Consuming?
    requires var f := o.flights[a.call];
             Asked(o, who, Move(f.id, f.receipt.revision, Settlement(f)), a.env).1.Success?
    ensures var f := o.flights[a.call];
            var o' := Acted(o, who, a);
            && f.id in o'.sys.disk
            && (if f.healthy
                then Became(o'.sys.disk, Claimed(f.id, f.entry)) && Claimed(f.id, f.entry) in o'.consumed
                else o'.sys.disk[f.id].phase.RecoveryRequired? && o'.consumed == o.consumed
                     && o'.sys.disk[f.id].resultCode == Some(VerificationRequired)
                     && o'.sys.disk[f.id].consumedEntryId.None?)
            && a.call !in o'.flights
  {
    hide Finish, Transition;
    var f := o.flights[a.call];
    var call := Move(f.id, f.receipt.revision, Settlement(f));
    InstallAnswers.MoveIsRecorded(o.sys.disk, o.sys.managers[who], f.id, f.receipt.revision, Settlement(f), a.env);
    AskedSame(o, who, call, a.env);
    var o1 := Asked(o, who, call, a.env).0;
    FinishDrops(o1, a.call);
  }

  /**
   * What a verification leaves behind: a proof and a retry write nothing, and a
   * drift that is recorded sets the receipt aside.
   */
  lemma VerificationsRecord(o: Office, who: nat, a: Act)
    requires who in o.sys.managers && a.Conclude? && a.call in o.flights && o.flights[a.call].Proving?
    ensures var f := o.flights[a.call];
            var o' := Acted(o, who, a);
            && (!a.outcome.Drifted? ==> o'.sys == o.sys)
            && (a.outcome.Drifted? && Asked(o, who, Move(f.id, f.receipt.revision, DRIFT), a.env).1.Success? ==>
                  && f.id in o'.sys.disk && o'.sys.disk[f.id].phase.RecoveryRequired?
                  && o'.sys.disk[f.id].resultCode == Some(VerificationRequired))
            && a.call !in o'.flights
  {
    hide Finish, Transition;
    var f := o.flights[a.call];
    var call := Move(f.id, f.receipt.revision, DRIFT);
    FinishesKeepStore();
    if Asked(o, who, call, a.env).1.Success? {
      InstallAnswers.MoveIsRecorded(o.sys.disk, o.sys.managers[who], f.id, f.receipt.revision, DRIFT, a.env);
    }
    AskedSame(o, who, call, a.env);
    FinishDrops(Asked(o, who, call, a.env).0, a.call);
    FinishesDrop(o, a.call);
  }

  lemma FinishesDrop(o: Office, call: nat)
    requires call in o.flights
    ensures call !in Finish(o, call, true).flights && call !in Finish(o, call, false).flights
  {
  }

  lemma FinishDrops(o: Office, call: nat)
    requires call in o.flights
    ensures var o' := Finish(o, call, false);
            o'.sys == o.sys && o'.consumed == o.consumed && call !in o'.flights
  {
  }

  /** Whoever starts to settle a receipt holds its lease; while somebody else does, nothing starts, and he keeps it. */
  lemma SettlersHoldTheLease(o: Office, who: nat, a: Act)
    requires who in o.sys.managers && a.Settle? && a.call !in o.flights
    ensures var o' := Acted(o, who, a);
            && o'.consumed == o.consumed
            && (a.call in o'.flights ==> a.id in o'.leases && o'.leases[a.id].owner == a.owner)
            && (a.id in o.leases && o.leases[a.id].owner != a.owner ==>
                  a.call !in o'.flights && o'.leases == o.leases)
            && (forall id :: id != a.id ==> Lookup(o'.leases, id) == Lookup(o.leases, id))
  {
    hide Perform;
  }

  /** However a settlement ends, its owner holds the lease no longer, unless a verification of its own is in flight. */
  lemma SettlementsLetGo(o: Office, who: nat, a: Act)
    requires who in o.sys.managers && (a.Commit? || a.Interrupt?)
    requires a.call in o.flights && o.flights[a.call].Consuming?
    ensures var f := o.flights[a.call];
            var o' := Acted(o, who, a);
            && a.call !in o'.flights
            && (f.id in o'.leases && o'.leases[f.id].owner == f.owner ==>
                  o'.leases[f.id].verifying && o'.leases[f.id].releaseRequested)
            && (f.id in o.leases && o.leases[f.id].owner != f.owner ==> o'.leases == o.leases)
            && (forall id :: id != f.id ==> Lookup(o'.leases, id) == Lookup(o.leases, id))
  {
    hide Perform;
  }

  /** The panel is proved, and a receipt settled, only on a receipt that waits to be claimed. */
  ghost predicate OnlyWaiting(o: Office) {
    forall c :: c in o.flights && !o.flights[c].Reading? ==> o.flights[c].receipt.phase.HealthyUnclaimed?
  }

  lemma ActWaits(o: Office, who: nat, a: Act)
    requires OnlyWaiting(o)
    ensures OnlyWaiting(Acted(o, who, a))
  {
    hide Perform, After, Step, Ended, Released, Granted, Begun;
  }

  lemma {:induction false} OnlyHealthyReceiptsSettle(acts: seq<(nat, Act)>, o: Office)
    requires OnlyWaiting(o)
    ensures OnlyWaiting(Operated(o, acts))
    decreases |acts|
  {
    hide Acted, OnlyWaiting;
    if acts != [] {
      ActWaits(o, acts[0].0, acts[0].1);
      OnlyHealthyReceiptsSettle(acts[1..], Acted(o, acts[0].0, acts[0].1));
    }
  }
}
