/**
 * The manager as the object it is: one per caller, over a durable store they
 * all share under one lock. Its methods change the cache, the claims and the
 * store in place, exactly as the operations on values say.
 */
module InstallManager {
  import opened Wrappers
  import opened InstallReceipt
  import opened InstallJobs
  import InstallAnswers

  // ---------------------------------------------------------------- reading a document

  datatype Entry = Entry(id: JobId, receipt: Receipt)

  function MapOf(entries: seq<Entry>): Jobs
    decreases |entries|
  {
    if entries == [] then map[]
    else MapOf(entries[..|entries| - 1])[entries[|entries| - 1].id := entries[|entries| - 1].receipt]
  }

  predicate DistinctIds(entries: seq<Entry>) {
    forall i, j :: 0 <= i < j < |entries| ==> entries[i].id != entries[j].id
  }

  lemma {:induction false} MapOfKeys(entries: seq<Entry>)
    ensures forall id :: id in MapOf(entries) <==> exists i :: 0 <= i < |entries| && entries[i].id == id
    decreases |entries|
  {
    if entries != [] {
      var rest := entries[..|entries| - 1];
      MapOfKeys(rest);
      forall id | id in MapOf(entries)
        ensures exists i :: 0 <= i < |entries| && entries[i].id == id
      {
        if id == entries[|entries| - 1].id {
          assert entries[|entries| - 1].id == id;
        } else {
          assert id in MapOf(rest);
          var i :| 0 <= i < |rest| && rest[i].id == id;
          assert entries[i].id == id;
        }
      }
      forall i | 0 <= i < |entries|
        ensures entries[i].id in MapOf(entries)
      {
        if i < |rest| { assert rest[i] == entries[i]; }
      }
    }
  }

  /** One more entry under a new id. */
  lemma MapOfExtends(entries: seq<Entry>, i: nat)
    requires i < |entries|
    ensures MapOf(entries[..i + 1]) == MapOf(entries[..i])[entries[i].id := entries[i].receipt]
  {
    assert entries[..i + 1][..i] == entries[..i];
  }

  lemma {:induction false} MapOfSize(entries: seq<Entry>)
    requires DistinctIds(entries)
    ensures |MapOf(entries)| == |entries|
    decreases |entries|
  {
    if entries != [] {
      var rest := entries[..|entries| - 1];
      MapOfSize(rest);
      MapOfKeys(rest);
      assert entries[|entries| - 1].id !in MapOf(rest);
      assert MapOf(entries).Keys == MapOf(rest).Keys + {entries[|entries| - 1].id};
    }
  }

  /** The values a field takes over the active receipts of a map. */
  function ActiveTargets<T(!new)>(jobs: Jobs, field: Target -> T): set<T> {
    set id | id in ActiveIds(jobs) :: field(jobs[id].target)
  }

  lemma AddActive<T(!new)>(jobs: Jobs, id: JobId, r: Receipt, field: Target -> T)
    requires id !in jobs
    ensures ActiveTargets(jobs[id := r], field)
            == ActiveTargets(jobs, field) + (if r.IsTerminal() then {} else {field(r.target)})
  {
    var next := jobs[id := r];
    assert forall k :: k in ActiveIds(next) <==> k in ActiveIds(jobs) || (k == id && !r.IsTerminal());
    forall x | x in ActiveTargets(jobs, field) ensures x in ActiveTargets(next, field) {
      var k :| k in ActiveIds(jobs) && field(jobs[k].target) == x;
      assert k in ActiveIds(next) && next[k] == jobs[k];
    }
    if !r.IsTerminal() { assert id in ActiveIds(next); }
  }

  const ADDRESS := (t: Target) => t.address
  const PIN := (t: Target) => t.pinnedAddress
  const SERIAL := (t: Target) => t.adbSerial

  lemma AddCounts(jobs: Jobs, id: JobId, r: Receipt)
    requires id !in jobs
    ensures |ActiveIds(jobs[id := r])| == |ActiveIds(jobs)| + (if r.IsTerminal() then 0 else 1)
    ensures |TerminalIds(jobs[id := r])| == |TerminalIds(jobs)| + (if r.IsTerminal() then 1 else 0)
  {
    AddIds(jobs, id, r);
    hide ActiveIds, TerminalIds;
  }

  lemma AddIds(jobs: Jobs, id: JobId, r: Receipt)
    requires id !in jobs
    ensures ActiveIds(jobs[id := r]) == ActiveIds(jobs) + (if r.IsTerminal() then {} else {id})
    ensures TerminalIds(jobs[id := r]) == TerminalIds(jobs) + (if r.IsTerminal() then {id} else {})
    ensures id !in ActiveIds(jobs) && id !in TerminalIds(jobs)
  {
  }

  /** Whether a receipt's target meets that of an active job. */
  predicate Clashes(jobs: Jobs, r: Receipt) {
    || r.target.address in ActiveTargets(jobs, ADDRESS)
    || r.target.pinnedAddress in ActiveTargets(jobs, PIN)
    || r.target.adbSerial in ActiveTargets(jobs, SERIAL)
  }

  lemma ClashesMeans(jobs: Jobs, r: Receipt)
    ensures Clashes(jobs, r) <==> exists k :: k in ActiveIds(jobs) && Collide(jobs[k].target, r.target)
  {
    if r.target.address in ActiveTargets(jobs, ADDRESS) {
      var k :| k in ActiveIds(jobs) && jobs[k].target.address == r.target.address;
      assert Collide(jobs[k].target, r.target);
    } else if r.target.pinnedAddress in ActiveTargets(jobs, PIN) {
      var k :| k in ActiveIds(jobs) && jobs[k].target.pinnedAddress == r.target.pinnedAddress;
      assert Collide(jobs[k].target, r.target);
    } else if r.target.adbSerial in ActiveTargets(jobs, SERIAL) {
      var k :| k in ActiveIds(jobs) && jobs[k].target.adbSerial == r.target.adbSerial;
      assert Collide(jobs[k].target, r.target);
    }
    forall k | k in ActiveIds(jobs) && Collide(jobs[k].target, r.target)
      ensures Clashes(jobs, r)
    {
      assert ADDRESS(jobs[k].target) in ActiveTargets(jobs, ADDRESS);
      assert PIN(jobs[k].target) in ActiveTargets(jobs, PIN);
      assert SERIAL(jobs[k].target) in ActiveTargets(jobs, SERIAL);
    }
  }

  lemma AddKeepsDistinct(jobs: Jobs, id: JobId, r: Receipt)
    requires id !in jobs
    ensures ActiveDistinct(jobs[id := r]) <==> ActiveDistinct(jobs) && (r.IsTerminal() || !Clashes(jobs, r))
  {
    hide Clashes;
    ClashesMeans(jobs, r);
    var next := jobs[id := r];
    assert forall k :: k in ActiveIds(next) <==> k in ActiveIds(jobs) || (k == id && !r.IsTerminal());
    assert forall a, b :: Collide(a, b) <==> Collide(b, a);
    hide Collide, ActiveIds;
    assert forall k :: k in ActiveIds(jobs) ==> next[k] == jobs[k] by { ActiveKnown(jobs); }
    if ActiveDistinct(next) && !r.IsTerminal() {
      assert forall k :: k in ActiveIds(jobs) ==> k != id && !Collide(next[k].target, next[id].target) by {
        ActiveKnown(jobs);
      }
    }
  }

  lemma ActiveKnown(jobs: Jobs)
    ensures ActiveIds(jobs) <= jobs.Keys
  {
  }

  /** A smaller document than an accepted one is accepted up to its counts. */
  lemma {:induction false} PrefixAccepted(entries: seq<Entry>, i: nat)
    requires i <= |entries| && DistinctIds(entries)
    requires AllValid(MapOf(entries)) && ActiveDistinct(MapOf(entries))
    ensures AllValid(MapOf(entries[..i])) && ActiveDistinct(MapOf(entries[..i]))
    decreases |entries| - i
  {
    hide Valid, ActiveDistinct;
    if i == |entries| {
      assert entries[..i] == entries;
    } else {
      PrefixAccepted(entries, i + 1);
      MapOfExtends(entries, i);
      NewId(entries, i);
      AddKeepsDistinct(MapOf(entries[..i]), entries[i].id, entries[i].receipt);
      var next := MapOf(entries[..i + 1]);
      assert forall k :: k in MapOf(entries[..i]) ==> k in next && next[k] == MapOf(entries[..i])[k];
    }
  }

  lemma NewId(entries: seq<Entry>, i: nat)
    requires i < |entries| && DistinctIds(entries)
    ensures entries[i].id !in MapOf(entries[..i])
  {
    MapOfKeys(entries[..i]);
    assert forall j :: 0 <= j < i ==> entries[..i][j] == entries[j];
  }

  /**
   * Reading the entries of a document one by one accepts it exactly when no
   * id repeats and the whole map is one the store would accept.
   */
  method ParseDocument(entries: seq<Entry>) returns (result: Result<Jobs, JobError>)
    ensures result.Success? <==> DistinctIds(entries) && Accepted(MapOf(entries))
    ensures result.Success? ==> result.value == MapOf(entries)
  {
    if |entries| > MAX_ACTIVE_JOBS + MAX_TERMINAL_JOBS {
      if DistinctIds(entries) && WithinBounds(MapOf(entries)) { TooMany(entries); }
      return Failure(StoreError);
    }
    var parsed: Jobs := map[];
    var active, terminal := 0, 0;
    var addresses: set<string>, pins: set<string>, serials: set<string> := {}, {}, {};
    for i := 0 to |entries|
      invariant DistinctIds(entries[..i]) && parsed == MapOf(entries[..i])
      invariant AllValid(parsed) && ActiveDistinct(parsed)
      invariant active == |ActiveIds(parsed)| && terminal == |TerminalIds(parsed)|
      invariant Taken(parsed, addresses, pins, serials)
    {
      hide Valid, ActiveDistinct, ActiveIds, TerminalIds, Taken, MapOf, Clashes, DistinctIds;
      var receipt, id := entries[i].receipt, entries[i].id;
      ParseStep(entries, i);
      if !Valid(receipt) || id in parsed {
        return Failure(StoreError);
      }
      AddCounts(parsed, id, receipt);
      TakenGrows(parsed, id, receipt, addresses, pins, serials);
      if receipt.IsTerminal() {
        terminal := terminal + 1;
      } else {
        active := active + 1;
        if || receipt.target.address in addresses || receipt.target.pinnedAddress in pins
           || receipt.target.adbSerial in serials {
          return Failure(StoreError);
        }
        addresses := addresses + {receipt.target.address};
        pins := pins + {receipt.target.pinnedAddress};
        serials := serials + {receipt.target.adbSerial};
      }
      parsed := parsed[id := receipt];
    }
    assert entries[..|entries|] == entries;
    if active > MAX_ACTIVE_JOBS || terminal > MAX_TERMINAL_JOBS {
      return Failure(StoreError);
    }
    return Success(parsed);
  }

  predicate Taken(jobs: Jobs, addresses: set<string>, pins: set<string>, serials: set<string>) {
    && addresses == ActiveTargets(jobs, ADDRESS)
    && pins == ActiveTargets(jobs, PIN)
    && serials == ActiveTargets(jobs, SERIAL)
  }

  lemma TakenGrows(jobs: Jobs, id: JobId, r: Receipt,
                   addresses: set<string>, pins: set<string>, serials: set<string>)
    requires id !in jobs && Taken(jobs, addresses, pins, serials)
    ensures r.IsTerminal() ==> Taken(jobs[id := r], addresses, pins, serials)
    ensures !r.IsTerminal() ==>
              Taken(jobs[id := r], addresses + {r.target.address}, pins + {r.target.pinnedAddress},
                    serials + {r.target.adbSerial})
    ensures Clashes(jobs, r) <==> r.target.address in addresses || r.target.pinnedAddress in pins
                                  || r.target.adbSerial in serials
  {
    hide ActiveTargets;
    AddActive(jobs, id, r, ADDRESS);
    AddActive(jobs, id, r, PIN);
    AddActive(jobs, id, r, SERIAL);
  }

  /** What one more entry does to the question whether the document is acceptable. */
  lemma ParseStep(entries: seq<Entry>, i: nat)
    requires i < |entries| && DistinctIds(entries[..i])
    ensures MapOf(entries[..i + 1]) == MapOf(entries[..i])[entries[i].id := entries[i].receipt]
    ensures DistinctIds(entries[..i + 1]) <==> entries[i].id !in MapOf(entries[..i])
    ensures DistinctIds(entries) ==> entries[i].id !in MapOf(entries[..i])
    ensures DistinctIds(entries) && AllValid(MapOf(entries)) && ActiveDistinct(MapOf(entries)) ==>
              Valid(entries[i].receipt) && ActiveDistinct(MapOf(entries[..i + 1]))
    ensures entries[i].id !in MapOf(entries[..i]) ==>
              (ActiveDistinct(MapOf(entries[..i + 1])) <==>
                 ActiveDistinct(MapOf(entries[..i]))
                 && (entries[i].receipt.IsTerminal() || !Clashes(MapOf(entries[..i]), entries[i].receipt)))
  {
    hide Valid, ActiveDistinct, Clashes, MapOf;
    MapOfExtends(entries, i);
    MapOfKeys(entries[..i]);
    assert forall j :: 0 <= j < i ==> entries[..i][j] == entries[j] && entries[..i + 1][j] == entries[j];
    assert entries[..i + 1][i] == entries[i];
    if entries[i].id !in MapOf(entries[..i]) {
      AddKeepsDistinct(MapOf(entries[..i]), entries[i].id, entries[i].receipt);
    }
    if DistinctIds(entries) && AllValid(MapOf(entries)) && ActiveDistinct(MapOf(entries)) {
      PrefixAccepted(entries, i + 1);
      assert entries[i].id in MapOf(entries[..i + 1]);
    }
  }

  lemma TooMany(entries: seq<Entry>)
    requires DistinctIds(entries) && WithinBounds(MapOf(entries))
    ensures |entries| <= MAX_ACTIVE_JOBS + MAX_TERMINAL_JOBS
  {
    var jobs := MapOf(entries);
    MapOfSize(entries);
    assert jobs.Keys == ActiveIds(jobs) + TerminalIds(jobs);
  }

  // ----------------------------------------------------------------------- pruning

  /** Ids in the order terminal receipts are kept: newest first. */
  predicate Ordered(jobs: Jobs, ids: seq<JobId>) {
    && (forall i :: 0 <= i < |ids| ==> ids[i] in jobs)
    && (forall i, j :: 0 <= i < j < |ids| ==> Newer(jobs, ids[i], ids[j]))
  }

  lemma NewerOrders(jobs: Jobs, a: JobId, b: JobId, c: JobId)
    requires a in jobs && b in jobs && c in jobs
    ensures !Newer(jobs, a, a)
    ensures a != b ==> Newer(jobs, a, b) || Newer(jobs, b, a)
    ensures Newer(jobs, a, b) ==> !Newer(jobs, b, a)
    ensures Newer(jobs, a, b) && Newer(jobs, b, c) ==> Newer(jobs, a, c)
  {
  }

  /** Insert an id where it belongs. */
  method InsertNewest(jobs: Jobs, ids: seq<JobId>, id: JobId) returns (more: seq<JobId>)
    requires Ordered(jobs, ids) && id in jobs && id !in ids
    ensures Ordered(jobs, more) && multiset(more) == multiset(ids) + multiset{id}
  {
    var at := 0;
    while at < |ids| && Newer(jobs, ids[at], id)
      invariant 0 <= at <= |ids|
      invariant forall i :: 0 <= i < at ==> Newer(jobs, ids[i], id)
    {
      at := at + 1;
    }
    more := ids[..at] + [id] + ids[at..];
    assert ids == ids[..at] + ids[at..];
    InsertedOrdered(jobs, ids, id, at);
  }

  /** An id put where the older ones begin keeps the order. */
  lemma InsertedOrdered(jobs: Jobs, ids: seq<JobId>, id: JobId, at: nat)
    requires Ordered(jobs, ids) && id in jobs && id !in ids && at <= |ids|
    requires forall i :: 0 <= i < at ==> Newer(jobs, ids[i], id)
    requires at < |ids| ==> !Newer(jobs, ids[at], id)
    ensures Ordered(jobs, ids[..at] + [id] + ids[at..])
  {
    var more := ids[..at] + [id] + ids[at..];
    assert forall k :: 0 <= k < at ==> more[k] == ids[k];
    assert forall k :: at < k < |more| ==> more[k] == ids[k - 1];
    forall i, j | 0 <= i < j < |more|
      ensures Newer(jobs, more[i], more[j])
    {
      if at < |ids| { NewerOrders(jobs, id, ids[at], if j > at + 1 then ids[j - 1] else id); }
      if i < at && j > at { NewerOrders(jobs, more[i], id, more[j]); }
    }
  }

  /** Sorting the terminal receipts, newest first. */
  method SortTerminal(jobs: Jobs) returns (ids: seq<JobId>)
    ensures Ordered(jobs, ids) && Elements(ids) == TerminalIds(jobs)
  {
    ids := [];
    var todo := TerminalIds(jobs);
    while todo != {}
      invariant todo <= TerminalIds(jobs) && Ordered(jobs, ids)
      invariant forall id :: id in TerminalIds(jobs) <==> id in todo || id in ids
      invariant forall id :: id in ids ==> id !in todo
      decreases |todo|
    {
      var id :| id in todo;
      todo := todo - {id};
      ids := InsertNewest(jobs, ids, id);
      assert forall k :: k in ids <==> k in multiset(ids);
    }
  }

  /** How many terminal receipts are newer is how far down the sorted list an id stands. */
  lemma NewerCount(jobs: Jobs, ids: seq<JobId>, i: nat)
    requires Ordered(jobs, ids) && Elements(ids) == TerminalIds(jobs) && i < |ids|
    ensures |NewerTerminals(jobs, ids[i])| == i
  {
    var prefix := Elements(ids[..i]);
    forall k | k in NewerTerminals(jobs, ids[i]) ensures k in prefix {
      assert k in Elements(ids);
      var j :| 0 <= j < |ids| && ids[j] == k;
      if j >= i { NewerOrders(jobs, ids[j], ids[i], ids[i]); }
      assert ids[..i][j] == k;
    }
    forall k | k in prefix ensures k in NewerTerminals(jobs, ids[i]) {
      var j :| 0 <= j < i && ids[..i][j] == k;
      assert ids[j] in Elements(ids);
    }
    assert NewerTerminals(jobs, ids[i]) == prefix;
    forall j, k | 0 <= j < k < i ensures ids[..i][j] != ids[..i][k] {
      NewerOrders(jobs, ids[j], ids[k], ids[j]);
    }
    ElementsSize(ids[..i]);
  }

  function Elements(ids: seq<JobId>): set<JobId> { set id | id in ids }

  lemma {:induction false} ElementsSize(ids: seq<JobId>)
    requires forall i, j :: 0 <= i < j < |ids| ==> ids[i] != ids[j]
    ensures |Elements(ids)| == |ids|
    decreases |ids|
  {
    if ids == [] {
    } else {
      var last := |ids| - 1;
      ElementsSize(ids[..last]);
      assert ids == ids[..last] + [ids[last]];
      assert Elements(ids) == Elements(ids[..last]) + {ids[last]};
    }
  }

  /**
   * Sorting, keeping the 32 newest that are not a week old, and dropping the
   * rest one by one leaves exactly the receipts that deserve to be retained.
   */
  method Prune(jobs: Jobs, now: int) returns (kept: Jobs)
    ensures kept == Pruned(jobs, now)
  {
    var sorted := SortTerminal(jobs);
    kept := jobs;
    for i := 0 to |sorted|
      invariant kept == map id | id in jobs && (id in sorted[..i] ==> Retained(jobs, now, id)) :: jobs[id]
    {
      hide TerminalIds, NewerTerminals, Newer;
      var id := sorted[i];
      NewerCount(jobs, sorted, i);
      assert id in Elements(sorted);
      assert jobs[id].IsTerminal() by { TerminalKnown(jobs, id); }
      assert sorted[..i + 1] == sorted[..i] + [id];
      if i >= MAX_TERMINAL_JOBS || jobs[id].updatedAt < now - TERMINAL_RETENTION {
        kept := kept - {id};
      }
    }
    assert sorted[..|sorted|] == sorted;
    assert forall id :: id in jobs && jobs[id].IsTerminal() ==> id in Elements(sorted);
  }

  lemma TerminalKnown(jobs: Jobs, id: JobId)
    requires id in TerminalIds(jobs)
    ensures id in jobs && jobs[id].IsTerminal()
  {
  }

  // ---------------------------------------------------------------- creating or joining

  /** Scan the active receipts, in document order, for the requested plan or for a conflict. */
  method ScanActive(jobs: Jobs, order: seq<JobId>, t: Target, a: Artifact, plan: string, credential: string)
    returns (found: Join)
    requires forall id :: id in jobs ==> id in order
    ensures JoinOutcome(jobs, t, a, plan, credential, found)
  {
    for i := 0 to |order|
      invariant forall k :: 0 <= k < i && order[k] in ActiveIds(jobs) ==>
                  !Collide(jobs[order[k]].target, t)
    {
      var id := order[i];
      if id in jobs && !jobs[id].IsTerminal() && Collide(jobs[id].target, t) {
        assert id in ActiveIds(jobs);
        return if SamePlan(jobs[id], t, a, plan, credential) then Joins(id) else Conflicts;
      }
    }
    return Free;
  }

  /** The answer does not depend on the order: a plan is joined exactly when it is active already. */
  lemma ScanIsExact(jobs: Jobs, t: Target, a: Artifact, plan: string, credential: string, found: Join)
    requires ActiveDistinct(jobs) && JoinOutcome(jobs, t, a, plan, credential, found)
    ensures found.Joins? <==>
              exists id :: id in ActiveIds(jobs) && SamePlan(jobs[id], t, a, plan, credential)
    ensures found.Joins? ==>
              forall id :: id in ActiveIds(jobs) && SamePlan(jobs[id], t, a, plan, credential) ==> id == found.id
    ensures found.Free? <==> forall id :: id in ActiveIds(jobs) ==> !Collide(jobs[id].target, t)
  {
    if id :| id in ActiveIds(jobs) && SamePlan(jobs[id], t, a, plan, credential) {
      assert Collide(jobs[id].target, t);
      assert forall k :: k in ActiveIds(jobs) && Collide(jobs[k].target, t) ==> k == id;
    }
  }

  // ------------------------------------------------------------------------- the object

  /** The durable document, shared by every manager of this process and the next. */
  class JobStore {
    var disk: Jobs

    constructor ()
      ensures disk == map[]
    {
      disk := map[];
    }
  }

  class InstallJobManager {
    const store: JobStore
    var jobs: Option<Jobs>
    var claimed: map<JobId, nat>

    constructor (store: JobStore)
      ensures this.store == store && State() == FORGETFUL
    {
      this.store := store;
      jobs := None;
      claimed := map[];
    }

    function State(): Manager
      reads this
    {
      Manager(jobs, claimed)
    }

    method InvalidateCache()
      modifies this
      ensures State() == FORGETFUL
    {
      jobs := None;
      claimed := map[];
    }

    /** Keep only the claims the cached receipts still bear out. */
    method ReconcileClaims()
      requires jobs.Some?
      modifies this
      ensures jobs == old(jobs) && claimed == Reconciled(old(claimed), jobs.value)
    {
      var kept: map<JobId, nat> := map[];
      var todo := claimed.Keys;
      while todo != {}
        invariant jobs == old(jobs) && claimed == old(claimed) && todo <= claimed.Keys
        invariant kept == map id | id in Reconciled(claimed, jobs.value) && id !in todo :: claimed[id]
        decreases |todo|
      {
        var id :| id in todo;
        todo := todo - {id};
        if id in jobs.value && !jobs.value[id].IsTerminal() && !jobs.value[id].phase.HealthyUnclaimed?
           && jobs.value[id].executorGeneration == claimed[id] {
          kept := kept[id := claimed[id]];
        }
      }
      claimed := kept;
    }

    method Refresh(readable: bool) returns (ok: bool)
      modifies this
      ensures (State(), ok) == Refreshed(store.disk, old(State()), readable)
      ensures ok ==> jobs == Some(store.disk)
    {
      if !readable || !ClaimsUndisturbed(store.disk, State()) {
        InvalidateCache();
        return false;
      }
      jobs := Some(store.disk);
      ReconcileClaims();
      return true;
    }

    /** Write a candidate over the document just read. */
    method Save(candidate: Jobs, event: SaveEvent) returns (ok: bool)
      modifies this, store
      ensures (store.disk, State(), ok)
              == InstallJobs.Save(old(store.disk), old(State()), candidate, event)
    {
      if !Accepted(candidate) || !ClockAdvances(store.disk, candidate) || event.NotWritten? {
        InvalidateCache();
        return false;
      }
      store.disk := candidate;
      if event.WrittenUnverified? {
        InvalidateCache();
        return false;
      }
      jobs := Some(candidate);
      ReconcileClaims();
      return true;
    }

    method SaveAndLookUp(candidate: Jobs, id: JobId, event: SaveEvent) returns (result: Result<Receipt, JobError>)
      modifies this, store
      ensures Reply(store.disk, State(), result)
              == SaveAndReturn(old(store.disk), old(State()), candidate, id, event)
    {
      hide Accepted, ClockAdvances;
      var ok := Save(candidate, event);
      if !ok {
        return Failure(StoreError);
      }
      if id !in candidate {
        return Failure(MissingAfterSave);
      }
      return Success(candidate[id]);
    }

    method Get(id: JobId, env: Env) returns (result: Result<Receipt, JobError>)
      modifies this
      ensures Reply(store.disk, State(), result)
              == InstallJobs.Get(old(store.disk), old(State()), id, env)
    {
      hide Refreshed;
      var ok := Refresh(env.readable);
      if !ok {
        return Failure(StoreError);
      }
      return if id in store.disk then Success(store.disk[id]) else Failure(NotFound);
    }

    /** A success means that the cancellation is on record, and the record is what is answered. */
    method RequestCancel(id: JobId, revision: nat, env: Env) returns (result: Result<Receipt, JobError>)
      modifies this, store
      ensures Reply(store.disk, State(), result)
              == InstallJobs.RequestCancel(old(store.disk), old(State()), id, revision, env)
      ensures result.Success? ==>
                id in old(store.disk) && id in store.disk && result.value == store.disk[id]
                && store.disk[id].cancelRequested && store.disk == old(store.disk)[id := store.disk[id]]
    {
      hide Refreshed, SaveAndReturn, CancelMarked;
      if InstallJobs.RequestCancel(store.disk, State(), id, revision, env).result.Success? {
        InstallAnswers.CancelIsRecorded(store.disk, State(), id, revision, env);
      }
      var ok := Refresh(env.readable);
      if !ok {
        return Failure(StoreError);
      }
      var checked := CheckedCurrent(store.disk, id, revision);
      if checked.Failure? {
        return checked;
      }
      var current := checked.value;
      if !Cancellable(current.phase) {
        return Failure(TransitionError);
      }
      if current.cancelRequested {
        return Success(current);
      }
      result := SaveAndLookUp(store.disk[id := CancelMarked(current, env.now)], id, env.save);
    }

    method Claim(id: JobId, revision: nat, cleaned: Option<nat>, env: Env)
      returns (result: Result<Receipt, JobError>)
      modifies this, store
      ensures Reply(store.disk, State(), result)
              == InstallJobs.Claim(old(store.disk), old(State()), id, revision, cleaned, env)
    {
      hide Refreshed, SaveAndReturn, ClaimedReceipt, Pruned, Exhausted, RestartAmbiguous;
      var ok := Refresh(env.readable);
      if !ok {
        return Failure(StoreError);
      }
      var checked := CheckedCurrent(store.disk, id, revision);
      if checked.Failure? {
        return checked;
      }
      var current := checked.value;
      if current.IsTerminal() || current.phase.HealthyUnclaimed? {
        return Failure(TransitionError);
      }
      if cleaned.Some? && cleaned.value != current.revision {
        return Failure(RevisionError);
      }
      if Lookup(claimed, id) == Some(current.executorGeneration) {
        return Success(current);
      }
      if (Exhausted(current) || RestartAmbiguous(current.phase)) && cleaned.None? {
        return Failure(CleanupRequired);
      }
      var updated := ClaimedReceipt(current, env.now);
      var candidate := Prune(store.disk[id := updated], env.now);
      result := SaveAndLookUp(candidate, id, env.save);
      if result.Success? && !result.value.IsTerminal() {
        claimed := claimed[id := updated.executorGeneration];
      }
    }

    /** A success means that the phase asked for is on record, with its result. */
    method Transition(id: JobId, revision: nat, a: Advance, env: Env)
      returns (result: Result<Receipt, JobError>)
      modifies this, store
      ensures Reply(store.disk, State(), result)
              == InstallJobs.Transition(old(store.disk), old(State()), id, revision, a, env)
      ensures result.Success? ==>
                id in store.disk && result.value == store.disk[id] && store.disk[id].phase == a.phase
                && store.disk[id].resultCode == a.resultCode
                && store.disk[id].consumedEntryId == a.consumedEntryId
    {
      if InstallJobs.Transition(store.disk, State(), id, revision, a, env).result.Success? {
        InstallAnswers.MoveIsRecorded(store.disk, State(), id, revision, a, env);
      }
      hide Refreshed, SaveAndReturn, AdvancedReceipt, Pruned, NextPhase, FactsFit, ResultFits, Valid;
      var ok := Refresh(env.readable);
      if !ok {
        return Failure(StoreError);
      }
      var checked := CheckedCurrent(store.disk, id, revision);
      if checked.Failure? {
        return checked;
      }
      var current := checked.value;
      if !NextPhase(current.phase, a.phase) {
        return Failure(TransitionError);
      }
      if current.cancelRequested && !a.phase.Cancelled? && !a.phase.Failed? && !a.phase.RecoveryRequired? {
        return Failure(TransitionError);
      }
      if !(current.phase.HealthyUnclaimed? && (a.phase.Consumed? || a.phase.RecoveryRequired?))
         && Lookup(claimed, id) != Some(current.executorGeneration) {
        return Failure(TransitionError);
      }
      if !FactsFit(current, a) || !ResultFits(current, a) {
        return Failure(TransitionError);
      }
      var updated := AdvancedReceipt(current, a, env.now);
      if !Valid(updated) {
        return Failure(TransitionError);
      }
      var candidate := Prune(store.disk[id := updated], env.now);
      result := SaveAndLookUp(candidate, id, env.save);
    }

    /** Re-read the durable copy, and give up every claim if it is not what was remembered. */
    method VerifyBarrier(id: JobId, revision: nat, phase: Phase, cancel: bool, env: Env)
      returns (result: Result<Receipt, JobError>)
      modifies this
      ensures Reply(store.disk, State(), result)
              == InstallJobs.VerifyBarrier(old(store.disk), old(State()), id, revision, phase, cancel, env)
    {
      hide ClaimsUndisturbed, Reconciled;
      if jobs.None? {
        var ok := Refresh(env.readable);
        if !ok {
          return Failure(StoreError);
        }
      }
      var inMemory := CheckedCurrent(jobs.value, id, revision);
      if inMemory.Failure? {
        return inMemory;
      }
      if !env.readable {
        InvalidateCache();
        return Failure(StoreError);
      }
      jobs := Some(store.disk);
      ReconcileClaims();
      result := CheckedCurrent(store.disk, id, revision);
      if result.Failure? {
        return;
      }
      var receipt := result.value;
      if || receipt != inMemory.value || receipt.phase != phase || receipt.cancelRequested != cancel
         || Lookup(claimed, id) != Some(receipt.executorGeneration) {
        InvalidateCache();
        return Failure(TransitionError);
      }
    }

    method CreateOrJoin(
      t: Target, a: Artifact, plan: string, credential: string, order: seq<JobId>, newId: JobId, env: Env)
      returns (result: Result<(Receipt, bool), JobError>, ghost scan: Join)
      requires forall id :: id in store.disk ==> id in order
      modifies this, store
      ensures Reply(store.disk, State(), result)
              == InstallJobs.CreateOrJoin(
                   old(store.disk), old(State()), t, a, plan, credential, scan, newId, env)
      ensures JoinOutcome(Pruned(old(store.disk), env.now), t, a, plan, credential, scan)
    {
      hide Refreshed, SaveAndReturn, Pruned, JoinOutcome;
      SomeOutcome(Pruned(store.disk, env.now), t, a, plan, credential);
      scan :| JoinOutcome(Pruned(store.disk, env.now), t, a, plan, credential, scan);
      if !Compatible(t, a) {
        return Failure(TransitionError), scan;
      }
      var ok := Refresh(env.readable);
      if !ok {
        return Failure(StoreError), scan;
      }
      var pruned := Prune(store.disk, env.now);
      PrunedSubset(store.disk, env.now);
      var found := ScanActive(pruned, order, t, a, plan, credential);
      scan := found;
      if found.Joins? {
        assert found.id in pruned by { JoinsKnown(pruned, t, a, plan, credential, found); }
        return Success((pruned[found.id], false)), scan;
      }
      if found.Conflicts? {
        return Failure(Conflict), scan;
      }
      if |ActiveIds(pruned)| >= MAX_ACTIVE_JOBS {
        return Failure(Capacity), scan;
      }
      var saved := SaveAndLookUp(pruned[newId := NewReceipt(t, a, plan, credential, env.now)], newId, env.save);
      match saved {
        case Success(receipt) => return Success((receipt, true)), scan;
        case Failure(e) => return Failure(e), scan;
      }
    }
  }

  lemma SomeOutcome(jobs: Jobs, t: Target, a: Artifact, plan: string, credential: string)
    ensures exists found :: JoinOutcome(jobs, t, a, plan, credential, found)
  {
    if id :| id in ActiveIds(jobs) && Collide(jobs[id].target, t) {
      if SamePlan(jobs[id], t, a, plan, credential) {
        assert JoinOutcome(jobs, t, a, plan, credential, Joins(id));
      } else {
        assert JoinOutcome(jobs, t, a, plan, credential, Conflicts);
      }
    } else {
      assert JoinOutcome(jobs, t, a, plan, credential, Free);
    }
  }

  lemma PrunedSubset(jobs: Jobs, now: int)
    ensures forall id :: id in Pruned(jobs, now) ==> id in jobs
  {
  }

  lemma JoinsKnown(jobs: Jobs, t: Target, a: Artifact, plan: string, credential: string, found: Join)
    requires JoinOutcome(jobs, t, a, plan, credential, found) && found.Joins?
    ensures found.id in jobs
  {
  }
}
