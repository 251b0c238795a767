/**
 * A cache of two signed bundles on disk: one user request at a time prepares,
 * evicts or cleans up, while leases come and go and every file operation may
 * fail.
 */
module BrowserReleaseCache {
  import opened Wrappers

  type Id = nat
  type User = string

  const CAPACITY: nat := 2

  datatype Entry = Entry(user: User, expires: int, leases: nat, served: bool, retiring: bool)

  type Entries = map<Id, Entry>

  /** Why the entries are being gone through. */
  datatype Purpose = ForPrepare(user: User) | AfterLease | ForClose

  /** What the one busy operation is doing between two of its waits. */
  datatype Activity =
    | Idle
    | Reconciling(user: User)                                   // removing what an earlier process left
    | Reaping(purpose: Purpose, todo: seq<Id>, cleaning: Option<Id>)
    | Evicting(user: User, id: Id)
    | Downloading(user: User, reservation: Id)
    | Discarding(reservation: Id)

  datatype Cache = Cache(
    entries: Entries,
    activity: Activity,
    initialized: bool,
    closed: bool,
    failed: bool,
    now: int,
    files: set<Id>,
    held: multiset<Id>)          // leases that have been given out and not ended

  datatype Event =
    | Prepare(user: User, order: seq<Id>)
    | Reconciled(ok: bool, cancelled: bool, left: set<Id>, order: seq<Id>)
    | Reap(cancelled: bool, victim: Option<Id>, token: Id)   // one turn of the reaping loop
    | Vanish                                                  // the file being cleaned is gone
    | Cleaned(ok: bool)
    | Evicted(ok: bool, cancelled: bool, token: Id)
    | Appear                                                  // the download creates its file
    | Downloaded(ok: bool, expires: int)
    | Discarded(ok: bool)
    | Lease(user: User, id: Id)
    | EndLease(id: Id, order: seq<Id>)
    | Close(order: seq<Id>)
    | Tick(now: int)

  /** A new process: nothing is known, and an earlier one may have left files. */
  function Cold(files: set<Id>): Cache { Cache(map[], Idle, false, false, false, 0, files, multiset{}) }

  predicate Available(c: Cache) { !c.failed && !c.closed }

  // --------------------------------------------------------------------------- eviction

  predicate IdleEntry(e: Entry) { e.leases == 0 && !e.retiring }

  /** `a` is evicted rather than `b`: served before unserved, then the first to expire. */
  predicate Sooner(entries: Entries, a: Id, b: Id)
    requires a in entries && b in entries
  {
    var x, y := entries[a], entries[b];
    if x.served != y.served then x.served
    else x.expires < y.expires || (x.expires == y.expires && a <= b)
  }

  /** The one idle entry eviction removes, if there is an idle one. */
  predicate Victim(entries: Entries, v: Option<Id>) {
    match v
    case None => forall k :: k in entries ==> !IdleEntry(entries[k])
    case Some(id) =>
      && id in entries && IdleEntry(entries[id])
      && forall k :: k in entries && IdleEntry(entries[k]) ==> Sooner(entries, id, k)
  }

  method OldestIdle(entries: Entries) returns (victim: Option<Id>)
    ensures Victim(entries, victim)
    ensures victim.Some? ==>
              forall k :: k in entries && IdleEntry(entries[k]) ==>
                && (entries[k].served ==> entries[victim.value].served)
                && (entries[k].served == entries[victim.value].served ==>
                      entries[victim.value].expires <= entries[k].expires)
  {
    victim := None;
    var todo := entries.Keys;
    while todo != {}
      invariant todo <= entries.Keys
      invariant victim.None? ==> forall k :: k in entries && k !in todo ==> !IdleEntry(entries[k])
      invariant victim.Some? ==>
                  && victim.value in entries && IdleEntry(entries[victim.value])
                  && forall k :: k in entries && k !in todo && IdleEntry(entries[k]) ==>
                       Sooner(entries, victim.value, k)
      decreases |todo|
    {
      var k :| k in todo;
      todo := todo - {k};
      if IdleEntry(entries[k]) && (victim.None? || Sooner(entries, k, victim.value)) {
        victim := Some(k);
      }
    }
  }

  // -------------------------------------------------------------------------- the steps

  /** Mark an entry before its file is touched, so that no lease can be given on it. */
  function Retired(entries: Entries, id: Id): Entries {
    if id in entries then entries[id := entries[id].(retiring := true)] else entries
  }

  /** A preparation with room goes on to download; one without gives up. */
  function MakeRoom(c: Cache, user: User, cancelled: bool, victim: Option<Id>, token: Id): Cache {
    if cancelled then c.(activity := Idle)
    else if |c.entries| < CAPACITY then c.(activity := Downloading(user, token))
    else match victim
      case Some(id) => c.(entries := Retired(c.entries, id), activity := Evicting(user, id))
      case None => c.(activity := Idle)
  }

  function ReapTurn(c: Cache, cancelled: bool, victim: Option<Id>, token: Id): Cache
    requires c.activity.Reaping? && c.activity.cleaning.None?
  {
    var a := c.activity;
    if a.todo == [] then
      match a.purpose
      case ForPrepare(user) => MakeRoom(c.(activity := Idle), user, cancelled, victim, token)
      case _ => c.(activity := Idle)
    else
      var id := a.todo[0];
      if id in c.entries && c.entries[id].leases == 0 && (c.closed || c.entries[id].expires <= c.now)
      then c.(entries := Retired(c.entries, id), activity := a.(cleaning := Some(id)))
      else c.(activity := a.(todo := a.todo[1..]))
  }

  /** The file being removed right now, if any. */
  function Cleaning(c: Cache): Option<Id> {
    match c.activity
    case Reaping(_, _, cleaning) => cleaning
    case Evicting(_, id) => Some(id)
    case Discarding(id) => Some(id)
    case _ => None
  }

  /** A reservation is a random token nothing has been called by. */
  predicate Unused(c: Cache, id: Id) { id !in c.entries && id !in c.files }

  predicate Lists(order: seq<Id>, entries: Entries) {
    (forall id :: id in order ==> id in entries) && (forall id :: id in entries ==> id in order)
  }

  function Happened(c: Cache, e: Event): Cache {
    match e
    case Prepare(user, order) =>
      if !Available(c) || !c.activity.Idle? || !Lists(order, c.entries) then c
      else if !c.initialized then c.(activity := Reconciling(user))
      else c.(activity := Reaping(ForPrepare(user), order, None))
    case Reconciled(ok, cancelled, left, order) =>
      if !c.activity.Reconciling? || !Lists(order, c.entries) then c
      else if ok && cancelled then c.(files := {}, activity := Idle)
      else if ok then
        c.(files := {}, initialized := true, activity := Reaping(ForPrepare(c.activity.user), order, None))
      else c.(files := c.files * left, failed := true, activity := Idle)
    case Reap(cancelled, victim, token) =>
      if !c.activity.Reaping? || c.activity.cleaning.Some? || !Victim(c.entries, victim)
         || !Unused(c, token)
      then c
      else ReapTurn(c, cancelled, victim, token)
    case Vanish => if Cleaning(c).Some? then c.(files := c.files - {Cleaning(c).value}) else c
    case Cleaned(ok) =>
      if !c.activity.Reaping? || c.activity.cleaning.None? then c
      else
        var id := c.activity.cleaning.value;
        if !ok then c.(failed := true, activity := Idle)
        else if id in c.files then c
        else c.(entries := c.entries - {id},
                activity := c.activity.(todo := if c.activity.todo == [] then [] else c.activity.todo[1..],
                                        cleaning := None))
    case Evicted(ok, cancelled, token) =>
      if !c.activity.Evicting? || !Unused(c, token) then c
      else
        var id := c.activity.id;
        if !ok then c.(failed := true, activity := Idle)
        else if id in c.files then c
        else MakeRoom(c.(entries := c.entries - {id}, activity := Idle), c.activity.user, cancelled, None, token)
    case Appear =>
      if c.activity.Downloading? then c.(files := c.files + {c.activity.reservation}) else c
    case Downloaded(ok, expires) =>
      if !c.activity.Downloading? then c
      else
        var id := c.activity.reservation;
        if !ok then c.(activity := Discarding(id))
        else if id !in c.files then c
        else c.(entries := c.entries[id := Entry(c.activity.user, expires, 0, false, false)], activity := Idle)
    case Discarded(ok) =>
      if !c.activity.Discarding? then c
      else if !ok then c.(failed := true, activity := Idle)
      else if c.activity.reservation in c.files then c
      else c.(activity := Idle)
    case Lease(user, id) =>
      if Available(c) && id in c.entries && !c.entries[id].retiring && c.entries[id].user == user
         && c.entries[id].expires > c.now
      then c.(entries := c.entries[id := c.entries[id].(leases := c.entries[id].leases + 1, served := true)],
              held := c.held + multiset{id})
      else c
    case EndLease(id, order) =>
      if id !in c.held || id !in c.entries || c.entries[id].leases == 0 || !Lists(order, c.entries) then c
      else
        var ended := c.(entries := c.entries[id := c.entries[id].(leases := c.entries[id].leases - 1)],
                        held := c.held - multiset{id});
        if c.activity.Idle? then ended.(activity := Reaping(AfterLease, order, None)) else ended
    case Close(order) =>
      if !c.activity.Idle? || !Lists(order, c.entries) then c
      else c.(closed := true, activity := Reaping(ForClose, order, None))
    case Tick(now) => if now >= c.now then c.(now := now) else c
  }

  function Lived(c: Cache, events: seq<Event>): Cache
    decreases |events|
  {
    if events == [] then c else Lived(Happened(c, events[0]), events[1..])
  }

  // ----------------------------------------------------------------------- the invariant

  /** The id whose file is coming or going. */
  function Flux(c: Cache): Option<Id> {
    if c.activity.Downloading? then Some(c.activity.reservation) else Cleaning(c)
  }

  predicate Exact(c: Cache) { c.initialized && !c.failed }

  /** One bundle: its leases are counted, and what is leased is neither retired nor gone. */
  predicate EntrySound(e: Entry, held: nat, onDisk: bool, cleaned: bool) {
    && e.leases == held
    && (e.retiring || onDisk)
    && (held > 0 ==> !e.retiring)
    && (cleaned ==> e.retiring)
  }

  predicate IdSound(c: Cache, id: Id) {
    && (id in c.held ==> id in c.entries)
    && (id in c.entries ==> EntrySound(c.entries[id], c.held[id], id in c.files, Cleaning(c) == Some(id)))
    && (Exact(c) ==>
          && (Flux(c) != Some(id) ==> (id in c.files <==> id in c.entries))
          && (id in c.entries && c.entries[id].retiring ==> Cleaning(c) == Some(id)))
  }

  /** What the busy operation may be doing, and how many entries that leaves room for. */
  predicate ShapeSound(c: Cache) {
    && |c.entries| <= CAPACITY
    && (c.activity.Reconciling? ==> !c.initialized)
    && (!c.initialized ==> c.entries == map[] && Flux(c).None?
                           && !(c.activity.Reaping? && c.activity.purpose.ForPrepare?))
    && (c.activity.Downloading? || c.activity.Discarding? ==>
          c.activity.reservation !in c.entries && |c.entries| < CAPACITY)
    && ((c.activity.Reaping? || c.activity.Evicting?) && Cleaning(c).Some? ==> Cleaning(c).value in c.entries)
  }

  ghost predicate Sound(c: Cache) {
    ShapeSound(c) && forall id :: IdSound(c, id)
  }

  lemma RemovedSize(entries: Entries, id: Id)
    ensures |entries - {id}| == if id in entries then |entries| - 1 else |entries|
  {
    assert (entries - {id}).Keys == entries.Keys - {id};
    if id !in entries { assert entries - {id} == entries; }
  }

  lemma AddedSize(entries: Entries, id: Id, e: Entry)
    ensures |entries[id := e]| == if id in entries then |entries| else |entries| + 1
  {
    assert entries[id := e].Keys == entries.Keys + {id};
  }

  lemma RoomKeeps(c: Cache, user: User, cancelled: bool, victim: Option<Id>, token: Id, k: Id)
    requires c.activity.Idle? && IdSound(c, k) && Victim(c.entries, victim) && Unused(c, token)
    ensures IdSound(MakeRoom(c, user, cancelled, victim, token), k)
  {
  }

  lemma RoomShape(c: Cache, user: User, cancelled: bool, victim: Option<Id>, token: Id)
    requires c.activity.Idle? && ShapeSound(c) && c.initialized
    requires Victim(c.entries, victim) && Unused(c, token)
    ensures ShapeSound(MakeRoom(c, user, cancelled, victim, token))
  {
    if victim.Some? { AddedSize(c.entries, victim.value, c.entries[victim.value].(retiring := true)); }
  }

  lemma ReapKeeps(c: Cache, cancelled: bool, victim: Option<Id>, token: Id, k: Id)
    requires c.activity.Reaping? && c.activity.cleaning.None? && IdSound(c, k)
    requires Victim(c.entries, victim) && Unused(c, token)
    ensures IdSound(ReapTurn(c, cancelled, victim, token), k)
  {
    hide MakeRoom, Victim;
    if c.activity.todo == [] {
      match c.activity.purpose {
        case ForPrepare(user) => RoomKeeps(c.(activity := Idle), user, cancelled, victim, token, k);
        case _ =>
      }
    }
  }

  lemma ReapShape(c: Cache, cancelled: bool, victim: Option<Id>, token: Id)
    requires ShapeSound(c) && c.activity.Reaping? && c.activity.cleaning.None?
    requires Victim(c.entries, victim) && Unused(c, token)
    ensures ShapeSound(ReapTurn(c, cancelled, victim, token))
  {
    hide MakeRoom, Victim;
    var a := c.activity;
    if a.todo == [] {
      match a.purpose {
        case ForPrepare(user) => RoomShape(c.(activity := Idle), user, cancelled, victim, token);
        case _ =>
      }
    } else if a.todo[0] in c.entries {
      AddedSize(c.entries, a.todo[0], c.entries[a.todo[0]].(retiring := true));
    }
  }

  lemma EvictedKeeps(c: Cache, ok: bool, cancelled: bool, token: Id, k: Id)
    requires c.activity.Evicting? && IdSound(c, k) && IdSound(c, c.activity.id) && ShapeSound(c)
    ensures IdSound(Happened(c, Evicted(ok, cancelled, token)), k)
  {
    hide MakeRoom;
    if Unused(c, token) && ok && c.activity.id !in c.files {
      var gone := c.(entries := c.entries - {c.activity.id}, activity := Idle);
      RoomCases(gone, c.activity.user, cancelled, None, token);
    }
  }

  lemma RoomCases(c: Cache, user: User, cancelled: bool, victim: Option<Id>, token: Id)
    requires victim.None?
    ensures var c' := MakeRoom(c, user, cancelled, victim, token);
            c' == c.(activity := Idle) || c' == c.(activity := Downloading(user, token))
  {
  }

  lemma EvictedShape(c: Cache, ok: bool, cancelled: bool, token: Id)
    requires c.activity.Evicting? && ShapeSound(c)
    ensures ShapeSound(Happened(c, Evicted(ok, cancelled, token)))
  {
    RemovedSize(c.entries, c.activity.id);
  }

  lemma SimpleKeeps(c: Cache, e: Event, k: Id)
    requires ShapeSound(c) && IdSound(c, k) && !e.Reap? && !e.Evicted?
    requires e.EndLease? ==> IdSound(c, e.id)
    ensures IdSound(Happened(c, e), k)
  {
    hide ShapeSound, IdSound, Happened;
    if e.Lease? || e.EndLease? { CountsKeep(c, e, k); }
    else if e.Cleaned? || e.Downloaded? || e.Discarded? { SettledKeeps(c, e, k); }
    else { StillKeeps(c, e, k); }
  }

  lemma CountsKeep(c: Cache, e: Event, k: Id)
    requires ShapeSound(c) && IdSound(c, k) && (e.Lease? || e.EndLease?)
    requires e.EndLease? ==> IdSound(c, e.id)
    ensures IdSound(Happened(c, e), k)
  {
    hide MakeRoom, ReapTurn, Lists;
  }

  lemma SettledKeeps(c: Cache, e: Event, k: Id)
    requires ShapeSound(c) && IdSound(c, k) && (e.Cleaned? || e.Downloaded? || e.Discarded?)
    ensures IdSound(Happened(c, e), k)
  {
    hide MakeRoom, ReapTurn, Lists;
  }

  lemma StillKeeps(c: Cache, e: Event, k: Id)
    requires ShapeSound(c) && IdSound(c, k) && !e.Reap? && !e.Evicted? && !e.Cleaned? && !e.Downloaded?
    requires !e.Discarded? && !e.Lease? && !e.EndLease?
    ensures IdSound(Happened(c, e), k)
  {
    hide MakeRoom, ReapTurn, Lists;
  }

  lemma SimpleShape(c: Cache, e: Event)
    requires ShapeSound(c) && !e.Reap? && !e.Evicted?
    ensures ShapeSound(Happened(c, e))
  {
    hide ShapeSound, Happened;
    match e {
      case Cleaned(_) => CleanedShape(c, e);
      case Downloaded(_, _) => CleanedShape(c, e);
      case Lease(_, _) => CountsShape(c, e);
      case EndLease(_, _) => CountsShape(c, e);
      case _ => StillShape(c, e);
    }
  }

  lemma CleanedShape(c: Cache, e: Event)
    requires ShapeSound(c) && (e.Cleaned? || e.Downloaded?)
    ensures ShapeSound(Happened(c, e))
  {
    if e.Cleaned? {
      if c.activity.Reaping? && c.activity.cleaning.Some? { RemovedSize(c.entries, c.activity.cleaning.value); }
    } else if c.activity.Downloading? {
      AddedSize(c.entries, c.activity.reservation, Entry(c.activity.user, e.expires, 0, false, false));
    }
  }

  lemma CountsShape(c: Cache, e: Event)
    requires ShapeSound(c) && (e.Lease? || e.EndLease?)
    ensures ShapeSound(Happened(c, e))
  {
    hide Lists;
    var c' := Happened(c, e);
    if c' != c { AddedSize(c.entries, e.id, c'.entries[e.id]); }
  }

  /** Nothing else changes how many entries there are. */
  lemma StillShape(c: Cache, e: Event)
    requires ShapeSound(c) && !e.Reap? && !e.Evicted? && !e.Cleaned? && !e.Downloaded? && !e.Lease? && !e.EndLease?
    ensures ShapeSound(Happened(c, e))
  {
    hide Lists, MakeRoom, ReapTurn;
  }

  lemma HappenedSound(c: Cache, e: Event)
    requires Sound(c)
    ensures Sound(Happened(c, e))
  {
    var c' := Happened(c, e);
    forall k ensures IdSound(c', k) {
      hide IdSound, ShapeSound, MakeRoom, ReapTurn;
      assert IdSound(c, k);
      match e {
        case Reap(cancelled, victim, token) =>
          if c.activity.Reaping? && c.activity.cleaning.None? && Victim(c.entries, victim) && Unused(c, token) {
            ReapKeeps(c, cancelled, victim, token, k);
          }
        case Evicted(ok, cancelled, token) =>
          if c.activity.Evicting? {
            assert IdSound(c, c.activity.id);
            EvictedKeeps(c, ok, cancelled, token, k);
          }
        case _ => SimpleKeeps(c, e, k);
      }
    }
    ShapeStays(c, e);
    hide Happened, IdSound, ShapeSound;
  }

  lemma ShapeStays(c: Cache, e: Event)
    requires ShapeSound(c)
    ensures ShapeSound(Happened(c, e))
  {
    hide ShapeSound, MakeRoom, ReapTurn;
    match e {
      case Reap(cancelled, victim, token) =>
        if c.activity.Reaping? && c.activity.cleaning.None? && Victim(c.entries, victim) && Unused(c, token) {
          ReapShape(c, cancelled, victim, token);
        }
      case Evicted(ok, cancelled, token) =>
        if c.activity.Evicting? { EvictedShape(c, ok, cancelled, token); }
      case _ => SimpleShape(c, e);
    }
  }

  lemma {:induction false} LivedSound(c: Cache, events: seq<Event>)
    requires Sound(c)
    ensures Sound(Lived(c, events))
    decreases |events|
  {
    hide Sound, Happened;
    if events != [] {
      HappenedSound(c, events[0]);
      LivedSound(Happened(c, events[0]), events[1..]);
    }
  }

  lemma ColdSound(left: set<Id>)
    ensures Sound(Cold(left))
  {
  }

  /**
   * Over every interleaving, from whatever an earlier process left: a leased
   * bundle keeps its entry and its file, and is never the one being cleaned,
   * even after a cleanup has failed.
   */
  lemma LeasedIsKept(left: set<Id>, events: seq<Event>, id: Id)
    requires id in Lived(Cold(left), events).held
    ensures var c := Lived(Cold(left), events);
            id in c.entries && id in c.files && Cleaning(c) != Some(id)
  {
    LivedSound(Cold(left), events);
    var c := Lived(Cold(left), events);
    hide Lived, ShapeSound;
    assert IdSound(c, id);
  }

  /**
   * Once initialised and not failed, the files are the entries, but for the
   * one file that is just coming or going; entries and a reservation are
   * together at most two.
   */
  lemma FilesAreTheEntries(left: set<Id>, events: seq<Event>)
    requires Exact(Lived(Cold(left), events))
    ensures var c := Lived(Cold(left), events);
            && (Flux(c).None? ==> c.files == c.entries.Keys)
            && (Flux(c).Some? ==> c.files - {Flux(c).value} == c.entries.Keys - {Flux(c).value})
            && (c.activity.Downloading? || c.activity.Discarding? ==>
                  c.activity.reservation !in c.entries && |c.entries| + 1 <= CAPACITY)
            && |c.files + c.entries.Keys| <= CAPACITY
  {
    hide Lived, IdSound, Sound, Exact, Flux, Cleaning;
    ColdSound(left);
    LivedSound(Cold(left), events);
    SizeCases(Lived(Cold(left), events));
  }

  lemma Members(c: Cache)
    requires Sound(c) && Exact(c)
    ensures forall id: Id :: Flux(c) != Some(id) ==> (id in c.files <==> id in c.entries)
  {
    forall id: Id ensures Flux(c) != Some(id) ==> (id in c.files <==> id in c.entries) {
      assert IdSound(c, id);
    }
  }

  lemma SizeCases(c: Cache)
    requires Sound(c) && Exact(c)
    ensures Flux(c).None? ==> c.files == c.entries.Keys
    ensures Flux(c).Some? ==> c.files - {Flux(c).value} == c.entries.Keys - {Flux(c).value}
    ensures c.activity.Downloading? || c.activity.Discarding? ==>
              c.activity.reservation !in c.entries && |c.entries| + 1 <= CAPACITY
    ensures |c.files + c.entries.Keys| <= CAPACITY
  {
    var all := c.files + c.entries.Keys;
    hide IdSound;
    Members(c);
    if Flux(c).Some? && Flux(c).value !in c.entries && Flux(c).value in c.files {
      assert all == c.entries.Keys + {Flux(c).value};
    } else {
      assert all == c.entries.Keys;
    }
  }

  // ------------------------------------------------------------------- what may be taken away

  /** A bundle nobody leases may go when it has expired, when the cache closes, or to make room. */
  predicate Due(c: Cache, id: Id) {
    id in c.entries && c.entries[id].leases == 0
    && (c.closed || c.entries[id].expires <= c.now || |c.entries| >= CAPACITY)
  }

  /** The same bundle, still there to be leased. */
  predicate Untouched(c: Cache, c': Cache, id: Id)
    requires id in c.entries
  {
    && id in c'.entries && !c'.entries[id].retiring
    && c'.entries[id].user == c.entries[id].user && c'.entries[id].expires == c.entries[id].expires
  }

  /** No single step takes away what is not due. */
  lemma OnlyDueEntriesGo(c: Cache, e: Event, id: Id)
    requires Sound(c) && id in c.entries && !c.entries[id].retiring && !Due(c, id)
    ensures Untouched(c, Happened(c, e), id)
  {
    hide Happened, Sound, Due, Untouched, Victim;
    NotBeingCleaned(c, id);
    match e {
      case Reap(cancelled, victim, token) => ReapSpares(c, e, id);
      case Lease(_, _) => LeaseSpares(c, e, id);
      case EndLease(_, _) => LeaseSpares(c, e, id);
      case Cleaned(_) => EndSpares(c, e, id);
      case Evicted(_, _, _) => EndSpares(c, e, id);
      case Downloaded(_, _) => EndSpares(c, e, id);
      case _ => OthersSpare(c, e, id);
    }
  }

  lemma ReapSpares(c: Cache, e: Event, id: Id)
    requires e.Reap? && id in c.entries && !c.entries[id].retiring && !Due(c, id)
    ensures Untouched(c, Happened(c, e), id)
  {
    hide Due, Victim, Unused, ReapTurn;
    if c.activity.Reaping? && c.activity.cleaning.None? && Victim(c.entries, e.victim) {
      TurnSpares(c, e.cancelled, e.victim, e.token, id);
    }
  }

  lemma LeaseSpares(c: Cache, e: Event, id: Id)
    requires (e.Lease? || e.EndLease?) && id in c.entries && !c.entries[id].retiring
    ensures Untouched(c, Happened(c, e), id)
  {
    hide Lists;
  }

  lemma EndSpares(c: Cache, e: Event, id: Id)
    requires (e.Cleaned? || e.Evicted? || e.Downloaded?) && id in c.entries && !c.entries[id].retiring
    requires Cleaning(c) != Some(id) && (c.activity.Downloading? ==> c.activity.reservation != id)
    ensures Untouched(c, Happened(c, e), id)
  {
    hide Unused, MakeRoom;
    if e.Evicted? && c.activity.Evicting? {
      var gone := c.(entries := c.entries - {c.activity.id}, activity := Idle);
      RoomCases(gone, c.activity.user, e.cancelled, None, e.token);
    }
  }

  lemma OthersSpare(c: Cache, e: Event, id: Id)
    requires !e.Reap? && !e.Lease? && !e.EndLease? && !e.Cleaned? && !e.Evicted? && !e.Downloaded?
    requires id in c.entries && !c.entries[id].retiring
    ensures Untouched(c, Happened(c, e), id)
  {
    hide Lists, MakeRoom, ReapTurn, Victim, Unused;
  }

  lemma NotBeingCleaned(c: Cache, id: Id)
    requires Sound(c) && id in c.entries && !c.entries[id].retiring
    ensures Cleaning(c) != Some(id) && (c.activity.Downloading? ==> c.activity.reservation != id)
  {
    assert IdSound(c, id);
  }

  lemma TurnSpares(c: Cache, cancelled: bool, victim: Option<Id>, token: Id, id: Id)
    requires c.activity.Reaping? && c.activity.cleaning.None? && Victim(c.entries, victim)
    requires id in c.entries && !c.entries[id].retiring && !Due(c, id)
    ensures Untouched(c, ReapTurn(c, cancelled, victim, token), id)
  {
  }

  function Until(c: Cache, events: seq<Event>, k: nat): Cache
    requires k <= |events|
  {
    Lived(c, events[..k])
  }

  /**
   * Over every run: a bundle that is in the cache stays there, with its file,
   * its user and its time, as long as it is never due: an unexpired one of an
   * open cache goes only while nobody leases it and both slots are taken.
   */
  lemma ValidBundleStays(left: set<Id>, before: seq<Event>, after: seq<Event>, id: Id)
    requires var c := Lived(Cold(left), before);
             && id in c.entries && !c.entries[id].retiring
             && forall k :: 0 <= k < |after| ==> !Due(Until(c, after, k), id)
    ensures var c := Lived(Cold(left), before);
            Untouched(c, Lived(c, after), id) && id in Lived(c, after).files
  {
    hide Sound, Lived, Happened, Due, Untouched, Until;
    ColdSound(left);
    LivedSound(Cold(left), before);
    var c := Lived(Cold(left), before);
    BundleStays(c, after, id);
    LivedSound(c, after);
    StaysOnDisk(c, Lived(c, after), id);
  }

  lemma StaysOnDisk(c: Cache, c': Cache, id: Id)
    requires Sound(c') && id in c.entries && Untouched(c, c', id)
    ensures id in c'.files
  {
    assert IdSound(c', id);
  }

  lemma {:induction false} BundleStays(c: Cache, after: seq<Event>, id: Id)
    requires Sound(c) && id in c.entries && !c.entries[id].retiring
    requires forall k :: 0 <= k < |after| ==> !Due(Until(c, after, k), id)
    ensures Untouched(c, Lived(c, after), id)
    decreases |after|
  {
    hide Sound, Happened, Due;
    if after != [] {
      var next := Happened(c, after[0]);
      assert Until(c, after, 0) == c;
      OnlyDueEntriesGo(c, after[0], id);
      HappenedSound(c, after[0]);
      forall k | 0 <= k < |after[1..]| ensures !Due(Until(next, after[1..], k), id) {
        assert after[..k + 1][1..] == after[1..][..k];
        assert Until(c, after, k + 1) == Until(next, after[1..], k);
      }
      BundleStays(next, after[1..], id);
    }
  }

  /** The guard is exact: while a removal is in flight, its entry may stand without its file. */
  lemma EntryWithoutFile()
    ensures exists events: seq<Event> ::
              var c := Lived(Cold({}), events);
              c.initialized && !c.failed && exists id :: id in c.entries && id !in c.files
  {
    hide Happened, Lived;
    var events := [
      Prepare("u", []), Reconciled(true, false, {}, []), Reap(false, None, 1), Appear, Downloaded(true, 5),
      Tick(9), Prepare("u", [1]), Reap(false, Some(1), 2), Vanish];
    WitnessRun(events);
  }

  lemma WitnessRun(events: seq<Event>)
    requires events == [
      Prepare("u", []), Reconciled(true, false, {}, []), Reap(false, None, 1), Appear, Downloaded(true, 5),
      Tick(9), Prepare("u", [1]), Reap(false, Some(1), 2), Vanish]
    ensures var c := Lived(Cold({}), events);
            c.initialized && !c.failed && 1 in c.entries && 1 !in c.files
  {
    var entry := Entry("u", 5, 0, false, false);
    var c5 := Cache(map[1 := entry], Idle, true, false, false, 0, {1}, multiset{});
    WitnessPrepares(c5, entry);
    WitnessReaps(c5, entry);
    hide Happened;
    Nine(Cold({}), events);
  }

  lemma WitnessPrepares(c5: Cache, entry: Entry)
    requires entry == Entry("u", 5, 0, false, false)
    requires c5 == Cache(map[1 := entry], Idle, true, false, false, 0, {1}, multiset{})
    ensures Happened(Happened(Happened(Happened(Happened(Cold({}),
              Prepare("u", [])), Reconciled(true, false, {}, [])), Reap(false, None, 1)), Appear),
              Downloaded(true, 5)) == c5
  {
    var c0 := Cold({});
    var c1 := c0.(activity := Reconciling("u"));
    var c2 := c1.(initialized := true, activity := Reaping(ForPrepare("u"), [], None));
    var c3 := c2.(activity := Downloading("u", 1));
    var c4 := c3.(files := {1});
    assert Happened(c0, Prepare("u", [])) == c1;
    assert Happened(c1, Reconciled(true, false, {}, [])) == c2;
    assert Happened(c2, Reap(false, None, 1)) == c3;
    assert {} + {1} == {1};
    assert Happened(c3, Appear) == c4;
    assert map[][1 := entry] == map[1 := entry];
    assert Happened(c4, Downloaded(true, 5)) == c5;
  }

  lemma WitnessReaps(c5: Cache, entry: Entry)
    requires entry == Entry("u", 5, 0, false, false)
    requires c5 == Cache(map[1 := entry], Idle, true, false, false, 0, {1}, multiset{})
    ensures var c := Happened(Happened(Happened(Happened(c5,
              Tick(9)), Prepare("u", [1])), Reap(false, Some(1), 2)), Vanish);
            c.initialized && !c.failed && 1 in c.entries && 1 !in c.files
  {
    var c6 := c5.(now := 9);
    var c7 := c6.(activity := Reaping(ForPrepare("u"), [1], None));
    assert Happened(c5, Tick(9)) == c6;
    assert Happened(c6, Prepare("u", [1])) == c7;
    assert Victim(c7.entries, Some(1));
    var c8 := c7.(entries := Retired(c7.entries, 1), activity := Reaping(ForPrepare("u"), [1], Some(1)));
    assert Happened(c7, Reap(false, Some(1), 2)) == c8;
  }

  lemma Nine(c: Cache, events: seq<Event>)
    requires |events| == 9
    ensures var c2 := Happened(Happened(c, events[0]), events[1]);
            var c4 := Happened(Happened(c2, events[2]), events[3]);
            var c6 := Happened(Happened(c4, events[4]), events[5]);
            Lived(c, events) == Happened(Happened(Happened(c6, events[6]), events[7]), events[8])
  {
    hide Happened;
    LivedTwo(c, events);
    var c2 := Happened(Happened(c, events[0]), events[1]);
    LivedTwo(c2, events[2..]);
    var c4 := Happened(Happened(c2, events[2]), events[3]);
    LivedTwo(c4, events[2..][2..]);
    var c6 := Happened(Happened(c4, events[4]), events[5]);
    LivedTwo(c6, events[2..][2..][2..]);
    assert |events[2..][2..][2..][2..]| == 1;
  }

  lemma LivedTwo(c: Cache, events: seq<Event>)
    requires |events| >= 2
    ensures Lived(c, events) == Lived(Happened(Happened(c, events[0]), events[1]), events[2..])
  {
    hide Happened;
    assert events[1..][1..] == events[2..];
  }
}
