/**
 * Moving an entry and its entities to a new identity of the same panel. The
 * entry and the entity registry are saved independently, so a restart can find
 * either one ahead of the other; loading finishes or refuses what it finds.
 */
module Identity {
  import opened Wrappers

  type Did = string
  type EntryId = nat
  type EntityId = nat

  /** An entity's unique id: one the integration made under an identity, or any other. */
  datatype Uid = Native(did: Did, suffix: string) | Foreign(text: string)

  datatype Record = Record(owner: EntryId, platformOurs: bool, domain: string, uid: Uid)

  datatype Pending = Pending(did: Did, legacy: Option<Did>, address: string)

  datatype Entry = Entry(
    identity: Option<Did>,
    installation: bool,
    previous: Option<Did>,
    pending: Option<Pending>,
    link: Option<Did>,            // the legacy identity the panel reported beside its own
    cutover: Option<Did>,
    address: string)

  datatype Health = Health(did: Option<Did>, installation: bool, legacy: Option<Did>)

  type Registry = map<EntityId, Record>

  /** Both stores, as they are in memory or as they are found on disk. */
  datatype Home = Home(entries: map<EntryId, Entry>, registry: Registry)

  // ------------------------------------------------------------------ what is there

  predicate Owned(reg: Registry, e: EntityId, id: EntryId) {
    e in reg && reg[e].owner == id && reg[e].platformOurs
  }

  predicate Under(reg: Registry, e: EntityId, id: EntryId, did: Did) {
    Owned(reg, e, id) && reg[e].uid.Native? && reg[e].uid.did == did
  }

  function NativeIdentities(reg: Registry, id: EntryId): set<Did> {
    set e | e in reg && Owned(reg, e, id) && reg[e].uid.Native? :: reg[e].uid.did
  }

  predicate Available(h: Home, id: EntryId, did: Did) {
    forall other :: other in h.entries && other != id ==> h.entries[other].identity != Some(did)
  }

  /** The registry never holds one unique id twice in one domain of one platform. */
  predicate UniqueIds(reg: Registry) {
    forall a, b :: a in reg && b in reg && a != b
      && reg[a].domain == reg[b].domain && reg[a].platformOurs == reg[b].platformOurs
      ==> reg[a].uid != reg[b].uid
  }

  predicate Holds(reg: Registry, e: EntityId, domain: string, uid: Uid) {
    e in reg && reg[e].platformOurs && reg[e].domain == domain && reg[e].uid == uid
  }

  /** Nobody else holds the id this entity is to take under the new identity. */
  predicate FreeFor(reg: Registry, e: EntityId, did: Did)
    requires e in reg && reg[e].uid.Native?
  {
    forall k :: k in reg && Holds(reg, k, reg[e].domain, Native(did, reg[e].uid.suffix)) ==> k == e
  }

  predicate AllFree(reg: Registry, id: EntryId, from: Did, to: Did) {
    forall e :: e in reg && Under(reg, e, id, from) ==> FreeFor(reg, e, to)
  }

  // ---------------------------------------------------------------------- rekeying

  function Moved(r: Record, to: Did): Record
    requires r.uid.Native?
  {
    r.(uid := Native(to, r.uid.suffix))
  }

  /** Every entity of the entry under `from` is renamed to `to`, suffix kept. */
  function Rekeyed(reg: Registry, id: EntryId, from: Did, to: Did): Registry {
    map e | e in reg :: if Under(reg, e, id, from) then Moved(reg[e], to) else reg[e]
  }

  function Committed(e: Entry, did: Did): Entry
    requires e.identity.Some?
  {
    e.(identity := Some(did), installation := true, previous := e.identity, pending := None,
       cutover := if e.cutover == e.identity then Some(did) else e.cutover)
  }

  /** Rekey the entities, then commit the entry. */
  function Commit(h: Home, id: EntryId, did: Did): Home
    requires id in h.entries && h.entries[id].identity.Some?
  {
    Home(h.entries[id := Committed(h.entries[id], did)],
         Rekeyed(h.registry, id, h.entries[id].identity.value, did))
  }

  /** Whether an entry may move to a new identity without touching anyone else's. */
  predicate Movable(h: Home, id: EntryId, did: Did)
    requires id in h.entries
  {
    && h.entries[id].identity.Some?
    && did != h.entries[id].identity.value
    && Available(h, id, did)
    && NativeIdentities(h.registry, id) <= {h.entries[id].identity.value, did}
    && AllFree(h.registry, id, h.entries[id].identity.value, did)
  }

  // ------------------------------------------------------------------- reconciling

  /** The registry carries one identity that the entry has never committed. */
  ghost predicate RanAhead(h: Home, id: EntryId, ahead: Did)
    requires id in h.entries
  {
    var e := h.entries[id];
    && e.installation && e.identity.Some?
    && NativeIdentities(h.registry, id) == {ahead}
    && e.identity != Some(ahead) && e.previous != Some(ahead)
    && Available(h, id, ahead)
  }

  /** What loading an entry makes of the two stores. */
  ghost function Reconciled(h: Home, id: EntryId): (Home, bool)
    requires id in h.entries
  {
    var e := h.entries[id];
    var recorded := NativeIdentities(h.registry, id);
    if exists ahead :: RanAhead(h, id, ahead) then
      var ahead :| RanAhead(h, id, ahead);
      (Commit(h, id, ahead), true)
    else if e.previous.None? || !e.installation then
      (h, if e.identity.Some? then recorded <= {e.identity.value} else recorded == {})
    else if e.identity.None? || !Available(h, id, e.identity.value) then (h, false)
    else if !(recorded <= {e.previous.value, e.identity.value}) then (h, false)
    else if !AllFree(h.registry, id, e.previous.value, e.identity.value) then (h, false)
    else (h.(registry := Rekeyed(h.registry, id, e.previous.value, e.identity.value)), true)
  }

  // ---------------------------------------------------------------- accepting health

  function Accepted(e: Entry, health: Health): Entry {
    e.(installation := e.installation || health.installation,
       link := if health.legacy.Some? then health.legacy else e.link)
  }

  /** The identity an old entry without one can be read to have, if there is one answer. */
  function RecordedIdentities(h: Home, id: EntryId): set<Did>
    requires id in h.entries
  {
    NativeIdentities(h.registry, id)
    + (if h.entries[id].cutover.Some? then {h.entries[id].cutover.value} else {})
  }

  /** An accepted entry takes its link from every other whose own panel no longer answers. */
  function LinkClaimed(entries: map<EntryId, Entry>, id: EntryId, answering: set<EntryId>)
    : map<EntryId, Entry>
    requires id in entries
  {
    map k | k in entries ::
      if entries[id].link.Some? && k != id && entries[k].link == entries[id].link && k !in answering
      then entries[k].(link := None) else entries[k]
  }

  predicate MigrationCandidate(e: Entry, health: Health) {
    && !e.installation && e.identity.Some? && health.installation && health.did.Some?
    && health.did != e.identity && health.legacy == e.identity
  }

  predicate LinkedReinstall(h: Home, id: EntryId, health: Health)
    requires id in h.entries
  {
    var e := h.entries[id];
    && e.installation && e.identity.Some? && health.installation && health.did.Some?
    && health.did != e.identity && health.legacy.Some? && e.link == health.legacy
    && Available(h, id, health.did.value)
  }

  predicate LinkShared(h: Home, id: EntryId, link: Option<Did>) {
    exists k :: k in h.entries && k != id && h.entries[k].link == link
  }

  predicate CanConfirm(h: Home, id: EntryId, health: Health)
    requires id in h.entries
  {
    var e := h.entries[id];
    && MigrationCandidate(e, health)
    && (e.pending.Some? ==> e.pending.value == Pending(health.did.value, e.identity, e.address))
    && Movable(h, id, health.did.value)
  }

  /** What else the outside world knows when a health line arrives. */
  datatype Witness = Witness(
    priorInstallation: bool,        // MQTT records prove the migrated panel
    operationFree: bool,            // no update or removal holds the panel
    answering: set<EntryId>)        // entries whose own panel answers

  /** Admit a health line for an entry, adopting a new identity where one is proven. */
  function Admitted(h0: Home, id: EntryId, health: Health, w: Witness): (Home, bool)
    requires id in h0.entries
  {
    var recorded := RecordedIdentities(h0, id);
    if h0.entries[id].identity.None? && |recorded| > 1 then (h0, false)
    else Weighed(Named(h0, id), id, health, w)
  }

  /** The verdict on an entry that has the name its records give it. */
  function Weighed(h: Home, id: EntryId, health: Health, w: Witness): (Home, bool)
    requires id in h.entries
  {
    var e := h.entries[id];
    if e.pending.Some? then
      if health.did.Some? && e.pending.value == Pending(health.did.value, health.legacy, e.address)
         && CanConfirm(h, id, health)
      then (Commit(h, id, health.did.value), true)
      else (h, false)
    else if e.identity.None? then
      if health.did.None? then (h, true)
      else if !Available(h, id, health.did.value) then (h, false)
      else
        var taken := h.entries[id := Accepted(e, health).(identity := health.did)];
        (h.(entries := LinkClaimed(taken, id, w.answering)), true)
    else if health.did == e.identity then
      (h.(entries := LinkClaimed(h.entries[id := Accepted(e, health)], id, w.answering)), true)
    else if MigrationCandidate(e, health) && w.priorInstallation && CanConfirm(h, id, health) then
      (Commit(h, id, health.did.value), true)
    else if LinkedReinstall(h, id, health) && !LinkShared(h, id, health.legacy)
            && w.operationFree && Movable(h, id, health.did.value) then
      (Commit(h, id, health.did.value), true)
    else (h, false)
  }

  /** An old entry takes the one identity its own records agree on. */
  function Named(h: Home, id: EntryId): Home
    requires id in h.entries
  {
    var recorded := RecordedIdentities(h, id);
    if h.entries[id].identity.None? && |recorded| == 1 then
      OnlyOne(recorded);
      var did :| did in recorded;
      h.(entries := h.entries[id := h.entries[id].(identity := Some(did))])
    else h
  }

  lemma OnlyOne(s: set<Did>)
    requires |s| == 1
    ensures exists d :: d in s
    ensures forall a, b :: a in s && b in s ==> a == b
  {
    var d :| d in s;
    assert |s - {d}| == 0;
  }

  // -------------------------------------------------------------------- what it means

  /** Every native entity of the entry is made under the identity the entry has. */
  predicate Settled(h: Home, id: EntryId) {
    id in h.entries && h.entries[id].identity.Some?
    && NativeIdentities(h.registry, id) <= {h.entries[id].identity.value}
  }

  /** The same entities with the same owners and suffixes; only identities may differ. */
  predicate Preserved(a: Registry, b: Registry, id: EntryId) {
    && a.Keys == b.Keys
    && (forall e :: e in a ==>
          && b[e].owner == a[e].owner && b[e].domain == a[e].domain
          && b[e].platformOurs == a[e].platformOurs
          && (if Owned(a, e, id) && a[e].uid.Native?
              then b[e].uid.Native? && b[e].uid.suffix == a[e].uid.suffix
              else b[e] == a[e]))
  }

  lemma RekeyedPreserves(reg: Registry, id: EntryId, from: Did, to: Did)
    ensures Preserved(reg, Rekeyed(reg, id, from, to), id)
    ensures NativeIdentities(reg, id) <= {from, to} ==>
              NativeIdentities(Rekeyed(reg, id, from, to), id) <= {to}
  {
    if NativeIdentities(reg, id) <= {from, to} {
      assert forall e :: e in reg && Owned(reg, e, id) && reg[e].uid.Native? ==>
        reg[e].uid.did in NativeIdentities(reg, id);
    }
  }

  /** A rename that is free for every entity never makes two entities share an id. */
  lemma RekeyedUnique(reg: Registry, id: EntryId, from: Did, to: Did)
    requires UniqueIds(reg) && AllFree(reg, id, from, to)
    ensures UniqueIds(Rekeyed(reg, id, from, to))
  {
    var next := Rekeyed(reg, id, from, to);
    forall a, b | a in next && b in next && a != b
      && next[a].domain == next[b].domain && next[a].platformOurs == next[b].platformOurs
      ensures next[a].uid != next[b].uid
    {
      assert Under(reg, a, id, from) ==> FreeFor(reg, a, to);
      assert Under(reg, b, id, from) ==> FreeFor(reg, b, to);
      assert reg[a].uid != reg[b].uid;
    }
  }

  /**
   * Loading never guesses. True means that every native entity now carries the
   * entry's identity, each with the suffix it had; false means that nothing at
   * all was changed.
   */
  lemma ReconcileIsAllOrNothing(h: Home, id: EntryId)
    requires id in h.entries && UniqueIds(h.registry)
    ensures var (h', ok) := Reconciled(h, id);
            && (ok ==>
                  && (h.entries[id].identity.Some? ==> Settled(h', id))
                  && (h.entries[id].identity.None? ==> NativeIdentities(h'.registry, id) == {})
                  && Preserved(h.registry, h'.registry, id) && UniqueIds(h'.registry)
                  && (forall k :: k in h.entries && k != id ==>
                        k in h'.entries && h'.entries[k] == h.entries[k]))
            && (!ok ==> h' == h)
  {
    var e := h.entries[id];
    if ahead :| RanAhead(h, id, ahead) {
      RekeyedPreserves(h.registry, id, e.identity.value, ahead);
      NothingUnder(h.registry, id, e.identity.value, ahead);
    } else if e.previous.Some? && e.identity.Some? {
      RekeyedPreserves(h.registry, id, e.previous.value, e.identity.value);
      if AllFree(h.registry, id, e.previous.value, e.identity.value) {
        RekeyedUnique(h.registry, id, e.previous.value, e.identity.value);
      }
    }
  }

  /** With no entity under an identity, rekeying it changes nothing. */
  lemma NothingUnder(reg: Registry, id: EntryId, from: Did, other: Did)
    requires NativeIdentities(reg, id) <= {other} && from != other
    ensures Rekeyed(reg, id, from, other) == reg
  {
    assert forall e :: e in reg && Under(reg, e, id, from) ==> reg[e].uid.did in NativeIdentities(reg, id);
  }

  // ------------------------------------------------------- the four ways to be on disk

  /** An entry that owns its identity alone and whose entities all carry it. */
  predicate InOrder(h: Home, id: EntryId) {
    && Settled(h, id)
    && h.entries[id].installation
    && Available(h, id, h.entries[id].identity.value)
    && UniqueIds(h.registry)
  }

  /** Neither store, or both, or just one of them, was saved after a rekey. */
  function OnDisk(before: Home, after: Home, entrySaved: bool, registrySaved: bool): Home {
    Home(if entrySaved then after.entries else before.entries,
         if registrySaved then after.registry else before.registry)
  }

  /** Whichever of the two stores reached the disk after a reinstall rekey, loading settles it. */
  lemma RekeyIsRecoverable(h: Home, id: EntryId, did: Did, entrySaved: bool, registrySaved: bool)
    requires InOrder(h, id) && Movable(h, id, did)
    ensures var found := OnDisk(h, Commit(h, id, did), entrySaved, registrySaved);
            id in found.entries && Reconciled(found, id).1 && Settled(Reconciled(found, id).0, id)
  {
    var after := Commit(h, id, did);
    var found := OnDisk(h, after, entrySaved, registrySaved);
    var own := h.entries[id].identity.value;
    RekeyedPreserves(h.registry, id, own, did);
    RekeyedUnique(h.registry, id, own, did);
    RekeyedNatives(h.registry, id, own, did);
    if registrySaved {
      FoundAfter(h, id, did, found, entrySaved);
    } else {
      FoundBefore(h, id, did, found, entrySaved);
    }
    ReconcileIsAllOrNothing(found, id);
  }

  lemma RekeyedNatives(reg: Registry, id: EntryId, from: Did, to: Did)
    requires NativeIdentities(reg, id) <= {from} && from != to
    ensures NativeIdentities(reg, id) == {} ==> Rekeyed(reg, id, from, to) == reg
    ensures NativeIdentities(reg, id) != {} ==> NativeIdentities(Rekeyed(reg, id, from, to), id) == {to}
  {
    var next := Rekeyed(reg, id, from, to);
    RekeyedPreserves(reg, id, from, to);
    if d :| d in NativeIdentities(reg, id) {
      var e :| e in reg && Owned(reg, e, id) && reg[e].uid.Native? && reg[e].uid.did == d;
      assert next[e].uid.did in NativeIdentities(next, id);
    } else {
      NothingUnder(reg, id, from, to);
    }
  }

  /** Nothing of the entry is under an identity other than the ones it is known to carry. */
  lemma FreeWhenAbsent(reg: Registry, id: EntryId, from: Did, to: Did, only: Did)
    requires NativeIdentities(reg, id) <= {only} && from != only
    ensures AllFree(reg, id, from, to)
  {
    assert forall e :: e in reg && Under(reg, e, id, from) ==> reg[e].uid.did in NativeIdentities(reg, id);
  }

  lemma FoundBefore(h: Home, id: EntryId, did: Did, found: Home, entrySaved: bool)
    requires InOrder(h, id) && Movable(h, id, did)
    requires found == OnDisk(h, Commit(h, id, did), entrySaved, false)
    ensures Reconciled(found, id).1
  {
    var own := h.entries[id].identity.value;
    var e := found.entries[id];
    assert forall ahead :: !RanAhead(found, id, ahead);
    if !entrySaved && e.previous.Some? {
      if e.previous == Some(own) {
        SameIsFree(found.registry, id, own);
      } else {
        FreeWhenAbsent(found.registry, id, e.previous.value, own, own);
      }
    }
  }

  lemma SameIsFree(reg: Registry, id: EntryId, did: Did)
    requires UniqueIds(reg)
    ensures AllFree(reg, id, did, did)
  {
  }

  lemma FoundAfter(h: Home, id: EntryId, did: Did, found: Home, entrySaved: bool)
    requires InOrder(h, id) && Movable(h, id, did)
    requires found == OnDisk(h, Commit(h, id, did), entrySaved, true)
    ensures Reconciled(found, id).1
  {
    var own := h.entries[id].identity.value;
    var e := found.entries[id];
    RekeyedPreserves(h.registry, id, own, did);
    RekeyedNatives(h.registry, id, own, did);
    if entrySaved {
      assert forall ahead :: !RanAhead(found, id, ahead);
      FreeWhenAbsent(found.registry, id, own, did, did);
    } else if NativeIdentities(h.registry, id) == {} {
      FoundBefore(h, id, did, found, false);
    } else if e.previous == Some(did) {
      RekeyBackIsFree(h.registry, id, own, did);
    } else {
      assert Available(found, id, did);
      assert RanAhead(found, id, did);
    }
  }

  /** A rekey can always be taken back: nobody took the old ids in between. */
  lemma RekeyBackIsFree(reg: Registry, id: EntryId, own: Did, did: Did)
    requires UniqueIds(reg) && NativeIdentities(reg, id) <= {own} && own != did
    ensures AllFree(Rekeyed(reg, id, own, did), id, did, own)
  {
    var next := Rekeyed(reg, id, own, did);
    assert forall e :: e in reg && Owned(reg, e, id) && reg[e].uid.Native? ==>
      reg[e].uid.did in NativeIdentities(reg, id);
    forall e | e in next && Under(next, e, id, did)
      ensures FreeFor(next, e, own)
    {
      assert Under(reg, e, id, own);
    }
  }

  /** A store's state before two rekeys in a row, between them, or after both. */
  datatype Version = First | Second | Third

  function At(h: Home, h1: Home, h2: Home, v: Version): Home {
    match v case First => h case Second => h1 case Third => h2
  }

  lemma CommitInOrder(h: Home, id: EntryId, did: Did)
    requires InOrder(h, id) && Movable(h, id, did)
    ensures InOrder(Commit(h, id, did), id)
  {
    var own := h.entries[id].identity.value;
    RekeyedPreserves(h.registry, id, own, did);
    RekeyedUnique(h.registry, id, own, did);
  }

  /** The registry took both rekeys and the entry neither. */
  lemma RegistryTwoAhead(h: Home, id: EntryId, b: Did, c: Did)
    requires InOrder(h, id) && Movable(h, id, b) && Movable(Commit(h, id, b), id, c)
    ensures Reconciled(Home(h.entries, Commit(Commit(h, id, b), id, c).registry), id).1
  {
    var own := h.entries[id].identity.value;
    var h1 := Commit(h, id, b);
    CommitInOrder(h, id, b);
    var found := Home(h.entries, Commit(h1, id, c).registry);
    RekeyedNatives(h.registry, id, own, b);
    RekeyedNatives(h1.registry, id, b, c);
    RekeyedUnique(h1.registry, id, b, c);
    if NativeIdentities(h.registry, id) == {} || own == c {
      FoundUnder(found, id, own);
    } else {
      assert forall other :: other in h.entries && other != id ==>
        other in h1.entries && h1.entries[other] == h.entries[other];
      assert Available(found, id, c);
      if h.entries[id].previous == Some(c) {
        RekeyedTwice(h.registry, id, own, b, c);
        RekeyBackIsFree(h.registry, id, own, c);
      } else {
        assert RanAhead(found, id, c);
      }
    }
  }

  /** An entry that finds its entities under its own identity has nothing to settle. */
  lemma FoundUnder(found: Home, id: EntryId, own: Did)
    requires InOrder(found, id) && found.entries[id].identity == Some(own)
    ensures Reconciled(found, id).1
  {
    assert forall ahead :: !RanAhead(found, id, ahead);
    var e := found.entries[id];
    if e.previous == Some(own) { SameIsFree(found.registry, id, own); }
    else if e.previous.Some? { FreeWhenAbsent(found.registry, id, e.previous.value, own, own); }
  }

  lemma RekeyedTwice(reg: Registry, id: EntryId, own: Did, b: Did, c: Did)
    requires NativeIdentities(reg, id) <= {own} && own != b && b != c
    ensures Rekeyed(Rekeyed(reg, id, own, b), id, b, c) == Rekeyed(reg, id, own, c)
  {
    assert forall e :: e in reg && Owned(reg, e, id) && reg[e].uid.Native? ==>
      reg[e].uid.did in NativeIdentities(reg, id);
  }

  lemma TwiceUnique(h: Home, id: EntryId, b: Did, c: Did)
    requires InOrder(h, id) && Movable(h, id, b) && Movable(Commit(h, id, b), id, c)
    ensures UniqueIds(Commit(Commit(h, id, b), id, c).registry)
  {
    hide UniqueIds, AllFree, Rekeyed, NativeIdentities;
    CommitInOrder(h, id, b);
    CommitInOrder(Commit(h, id, b), id, c);
  }

  /** The entry took both rekeys and the registry neither: the older of the two wins. */
  lemma EntryTwoAhead(h: Home, id: EntryId, b: Did, c: Did)
    requires InOrder(h, id) && Movable(h, id, b) && Movable(Commit(h, id, b), id, c)
    ensures var found := Home(Commit(Commit(h, id, b), id, c).entries, h.registry);
            && Reconciled(found, id).1
            && (NativeIdentities(h.registry, id) != {} && c != h.entries[id].identity.value ==>
                  Reconciled(found, id).0.entries[id].identity == h.entries[id].identity)
  {
    var own := h.entries[id].identity.value;
    var found := Home(Commit(Commit(h, id, b), id, c).entries, h.registry);
    if NativeIdentities(h.registry, id) == {} || own == c {
      FoundUnder(found, id, c);
    } else {
      assert NativeIdentities(found.registry, id) == {own};
      assert RanAhead(found, id, own);
    }
  }

  /**
   * Two rekeys in a row: whichever versions of the two stores are found, loading
   * settles them. It does not always go forward: an entry two ahead of its
   * entities is taken back to the identity these still carry.
   */
  lemma TwoRekeysRecover(h: Home, id: EntryId, b: Did, c: Did, entry: Version, registry: Version)
    requires InOrder(h, id) && Movable(h, id, b) && Movable(Commit(h, id, b), id, c)
    ensures var h1 := Commit(h, id, b);
            var h2 := Commit(h1, id, c);
            var found := Home(At(h, h1, h2, entry).entries, At(h, h1, h2, registry).registry);
            && Reconciled(found, id).1 && Settled(Reconciled(found, id).0, id)
            && (entry.Third? && registry.First? && NativeIdentities(h.registry, id) != {}
                && c != h.entries[id].identity.value ==>
                  Reconciled(found, id).0.entries[id].identity == h.entries[id].identity)
  {
    hide Reconciled, UniqueIds, AllFree, Rekeyed, NativeIdentities;
    var h1 := Commit(h, id, b);
    var h2 := Commit(h1, id, c);
    CommitInOrder(h, id, b);
    var found := Home(At(h, h1, h2, entry).entries, At(h, h1, h2, registry).registry);
    if entry.First? && registry.Third? {
      RegistryTwoAhead(h, id, b, c);
      TwiceUnique(h, id, b, c);
      ReconcileIsAllOrNothing(found, id);
    } else if entry.Third? && registry.First? {
      EntryTwoAhead(h, id, b, c);
      ReconcileIsAllOrNothing(found, id);
    } else if entry.Third? || registry.Third? {
      assert found == OnDisk(h1, h2, entry.Third?, registry.Third?);
      RekeyIsRecoverable(h1, id, c, entry.Third?, registry.Third?);
    } else {
      assert found == OnDisk(h, h1, entry.Second?, registry.Second?);
      RekeyIsRecoverable(h, id, b, entry.Second?, registry.Second?);
    }
  }

  // ------------------------------------------------------------------------ whole runs

  /** Entities never contradict their entry: an entry with an identity has no others under it. */
  ghost predicate Consistent(h: Home) {
    && UniqueIds(h.registry)
    && (forall id :: id in h.entries && h.entries[id].identity.Some? ==> Settled(h, id))
  }

  lemma CommitConsistent(h: Home, id: EntryId, did: Did)
    requires Consistent(h) && id in h.entries && Movable(h, id, did)
    ensures Consistent(Commit(h, id, did))
  {
    var own := h.entries[id].identity.value;
    var h' := Commit(h, id, did);
    RekeyedPreserves(h.registry, id, own, did);
    RekeyedUnique(h.registry, id, own, did);
    forall k | k in h'.entries && h'.entries[k].identity.Some?
      ensures Settled(h', k)
    {
      if k != id {
        assert Settled(h, k);
        OthersNatives(h.registry, id, own, did, k);
      }
    }
  }

  lemma OthersNatives(reg: Registry, id: EntryId, from: Did, to: Did, k: EntryId)
    requires k != id
    ensures NativeIdentities(Rekeyed(reg, id, from, to), k) == NativeIdentities(reg, k)
  {
    var next := Rekeyed(reg, id, from, to);
    assert forall e :: e in reg && Owned(reg, e, k) ==> next[e] == reg[e];
  }

  /** Entries that keep their identities keep them whatever else changes in them. */
  lemma EntriesConsistent(h: Home, entries: map<EntryId, Entry>)
    requires Consistent(h) && entries.Keys == h.entries.Keys
    requires forall k :: k in entries && entries[k].identity.Some? ==>
               entries[k].identity == h.entries[k].identity
               || NativeIdentities(h.registry, k) <= {entries[k].identity.value}
    ensures Consistent(h.(entries := entries))
  {
    forall k | k in entries && entries[k].identity.Some?
      ensures Settled(h.(entries := entries), k)
    {
      if entries[k].identity == h.entries[k].identity { assert Settled(h, k); }
    }
  }

  lemma NamedConsistent(h: Home, id: EntryId)
    requires Consistent(h) && id in h.entries
    requires h.entries[id].identity.None? ==> |RecordedIdentities(h, id)| <= 1
    ensures Consistent(Named(h, id))
    ensures Named(h, id).entries[id].identity.None? ==> NativeIdentities(h.registry, id) == {}
  {
    var recorded := RecordedIdentities(h, id);
    if h.entries[id].identity.None? {
      if |recorded| == 1 {
        OnlyOne(recorded);
        var did := Named(h, id).entries[id].identity.value;
        assert did in recorded;
        assert NativeIdentities(h.registry, id) <= {did};
        EntriesConsistent(h, Named(h, id).entries);
      } else {
        assert |recorded| == 0;
        assert NativeIdentities(h.registry, id) <= recorded;
      }
    }
  }

  /** Admitting a health line never leaves an entity behind under another identity. */
  lemma AdmitConsistent(h: Home, id: EntryId, health: Health, w: Witness)
    requires Consistent(h) && id in h.entries
    ensures Consistent(Admitted(h, id, health, w).0)
  {
    var recorded := RecordedIdentities(h, id);
    if !(h.entries[id].identity.None? && |recorded| > 1) {
      NamedConsistent(h, id);
      var n := Named(h, id);
      var e := n.entries[id];
      hide Consistent, Named, NativeIdentities, RecordedIdentities;
      if health.did.Some? && Movable(n, id, health.did.value) {
        CommitConsistent(n, id, health.did.value);
      }
      AcceptConsistent(n, id, health, w);
    }
  }

  lemma AcceptConsistent(h: Home, id: EntryId, health: Health, w: Witness)
    requires Consistent(h) && id in h.entries
    requires h.entries[id].identity.None? ==> NativeIdentities(h.registry, id) == {}
    ensures var e := h.entries[id];
            && (e.identity.None? && health.did.Some? ==>
                  Consistent(h.(entries := LinkClaimed(
                    h.entries[id := Accepted(e, health).(identity := health.did)], id, w.answering))))
            && Consistent(h.(entries := LinkClaimed(h.entries[id := Accepted(e, health)], id, w.answering)))
  {
    hide Consistent, NativeIdentities;
    var e := h.entries[id];
    if e.identity.None? && health.did.Some? {
      EntriesConsistent(h, LinkClaimed(
        h.entries[id := Accepted(e, health).(identity := health.did)], id, w.answering));
    }
    EntriesConsistent(h, LinkClaimed(h.entries[id := Accepted(e, health)], id, w.answering));
  }

  /**
   * A first adoption of the installation protocol is only three ways
   * recoverable: with the renamed entities saved and the entry not, loading
   * refuses rather than trust an identity the entry never vouched for.
   */
  lemma MigrationRecovers(h: Home, id: EntryId, did: Did, entrySaved: bool, registrySaved: bool)
    requires Settled(h, id) && UniqueIds(h.registry) && Movable(h, id, did)
    requires !h.entries[id].installation
    ensures var found := OnDisk(h, Commit(h, id, did), entrySaved, registrySaved);
            Reconciled(found, id).1 <==>
              entrySaved || !registrySaved || NativeIdentities(h.registry, id) == {}
  {
    var own := h.entries[id].identity.value;
    var found := OnDisk(h, Commit(h, id, did), entrySaved, registrySaved);
    RekeyedPreserves(h.registry, id, own, did);
    RekeyedNatives(h.registry, id, own, did);
    if entrySaved {
      assert forall ahead :: !RanAhead(found, id, ahead);
      if registrySaved { FreeWhenAbsent(found.registry, id, own, did, did); }
    }
  }

  datatype Event =
    | HealthLine(id: EntryId, health: Health, evidence: Witness)
    | Load(id: EntryId)
    | NewEntity(id: EntryId, entity: EntityId, domain: string, suffix: string)
    | NewEntry(id: EntryId, address: string)

  ghost function Happened(h: Home, e: Event): Home {
    match e
    case HealthLine(id, health, w) => if id in h.entries then Admitted(h, id, health, w).0 else h
    case Load(id) => if id in h.entries then Reconciled(h, id).0 else h
    case NewEntity(id, entity, domain, suffix) =>
      if id in h.entries && h.entries[id].identity.Some? && entity !in h.registry
         && (forall k :: k in h.registry ==>
               !Holds(h.registry, k, domain, Native(h.entries[id].identity.value, suffix)))
      then h.(registry := h.registry[entity :=
                Record(id, true, domain, Native(h.entries[id].identity.value, suffix))])
      else h
    case NewEntry(id, address) =>
      if id in h.entries || NativeIdentities(h.registry, id) != {} then h
      else h.(entries := h.entries[id := Entry(None, false, None, None, None, None, address)])
  }

  ghost function History(h: Home, events: seq<Event>): Home
    decreases |events|
  {
    if events == [] then h else History(Happened(h, events[0]), events[1..])
  }

  lemma NewEntityConsistent(h: Home, e: Event)
    requires Consistent(h) && e.NewEntity?
    ensures Consistent(Happened(h, e))
  {
    var h' := Happened(h, e);
    if h' != h {
      forall k | k in h'.entries && h'.entries[k].identity.Some?
        ensures Settled(h', k)
      {
        assert Settled(h, k);
        assert forall x :: x in h.registry && Owned(h.registry, x, k) && h.registry[x].uid.Native? ==>
          h.registry[x].uid.did in NativeIdentities(h.registry, k);
      }
    }
  }

  lemma NewEntryConsistent(h: Home, e: Event)
    requires Consistent(h) && e.NewEntry?
    ensures Consistent(Happened(h, e))
  {
    var h' := Happened(h, e);
    forall k | k in h'.entries && h'.entries[k].identity.Some?
      ensures Settled(h', k)
    {
      assert Settled(h, k);
    }
  }

  lemma LoadConsistent(h: Home, id: EntryId)
    requires Consistent(h) && id in h.entries
    ensures Consistent(Reconciled(h, id).0)
  {
    var (h', ok) := Reconciled(h, id);
    ReconcileIsAllOrNothing(h, id);
    if ok {
      forall k | k in h'.entries && h'.entries[k].identity.Some?
        ensures Settled(h', k)
      {
        if k != id {
          assert Settled(h, k);
          PreservedNatives(h.registry, h'.registry, id, k);
        } else {
          LoadKeepsNameless(h, id);
        }
      }
    }
  }

  lemma PreservedNatives(a: Registry, b: Registry, id: EntryId, k: EntryId)
    requires Preserved(a, b, id) && k != id
    ensures NativeIdentities(b, k) == NativeIdentities(a, k)
  {
    assert forall e :: e in a && Owned(a, e, k) ==> b[e] == a[e];
    assert forall e :: e in b && Owned(b, e, k) ==> Owned(a, e, k);
  }

  lemma LoadKeepsNameless(h: Home, id: EntryId)
    requires id in h.entries
    ensures id in Reconciled(h, id).0.entries
    ensures h.entries[id].identity.None? ==> Reconciled(h, id).0.entries[id].identity.None?
  {
  }

  /**
   * Over every run of health lines, loads and new entities, no entry with an
   * identity ever owns a native entity made under another one, and no two
   * entities ever share a unique id.
   */
  lemma {:induction false} IdentityIsKept(h: Home, events: seq<Event>)
    requires Consistent(h)
    ensures Consistent(History(h, events))
    decreases |events|
  {
    hide Consistent, Happened;
    if events != [] {
      EventConsistent(h, events[0]);
      IdentityIsKept(Happened(h, events[0]), events[1..]);
    }
  }

  lemma EventConsistent(h: Home, e: Event)
    requires Consistent(h)
    ensures Consistent(Happened(h, e))
  {
    hide Consistent, Admitted, Reconciled, NativeIdentities;
    match e {
      case HealthLine(id, health, w) => if id in h.entries { AdmitConsistent(h, id, health, w); }
      case Load(id) => if id in h.entries { LoadConsistent(h, id); }
      case NewEntity(_, _, _, _) => NewEntityConsistent(h, e);
      case NewEntry(_, _) => NewEntryConsistent(h, e);
    }
  }

  /** An entry that has no identity, or would have one, is not yet at odds with its own records. */
  predicate Nameable(h: Home, id: EntryId)
    requires id in h.entries
  {
    h.entries[id].identity.None? ==> |RecordedIdentities(h, id)| <= 1
  }

  /** The health line names the entry's own panel, or the first panel an unnamed entry meets. */
  predicate OwnPanel(n: Home, id: EntryId, health: Health)
    requires id in n.entries
  {
    var e := n.entries[id];
    && e.pending.None?
    && (e.identity == health.did || (e.identity.None? && Available(n, id, health.did.value)))
  }

  /** What ties a panel that answers under another identity to the entry. */
  predicate Tied(n: Home, id: EntryId, health: Health)
    requires id in n.entries
  {
    var e := n.entries[id];
    && e.identity.Some? && health.installation && health.did.Some? && health.legacy.Some?
    && (if e.installation then health.legacy == e.link && !LinkShared(n, id, health.legacy)
        else health.legacy == e.identity)
  }

  /** What lets the tie be followed now: a move begun before, its MQTT records, or a free panel. */
  predicate Timely(n: Home, id: EntryId, health: Health, w: Witness)
    requires id in n.entries && health.did.Some?
  {
    var e := n.entries[id];
    match e.pending
    case Some(p) => p == Pending(health.did.value, health.legacy, e.address) && !e.installation
    case None => if e.installation then w.operationFree else w.priorInstallation
  }

  /**
   * What the verdict means. A health line is accepted exactly if it comes from
   * the entry's own panel, or from one tied to it that may take its place; then
   * that panel is the one the entry names. A rejection leaves everything as it
   * was, but for a name the entry had recorded itself.
   */
  lemma VerdictIsTheIdentity(h: Home, id: EntryId, health: Health, w: Witness)
    requires id in h.entries
    ensures var (h', ok) := Admitted(h, id, health, w);
            var n := Named(h, id);
            && id in h'.entries
            && (ok <==> && Nameable(h, id)
                        && (|| OwnPanel(n, id, health)
                            || (&& Tied(n, id, health) && Timely(n, id, health, w)
                                && Movable(n, id, health.did.value))))
            && (ok ==> h'.entries[id].identity == health.did && h'.entries[id].pending.None?)
            && (!ok ==> h' == h || h' == n)
  {
    hide Weighed, RecordedIdentities, Named;
    NamedOnlyNames(h, id);
    WeighedVerdict(Named(h, id), id, health, w);
    hide OwnPanel, Tied, Timely, Movable;
  }

  lemma WeighedVerdict(n: Home, id: EntryId, health: Health, w: Witness)
    requires id in n.entries
    ensures var (h', ok) := Weighed(n, id, health, w);
            && id in h'.entries
            && (ok <==> || OwnPanel(n, id, health)
                        || (&& Tied(n, id, health) && Timely(n, id, health, w)
                            && Movable(n, id, health.did.value)))
            && (ok ==> h'.entries[id].identity == health.did && h'.entries[id].pending.None?)
            && (!ok ==> h' == n)
  {
    hide NativeIdentities, AllFree, Rekeyed, LinkShared;
    var own := Accepted(n.entries[id], health);
    LinkClaims(n.entries[id := own], id, w.answering);
    LinkClaims(n.entries[id := own.(identity := health.did)], id, w.answering);
    hide LinkClaimed, GivesUpLink;
  }

  /** A panel that is neither the entry's own nor tied to it never gets anywhere. */
  lemma StrangerIsRejected(h: Home, id: EntryId, health: Health, w: Witness)
    requires id in h.entries && h.entries[id].identity.Some? && health.did != h.entries[id].identity
    requires health.legacy.None? || (health.legacy != h.entries[id].identity && health.legacy != h.entries[id].link)
    ensures Admitted(h, id, health, w) == (h, false)
  {
    VerdictIsTheIdentity(h, id, health, w);
    hide Admitted;
  }

  /**
   * An accepted health line takes the link along. No other entry loses anything
   * but that same link, and only one whose own panel does not answer; afterwards
   * whoever else still holds it answers as itself.
   */
  lemma LinksAreHandedOver(h: Home, id: EntryId, health: Health, w: Witness)
    requires id in h.entries && Nameable(h, id) && OwnPanel(Named(h, id), id, health) && health.did.Some?
    ensures var h' := Admitted(h, id, health, w).0;
            && h'.entries.Keys == h.entries.Keys
            && h'.entries[id].link == (if health.legacy.Some? then health.legacy else h.entries[id].link)
            && (h'.entries[id].installation <==> h.entries[id].installation || health.installation)
            && forall k :: k in h.entries && k != id ==>
                 GivesUpLink(h.entries[k], h'.entries[k], h'.entries[id].link, k in w.answering)
  {
    hide NativeIdentities, AllFree, Rekeyed, Available, Commit, LinkClaimed, RecordedIdentities, LinkedReinstall;
    NamedOnlyNames(h, id);
    var n := Named(h, id);
    var own := Accepted(n.entries[id], health);
    LinkClaims(n.entries[id := own], id, w.answering);
    LinkClaims(n.entries[id := own.(identity := health.did)], id, w.answering);
    hide Named, GivesUpLink;
  }

  /** Another entry loses nothing but this link, and that exactly if its own panel does not answer. */
  predicate GivesUpLink(was: Entry, now: Entry, link: Option<Did>, answers: bool) {
    && now.(link := was.link) == was
    && now.link == if link.Some? && was.link == link && !answers then None else was.link
  }

  lemma LinkClaims(entries: map<EntryId, Entry>, id: EntryId, answering: set<EntryId>)
    requires id in entries
    ensures var after := LinkClaimed(entries, id, answering);
            && after.Keys == entries.Keys && after[id] == entries[id]
            && forall k :: k in entries && k != id ==>
                 GivesUpLink(entries[k], after[k], entries[id].link, k in answering)
  {
  }

  lemma NamedOnlyNames(h: Home, id: EntryId)
    requires id in h.entries
    ensures var n := Named(h, id);
            && n.entries.Keys == h.entries.Keys && n.registry == h.registry
            && n.entries[id].(identity := h.entries[id].identity) == h.entries[id]
            && forall k :: k in h.entries && k != id ==> n.entries[k] == h.entries[k]
  {
    hide RecordedIdentities;
  }

  /** A new identity is only ever taken by an entry that no other entry shares it with. */
  lemma AdoptionIsExclusive(h: Home, id: EntryId, health: Health, w: Witness)
    requires id in h.entries && h.entries[id].identity.Some?
    requires Admitted(h, id, health, w).0.entries[id].identity != h.entries[id].identity
    ensures var (h', ok) := Admitted(h, id, health, w);
            && ok && h'.entries[id].identity == health.did && health.did.Some?
            && Available(h', id, health.did.value)
            && h'.entries[id].previous == h.entries[id].identity && h'.entries[id].installation
            && h'.entries[id].cutover == (if h.entries[id].cutover == h.entries[id].identity then health.did
                                          else h.entries[id].cutover)
            && h'.entries[id].link == h.entries[id].link && h'.entries[id].address == h.entries[id].address
            && Preserved(h.registry, h'.registry, id)
            && (forall k :: k in h.entries && k != id ==> k in h'.entries && h'.entries[k] == h.entries[k])
  {
    RekeyedPreserves(h.registry, id, h.entries[id].identity.value,
                     if health.did.Some? then health.did.value else "");
  }

  // ------------------------------------------------------------------- step by step

  /** Some entities have been renamed, those in `todo` not yet. */
  function Partly(was: Registry, id: EntryId, from: Did, to: Did, todo: set<EntityId>): Registry {
    map e | e in was :: if Under(was, e, id, from) && e !in todo then Moved(was[e], to) else was[e]
  }

  lemma NonePartly(was: Registry, id: EntryId, from: Did, to: Did)
    ensures Partly(was, id, from, to, set e | e in was && Under(was, e, id, from)) == was
  {
  }

  lemma AllPartly(was: Registry, id: EntryId, from: Did, to: Did)
    ensures Partly(was, id, from, to, {}) == Rekeyed(was, id, from, to)
  {
  }

  lemma RenameIsFree(was: Registry, id: EntryId, from: Did, to: Did, todo: set<EntityId>, e: EntityId)
    requires UniqueIds(was) && AllFree(was, id, from, to)
    requires e in todo && todo <= set k | k in was && Under(was, k, id, from)
    ensures var reg := Partly(was, id, from, to, todo);
            && e in reg && reg[e] == was[e] && reg[e].platformOurs && reg[e].uid.Native?
            && (forall k :: k in reg && Holds(reg, k, reg[e].domain, Native(to, reg[e].uid.suffix)) ==> k == e)
            && Partly(was, id, from, to, todo - {e}) == reg[e := reg[e].(uid := Native(to, reg[e].uid.suffix))]
  {
    var reg := Partly(was, id, from, to, todo);
    assert FreeFor(was, e, to);
    assert forall k :: k in was && k != e && was[k].domain == was[e].domain && was[k].platformOurs ==>
      was[k].uid != was[e].uid;
  }

  /** The two stores as the code changes them in place. */
  class Core {
    var entries: map<EntryId, Entry>
    var registry: Registry

    constructor (entries: map<EntryId, Entry>, registry: Registry)
      ensures State() == Home(entries, registry)
    {
      this.entries := entries;
      this.registry := registry;
    }

    function State(): Home
      reads this
    {
      Home(entries, registry)
    }

    /** The registry refuses a rename to an id that somebody else holds. */
    method UpdateEntity(e: EntityId, uid: Uid)
      requires e in registry && registry[e].platformOurs
      requires forall k :: k in registry && Holds(registry, k, registry[e].domain, uid) ==> k == e
      modifies this`registry
      ensures registry == old(registry)[e := old(registry)[e].(uid := uid)]
    {
      registry := registry[e := registry[e].(uid := uid)];
    }

    /** Rename every entity under one identity, one after the other; no rename is ever refused. */
    method RenameAll(id: EntryId, from: Did, to: Did)
      requires UniqueIds(registry) && AllFree(registry, id, from, to)
      modifies this`registry
      ensures registry == Rekeyed(old(registry), id, from, to)
    {
      hide UniqueIds, AllFree, Partly, Rekeyed;
      ghost var was := registry;
      var todo := set e | e in registry && Under(registry, e, id, from);
      NonePartly(was, id, from, to);
      while todo != {}
        invariant todo <= set e | e in was && Under(was, e, id, from)
        invariant registry == Partly(was, id, from, to, todo)
        decreases |todo|
      {
        var e :| e in todo;
        RenameIsFree(was, id, from, to, todo, e);
        UpdateEntity(e, Native(to, registry[e].uid.suffix));
        todo := todo - {e};
      }
      AllPartly(was, id, from, to);
    }

    /** Note the move, rename the entities, and commit the entry last. */
    method CommitIdentity(id: EntryId, did: Did)
      requires id in entries && entries[id].identity.Some? && UniqueIds(registry)
      requires AllFree(registry, id, entries[id].identity.value, did)
      modifies this
      ensures State() == Commit(old(State()), id, did)
    {
      var e := entries[id];
      var own := e.identity.value;
      entries := entries[id := e.(pending := Some(Pending(did, e.identity, e.address)))];
      RenameAll(id, own, did);
      entries := entries[id := Committed(e, did)];
    }

    method Reconcile(id: EntryId) returns (ok: bool)
      requires id in entries && UniqueIds(registry)
      modifies this
      ensures (State(), ok) == Reconciled(old(State()), id)
    {
      var e := entries[id];
      var recorded := NativeIdentities(registry, id);
      if e.installation && e.identity.Some? && |recorded| == 1 {
        OnlyOne(recorded);
        var ahead :| ahead in recorded;
        assert recorded == {ahead};
        if e.identity != Some(ahead) && e.previous != Some(ahead) && Available(State(), id, ahead) {
          assert RanAhead(State(), id, ahead);
          FreeWhenAbsent(registry, id, e.identity.value, ahead, ahead);
          CommitIdentity(id, ahead);
          return true;
        }
      }
      assert forall ahead :: !RanAhead(State(), id, ahead);
      if e.previous.None? || !e.installation {
        return if e.identity.Some? then recorded <= {e.identity.value} else recorded == {};
      }
      if e.identity.None? || !Available(State(), id, e.identity.value) {
        return false;
      }
      if !(recorded <= {e.previous.value, e.identity.value}) {
        return false;
      }
      if !AllFree(registry, id, e.previous.value, e.identity.value) {
        return false;
      }
      RenameAll(id, e.previous.value, e.identity.value);
      return true;
    }

    method AcceptHealth(id: EntryId, health: Health, w: Witness) returns (ok: bool)
      requires id in entries && UniqueIds(registry)
      modifies this
      ensures (State(), ok) == Admitted(old(State()), id, health, w)
      ensures id in entries && (ok ==> entries[id].identity == health.did)
      ensures ok <==> && Nameable(old(State()), id)
                      && var n := Named(old(State()), id);
                         || OwnPanel(n, id, health)
                         || (&& Tied(n, id, health) && Timely(n, id, health, w)
                             && Movable(n, id, health.did.value))
    {
      VerdictIsTheIdentity(State(), id, health, w);
      hide OwnPanel, Tied, Timely, Nameable;
      hide NativeIdentities, LinkClaimed, Movable, Available, UniqueIds, AllFree, Commit;
      if entries[id].identity.None? {
        var recorded := RecordedIdentities(State(), id);
        if |recorded| > 1 {
          return false;
        }
        if |recorded| == 1 {
          entries := Named(State(), id).entries;
        }
      }
      var e := entries[id];
      if e.pending.Some? {
        if health.did.Some? && e.pending.value == Pending(health.did.value, health.legacy, e.address)
           && CanConfirm(State(), id, health) {
          MovableFree(State(), id, health.did.value);
          CommitIdentity(id, health.did.value);
          return true;
        }
        return false;
      }
      if e.identity.None? {
        if health.did.None? {
          return true;
        }
        if !Available(State(), id, health.did.value) {
          return false;
        }
        entries := entries[id := Accepted(e, health).(identity := health.did)];
        entries := LinkClaimed(entries, id, w.answering);
        return true;
      }
      if health.did == e.identity {
        entries := entries[id := Accepted(e, health)];
        entries := LinkClaimed(entries, id, w.answering);
        return true;
      }
      if MigrationCandidate(e, health) && w.priorInstallation && CanConfirm(State(), id, health) {
        MovableFree(State(), id, health.did.value);
        CommitIdentity(id, health.did.value);
        return true;
      }
      if LinkedReinstall(State(), id, health) && !LinkShared(State(), id, health.legacy)
         && w.operationFree && Movable(State(), id, health.did.value) {
        MovableFree(State(), id, health.did.value);
        CommitIdentity(id, health.did.value);
        return true;
      }
      return false;
    }
  }

  lemma MovableFree(h: Home, id: EntryId, did: Did)
    requires id in h.entries && Movable(h, id, did)
    ensures h.entries[id].identity.Some? && AllFree(h.registry, id, h.entries[id].identity.value, did)
  {
  }
}
