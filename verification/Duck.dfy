/**
 * Lowering a room's players while panels listen. Panels share one record per
 * player; every change of a player's volume waits for the one before it, and a
 * player goes back only when nobody holds it any more.
 *
 * What a player's state shows may lag behind what it has been told: reports
 * arrive in order, at any time after the write they report.
 */
module Duck {
  import opened Wrappers

  type Panel = nat
  type PlayerId = nat

  /** What a player is set to, or was when it reported. */
  datatype View = View(level: real, muted: bool)

  datatype Player = Player(
    now: View,                // what the accepted writes have made of it
    seen: View,               // what its state shows, or last showed
    coming: seq<View>,        // reports on their way, oldest first
    visible: bool,            // whether its state shows a level at all
    step: real, canSet: bool, canMute: bool)

  datatype Stage = Queued | Writing | Landed

  /** One queued change of a player's volume. */
  datatype Call = Call(restoring: bool, stage: Stage)

  /** One player's hold: the level it started from (none if it can only mute), who holds it, what is queued. */
  datatype Record = Record(
    level: Option<real>, holders: set<Panel>, calls: seq<Call>, waiting: bool)

  type Players = map<PlayerId, Player>
  type Records = map<PlayerId, Record>
  type Holds = map<Panel, set<PlayerId>>

  datatype House = House(players: Players, records: Records, held: Holds)

  const DUCK_FACTOR := 0.3

  function Lowered(level: real): real { level * DUCK_FACTOR }

  predicate AtLevel(p: Player, mark: real) {
    p.visible && (if p.seen.level < mark then mark - p.seen.level else p.seen.level - mark) <= p.step / 2.0
  }

  /** The player still sits where the duck, or its restore, left it. */
  predicate Untouched(p: Player, level: real) { AtLevel(p, Lowered(level)) || AtLevel(p, level) }

  /** The record to open for a sounding player, if its volume can be changed at all. */
  function Lower(p: Player): Option<Record> {
    if p.canSet && p.visible then Some(Record(Some(p.seen.level), {}, [], false))
    else if p.canMute && !p.seen.muted then Some(Record(None, {}, [], false))
    else None
  }

  function Enqueued(r: Record, restoring: bool): Record {
    r.(calls := r.calls + [Call(restoring, Queued)])
  }

  // ------------------------------------------------------------------- panels

  /** One sounding player joins a panel's turn. */
  function DuckOne(players: Players, records: Records, held: set<PlayerId>, panel: Panel, id: PlayerId)
    : (Records, set<PlayerId>)
  {
    if id in records then
      var r := records[id];
      var again := if r.holders == {} then Enqueued(r, false) else r;
      (records[id := again.(holders := again.holders + {panel})], held + {id})
    else if id in players && Lower(players[id]).Some? then
      (records[id := Enqueued(Lower(players[id]).value, false).(holders := {panel})], held + {id})
    else (records, held)
  }

  function DuckAll(players: Players, records: Records, held: set<PlayerId>, panel: Panel, ids: seq<PlayerId>)
    : (Records, set<PlayerId>)
    decreases |ids|
  {
    if ids == [] then (records, held)
    else
      var rest := DuckAll(players, records, held, panel, ids[..|ids| - 1]);
      DuckOne(players, rest.0, rest.1, panel, ids[|ids| - 1])
  }

  /** A panel lets go of one player: a restore is queued, to be skipped if others still hold it. */
  function ReleaseOne(records: Records, panel: Panel, id: PlayerId): Records {
    if id !in records then records
    else records[id := Enqueued(records[id].(holders := records[id].holders - {panel}), true)]
  }

  function ReleaseAll(records: Records, panel: Panel, ids: set<PlayerId>): Records {
    map id | id in records :: if id in ids then ReleaseOne(records, panel, id)[id] else records[id]
  }

  // ------------------------------------------------------------------ every interleaving

  datatype Event =
    | Listen(panel: Panel, sounding: seq<PlayerId>)
    | LetGo(panel: Panel)             // a turn ends, or outlasts its limit
    | Start(id: PlayerId)             // the oldest queued change gets its turn
    | Land(id: PlayerId)              // its write is accepted
    | Lose(id: PlayerId)              // the player answers, but its restore has been lost
    | Finish(id: PlayerId)
    | Show(id: PlayerId, n: nat)      // a report arrives, overtaking the older ones
    | Hide(id: PlayerId)              // the player goes off, or away
    | Return(id: PlayerId)            // it is back, showing what it showed last
    | Stir(id: PlayerId)              // its state changes, but not its level

  function HeldBy(h: House, panel: Panel): set<PlayerId> {
    if panel in h.held then h.held[panel] else {}
  }

  /** One player's record, or that it has none any more. */
  function Put(h: House, id: PlayerId, r: Option<Record>): House {
    h.(records := if r.Some? then h.records[id := r.value] else h.records - {id})
  }

  /** What is left of a record when its oldest change is over; nothing, if it is done with. */
  function Rest(r: Record): Option<Record>
    requires r.calls != []
  {
    var next := r.(calls := r.calls[1..]);
    if next.holders == {} && next.calls == [] && !next.waiting then None else Some(next)
  }

  /** What becomes of a record whose oldest change gets its turn. */
  function Started(r: Record, p: Player): Option<Record>
    requires r.calls != []
  {
    var c := r.calls[0];
    if c.restoring && r.holders != {} then Rest(r)
    else if c.restoring && r.level.Some? && !p.visible then Rest(r.(waiting := true))
    else if c.restoring && r.level.Some? && !Untouched(p, r.level.value) then Rest(r)
    else Some(r.(calls := r.calls[0 := c.(stage := Writing)]))
  }

  function Written(p: Player, v: View): Player { p.(now := v, coming := p.coming + [v]) }

  /** The player after a change has reached it. */
  function Changed(p: Player, r: Record, restoring: bool): Player {
    match r.level
    case Some(level) => Written(p, p.now.(level := if restoring then level else Lowered(level)))
    case None => Written(p, p.now.(muted := !restoring))
  }

  /** The oldest change of a player, if it has come this far. */
  predicate Ready(h: House, id: PlayerId, stage: Stage) {
    id in h.players && id in h.records && h.records[id].calls != [] && h.records[id].calls[0].stage == stage
  }

  /** The write of the oldest change is over. */
  function Answered(r: Record): Record
    requires r.calls != []
  {
    r.(calls := r.calls[0 := r.calls[0].(stage := Landed)])
  }

  function Reached(h: House, id: PlayerId, p: Player): House
    requires Ready(h, id, Writing)
  {
    Put(h.(players := h.players[id := p]), id, Some(Answered(h.records[id])))
  }

  /** The restore has been answered, but the player does not show it. */
  predicate Waits(r: Record, p: Player)
    requires r.calls != []
  {
    || r.waiting
    || (r.calls[0].restoring && r.level.Some? && !AtLevel(p, r.level.value)
        && (!p.visible || Untouched(p, r.level.value)))
  }

  /** What becomes of a record whose oldest change is over. */
  function Finished(r: Record, p: Player): Option<Record>
    requires r.calls != []
  {
    Rest(r.(waiting := Waits(r, p)))
  }

  /** What becomes of a record when its player's state changes to `p`: a waiting restore is judged by it. */
  function Judged(r: Record, p: Player): Option<Record> {
    if !r.waiting then Some(r)
    else if r.level.Some? && AtLevel(p, r.level.value) then
      if r.holders == {} && r.calls == [] then None else Some(r.(waiting := false))
    else Some(Enqueued(r.(waiting := false), true))
  }

  function Changes(h: House, id: PlayerId, p: Player): House {
    var h' := h.(players := h.players[id := p]);
    if id in h.records then Put(h', id, Judged(h.records[id], p)) else h'
  }

  function Shown(p: Player, n: nat): Player
    requires n < |p.coming|
  {
    p.(seen := p.coming[n], coming := p.coming[n + 1..])
  }

  /** Only a level that is shown and differs is a change of state. */
  function Reported(h: House, id: PlayerId, n: nat): House
    requires id in h.players && n < |h.players[id].coming|
  {
    var p := h.players[id];
    var q := Shown(p, n);
    if p.visible && q.seen.level != p.seen.level then Changes(h, id, q)
    else h.(players := h.players[id := q])
  }

  function Happened(h: House, e: Event): House {
    match e
    case Listen(panel, sounding) =>
      if HeldBy(h, panel) != {} then h
      else
        var (records, held) := DuckAll(h.players, h.records, {}, panel, sounding);
        h.(records := records, held := h.held[panel := held])
    case LetGo(panel) =>
      h.(records := ReleaseAll(h.records, panel, HeldBy(h, panel)), held := h.held[panel := {}])
    case Start(id) => if Ready(h, id, Queued) then Put(h, id, Started(h.records[id], h.players[id])) else h
    case Land(id) =>
      if Ready(h, id, Writing)
      then Reached(h, id, Changed(h.players[id], h.records[id], h.records[id].calls[0].restoring)) else h
    case Lose(id) =>
      if Ready(h, id, Writing) && Restores(h.records[id])
      then Reached(h, id, h.players[id]) else h
    case Finish(id) => if Ready(h, id, Landed) then Put(h, id, Finished(h.records[id], h.players[id])) else h
    case Show(id, n) => if id in h.players && n < |h.players[id].coming| then Reported(h, id, n) else h
    case Hide(id) =>
      if id in h.players && h.players[id].visible then Changes(h, id, h.players[id].(visible := false)) else h
    case Return(id) =>
      if id in h.players && !h.players[id].visible then Changes(h, id, h.players[id].(visible := true)) else h
    case Stir(id) => if id in h.players then Changes(h, id, h.players[id]) else h
  }

  function Evening(h: House, events: seq<Event>): House
    decreases |events|
  {
    if events == [] then h else Evening(Happened(h, events[0]), events[1..])
  }

  // ---------------------------------------------------------------- settled and prompt reports

  /** Whatever the player shows and is about to show is at this level. */
  predicate Settled(p: Player, level: real) {
    p.seen.level == level && ArrivesAt(p, level)
  }

  predicate ArrivesAt(p: Player, level: real) {
    forall i :: 0 <= i < |p.coming| ==> p.coming[i].level == level
  }

  /** A record goes only once nothing shown, or still to be shown, can pass for another original level. */
  predicate Clean(h: House, base: Players, e: Event) {
    var h' := Happened(h, e);
    forall id :: id in h.records && id !in h'.records && id in h'.players && id in base ==>
      Settled(h'.players[id], base[id].now.level)
  }

  predicate CleanEvening(h: House, base: Players, events: seq<Event>)
    decreases |events|
  {
    events == [] || (Clean(h, base, events[0]) && CleanEvening(Happened(h, events[0]), base, events[1..]))
  }

  /** The duck lowers this player by more than the tolerance its level is read with. */
  predicate Loud(b: Player) { b.now.level - Lowered(b.now.level) > b.step / 2.0 }

  predicate Restores(r: Record) { r.level.Some? && r.calls != [] && r.calls[0].restoring }

  /** The last restore of a player nobody holds. */
  predicate LastRestore(r: Record) {
    Restores(r) && r.holders == {} && |r.calls| == 1
  }

  /**
   * How a player has to report. By the end of its last restore every lowering
   * has been shown; the restore itself may be shown at any time, or be lost. A
   * player too quiet for that keeps in sight, loses nothing, and shows the
   * restore as well.
   */
  predicate Prompt(h: House, base: Players, e: Event) {
    match e
    case Hide(id) => id in base ==> Loud(base[id])
    case Lose(id) => id in base ==> Loud(base[id])
    case Start(id) =>
      (id in h.players && id in h.records && id in base && LastRestore(h.records[id]) && !h.players[id].visible)
      ==> ArrivesAt(h.players[id], base[id].now.level)
    case Finish(id) =>
      (id in h.players && id in h.records && id in base)
      ==> && (LastRestore(h.records[id]) ==> ArrivesAt(h.players[id], base[id].now.level))
          && (Restores(h.records[id]) && !Loud(base[id]) ==> h.players[id].coming == [])
    case _ => true
  }

  predicate PromptEvening(h: House, base: Players, events: seq<Event>)
    decreases |events|
  {
    events == [] || (Prompt(h, base, events[0]) && PromptEvening(Happened(h, events[0]), base, events[1..]))
  }

  // ---------------------------------------------------------------------- the invariant

  predicate Down(r: Record, p: Player) {
    match r.level
    case Some(level) => p.now.level == Lowered(level)
    case None => p.now.muted
  }

  predicate Up(r: Record, p: Player) {
    match r.level
    case Some(level) => p.now.level == level
    case None => !p.now.muted
  }

  /** However its queue ends, a held player ends lowered. */
  predicate WillBeDown(r: Record, p: Player) {
    || (exists i :: 0 <= i < |r.calls| && !r.calls[i].restoring)
    || (Down(r, p) && forall i :: 0 <= i < |r.calls| ==> r.calls[i].stage.Queued?)
  }

  /** Reports only ever show the original level, or that and the lowered one. */
  predicate LevelsSound(r: Option<Record>, p: Player, b: Player) {
    if r.Some? && r.value.level.Some?
    then TwoLevels(p.seen, b) && forall i :: 0 <= i < |p.coming| ==> TwoLevels(p.coming[i], b)
    else Settled(p, b.now.level)
  }

  predicate TwoLevels(v: View, b: Player) {
    v.level == b.now.level || v.level == Lowered(b.now.level)
  }

  /** `b` is the player as it was before anyone ducked it. */
  predicate RecordSound(r: Record, p: Player, b: Player) {
    && (match r.level
        case Some(level) => level == b.now.level && p.now.muted == b.now.muted && b.canSet
        case None => !b.now.muted && p.now.level == b.now.level)
    && (Down(r, p) || Up(r, p))
    && (forall i :: 0 < i < |r.calls| ==> r.calls[i].stage.Queued?)
    && (r.calls != [] && r.calls[0].stage.Landed? ==>
          if r.calls[0].restoring then r.level.Some? || Up(r, p) else Down(r, p))
    && (r.holders != {} ==> WillBeDown(r, p))
    && (r.holders == {} ==> if r.calls == [] then r.waiting else r.calls[|r.calls| - 1].restoring)
    && (r.waiting ==> r.level.Some?)
  }

  /** What prompt reports add: a record that only waits has had all its lowerings shown. */
  predicate RecordPrompt(r: Record, p: Player, b: Player) {
    r.level.Some? ==>
      && (r.holders == {} && r.calls == [] ==> ArrivesAt(p, b.now.level))
      && (!Loud(b) ==> p.visible && !r.waiting)
      && (!Loud(b) && r.calls != [] && r.calls[0].restoring && r.calls[0].stage.Landed? ==> Up(r, p))
  }

  /** A player that has nothing on its way shows what it is, and only reports what it was told. */
  predicate DeviceSound(p: Player, b: Player) {
    && p.step == b.step && p.canSet == b.canSet && p.canMute == b.canMute && b.step >= 0.0
    && p.now == (if p.coming == [] then p.seen else p.coming[|p.coming| - 1])
    && (b.now.muted ==> p.seen.muted && forall i :: 0 <= i < |p.coming| ==> p.coming[i].muted)
  }

  predicate PlayerSound(r: Option<Record>, p: Player, b: Player, prompt: bool) {
    && DeviceSound(p, b) && LevelsSound(r, p, b)
    && (if r.Some? then RecordSound(r.value, p, b) && (prompt ==> RecordPrompt(r.value, p, b))
        else p.now.muted == b.now.muted)
  }

  ghost predicate Sound(h: House, base: Players, prompt: bool) {
    && h.players.Keys == base.Keys && h.records.Keys <= base.Keys
    && (forall id :: id in base ==> PlayerSound(Lookup(h.records, id), h.players[id], base[id], prompt))
    && (forall panel, id :: id in HeldBy(h, panel) <==> id in h.records && panel in h.records[id].holders)
  }

  // ------------------------------------------------------------------ one record at a time

  lemma EnqueuedSound(r: Record, p: Player, b: Player, restoring: bool, holders: set<Panel>, prompt: bool)
    requires PlayerSound(Some(r), p, b, prompt) && (holders == {} ==> restoring)
    requires holders != {} ==> r.holders != {} || !restoring
    ensures PlayerSound(Some(Enqueued(r.(holders := holders), restoring)), p, b, prompt)
  {
    var next := Enqueued(r.(holders := holders), restoring);
    assert next.calls[|r.calls|] == Call(restoring, Queued);
    assert forall i :: 0 <= i < |r.calls| ==> next.calls[i] == r.calls[i];
  }

  lemma PoppedSound(r: Record, p: Player, b: Player, waiting: bool, prompt: bool)
    requires PlayerSound(Some(r), p, b, prompt) && r.calls != [] && (waiting ==> r.level.Some?)
    requires r.waiting ==> waiting
    requires (r.holders != {} && r.calls[0].restoring && r.calls[0].stage.Queued?)
             || r.calls[0].stage.Landed? || waiting
    requires !r.calls[0].restoring ==> r.calls[0].stage.Landed?
    requires Rest(r.(waiting := waiting)).None? ==> Settled(p, b.now.level)
    requires prompt && LastRestore(r) ==> ArrivesAt(p, b.now.level)
    requires prompt && waiting && r.level.Some? ==> Loud(b)
    ensures PlayerSound(Rest(r.(waiting := waiting)), p, b, prompt)
  {
    var next := r.(calls := r.calls[1..], waiting := waiting);
    assert forall i :: 0 <= i < |next.calls| ==> next.calls[i] == r.calls[i + 1];
    if r.holders != {} {
      if i :| 0 < i < |r.calls| && !r.calls[i].restoring {
        assert !next.calls[i - 1].restoring;
      }
      assert WillBeDown(next, p);
    }
  }

  lemma WritingSound(r: Record, p: Player, b: Player, prompt: bool)
    requires PlayerSound(Some(r), p, b, prompt) && r.calls != [] && r.calls[0].stage.Queued?
    requires r.calls[0].restoring ==> r.holders == {}
    ensures PlayerSound(Some(r.(calls := r.calls[0 := r.calls[0].(stage := Writing)])), p, b, prompt)
  {
    var next := r.(calls := r.calls[0 := r.calls[0].(stage := Writing)]);
    if r.holders != {} {
      var i :| 0 <= i < |r.calls| && !r.calls[i].restoring;
      assert !next.calls[i].restoring;
    }
  }

  /** A player whose level is shown is always found where a duck or a restore left it. */
  lemma NeverTouched(r: Record, p: Player, b: Player, prompt: bool)
    requires PlayerSound(Some(r), p, b, prompt) && r.level.Some? && p.visible
    ensures Untouched(p, r.level.value)
  {
  }

  lemma LandedSound(r: Record, p: Player, b: Player, prompt: bool)
    requires PlayerSound(Some(r), p, b, prompt) && r.calls != [] && r.calls[0].stage.Writing?
    ensures PlayerSound(Some(Answered(r)), Changed(p, r, r.calls[0].restoring), b, prompt)
  {
    var next := Answered(r);
    if i :| 0 <= i < |r.calls| && !r.calls[i].restoring { assert !next.calls[i].restoring; }
  }

  lemma LostSound(r: Record, p: Player, b: Player, prompt: bool)
    requires PlayerSound(Some(r), p, b, prompt) && r.calls != [] && r.calls[0].stage.Writing?
    requires r.calls[0].restoring && r.level.Some? && (prompt ==> Loud(b))
    ensures PlayerSound(Some(Answered(r)), p, b, prompt)
  {
    var next := Answered(r);
    if i :| 0 <= i < |r.calls| && !r.calls[i].restoring { assert !next.calls[i].restoring; }
  }

  /** The player shows something else; its record may stay as it is. */
  lemma ViewSound(r: Option<Record>, p: Player, b: Player, q: Player, prompt: bool)
    requires PlayerSound(r, p, b, prompt)
    requires Turns(p, q)
    requires prompt && p.visible && !q.visible ==> Loud(b)
    ensures PlayerSound(r, q, b, prompt)
  {
    hide Turns, ArrivesAt, DeviceSound, LevelsSound;
    ViewDevice(r, p, b, q);
  }

  lemma ViewDevice(r: Option<Record>, p: Player, b: Player, q: Player)
    requires DeviceSound(p, b) && LevelsSound(r, p, b) && Turns(p, q)
    ensures DeviceSound(q, b) && LevelsSound(r, q, b) && q.now == p.now
    ensures ArrivesAt(p, b.now.level) ==> ArrivesAt(q, b.now.level)
  {
  }

  lemma JudgedSound(r: Record, q: Player, b: Player, prompt: bool)
    requires PlayerSound(Some(r), q, b, prompt)
    requires Judged(r, q).None? ==> Settled(q, b.now.level)
    ensures PlayerSound(Judged(r, q), q, b, prompt)
  {
    if r.waiting {
      EnqueuedSound(r, q, b, true, r.holders, prompt);
      assert Enqueued(r, true).(waiting := false) == Enqueued(r.(waiting := false), true);
    }
  }

  // ------------------------------------------------------------------- one event at a time

  /** One player and its record change, the record keeping its holders, or closing with nobody holding it. */
  lemma OneChanged(h: House, base: Players, id: PlayerId, p: Player, r: Option<Record>, prompt: bool)
    requires Sound(h, base, prompt) && id in base
    requires if r.Some? then id in h.records && r.value.holders == h.records[id].holders
             else id in h.records ==> h.records[id].holders == {}
    requires PlayerSound(r, p, base[id], prompt)
    ensures Sound(Put(h.(players := h.players[id := p]), id, r), base, prompt)
  {
    hide PlayerSound;
    var h' := Put(h.(players := h.players[id := p]), id, r);
    forall k | k in base ensures PlayerSound(Lookup(h'.records, k), h'.players[k], base[k], prompt) {
      assert PlayerSound(Lookup(h.records, k), h.players[k], base[k], prompt);
    }
    assert forall panel :: HeldBy(h', panel) == HeldBy(h, panel);
  }

  lemma SoundAt(h: House, base: Players, id: PlayerId, prompt: bool)
    requires Sound(h, base, prompt) && id in h.players
    ensures id in base && PlayerSound(Lookup(h.records, id), h.players[id], base[id], prompt)
    ensures h.players[id := h.players[id]] == h.players
  {
    hide PlayerSound;
  }

  /**
   * A player somebody has turned to another level is left alone: a restore is
   * written only to one that nobody holds, and that shows the lowered level or the
   * original one; otherwise the change is over at once and the player as it was.
   */
  lemma RestoreSparesTheMoved(h: House, id: PlayerId)
    requires Ready(h, id, Queued) && Restores(h.records[id])
    ensures var h' := Happened(h, Start(id));
            var r, p := h.records[id], h.players[id];
            && h'.players == h.players
            && (if r.holders == {} && p.visible && (AtLevel(p, r.level.value) || AtLevel(p, 0.3 * r.level.value))
                then id in h'.records && h'.records[id] == r.(calls := [Call(true, Writing)] + r.calls[1..])
                else id in h'.records ==> h'.records[id].calls == r.calls[1..])
  {
    var r := h.records[id];
    assert Lowered(r.level.value) == 0.3 * r.level.value;
    assert r.calls[0 := Call(true, Writing)] == [Call(true, Writing)] + r.calls[1..];
  }

  lemma StartSound(h: House, base: Players, id: PlayerId, prompt: bool)
    requires Sound(h, base, prompt) && Ready(h, id, Queued) && (prompt ==> Prompt(h, base, Start(id)))
    ensures Sound(Happened(h, Start(id)), base, prompt)
  {
    hide PlayerSound, ArrivesAt, Untouched, Sound;
    SoundAt(h, base, id, prompt);
    var r, p := h.records[id], h.players[id];
    StartedSound(r, p, base[id], prompt);
    OneChanged(h, base, id, p, Started(r, p), prompt);
  }

  lemma StartedSound(r: Record, p: Player, b: Player, prompt: bool)
    requires PlayerSound(Some(r), p, b, prompt) && r.calls != [] && r.calls[0].stage.Queued?
    requires prompt && LastRestore(r) && !p.visible ==> ArrivesAt(p, b.now.level)
    ensures PlayerSound(Started(r, p), p, b, prompt)
    ensures Started(r, p).Some? && Started(r, p).value.holders == r.holders
  {
    var c := r.calls[0];
    if prompt && r.level.Some? { PromptWaits(r, p, b); }
    if c.restoring && r.level.Some? && p.visible { NeverTouched(r, p, b, prompt); }
    hide PlayerSound, ArrivesAt, Untouched;
    if c.restoring && r.holders != {} {
      PoppedSound(r, p, b, r.waiting, prompt);
    } else if c.restoring && r.level.Some? && !p.visible {
      PoppedSound(r, p, b, true, prompt);
    } else {
      WritingSound(r, p, b, prompt);
    }
  }

  /** With prompt reports only loud players ever go out of sight, or wait. */
  lemma PromptWaits(r: Record, p: Player, b: Player)
    requires PlayerSound(Some(r), p, b, true) && r.level.Some?
    ensures !p.visible || r.waiting ==> Loud(b)
  {
  }

  lemma LandSound(h: House, base: Players, id: PlayerId, prompt: bool)
    requires Sound(h, base, prompt) && Ready(h, id, Writing)
    ensures Sound(Happened(h, Land(id)), base, prompt)
  {
    hide PlayerSound, Changed, Sound;
    SoundAt(h, base, id, prompt);
    var r, p := h.records[id], h.players[id];
    LandedSound(r, p, base[id], prompt);
    OneChanged(h, base, id, Changed(p, r, r.calls[0].restoring), Some(Answered(r)), prompt);
  }

  lemma LoseSound(h: House, base: Players, id: PlayerId, prompt: bool)
    requires Sound(h, base, prompt) && (prompt ==> Prompt(h, base, Lose(id)))
    ensures Sound(Happened(h, Lose(id)), base, prompt)
  {
    if Ready(h, id, Writing) && Restores(h.records[id]) {
      hide PlayerSound, Sound;
      SoundAt(h, base, id, prompt);
      LostSound(h.records[id], h.players[id], base[id], prompt);
      OneChanged(h, base, id, h.players[id], Some(Answered(h.records[id])), prompt);
    }
  }

  lemma FinishSound(h: House, base: Players, id: PlayerId, prompt: bool)
    requires Sound(h, base, prompt) && Ready(h, id, Landed) && (prompt ==> Prompt(h, base, Finish(id)))
    requires Clean(h, base, Finish(id))
    ensures Sound(Happened(h, Finish(id)), base, prompt)
  {
    hide PlayerSound, Settled, ArrivesAt, Untouched, AtLevel, Sound;
    SoundAt(h, base, id, prompt);
    var r, p := h.records[id], h.players[id];
    assert Finished(r, p).None? ==> id !in Happened(h, Finish(id)).records;
    FinishedSound(r, p, base[id], prompt);
    OneChanged(h, base, id, p, Finished(r, p), prompt);
  }

  lemma FinishedSound(r: Record, p: Player, b: Player, prompt: bool)
    requires PlayerSound(Some(r), p, b, prompt) && r.calls != [] && r.calls[0].stage.Landed?
    requires Finished(r, p).None? ==> Settled(p, b.now.level)
    requires prompt && LastRestore(r) ==> ArrivesAt(p, b.now.level)
    requires prompt && Restores(r) && !Loud(b) ==> p.coming == []
    ensures PlayerSound(Finished(r, p), p, b, prompt)
  {
    if prompt && r.level.Some? { FinishWaits(r, p, b); }
    assert Waits(r, p) ==> r.level.Some?;
    hide PlayerSound, ArrivesAt, Settled, Untouched, AtLevel;
    PoppedSound(r, p, b, Waits(r, p), prompt);
  }

  lemma FinishWaits(r: Record, p: Player, b: Player)
    requires PlayerSound(Some(r), p, b, true) && r.level.Some? && r.calls != [] && r.calls[0].stage.Landed?
    requires Restores(r) && !Loud(b) ==> p.coming == []
    ensures Waits(r, p) ==> Loud(b)
  {
  }

  /** What the player may show instead. */
  ghost predicate Turns(p: Player, q: Player) {
    q == p.(visible := q.visible) || exists n :: 0 <= n < |p.coming| && q == Shown(p, n)
  }

  /** The player shows something else, and nothing follows from it. */
  lemma SeenSound(h: House, base: Players, id: PlayerId, q: Player, prompt: bool)
    requires Sound(h, base, prompt) && id in h.players && Turns(h.players[id], q)
    requires id in base && prompt && h.players[id].visible && !q.visible ==> Loud(base[id])
    ensures Sound(h.(players := h.players[id := q]), base, prompt)
  {
    hide PlayerSound, Sound, Turns, Loud;
    SoundAt(h, base, id, prompt);
    var r := Lookup(h.records, id);
    ViewSound(r, h.players[id], base[id], q, prompt);
    OneChanged(h, base, id, q, r, prompt);
    assert Put(h.(players := h.players[id := q]), id, r) == h.(players := h.players[id := q]);
  }

  /** The player shows something else, and a waiting restore is judged by it. */
  lemma ChangesSound(h: House, base: Players, id: PlayerId, q: Player, prompt: bool)
    requires Sound(h, base, prompt) && id in h.players && Turns(h.players[id], q)
    requires id in base && prompt && h.players[id].visible && !q.visible ==> Loud(base[id])
    requires id in h.records && id in base && Judged(h.records[id], q).None? ==> Settled(q, base[id].now.level)
    ensures Sound(Changes(h, id, q), base, prompt)
  {
    hide PlayerSound, Sound, Turns, Loud, Settled, Judged;
    if id in h.records {
      SoundAt(h, base, id, prompt);
      ViewSound(Some(h.records[id]), h.players[id], base[id], q, prompt);
      JudgedSound(h.records[id], q, base[id], prompt);
      JudgedHolders(h.records[id], q);
      OneChanged(h, base, id, q, Judged(h.records[id], q), prompt);
    } else {
      SeenSound(h, base, id, q, prompt);
    }
  }

  lemma JudgedHolders(r: Record, q: Player)
    ensures match Judged(r, q)
            case None => r.holders == {}
            case Some(next) => next.holders == r.holders
  {
  }

  lemma ShowSound(h: House, base: Players, e: Event, prompt: bool)
    requires Sound(h, base, prompt) && (prompt ==> Prompt(h, base, e)) && Clean(h, base, e)
    requires e.Show? || e.Hide? || e.Return? || e.Stir?
    ensures Sound(Happened(h, e), base, prompt)
  {
    hide Sound, Settled, Judged;
    var id := e.id;
    if id in h.players {
      var p := h.players[id];
      match e {
        case Show(_, n) =>
          if n < |p.coming| {
            SeenSound(h, base, id, Shown(p, n), prompt);
            if p.visible && p.coming[n].level != p.seen.level {
              ChangesSound(h, base, id, Shown(p, n), prompt);
            }
          }
        case Hide(_) => if p.visible { ChangesSound(h, base, id, p.(visible := false), prompt); }
        case Return(_) => if !p.visible { ChangesSound(h, base, id, p.(visible := true), prompt); }
        case Stir(_) => ChangesSound(h, base, id, p, prompt);
      }
    }
  }

  // -------------------------------------------------------------- panels come and go

  /** A panel is joining: it holds what it has so far, and nothing else has changed for others. */
  ghost predicate Joining(players: Players, records: Records, base: Players, held: Holds,
                          panel: Panel, mine: set<PlayerId>, prompt: bool)
  {
    Sound(House(players, records, held[panel := mine]), base, prompt)
  }

  lemma DuckOneSound(players: Players, records: Records, base: Players, held: Holds,
                     panel: Panel, mine: set<PlayerId>, id: PlayerId, prompt: bool)
    requires Joining(players, records, base, held, panel, mine, prompt)
    ensures var (records', mine') := DuckOne(players, records, mine, panel, id);
            Joining(players, records', base, held, panel, mine', prompt)
  {
    hide PlayerSound, Sound, Lower;
    var h := House(players, records, held[panel := mine]);
    var (records', mine') := DuckOne(players, records, mine, panel, id);
    SoundKeys(h, base, prompt);
    if id in records || (id in players && Lower(players[id]).Some?) {
      SoundAt(h, base, id, prompt);
      JoinedSound(players[id], base[id], Lookup(records, id), panel, prompt);
      assert {} + {panel} == {panel};
      assert held[panel := mine][panel := mine + {id}] == held[panel := mine + {id}];
      Joined(h, base, panel, mine, id, records'[id], prompt);
    }
  }

  lemma SoundKeys(h: House, base: Players, prompt: bool)
    requires Sound(h, base, prompt)
    ensures h.players.Keys == base.Keys && h.records.Keys <= base.Keys
  {
    hide PlayerSound;
  }

  /** The record of a player that one more panel holds. */
  lemma JoinedSound(p: Player, b: Player, r: Option<Record>, panel: Panel, prompt: bool)
    requires PlayerSound(r, p, b, prompt)
    ensures r.Some? && r.value.holders == {} ==>
              PlayerSound(Some(Enqueued(r.value, false).(holders := {panel})), p, b, prompt)
    ensures r.Some? && r.value.holders != {} ==>
              PlayerSound(Some(r.value.(holders := r.value.holders + {panel})), p, b, prompt)
    ensures r.None? && Lower(p).Some? ==>
              PlayerSound(Some(Enqueued(Lower(p).value, false).(holders := {panel})), p, b, prompt)
  {
    if r.Some? {
      if r.value.holders == {} {
        EnqueuedSound(r.value, p, b, false, {panel}, prompt);
        assert Enqueued(r.value.(holders := {panel}), false) == Enqueued(r.value, false).(holders := {panel});
      }
    } else if Lower(p).Some? {
      var next := Enqueued(Lower(p).value, false).(holders := {panel});
      assert !next.calls[0].restoring;
    }
  }

  lemma Joined(h: House, base: Players, panel: Panel, mine: set<PlayerId>, id: PlayerId, r: Record, prompt: bool)
    requires Sound(h, base, prompt) && id in base && HeldBy(h, panel) == mine && panel in h.held
    requires PlayerSound(Some(r), h.players[id], base[id], prompt)
    requires r.holders == (if id in h.records then h.records[id].holders else {}) + {panel}
    ensures Sound(House(h.players, h.records[id := r], h.held[panel := mine + {id}]), base, prompt)
  {
    hide PlayerSound;
    var h' := House(h.players, h.records[id := r], h.held[panel := mine + {id}]);
    forall k | k in base ensures PlayerSound(Lookup(h'.records, k), h'.players[k], base[k], prompt) {
      assert PlayerSound(Lookup(h.records, k), h.players[k], base[k], prompt);
    }
    forall x, k ensures k in HeldBy(h', x) <==> k in h'.records && x in h'.records[k].holders {
      assert k in HeldBy(h, x) <==> k in h.records && x in h.records[k].holders;
    }
  }

  lemma {:induction false} DuckAllSound(players: Players, records: Records, base: Players, held: Holds,
                                        panel: Panel, ids: seq<PlayerId>, prompt: bool)
    requires Joining(players, records, base, held, panel, {}, prompt)
    ensures var (records', mine') := DuckAll(players, records, {}, panel, ids);
            Joining(players, records', base, held, panel, mine', prompt)
    decreases |ids|
  {
    hide Joining, DuckOne;
    if ids != [] {
      DuckAllSound(players, records, base, held, panel, ids[..|ids| - 1], prompt);
      var rest := DuckAll(players, records, {}, panel, ids[..|ids| - 1]);
      DuckOneSound(players, rest.0, base, held, panel, rest.1, ids[|ids| - 1], prompt);
    }
  }

  /** A sounding player that can be turned down, or at least muted. */
  predicate Duckable(p: Player) { (p.canSet && p.visible) || (p.canMute && !p.seen.muted) }

  lemma {:induction false} DuckAllHolds(players: Players, records: Records, panel: Panel, ids: seq<PlayerId>)
    ensures var (records', held) := DuckAll(players, records, {}, panel, ids);
            && records'.Keys == records.Keys + held
            && (forall id :: id in held <==>
                  id in ids && (id in records || (id in players && Duckable(players[id]))))
            && (forall id :: id in held ==> panel in records'[id].holders)
    decreases |ids|
  {
    if ids != [] {
      DuckAllHolds(players, records, panel, ids[..|ids| - 1]);
      assert ids == ids[..|ids| - 1] + [ids[|ids| - 1]];
    }
  }

  /**
   * The turn of a panel that holds nothing yet takes hold of every sounding
   * player that is held already or can be turned down or muted, and of no other.
   */
  lemma TurnHoldsTheRoom(h: House, panel: Panel, sounding: seq<PlayerId>, id: PlayerId)
    requires HeldBy(h, panel) == {}
    ensures var h' := Happened(h, Listen(panel, sounding));
            && (id in HeldBy(h', panel) <==>
                  id in sounding && (id in h.records || (id in h.players && Duckable(h.players[id]))))
            && (id in HeldBy(h', panel) ==> id in h'.records && panel in h'.records[id].holders)
  {
    DuckAllHolds(h.players, h.records, panel, sounding);
    hide DuckAll, Duckable;
  }

  lemma ListenSound(h: House, base: Players, panel: Panel, sounding: seq<PlayerId>, prompt: bool)
    requires Sound(h, base, prompt) && HeldBy(h, panel) == {}
    ensures Sound(Happened(h, Listen(panel, sounding)), base, prompt)
  {
    hide PlayerSound;
    var h0 := h.(held := h.held[panel := {}]);
    assert forall x :: HeldBy(h0, x) == HeldBy(h, x);
    assert Sound(h0, base, prompt);
    assert Joining(h.players, h.records, base, h.held, panel, {}, prompt);
    DuckAllSound(h.players, h.records, base, h.held, panel, sounding, prompt);
  }

  lemma LetGoSound(h: House, base: Players, panel: Panel, prompt: bool)
    requires Sound(h, base, prompt)
    ensures Sound(Happened(h, LetGo(panel)), base, prompt)
  {
    hide PlayerSound;
    var h' := Happened(h, LetGo(panel));
    forall k | k in base ensures PlayerSound(Lookup(h'.records, k), h'.players[k], base[k], prompt) {
      assert PlayerSound(Lookup(h.records, k), h.players[k], base[k], prompt);
      if k in HeldBy(h, panel) {
        var r := h.records[k];
        EnqueuedSound(r, h.players[k], base[k], true, r.holders - {panel}, prompt);
        assert h'.records[k] == Enqueued(r.(holders := r.holders - {panel}), true);
      }
    }
    forall x, k ensures k in HeldBy(h', x) <==> k in h'.records && x in h'.records[k].holders {
      assert k in HeldBy(h, x) <==> k in h.records && x in h.records[k].holders;
      assert k in HeldBy(h, panel) <==> k in h.records && panel in h.records[k].holders;
    }
  }

  // ------------------------------------------------------------------------ whole evenings

  lemma HappenedSound(h: House, base: Players, e: Event, prompt: bool)
    requires Sound(h, base, prompt) && Clean(h, base, e) && (prompt ==> Prompt(h, base, e))
    ensures Sound(Happened(h, e), base, prompt)
  {
    hide Sound, Started, Finished, Changed, Judged, DuckAll, ReleaseAll, Clean, Prompt;
    match e {
      case Listen(panel, sounding) =>
        if HeldBy(h, panel) == {} { ListenSound(h, base, panel, sounding, prompt); }
      case LetGo(panel) => LetGoSound(h, base, panel, prompt);
      case Start(id) => if Ready(h, id, Queued) { StartSound(h, base, id, prompt); }
      case Land(id) => if Ready(h, id, Writing) { LandSound(h, base, id, prompt); }
      case Lose(id) => LoseSound(h, base, id, prompt);
      case Finish(id) => if Ready(h, id, Landed) { FinishSound(h, base, id, prompt); }
      case _ => ShowSound(h, base, e, prompt);
    }
  }

  lemma {:induction false} EveningSound(h: House, base: Players, events: seq<Event>)
    requires Sound(h, base, false) && CleanEvening(h, base, events)
    ensures Sound(Evening(h, events), base, false)
    decreases |events|
  {
    hide Sound, Happened, Clean;
    if events != [] {
      HappenedSound(h, base, events[0], false);
      EveningSound(Happened(h, events[0]), base, events[1..]);
    }
  }

  /** Nothing is queued, and no restore waits for a player to show its level. */
  predicate Drained(h: House) {
    forall id :: id in h.records ==> h.records[id].calls == [] && !h.records[id].waiting
  }

  /** Nobody has ducked anything yet, and everything shows what it is. */
  predicate AtRest(players: Players) {
    forall k :: k in players ==>
      players[k].step >= 0.0 && players[k].coming == [] && players[k].seen == players[k].now
  }

  function Before(players: Players): House { House(players, map[], map[]) }

  /**
   * No record mistakes a lowered level for the original; and once nothing is
   * queued, a held player is lowered from the level it had before anyone ducked
   * it, and any other is back at exactly that level, with its record gone.
   */
  ghost predicate Kept(h: House, base: Players, id: PlayerId)
    requires id in base
  {
    var b := base[id].now;
    && id in h.players
    && (id in h.records && h.records[id].level.Some? ==> h.records[id].level.value == b.level)
    && (Drained(h) ==>
          if exists panel :: id in HeldBy(h, panel)
          then id in h.records && Down(h.records[id], h.players[id])
          else id !in h.records && h.players[id].now == b)
  }

  lemma SoundKept(h: House, base: Players, id: PlayerId)
    requires Sound(h, base, false) && id in base
    ensures Kept(h, base, id)
  {
    assert PlayerSound(Lookup(h.records, id), h.players[id], base[id], false);
    if id in h.records && h.records[id].holders != {} {
      var panel :| panel in h.records[id].holders;
      assert id in HeldBy(h, panel);
    }
  }

  lemma RestSound(players: Players)
    requires AtRest(players)
    ensures Sound(Before(players), players, true) && Sound(Before(players), players, false)
  {
  }

  /**
   * Any number of panels, turns and follow-ups, in any interleaving with the
   * queued writes, with reports at any time and restores that get lost: the
   * room is restored, provided that records go only from settled players.
   */
  lemma TheRoomIsRestored(players: Players, events: seq<Event>, id: PlayerId)
    requires AtRest(players) && id in players
    requires CleanEvening(Before(players), players, events)
    ensures Kept(Evening(Before(players), events), players, id)
  {
    hide Sound, CleanEvening, AtRest, Kept;
    RestSound(players);
    EveningSound(Before(players), players, events);
    SoundKept(Evening(Before(players), events), players, id);
  }
}
