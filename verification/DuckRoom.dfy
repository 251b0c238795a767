/**
 * The room and its panels as the objects that change them: shared records,
 * queued changes that run one after another, and reports that interrupt.
 */
module DuckRoom {
  import opened Wrappers
  import opened Duck
  import opened DuckReports

  class Room {
    var players: Players
    var records: Records
    ghost var held: Holds        // what the panels hold between them

    constructor (players: Players)
      ensures State() == Before(players)
    {
      this.players := players;
      records, held := map[], map[];
    }

    ghost function State(): House
      reads this
    {
      House(players, records, held)
    }

    predicate Reaches(id: PlayerId, stage: Stage)
      reads this
    {
      Ready(House(players, records, map[]), id, stage)
    }

    /** The oldest change is over; a record with no holder, no queue and nothing awaited is dropped. */
    method EndCall(id: PlayerId)
      requires id in records && records[id].calls != []
      modifies this`records
      ensures State() == Put(old(State()), id, Rest(old(records[id])))
    {
      var r := records[id].(calls := records[id].calls[1..]);
      if r.holders == {} && r.calls == [] && !r.waiting {
        records := records - {id};
      } else {
        records := records[id := r];
      }
    }

    method AwaitLevel(id: PlayerId)
      requires id in records
      modifies this`records
      ensures records == old(records)[id := old(records[id]).(waiting := true)]
    {
      if !records[id].waiting {
        records := records[id := records[id].(waiting := true)];
      }
    }

    /**
     * The oldest queued change gets its turn; a restore that has become
     * pointless ends at once. In a room in order no record is lost by that, and
     * a player that shows its level always gets its restore written.
     */
    method StartCall(id: PlayerId, ghost base: Players)
      requires Ready(State(), id, Queued) && Sound(State(), base, false)
      modifies this`records
      ensures State() == Happened(old(State()), Start(id)) && Sound(State(), base, false)
      ensures id in records && records[id].holders == old(records[id]).holders
      ensures players[id].visible && records[id].holders == {} ==> Ready(State(), id, Writing)
    {
      hide Sound, Untouched;
      StartFacts(State(), base, id);
      var r, c := records[id], records[id].calls[0];
      if c.restoring && r.holders != {} {
        EndCall(id);
        return;
      }
      if c.restoring && r.level.Some? {
        if !players[id].visible {
          AwaitLevel(id);
          assert records[id] == r.(waiting := true) && records[id := records[id]] == records;
          EndCall(id);
          return;
        }
        if !Untouched(players[id], r.level.value) {
          EndCall(id);
          return;
        }
      }
      records := records[id := r.(calls := r.calls[0 := c.(stage := Writing)])];
    }

    /** The player answers; its write has landed, or is lost. */
    method Answer(id: PlayerId, landed: bool)
      requires Ready(State(), id, Writing) && (!landed ==> Restores(records[id]))
      modifies this`players, this`records
      ensures State() == Happened(old(State()), if landed then Land(id) else Lose(id))
    {
      if landed {
        players := players[id := Changed(players[id], records[id], records[id].calls[0].restoring)];
      }
      records := records[id := Answered(records[id])];
    }

    /**
     * The write is over. Its record goes only if the player shows the original
     * level; the room stays in order if that was not a late report.
     */
    method FinishCall(id: PlayerId, ghost base: Players)
      requires Ready(State(), id, Landed) && Sound(State(), base, false)
      modifies this`records
      ensures State() == Happened(old(State()), Finish(id)) && id in base
      ensures id in records || Settled(players[id], base[id].now.level) ==> Sound(State(), base, false)
      ensures id !in records && old(records[id]).level.Some? ==> AtLevel(players[id], base[id].now.level)
    {
      hide Sound, Untouched, Settled, AtLevel;
      FinishFacts(State(), base, id);
      var r, p := records[id], players[id];
      if r.calls[0].restoring && r.level.Some? && !AtLevel(p, r.level.value) {
        if !p.visible || Untouched(p, r.level.value) {
          AwaitLevel(id);
        }
      }
      assert records[id] == r.(waiting := Waits(r, p));
      EndCall(id);
    }

    /** The player's state changes, and a waiting restore is judged by it. */
    method StateChanges(id: PlayerId, q: Player)
      requires id in players
      modifies this`players, this`records
      ensures State() == Changes(old(State()), id, q)
      ensures id in old(records) ==> id in records || AtLevel(q, old(records[id]).level.value)
    {
      players := players[id := q];
      if id in records && records[id].waiting {
        var r := records[id].(waiting := false);
        if r.level.Some? && AtLevel(q, r.level.value) {
          records := if r.holders == {} && r.calls == [] then records - {id} else records[id := r];
        } else {
          records := records[id := Enqueued(r, true)];
        }
      }
    }
  }

  lemma StartFacts(h: House, base: Players, id: PlayerId)
    requires Ready(h, id, Queued) && Sound(h, base, false)
    ensures var h' := Happened(h, Start(id));
            && Sound(h', base, false) && id in h'.records && h'.records[id].holders == h.records[id].holders
            && (h.players[id].visible && h.records[id].holders == {} ==> Ready(h', id, Writing))
  {
    hide PlayerSound, Sound, Untouched, Prompt;
    SoundAt(h, base, id, false);
    StartSound(h, base, id, false);
    var r, p := h.records[id], h.players[id];
    StartedSound(r, p, base[id], false);
    if r.level.Some? && p.visible { NeverTouched(r, p, base[id], false); }
  }

  lemma FinishFacts(h: House, base: Players, id: PlayerId)
    requires Ready(h, id, Landed) && Sound(h, base, false)
    ensures var h' := Happened(h, Finish(id));
            && id in base
            && (id in h'.records || Settled(h.players[id], base[id].now.level) ==> Sound(h', base, false))
            && (id !in h'.records && h.records[id].level.Some? ==> AtLevel(h.players[id], base[id].now.level))
  {
    hide Sound, Settled, Prompt, AtLevel, Untouched, RecordSound, DeviceSound, LevelsSound;
    SoundAt(h, base, id, false);
    var r, p := h.records[id], h.players[id];
    if id in Happened(h, Finish(id)).records || Settled(p, base[id].now.level) {
      OnlyItsOwn(h, base, Finish(id), id);
      FinishSound(h, base, id, false);
    }
    if Finished(r, p).None? && r.level.Some? {
      if p.visible { NeverTouched(r, p, base[id], false); }
      DroppedAtLevel(r, p, base[id]);
    }
  }

  lemma DroppedAtLevel(r: Record, p: Player, b: Player)
    requires PlayerSound(Some(r), p, b, false) && r.calls != [] && Finished(r, p).None? && r.level.Some?
    requires p.visible ==> Untouched(p, r.level.value)
    ensures AtLevel(p, b.now.level)
  {
  }

  class RoomDuck {
    const room: Room
    const panel: Panel
    var held: set<PlayerId>

    constructor (room: Room, panel: Panel)
      ensures this.room == room && this.panel == panel && held == {}
    {
      this.room, this.panel, held := room, panel, {};
    }

    /** What this panel believes it holds is what the room's records say. */
    ghost predicate InStep()
      reads this, room
    {
      held == HeldBy(room.State(), panel)
    }

    /** A turn begins: join every sounding player, unless this panel holds some already. */
    method Duck(sounding: seq<PlayerId>)
      requires InStep()
      modifies this`held, room`records, room`held
      ensures room.State() == Happened(old(room.State()), Listen(panel, sounding)) && InStep()
    {
      if held == {} {
        for i := 0 to |sounding|
          invariant room.players == old(room.players) && room.held == old(room.held)
          invariant (room.records, held)
                    == DuckAll(old(room.players), old(room.records), {}, panel, sounding[..i])
        {
          assert sounding[..i + 1][..i] == sounding[..i];
          var next := DuckOne(room.players, room.records, held, panel, sounding[i]);
          room.records := next.0;
          held := next.1;
        }
        assert sounding[..|sounding|] == sounding;
        room.held := room.held[panel := held];
      }
    }

    /** A turn is over: let go of every player this panel held. */
    method Release()
      requires InStep()
      modifies this`held, room`records, room`held
      ensures room.State() == Happened(old(room.State()), LetGo(panel)) && InStep() && held == {}
    {
      var todo := held;
      while todo != {}
        invariant todo <= held && held == old(held)
        invariant room.players == old(room.players) && room.held == old(room.held)
        invariant room.records == ReleaseAll(old(room.records), panel, held - todo)
        decreases |todo|
      {
        var id :| id in todo;
        todo := todo - {id};
        assert held - todo == (held - todo - {id}) + {id};
        room.records := ReleaseOne(room.records, panel, id);
      }
      held := {};
      room.held := room.held[panel := {}];
    }
  }

  lemma EveningGrows(h: House, events: seq<Event>, i: nat)
    requires i < |events|
    ensures Evening(h, events[..i + 1]) == Happened(Evening(h, events[..i]), events[i])
  {
    hide Happened;
    EveningConcat(h, events[..i], [events[i]]);
    assert events[..i + 1] == events[..i] + [events[i]];
    assert [events[i]][1..] == [];
    assert Evening(Evening(h, events[..i]), [events[i]]) == Happened(Evening(h, events[..i]), events[i]);
  }

  type Panels = map<Panel, RoomDuck>

  /** One panel object for each panel that has ever listened, all in step with the room. */
  ghost predicate Together(room: Room, panels: Panels)
    reads room, panels.Values
  {
    && (forall k :: k in panels ==> panels[k].room == room && panels[k].panel == k && panels[k].InStep())
    && (forall k :: k !in panels ==> HeldBy(room.State(), k) == {})
  }

  /** What one event makes the objects do. */
  method React(room: Room, panels: Panels, e: Event, ghost base: Players) returns (panels': Panels)
    requires Together(room, panels) && Sound(room.State(), base, false) && Clean(room.State(), base, e)
    modifies room, panels.Values
    ensures room.State() == Happened(old(room.State()), e) && Sound(room.State(), base, false)
    ensures Together(room, panels')
    ensures forall k :: k in panels' ==> (k in panels && panels'[k] == panels[k]) || fresh(panels'[k])
  {
    hide Sound, Clean, Happened;
    HappenedSound(room.State(), base, e, false);
    if e.Listen? || e.LetGo? {
      panels' := ReactPanel(room, panels, e);
    } else {
      panels' := panels;
      ReactAlone(room, e, base);
    }
  }

  lemma OthersHold(h: House, e: Event)
    requires e.Listen? || e.LetGo?
    ensures forall k :: k != e.panel ==> HeldBy(Happened(h, e), k) == HeldBy(h, k)
  {
    hide DuckAll, ReleaseAll;
  }

  /** A panel listens, perhaps for the first time, or lets go. */
  method ReactPanel(room: Room, panels: Panels, e: Event) returns (panels': Panels)
    requires (e.Listen? || e.LetGo?) && Together(room, panels)
    modifies room, panels.Values
    ensures room.State() == Happened(old(room.State()), e)
    ensures Together(room, panels')
    ensures forall k :: k in panels' ==> (k in panels && panels'[k] == panels[k]) || fresh(panels'[k])
  {
    hide Happened;
    OthersHold(room.State(), e);
    panels' := panels;
    if e.panel !in panels {
      var newcomer := new RoomDuck(room, e.panel);
      panels' := panels[e.panel := newcomer];
    }
    if e.Listen? {
      panels'[e.panel].Duck(e.sounding);
    } else {
      panels'[e.panel].Release();
    }
  }

  /** What an event of one player does; panels do not notice. */
  method ReactAlone(room: Room, e: Event, ghost base: Players)
    requires !e.Listen? && !e.LetGo? && Sound(room.State(), base, false)
    modifies room`players, room`records
    ensures room.State() == Happened(old(room.State()), e)
  {
    hide Sound, Started, Finished, Changed, Judged, AtLevel, Untouched;
    match e {
      case Start(id) => if room.Reaches(id, Queued) { room.StartCall(id, base); }
      case Land(id) => if room.Reaches(id, Writing) { room.Answer(id, true); }
      case Lose(id) =>
        if room.Reaches(id, Writing) && Restores(room.records[id]) { room.Answer(id, false); }
      case Finish(id) => if room.Reaches(id, Landed) { room.FinishCall(id, base); }
      case Show(id, n) =>
        if id in room.players && n < |room.players[id].coming| {
          var p := room.players[id];
          var q := Shown(p, n);
          if p.visible && q.seen.level != p.seen.level {
            room.StateChanges(id, q);
          } else {
            room.players := room.players[id := q];
          }
        }
      case Hide(id) =>
        if id in room.players && room.players[id].visible {
          room.StateChanges(id, room.players[id].(visible := false));
        }
      case Return(id) =>
        if id in room.players && !room.players[id].visible {
          room.StateChanges(id, room.players[id].(visible := true));
        }
      case Stir(id) => if id in room.players { room.StateChanges(id, room.players[id]); }
    }
  }

  /** A whole evening of panel objects around one room: it is restored. */
  method Live(players: Players, events: seq<Event>) returns (room: Room)
    requires AtRest(players) && CleanEvening(Before(players), players, events)
    ensures fresh(room) && room.State() == Evening(Before(players), events)
    ensures forall id :: id in players ==> Kept(room.State(), players, id)
  {
    hide Sound, Clean, Happened, Kept, AtRest;
    RestSound(players);
    room := new Room(players);
    var panels: Panels := map[];
    assert events[0..] == events && events[..0] == [];
    for i := 0 to |events|
      invariant fresh(room) && fresh(panels.Values) && Together(room, panels)
      invariant room.State() == Evening(Before(players), events[..i])
      invariant Sound(room.State(), players, false)
      invariant CleanEvening(room.State(), players, events[i..])
    {
      EveningGrows(Before(players), events, i);
      assert events[i..][1..] == events[i + 1..];
      panels := React(room, panels, events[i], players);
    }
    assert events[..|events|] == events;
    forall id | id in players ensures Kept(room.State(), players, id) {
      SoundKept(room.State(), players, id);
    }
  }
}
