/**
 * What a room asks of its players' reports: which records may be dropped, what
 * is enough for that, and two evenings that show what goes wrong otherwise.
 */
module DuckReports {
  import opened Wrappers
  import opened Duck

  // ---------------------------------------------------------------------- prompt is enough

  lemma Unprompted(h: House, base: Players)
    requires Sound(h, base, true)
    ensures Sound(h, base, false)
  {
    hide DeviceSound, LevelsSound, RecordSound, RecordPrompt;
    forall id | id in base ensures PlayerSound(Lookup(h.records, id), h.players[id], base[id], false) {
      assert PlayerSound(Lookup(h.records, id), h.players[id], base[id], true);
    }
  }

  lemma FinishSettles(r: Record, p: Player, b: Player)
    requires PlayerSound(Some(r), p, b, true) && r.calls != [] && r.calls[0].stage.Landed?
    requires LastRestore(r) ==> ArrivesAt(p, b.now.level)
    requires Restores(r) && !Loud(b) ==> p.coming == []
    requires Finished(r, p).None?
    ensures Settled(p, b.now.level)
  {
    if r.level.Some? && p.visible { NeverTouched(r, p, b, true); }
  }

  lemma JudgingSettles(r: Record, q: Player, b: Player)
    requires PlayerSound(Some(r), q, b, true) && Judged(r, q).None?
    ensures Settled(q, b.now.level)
  {
  }

  lemma {:induction false} DuckAllKeys(players: Players, records: Records, panel: Panel, ids: seq<PlayerId>)
    ensures records.Keys <= DuckAll(players, records, {}, panel, ids).0.Keys
    decreases |ids|
  {
    if ids != [] { DuckAllKeys(players, records, panel, ids[..|ids| - 1]); }
  }

  /** Panels that come and go never drop a record. */
  lemma PanelsDropNothing(h: House, base: Players, e: Event)
    requires e.Listen? || e.LetGo?
    ensures Clean(h, base, e) && h.records.Keys <= Happened(h, e).records.Keys
    ensures Happened(h, e).players == h.players
  {
    if e.Listen? { DuckAllKeys(h.players, h.records, e.panel, e.sounding); }
  }

  /** Events of one player drop at most that player's record. */
  lemma OnlyItsOwn(h: House, base: Players, e: Event, id: PlayerId)
    requires !e.Listen? && !e.LetGo? && e.id == id
    requires id in h.records && id !in Happened(h, e).records && id in h.players && id in base ==>
               Settled(Happened(h, e).players[id], base[id].now.level)
    ensures Clean(h, base, e)
  {
    hide Settled, Started, Finished, Changed, Judged;
  }

  lemma PromptIsClean(h: House, base: Players, e: Event)
    requires Sound(h, base, true) && Prompt(h, base, e)
    ensures Clean(h, base, e)
  {
    hide Sound, PlayerSound, Settled, ArrivesAt, Clean, Untouched, AtLevel;
    SoundKeys(h, base, true);
    if e.Listen? || e.LetGo? {
      PanelsDropNothing(h, base, e);
    } else {
      var id := e.id;
      if id in h.players && id in h.records {
        SoundAt(h, base, id, true);
        PromptSettles(h, base, e, id);
      }
      OnlyItsOwn(h, base, e, id);
    }
  }

  lemma PromptSettles(h: House, base: Players, e: Event, id: PlayerId)
    requires !e.Listen? && !e.LetGo? && e.id == id && id in h.players && id in h.records && id in base
    requires PlayerSound(Some(h.records[id]), h.players[id], base[id], true) && Prompt(h, base, e)
    ensures id !in Happened(h, e).records ==> Settled(Happened(h, e).players[id], base[id].now.level)
  {
    hide PlayerSound, Settled, ArrivesAt, Untouched, AtLevel, Started, Finished, Changed, Judged;
    var r, p := h.records[id], h.players[id];
    match e {
      case Start(_) => if Ready(h, id, Queued) { StartedSound(r, p, base[id], true); }
      case Finish(_) =>
        if Ready(h, id, Landed) && Finished(r, p).None? { FinishSettles(r, p, base[id]); }
      case Land(_) =>
      case Lose(_) =>
      case _ => SightSettles(h, base, e, id);
    }
  }

  lemma SightSettles(h: House, base: Players, e: Event, id: PlayerId)
    requires (e.Show? || e.Hide? || e.Return? || e.Stir?) && e.id == id
    requires id in h.players && id in h.records && id in base
    requires PlayerSound(Some(h.records[id]), h.players[id], base[id], true) && Prompt(h, base, e)
    ensures id !in Happened(h, e).records ==> Settled(Happened(h, e).players[id], base[id].now.level)
  {
    hide PlayerSound, Settled, Judged, Turns, Loud;
    var r, p, q := h.records[id], h.players[id], Happened(h, e).players[id];
    if id !in Happened(h, e).records {
      assert Judged(r, q).None?;
      assert Turns(p, q) by { ShownTurns(h, e); }
      ViewSound(Some(r), p, base[id], q, true);
      JudgingSettles(r, q, base[id]);
    }
  }

  /** Whatever an event of sight does, the player turns to something it had on its way. */
  lemma ShownTurns(h: House, e: Event)
    requires (e.Show? || e.Hide? || e.Return? || e.Stir?) && e.id in h.players
    ensures e.id in Happened(h, e).players && Turns(h.players[e.id], Happened(h, e).players[e.id])
  {
    hide Judged;
  }

  lemma {:induction false} PromptRun(h: House, base: Players, events: seq<Event>)
    requires Sound(h, base, true) && PromptEvening(h, base, events)
    ensures CleanEvening(h, base, events) && Sound(Evening(h, events), base, true)
    decreases |events|
  {
    hide Sound, Happened, Clean, Prompt;
    if events != [] {
      PromptIsClean(h, base, events[0]);
      HappenedSound(h, base, events[0], true);
      PromptRun(Happened(h, events[0]), base, events[1..]);
    }
  }

  /**
   * With prompt reports the room is restored: it is enough that every lowering
   * has been shown by the end of the last restore after it. The restores may be
   * shown as late as they like, and any of them may be lost.
   */
  lemma PromptReportsRestore(players: Players, events: seq<Event>, id: PlayerId)
    requires AtRest(players) && id in players
    requires PromptEvening(Before(players), players, events)
    ensures CleanEvening(Before(players), players, events)
    ensures Kept(Evening(Before(players), events), players, id)
  {
    hide Sound, CleanEvening, PromptEvening, AtRest, Kept;
    RestSound(players);
    PromptRun(Before(players), players, events);
    TheRoomIsRestored(players, events, id);
  }

  // ------------------------------------------------------------------- and settled is exact

  lemma {:induction false} Three(g: House, base: Players, a: Event, b: Event, c: Event)
    ensures var g1 := Happened(g, a);
            var g2 := Happened(g1, b);
            && Evening(g, [a, b, c]) == Happened(g2, c)
            && (Clean(g, base, a) && Clean(g1, base, b) && Clean(g2, base, c) ==> CleanEvening(g, base, [a, b, c]))
  {
    hide Happened, Clean;
    var g1 := Happened(g, a);
    var g2 := Happened(g1, b);
    assert [a, b, c][1..] == [b, c] && [b, c][1..] == [c] && [c][1..] == [];
    assert Evening(g2, [c]) == Happened(g2, c);
    assert CleanEvening(Happened(g2, c), base, [c][1..]);
    assert Clean(g2, base, c) ==> CleanEvening(g2, base, [c]);
    assert Clean(g1, base, b) && Clean(g2, base, c) ==> CleanEvening(g1, base, [b, c]);
  }

  /** Letting a player report, and listening to the room once more. */
  lemma {:induction false} ListeningAgain(g: House, base: Players, id: PlayerId)
    requires id in g.players && id in base && id !in g.records && g.players[id].canSet
    requires g.players[id].seen.level != base[id].now.level
    ensures var more := [Return(id), LetGo(0), Listen(0, [id])];
            CleanEvening(g, base, more) && !Kept(Evening(g, more), base, id)
  {
    hide Clean, Kept;
    Three(g, base, Return(id), LetGo(0), Listen(0, [id]));
    var g1 := Happened(g, Return(id));
    OnlyItsOwn(g, base, Return(id), id);
    var g2 := Happened(g1, LetGo(0));
    PanelsDropNothing(g1, base, LetGo(0));
    PanelsDropNothing(g2, base, Listen(0, [id]));
    assert id in g1.players && id !in g1.records && g1.players[id] == g.players[id].(visible := true);
    assert id !in g2.records && g2.players == g1.players && HeldBy(g2, 0) == {};
    JoinsMistaken(g2, base, id);
    MistakenIsNotKept(Happened(g2, Listen(0, [id])), base, id);
  }

  lemma {:induction false} JoinsMistaken(g: House, base: Players, id: PlayerId)
    requires id in g.players && id in base && id !in g.records && g.players[id].canSet && g.players[id].visible
    requires g.players[id].seen.level != base[id].now.level && HeldBy(g, 0) == {}
    ensures Mistaken(Happened(g, Listen(0, [id])), base, id)
  {
    assert [id][..0] == [];
    assert DuckAll(g.players, g.records, {}, 0, [id]) == DuckOne(g.players, g.records, {}, 0, id);
  }

  /** A record takes another level for the original. */
  predicate Mistaken(h: House, base: Players, id: PlayerId)
    requires id in base
  {
    id in h.records && h.records[id].level.Some? && h.records[id].level.value != base[id].now.level
  }

  lemma MistakenIsNotKept(h: House, base: Players, id: PlayerId)
    requires id in base && Mistaken(h, base, id)
    ensures !Kept(h, base, id)
  {
  }

  lemma MistakenSoon(g: House, base: Players, id: PlayerId) returns (more: seq<Event>)
    requires id in g.players && id in base && id !in g.records && g.players[id].canSet
    requires !Settled(g.players[id], base[id].now.level)
    ensures CleanEvening(g, base, more) && !Kept(Evening(g, more), base, id)
  {
    hide Clean, Kept;
    if g.players[id].seen.level != base[id].now.level {
      more := [Return(id), LetGo(0), Listen(0, [id])];
      ListeningAgain(g, base, id);
    } else {
      var n :| 0 <= n < |g.players[id].coming| && g.players[id].coming[n].level != base[id].now.level;
      var g1 := Happened(g, Show(id, n));
      assert g1 == g.(players := g.players[id := Shown(g.players[id], n)]);
      OnlyItsOwn(g, base, Show(id, n), id);
      var rest := [Return(id), LetGo(0), Listen(0, [id])];
      ListeningAgain(g1, base, id);
      more := [Show(id, n)] + rest;
      assert more[1..] == rest;
      hide Happened;
    }
  }

  /** Only a record of a level is ever dropped from an unsettled player, so its volume can be set. */
  lemma DroppedCanSet(h: House, base: Players, e: Event, id: PlayerId)
    requires Sound(h, base, false) && id in base && id in h.records && id !in Happened(h, e).records
    requires id in Happened(h, e).players && !Settled(Happened(h, e).players[id], base[id].now.level)
    ensures Happened(h, e).players[id].canSet
  {
    hide Sound;
    if e.Listen? || e.LetGo? {
      PanelsDropNothing(h, base, e);
    } else {
      SoundKeys(h, base, false);
      SoundAt(h, base, id, false);
      DroppedOwn(h, e, id);
      hide Happened, RecordSound;
      var r, p, q := h.records[id], h.players[id], Happened(h, e).players[id];
      if p == q { DroppedSettled(r, p, base[id]); }
      else {
        ViewSound(Some(r), p, base[id], q, false);
        DroppedSettled(r, q, base[id]);
      }
    }
  }

  lemma DroppedOwn(h: House, e: Event, id: PlayerId)
    requires !e.Listen? && !e.LetGo? && id in h.players && id in h.records && id !in Happened(h, e).records
    ensures id in Happened(h, e).players && Turns(h.players[id], Happened(h, e).players[id])
  {
    hide Judged, Started, Finished, Changed;
  }

  lemma DroppedSettled(r: Record, q: Player, b: Player)
    requires PlayerSound(Some(r), q, b, false) && !Settled(q, b.now.level)
    ensures q.canSet
  {
  }

  lemma UncleanIsMistaken(h: House, base: Players, e: Event) returns (more: seq<Event>, id: PlayerId)
    requires Sound(h, base, false) && !Clean(h, base, e)
    ensures id in base && CleanEvening(Happened(h, e), base, more)
    ensures !Kept(Evening(Happened(h, e), more), base, id)
  {
    hide Kept, Sound, Settled;
    var g := Happened(h, e);
    id :| id in h.records && id !in g.records && id in g.players && id in base
          && !Settled(g.players[id], base[id].now.level);
    DroppedCanSet(h, base, e, id);
    more := MistakenSoon(g, base, id);
  }

  /**
   * Settled reports are exactly what it takes. As long as records have been
   * dropped from settled players only, the next event keeps that up if and only
   * if no evening that does so afterwards can get a player's level wrong.
   */
  lemma RecordsMustSettle(players: Players, events: seq<Event>, e: Event)
    requires AtRest(players) && CleanEvening(Before(players), players, events)
    ensures var h := Evening(Before(players), events);
            Clean(h, players, e)
            <==> forall more, id :: id in players && CleanEvening(Happened(h, e), players, more) ==>
                   Kept(Evening(Happened(h, e), more), players, id)
  {
    hide Sound, CleanEvening, AtRest, Kept, Clean, Happened;
    var h := Evening(Before(players), events);
    RestSound(players);
    EveningSound(Before(players), players, events);
    if Clean(h, players, e) {
      HappenedSound(h, players, e, false);
      forall more, id | id in players && CleanEvening(Happened(h, e), players, more)
        ensures Kept(Evening(Happened(h, e), more), players, id)
      {
        EveningSound(Happened(h, e), players, more);
        SoundKept(Evening(Happened(h, e), more), players, id);
      }
    } else {
      var more, id := UncleanIsMistaken(h, players, e);
    }
  }

  // --------------------------------------------------------------------------- two evenings

  /** An evening, step by step. */
  lemma {:induction false} Steps(h: House, events: seq<Event>, states: seq<House>)
    requires |states| == |events| + 1 && states[0] == h
    requires forall i :: 0 <= i < |events| ==> Happened(states[i], events[i]) == states[i + 1]
    ensures Evening(h, events) == states[|events|]
    decreases |events|
  {
    hide Happened;
    if events != [] {
      assert Happened(states[0], events[0]) == states[1];
      Steps(states[1], events[1..], states[1..]);
    }
  }

  /** A house of one player and one panel. */
  function One(id: PlayerId, p: Player, r: Option<Record>, mine: set<PlayerId>): House {
    House(map[id := p], if r.Some? then map[id := r.value] else map[], map[0 := mine])
  }

  lemma OnePut(id: PlayerId, p: Player, q: Player, r: Option<Record>, s: Option<Record>, mine: set<PlayerId>)
    ensures Put(One(id, p, r, mine).(players := One(id, p, r, mine).players[id := q]), id, s) == One(id, q, s, mine)
    ensures Put(One(id, p, r, mine), id, s) == One(id, p, s, mine)
    ensures One(id, p, r, mine).players[id := q] == map[id := q]
  {
  }

  /** The record of the turn that begins now. */
  function Opened(p: Player): Record { Record(Some(p.seen.level), {0}, [Call(false, Queued)], false) }

  function Held(p: Player): Record { Opened(p).(calls := []) }

  function Closing(p: Player, stage: Stage): Record {
    Record(Some(p.seen.level), {}, [Call(true, stage)], false)
  }

  lemma OneListens(id: PlayerId, p: Player, held: Holds)
    requires p.canSet && p.visible && (held == map[] || held == map[0 := {}])
    ensures Happened(House(map[id := p], map[], held), Listen(0, [id])) == One(id, p, Some(Opened(p)), {id})
  {
    var players: Players := map[id := p];
    assert [id][..0] == [];
    assert DuckAll(players, map[], {}, 0, [id]) == DuckOne(players, map[], {}, 0, id);
    assert {} + {id} == {id};
    assert Enqueued(Lower(p).value, false).(holders := {0}) == Opened(p) by {
      assert [] + [Call(false, Queued)] == [Call(false, Queued)];
    }
    assert held[0 := {id}] == map[0 := {id}];
    var none: Records := map[];
    assert none[id := Opened(p)] == map[id := Opened(p)];
  }

  lemma OneLowers(id: PlayerId, o: Player, p: Player)
    ensures var r := Opened(o);
            && Happened(One(id, p, Some(r), {id}), Start(id))
               == One(id, p, Some(r.(calls := [Call(false, Writing)])), {id})
            && Happened(One(id, p, Some(r.(calls := [Call(false, Writing)])), {id}), Land(id))
               == One(id, Changed(p, r, false), Some(r.(calls := [Call(false, Landed)])), {id})
            && Happened(One(id, p, Some(r.(calls := [Call(false, Landed)])), {id}), Finish(id))
               == One(id, p, Some(Held(o)), {id})
  {
    hide Changed;
    var r := Opened(o);
    var w, l := r.(calls := [Call(false, Writing)]), r.(calls := [Call(false, Landed)]);
    assert [Call(false, Queued)][0 := Call(false, Writing)] == [Call(false, Writing)];
    assert [Call(false, Writing)][0 := Call(false, Landed)] == [Call(false, Landed)];
    OnePut(id, p, p, Some(r), Some(w), {id});
    OnePut(id, p, Changed(p, r, false), Some(w), Some(l), {id});
    assert Changed(p, w, false) == Changed(p, r, false) by { ChangedBy(p, w, r, false); }
    assert [Call(false, Landed)][1..] == [];
    assert Rest(l) == Some(Held(o)) && l.calls[0] == Call(false, Landed);
    assert !Waits(l, p) && l.(waiting := false) == l;
    OnePut(id, p, p, Some(l), Some(Held(o)), {id});
  }

  lemma ChangedBy(p: Player, r: Record, s: Record, restoring: bool)
    requires r.level == s.level
    ensures Changed(p, r, restoring) == Changed(p, s, restoring)
  {
  }

  /** The panel lets go, and the restore is queued. */
  lemma OneLetsGo(id: PlayerId, o: Player, p: Player)
    ensures Happened(One(id, p, Some(Held(o)), {id}), LetGo(0)) == One(id, p, Some(Closing(o, Queued)), {})
  {
    var h := One(id, p, Some(Held(o)), {id});
    assert {0} - {0} == {};
    assert [] + [Call(true, Queued)] == [Call(true, Queued)];
    assert ReleaseOne(h.records, 0, id)[id] == Closing(o, Queued);
    assert ReleaseAll(h.records, 0, {id}) == map[id := Closing(o, Queued)];
    assert h.held[0 := {}] == map[0 := {}];
  }

  lemma OneRestores(id: PlayerId, o: Player, p: Player)
    ensures p.visible && Untouched(p, o.seen.level) ==>
              Happened(One(id, p, Some(Closing(o, Queued)), {}), Start(id))
              == One(id, p, Some(Closing(o, Writing)), {})
    ensures Happened(One(id, p, Some(Closing(o, Writing)), {}), Land(id))
            == One(id, Changed(p, Opened(o), true), Some(Closing(o, Landed)), {})
    ensures AtLevel(p, o.seen.level) ==>
              Happened(One(id, p, Some(Closing(o, Landed)), {}), Finish(id)) == One(id, p, None, {})
  {
    hide Changed, Untouched, AtLevel;
    assert [Call(true, Queued)][0 := Call(true, Writing)] == [Call(true, Writing)];
    assert [Call(true, Writing)][0 := Call(true, Landed)] == [Call(true, Landed)];
    OnePut(id, p, p, Some(Closing(o, Queued)), Some(Closing(o, Writing)), {});
    ChangedBy(p, Closing(o, Writing), Opened(o), true);
    OnePut(id, p, Changed(p, Opened(o), true), Some(Closing(o, Writing)), Some(Closing(o, Landed)), {});
    OnePut(id, p, p, Some(Closing(o, Landed)), None, {});
  }

  lemma OneShows(id: PlayerId, p: Player, r: Option<Record>, mine: set<PlayerId>, n: nat)
    requires n < |p.coming| && (r.Some? ==> !r.value.waiting)
    ensures Happened(One(id, p, r, mine), Show(id, n)) == One(id, Shown(p, n), r, mine)
  {
    OnePut(id, p, Shown(p, n), r, r, mine);
  }

  /** Two turns, the first of which is reported only after it is over. */
  function LateReport(id: PlayerId): seq<Event> {
    [Listen(0, [id]), Start(id), Land(id), Finish(id), LetGo(0), Start(id), Land(id), Finish(id), Show(id, 0)]
    + [Listen(0, [id]), Start(id), Land(id), Show(id, 1), Finish(id), LetGo(0), Start(id), Land(id),
       Show(id, 0), Finish(id)]
  }

  /**
   * However loud the player: if its first turn is reported only once that turn
   * is over, the second turn takes the lowered level for the original, and the
   * player stays there. Nothing is lost, it never leaves sight, and nobody else
   * touches it.
   */
  lemma LateReportStaysDown(id: PlayerId, p: Player)
    requires p.canSet && p.visible && p.now.level > 0.0 && AtRest(map[id := p])
    ensures var h := Evening(Before(map[id := p]), LateReport(id));
            && Drained(h) && id in h.players && id !in h.records && (forall panel :: id !in HeldBy(h, panel))
            && h.players[id].now.level == Lowered(p.now.level) && h.players[id].now.level != p.now.level
            && h.players[id].seen == h.players[id].now && h.players[id].coming == []
  {
    var low := p.now.(level := Lowered(p.now.level));
    var lower := low.(level := Lowered(low.level));
    hide Happened;
    FirstTurn(id, p, low);
    SecondTurn(id, p, low, lower);
    assert Evening(Before(map[id := p]), LateReport(id)) == One(id, p.(now := low, seen := low), None, {}) by {
      EveningConcat(Before(map[id := p]), LateReport(id)[..9], LateReport(id)[9..]);
      assert LateReport(id)[..9] + LateReport(id)[9..] == LateReport(id);
    }
  }

  lemma {:induction false} EveningConcat(h: House, a: seq<Event>, b: seq<Event>)
    ensures Evening(h, a + b) == Evening(Evening(h, a), b)
    decreases |a|
  {
    hide Happened;
    if a == [] {
      assert a + b == b;
    } else {
      assert (a + b)[1..] == a[1..] + b;
      EveningConcat(Happened(h, a[0]), a[1..], b);
    }
  }

  lemma FirstTurn(id: PlayerId, p: Player, low: View)
    requires p.canSet && p.visible && AtRest(map[id := p]) && low == p.now.(level := Lowered(p.now.level))
    ensures Evening(Before(map[id := p]), LateReport(id)[..9])
            == One(id, p.(seen := low, coming := [p.now]), None, {})
  {
    hide Happened;
    var p1 := p.(now := low, coming := [low]);
    var p2 := p.(coming := [low, p.now]);
    assert p.step >= 0.0 && p.seen == p.now && p.coming == [] by { assert id in map[id := p]; }
    assert Changed(p, Opened(p), false) == p1 by { assert [] + [low] == [low]; }
    assert Changed(p1, Opened(p), true) == p2 by { assert [low] + [p.now] == [low, p.now]; }
    assert Shown(p2, 0) == p.(seen := low, coming := [p.now]) by { assert [low, p.now][1..] == [p.now]; }
    assert AtLevel(p1, p.seen.level) && AtLevel(p2, p.seen.level);
    OneListens(id, p, map[]);
    OneLowers(id, p, p);
    OneLowers(id, p, p1);
    OneLetsGo(id, p, p1);
    OneRestores(id, p, p1);
    OneRestores(id, p, p2);
    OneShows(id, p2, None, {}, 0);
    var r := Opened(p);
    var states := [
      Before(map[id := p]), One(id, p, Some(r), {id}), One(id, p, Some(r.(calls := [Call(false, Writing)])), {id}),
      One(id, p1, Some(r.(calls := [Call(false, Landed)])), {id}), One(id, p1, Some(Held(p)), {id}),
      One(id, p1, Some(Closing(p, Queued)), {}), One(id, p1, Some(Closing(p, Writing)), {}),
      One(id, p2, Some(Closing(p, Landed)), {}), One(id, p2, None, {}),
      One(id, p.(seen := low, coming := [p.now]), None, {})];
    Steps(Before(map[id := p]), LateReport(id)[..9], states);
  }

  lemma SecondTurn(id: PlayerId, p: Player, low: View, lower: View)
    requires p.canSet && p.visible && AtRest(map[id := p]) && low == p.now.(level := Lowered(p.now.level))
    requires lower == low.(level := Lowered(low.level))
    ensures Evening(One(id, p.(seen := low, coming := [p.now]), None, {}), LateReport(id)[9..])
            == One(id, p.(now := low, seen := low), None, {})
  {
    hide Happened;
    var q := p.(seen := low, coming := [p.now]);
    var q1 := q.(now := lower, coming := [p.now, lower]);
    var q2 := q1.(seen := lower, coming := []);
    var q3 := q2.(now := low, coming := [low]);
    var q4 := p.(now := low, seen := low);
    assert p.step >= 0.0 && p.seen == p.now && p.coming == [] by { assert id in map[id := p]; }
    assert Changed(q, Opened(q), false) == q1 by { assert [p.now] + [lower] == [p.now, lower]; }
    assert Shown(q1, 1) == q2 by { assert [p.now, lower][2..] == []; }
    assert Changed(q2, Opened(q), true) == q3 by { assert [] + [low] == [low]; }
    assert Shown(q3, 0) == q4 by { assert [low][1..] == []; }
    assert AtLevel(q2, Lowered(low.level)) && AtLevel(q4, low.level);
    OneListens(id, q, map[0 := {}]);
    OneLowers(id, q, q);
    OneLowers(id, q, q2);
    var r := Opened(q);
    OneShows(id, q1, Some(r.(calls := [Call(false, Landed)])), {id}, 1);
    OneLetsGo(id, q, q2);
    OneRestores(id, q, q2);
    OneRestores(id, q, q4);
    OneShows(id, q3, Some(Closing(q, Landed)), {}, 0);
    var states := [
      One(id, q, None, {}), One(id, q, Some(r), {id}), One(id, q, Some(r.(calls := [Call(false, Writing)])), {id}),
      One(id, q1, Some(r.(calls := [Call(false, Landed)])), {id}),
      One(id, q2, Some(r.(calls := [Call(false, Landed)])), {id}),
      One(id, q2, Some(Held(q)), {id}),
      One(id, q2, Some(Closing(q, Queued)), {}), One(id, q2, Some(Closing(q, Writing)), {}),
      One(id, q3, Some(Closing(q, Landed)), {}), One(id, q4, Some(Closing(q, Landed)), {}), One(id, q4, None, {})];
    Steps(One(id, q, None, {}), LateReport(id)[9..], states);
  }

  /** A turn in which the lowered player drops out of sight, to come back after its end. */
  function DropOut(id: PlayerId): seq<Event> {
    [Listen(0, [id]), Start(id), Land(id), Show(id, 0), Finish(id), Hide(id), LetGo(0), Start(id), Return(id)]
  }

  function Waiting(o: Player): Record { Record(Some(o.seen.level), {}, [], true) }

  lemma OneDropsOut(id: PlayerId, o: Player, p: Player)
    requires p.visible
    ensures var q := p.(visible := false);
            && Happened(One(id, p, Some(Held(o)), {id}), Hide(id)) == One(id, q, Some(Held(o)), {id})
            && Happened(One(id, q, Some(Closing(o, Queued)), {}), Start(id)) == One(id, q, Some(Waiting(o)), {})
            && (AtLevel(p, o.seen.level) ==>
                  Happened(One(id, q, Some(Waiting(o)), {}), Return(id)) == One(id, p, None, {}))
  {
    hide AtLevel;
    var q := p.(visible := false);
    OnePut(id, p, q, Some(Held(o)), Some(Held(o)), {id});
    assert [Call(true, Queued)][1..] == [];
    OnePut(id, q, q, Some(Closing(o, Queued)), Some(Waiting(o)), {});
    OnePut(id, q, p, Some(Waiting(o)), None, {});
  }

  /**
   * The demand on quiet players is no luxury either. For every player whose
   * lowered and original levels lie within half its volume step there is an
   * evening, with every report in time, that leaves it lowered with nobody
   * holding it: coming back into sight, its lowered level is read as a restore
   * that has already landed.
   */
  lemma QuietPlayerStaysDown(id: PlayerId, p: Player)
    requires p.canSet && p.visible && p.now.level > 0.0 && AtRest(map[id := p]) && !Loud(p)
    ensures var h := Evening(Before(map[id := p]), DropOut(id));
            && Drained(h) && id in h.players && id !in h.records && (forall panel :: id !in HeldBy(h, panel))
            && h.players[id].now.level == Lowered(p.now.level) && h.players[id].now.level != p.now.level
  {
    hide Happened;
    var low := p.now.(level := Lowered(p.now.level));
    var p1 := p.(now := low, coming := [low]);
    var p2 := p.(now := low, seen := low);
    var p3 := p2.(visible := false);
    assert p.step >= 0.0 && p.seen == p.now && p.coming == [] by { assert id in map[id := p]; }
    assert Changed(p, Opened(p), false) == p1 by { assert [] + [low] == [low]; }
    assert Shown(p1, 0) == p2 by { assert [low][1..] == []; }
    assert AtLevel(p2, p.seen.level);
    OneListens(id, p, map[]);
    OneLowers(id, p, p);
    OneLowers(id, p, p2);
    var r := Opened(p);
    OneShows(id, p1, Some(r.(calls := [Call(false, Landed)])), {id}, 0);
    OneLetsGo(id, p, p3);
    OneDropsOut(id, p, p2);
    var states := [
      Before(map[id := p]), One(id, p, Some(r), {id}), One(id, p, Some(r.(calls := [Call(false, Writing)])), {id}),
      One(id, p1, Some(r.(calls := [Call(false, Landed)])), {id}),
      One(id, p2, Some(r.(calls := [Call(false, Landed)])), {id}), One(id, p2, Some(Held(p)), {id}),
      One(id, p3, Some(Held(p)), {id}), One(id, p3, Some(Closing(p, Queued)), {}),
      One(id, p3, Some(Waiting(p)), {}), One(id, p2, None, {})];
    Steps(Before(map[id := p]), DropOut(id), states);
  }
}
