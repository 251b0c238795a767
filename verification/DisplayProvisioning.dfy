/**
 * The two programs that size a panel's display at setup and hand it back at
 * removal. Any command of theirs may fail, they may be cut short anywhere, and
 * the owner may change the display between them.
 */
module DisplayProvisioning {
  import opened Wrappers

  /** What a density query answers: nothing readable, no override, or an override. */
  datatype Density = Unknown | NoOverride | Override(value: nat)

  /** What was on the panel before anything was changed; font texts are as Android prints them. */
  datatype Sizes = Sizes(density: Density, font: string)

  datatype Sizing = Sizing(density: Option<nat>, font: Option<string>)

  datatype Fate = Works | Fails | Dies

  datatype Outcome =
    | Died
    | Sized(record: Option<Sizes>, density: Density, font: string)
    | Restored | Unrestored | NothingRecorded

  /** The standard text size has two further spellings, one of them for no setting at all. */
  predicate SameFont(read: string, wanted: string) {
    read == wanted || (wanted == "1" && (read == "1.0" || read == "null"))
  }

  /** Success: what was recommended is in force, and can be taken back. */
  predicate Converged(o: Outcome, s: Sizing) {
    && o.Sized? && o.record.Some?
    && (s.density.Some? ==> o.density == Override(s.density.value))
    && (s.font.Some? ==> SameFont(o.font, s.font.value))
  }

  /** A run that converged reads back exactly what was wanted, but for the spellings of the standard size. */
  lemma ConvergedReadsExactly(o: Outcome, s: Sizing)
    requires Converged(o, s)
    ensures s.density.Some? ==> o.density == Override(s.density.value)
    ensures s.font.Some? && s.font.value != "1" ==> o.font == s.font.value
    ensures s.font == Some("1") ==> o.font in {"1", "1.0", "null"}
  {
  }

  /** The display is as recommended. */
  predicate Applied(s: Sizing, density: Density, font: string) {
    && (s.density.Some? ==> density == Override(s.density.value))
    && (s.font.Some? ==> SameFont(font, s.font.value))
  }

  /** The sizes are the owner's. An empty text size is the one value that cannot be put back. */
  predicate AsBefore(sizes: Sizes, owners: Sizes) {
    sizes.density == owners.density && (sizes.font == owners.font || owners.font == "")
  }

  /** How many commands a working run takes to apply the recommended values. */
  function ApplySteps(s: Sizing, density: Density, font: string): nat {
    (if s.density.None? then 0 else if density == Override(s.density.value) then 1 else 2)
    + (if s.font.None? then 0 else if SameFont(font, s.font.value) then 1 else 2)
  }

  class Panel {
    const fates: nat -> Fate
    var steps: nat
    var density: Density          // never Unknown: that is an answer, not a setting
    var font: string
    var record: Option<Sizes>
    var writes: nat               // how often a program has changed the display
    ghost var owners: Sizes       // what the display would be if no program had ever run

    constructor (fates: nat -> Fate, density: Density, font: string)
      requires !density.Unknown?
      ensures Undoable() && record.None? && steps == 0 && writes == 0 && owners == Sizes(density, font)
      ensures this.density == density && this.font == font && this.fates == fates
    {
      this.fates, this.density, this.font := fates, density, font;
      steps, record, writes := 0, None, 0;
      owners := Sizes(density, font);
    }

    /** While there is no record, nothing of the owner's is changed; a record is what was there. */
    ghost predicate Undoable()
      reads this
    {
      && !density.Unknown?
      && (record.None? ==> AsBefore(Sizes(density, font), owners))
      && (record.Some? ==> AsBefore(record.value, owners) && !record.value.density.Unknown?)
    }

    /** The next ten commands work, which is more than any one run takes. */
    ghost predicate Working(from: nat) {
      forall k :: from <= k < from + 10 ==> fates(k).Works?
    }

    method Next() returns (fate: Fate)
      modifies this`steps
      ensures fate == fates(old(steps)) && steps == old(steps) + 1
    {
      fate := fates(steps);
      steps := steps + 1;
    }

    /** The owner changes something by hand. */
    method OwnerSets(density: Density, font: string)
      requires Undoable() && !density.Unknown?
      modifies this
      ensures Undoable() && this.density == density && this.font == font
      ensures record == old(record) && writes == old(writes) && steps == old(steps)
    {
      this.density, this.font := density, font;
      if record.None? {
        owners := Sizes(density, font);
      }
    }

    method ReadDensity() returns (answer: Density, dead: bool)
      modifies this`steps
      ensures steps == old(steps) + 1 && dead == fates(old(steps)).Dies?
      ensures !dead ==> answer == if fates(old(steps)).Works? then density else Unknown
    {
      var fate := Next();
      return if fate.Works? then density else Unknown, fate.Dies?;
    }

    /** A failed query prints nothing. */
    method ReadFont() returns (answer: string, ok: bool, dead: bool)
      modifies this`steps
      ensures steps == old(steps) + 1 && dead == fates(old(steps)).Dies?
      ensures !dead ==> ok == fates(old(steps)).Works? && answer == if ok then font else ""
    {
      var fate := Next();
      return if fate.Works? then font else "", fate.Works?, fate.Dies?;
    }

    /** Change the density, which no program may do before the old one is on record. */
    method WriteDensity(to: Density) returns (dead: bool)
      requires record.Some? && !to.Unknown?
      modifies this`steps, this`density, this`writes
      ensures steps == old(steps) + 1 && writes == old(writes) + 1 && dead == fates(old(steps)).Dies?
      ensures density == if fates(old(steps)).Works? then to else old(density)
    {
      var fate := Next();
      if fate.Works? {
        density := to;
      }
      writes := writes + 1;
      return fate.Dies?;
    }

    method WriteFont(to: string) returns (dead: bool)
      requires record.Some?
      modifies this`steps, this`font, this`writes
      ensures steps == old(steps) + 1 && writes == old(writes) + 1 && dead == fates(old(steps)).Dies?
      ensures font == if fates(old(steps)).Works? then to else old(font)
    {
      var fate := Next();
      if fate.Works? {
        font := to;
      }
      writes := writes + 1;
      return fate.Dies?;
    }

    /** Record the values once: only a record that was written whole takes its name. */
    method RecordOnce() returns (dead: bool)
      requires Undoable()
      modifies this`steps, this`record
      ensures Undoable() && steps >= old(steps)
      ensures old(record).Some? ==> record == old(record) && steps == old(steps) && !dead
      ensures record.Some? ==> record == old(record) || record.value == Sizes(density, font)
      ensures old(record).None? && Working(old(steps)) ==>
                !dead && record == Some(Sizes(density, font)) && steps == old(steps) + 4
    {
      if record.Some? {
        return false;
      }
      var was, fontText, ok;
      was, dead := ReadDensity();
      if dead || was.Unknown? {
        return;
      }
      fontText, ok, dead := ReadFont();
      if dead || !ok {
        return;
      }
      var written := Next();      // into the partial file
      if !written.Works? {
        return written.Dies?;
      }
      var moved := Next();
      if moved.Works? {
        record := Some(Sizes(was, fontText));
      }
      return moved.Dies?;
    }

    /** Apply the recommended values that do not read back already. */
    method Apply(s: Sizing) returns (dead: bool)
      requires Undoable() && record.Some?
      modifies this`steps, this`density, this`font, this`writes
      ensures Undoable()
      ensures steps >= old(steps) && writes >= old(writes)
      ensures fates(old(steps)).Works? && fates(old(steps) + 1).Works? && Applied(s, old(density), old(font))
              ==> !dead && writes == old(writes) && density == old(density) && font == old(font)
      ensures (forall k :: old(steps) <= k < old(steps) + 4 ==> fates(k).Works?) ==>
                && !dead && Applied(s, density, font)
                && steps == old(steps) + ApplySteps(s, old(density), old(font))
    {
      dead := false;
      if s.density.Some? {
        var read;
        read, dead := ReadDensity();
        if dead {
          return;
        }
        if read != Override(s.density.value) {
          dead := WriteDensity(Override(s.density.value));
          if dead {
            return;
          }
        }
      }
      if s.font.Some? {
        var read, ok;
        read, ok, dead := ReadFont();
        if dead {
          return;
        }
        if !SameFont(read, s.font.value) {
          dead := WriteFont(s.font.value);
        }
      }
    }

    /**
     * The sizing program. It writes nothing without a record, never touches a
     * record that is there, and writes nothing where the wanted values are
     * read already. A first run whose commands work records what was there and
     * converges.
     */
    method Size(s: Sizing) returns (o: Outcome)
      requires Undoable() && s.font != Some("")
      modifies this
      ensures Undoable() && owners == old(owners)
      ensures steps >= old(steps) && writes >= old(writes)
      ensures old(record).Some? ==> record == old(record)
      ensures record.None? ==> writes == old(writes) && density == old(density) && font == old(font)
      ensures o.Died? || (o.Sized? && (o.record.Some? ==> o.record == record))
      ensures Converged(o, s) ==> record.Some? && Applied(s, density, font)
      ensures old(record).Some? && Applied(s, old(density), old(font))
              && (forall k :: k >= old(steps) ==> fates(k).Works?)
              ==> writes == old(writes) && density == old(density) && font == old(font) && Converged(o, s)
      ensures old(record).None? && !old(density).Unknown? && Working(old(steps)) ==>
                && record == Some(Sizes(old(density), old(font))) && Applied(s, density, font) && Converged(o, s)
                && steps == old(steps) + 6 + ApplySteps(s, old(density), old(font))
    {
      var dead := RecordOnce();
      if dead {
        return Died;
      }
      var shown := record;
      if record.Some? {
        dead := Apply(s);
        if dead {
          return Died;
        }
      }
      var d, f, ok;
      d, dead := ReadDensity();
      if dead {
        return Died;
      }
      f, ok, dead := ReadFont();
      if dead {
        return Died;
      }
      return Sized(shown, d, f);
    }

    /**
     * Put the recorded values back, and drop the record as soon as both are seen.
     * A record of an empty text size is never put back, and cannot be told from a
     * failed query: the run claims success exactly if that query fails, or if the
     * text size happens to be empty.
     */
    method Restore() returns (o: Outcome)
      requires Undoable()
      modifies this
      ensures Undoable() && owners == old(owners)
      ensures steps >= old(steps) && writes >= old(writes)
      ensures o.Died? || o.Restored? || o.Unrestored? || o.NothingRecorded?
      ensures o.NothingRecorded? <==> old(record).None?
      ensures o.NothingRecorded? ==> writes == old(writes) && density == old(density) && font == old(font)
      ensures o.Restored? ==>
                && density == old(record).value.density
                && (old(record).value.font != "" ==> font == old(record).value.font)
      ensures old(record).Some? && fates(old(steps)).Works? ==> density == old(record).value.density
      ensures o.Unrestored? ==> record == old(record)
      ensures record == old(record)
              || (record.None? && (o.Restored? || o.Died?) && old(record) == Some(Sizes(density, font)))
              || (record.None? && old(record).value.font == "" && (o.Restored? || o.Died?))
      ensures (&& old(record).Some? && old(record).value.font != ""
               && (forall k :: k >= old(steps) ==> fates(k).Works?))
              ==> o.Restored? && record.None?
      ensures old(record).Some? && old(record).value.font == "" ==>
                && font == old(font)
                && (o.Restored? <==>
                      && !fates(old(steps)).Dies? && fates(old(steps) + 1).Works?
                      && density == old(record).value.density
                      && (fates(old(steps) + 2).Fails? || (fates(old(steps) + 2).Works? && font == ""))
                      && !fates(old(steps) + 3).Dies?)
                && (o.Restored? && !fates(old(steps) + 3).Fails? ==> record.None?)
    {
      if record.None? {
        return NothingRecorded;
      }
      var was := record.value;
      var dead := WriteDensity(was.density);
      if dead {
        return Died;
      }
      if was.font != "" {
        dead := WriteFont(was.font);
        if dead {
          return Died;
        }
      }
      var d, f, ok;
      d, dead := ReadDensity();
      if dead {
        return Died;
      }
      if d != was.density {
        return Unrestored;
      }
      f, ok, dead := ReadFont();
      if dead {
        return Died;
      }
      if f != was.font {
        return Unrestored;
      }
      var forgot := Next();
      if !forgot.Fails? {
        record := None;
      }
      return if forgot.Dies? then Died else Restored;
    }
  }

  // ------------------------------------------------------------------------- many runs

  datatype Run = Owner(density: Density, font: string) | Setup(sizing: Sizing) | Removal

  /**
   * Whatever runs in whatever order, and however each is cut short: with no
   * record the display is the owner's, and a record says what the owner had.
   */
  method Live(fates: nat -> Fate, density: Density, font: string, runs: seq<Run>) returns (p: Panel)
    requires !density.Unknown?
    requires forall i :: 0 <= i < |runs| ==>
               match runs[i]
               case Owner(d, f) => !d.Unknown?
               case Setup(s) => s.font != Some("")
               case Removal => true
    ensures fresh(p) && p.Undoable()
    ensures (forall i :: 0 <= i < |runs| ==> !runs[i].Owner?) ==> p.owners == Sizes(density, font)
  {
    p := new Panel(fates, density, font);
    for i := 0 to |runs|
      invariant fresh(p) && p.Undoable()
      invariant (forall k :: 0 <= k < i ==> !runs[k].Owner?) ==> p.owners == Sizes(density, font)
    {
      match runs[i] {
        case Owner(d, f) => p.OwnerSets(d, f);
        case Setup(s) => var ignored := p.Size(s);
        case Removal => var ignored := p.Restore();
      }
    }
  }

  /** After a run that converged, running it again writes nothing, if the second run's queries work. */
  method SizeTwice(p: Panel, s: Sizing) returns (first: Outcome, between: nat, second: Outcome, again: nat)
    requires p.Undoable() && s.font != Some("")
    modifies p
    ensures p.Undoable() && between >= old(p.steps)
    ensures Converged(first, s) && (forall k :: k >= between ==> p.fates(k).Works?)
            ==> again == 0 && Converged(second, s)
  {
    first := p.Size(s);
    between := p.steps;
    var before := p.writes;
    second := p.Size(s);
    again := p.writes - before;
  }

  /**
   * The one false answer, on a panel whose text size was empty: one failing
   * query, and the removal prints that it has restored what it has not.
   */
  method ForgetsTheText() returns (p: Panel, o: Outcome)
    ensures o.Restored? && p.record.None? && p.owners == Sizes(NoOverride, "") && p.font == "1.3"
  {
    p := new Panel(k => if k == 10 then Fails else Works, NoOverride, "");
    var sized := p.Size(Sizing(None, Some("1.3")));
    assert |"1.3"| == 3 && |"1"| == 1 && |""| == 0;
    assert p.steps == 8 && p.font == "1.3";
    o := p.Restore();
  }
}
