/**
 * One save of the receipt store as it really happens: failure details first, in
 * a file of their own, then the primary file, then the details once more. Each
 * detail is bound by digest to the exact receipt it belongs to.
 */
module InstallDetails {
  import opened Wrappers
  import opened InstallReceipt
  import opened InstallJobs
  import opened InstallRuns

  type Digest = string

  datatype DetailKey = DetailKey(id: JobId, revision: nat, digest: Digest)

  datatype Detail = Detail(stage: Phase, subcode: Option<string>)

  type Details = map<DetailKey, Detail>

  /** What the two files hold. */
  datatype Files = Files(primary: Jobs, details: Details)

  const MAX_DETAILS: nat := 2 * MAX_TERMINAL_JOBS

  ghost predicate CollisionFree(h: Receipt -> Digest) {
    forall a, b :: h(a) == h(b) ==> a == b
  }

  /** The part of a receipt that the primary file records. */
  function Strip(r: Receipt): Receipt { r.(failureStage := None, resultSubcode := None) }

  function Stripped(jobs: Jobs): Jobs { map id | id in jobs :: Strip(jobs[id]) }

  function KeyOf(h: Receipt -> Digest, id: JobId, r: Receipt): DetailKey {
    DetailKey(id, r.revision, h(Strip(r)))
  }

  /** The details a map needs beside its primary file. */
  function DetailsOf(h: Receipt -> Digest, jobs: Jobs): Details {
    map id | id in jobs && jobs[id].failureStage.Some?
      :: KeyOf(h, id, jobs[id]) := Detail(jobs[id].failureStage.value, jobs[id].resultSubcode)
  }

  // --------------------------------------------------------------------- joining

  function JoinOne(h: Receipt -> Digest, id: JobId, r: Receipt, details: Details): Receipt {
    var key := KeyOf(h, id, r);
    if key in details
    then r.(failureStage := Some(details[key].stage), resultSubcode := details[key].subcode)
    else r
  }

  function JoinAll(h: Receipt -> Digest, f: Files): Jobs {
    map id | id in f.primary :: JoinOne(h, id, f.primary[id], f.details)
  }

  /** A detail that contradicts its receipt, or makes it invalid, makes the store unreadable. */
  predicate Joinable(h: Receipt -> Digest, f: Files) {
    forall id :: id in f.primary && KeyOf(h, id, f.primary[id]) in f.details ==>
      var r := f.primary[id];
      var joined := JoinOne(h, id, r, f.details);
      && (r.failureStage.Some? ==>
            r.failureStage == joined.failureStage && r.resultSubcode == joined.resultSubcode)
      && Valid(joined)
  }

  function Loaded(h: Receipt -> Digest, f: Files): Option<Jobs> {
    if Joinable(h, f) then Some(JoinAll(h, f)) else None
  }

  // ---------------------------------------------------------------------- saving

  /** How one atomic file write ends, and whether its caller is told so. */
  datatype Write = Landed | Refused | LandedUnknown
  {
    predicate Lands() { !Refused? }
  }

  /** What the outside world does during one save. `crash` counts the file writes survived. */
  datatype Script = Script(
    staleReadable: bool, detail: Write, detailRead: bool, cancelledEarly: bool,
    primary: Write, primaryRead: bool, detailReread: bool, cancelledLate: bool,
    compaction: Write, cancelledLast: bool, crash: Option<nat>)

  datatype Outcome = Saved | Raised | Died

  function Crashed(s: Script, writes: nat): bool { s.crash == Some(writes) }

  /** The details file after its write: the old map's details beside the new map's. */
  function Widened(h: Receipt -> Digest, f: Files, before: Jobs, jobs: Jobs, s: Script): Files {
    var union := DetailsOf(h, before) + DetailsOf(h, jobs);
    if union != map[] && s.detail.Lands() then f.(details := union) else f
  }

  /** The primary file after its write. */
  function Replaced(f: Files, jobs: Jobs, s: Script): Files {
    if s.primary.Lands() then f.(primary := Stripped(jobs)) else f
  }

  /** Whether everything read back after the writes is exactly what was meant. */
  predicate ReadsBack(h: Receipt -> Digest, f: Files, before: Jobs, jobs: Jobs, s: Script) {
    var union := DetailsOf(h, before) + DetailsOf(h, jobs);
    && s.primary.Landed? && s.primaryRead
    && (union != map[] ==> s.detailReread && f.details == union)
    && Loaded(h, Files(f.primary, union)) == Some(jobs)
    && f.primary == Stripped(jobs)
  }

  function Compacted(h: Receipt -> Digest, f: Files, before: Jobs, jobs: Jobs, stale: bool, s: Script)
    : Files
  {
    var retained := DetailsOf(h, jobs);
    if (DetailsOf(h, before) + retained != retained || stale) && s.compaction.Lands()
    then f.(details := retained) else f
  }

  /** Save `jobs` over files that now join to `before`. */
  function SaveFiles(h: Receipt -> Digest, f: Files, before: Jobs, jobs: Jobs, s: Script)
    : (Files, Outcome)
  {
    var union := DetailsOf(h, before) + DetailsOf(h, jobs);
    var stale := union == map[] && f.details != map[];
    if Crashed(s, 0) then (f, Died)
    else if !Accepted(jobs) || !ClockAdvances(before, jobs) then (f, Raised)
    else if union == map[] && !s.staleReadable then (f, Raised)
    else
      var f1 := Widened(h, f, before, jobs, s);
      if Crashed(s, 1) then (f1, Died)
      else if && union != map[]
              && (s.cancelledEarly || !s.detail.Landed? || !s.detailRead || f1.details != union)
      then (f1, Raised)
      else
        var f2 := Replaced(f1, jobs, s);
        if Crashed(s, 2) then (f2, Died)
        else if !ReadsBack(h, f2, before, jobs, s) || s.cancelledLate then (f2, Raised)
        else
          var f3 := Compacted(h, f2, before, jobs, stale, s);
          if Crashed(s, 3) then (f3, Died)
          else if s.cancelledLast && (union != DetailsOf(h, jobs) || stale) then (f3, Raised)
          else (f3, Saved)
  }

  /** The two files, as a save changes them in place. */
  class DurableFiles {
    var files: Files

    constructor ()
      ensures files == Files(map[], map[])
    {
      files := Files(map[], map[]);
    }

    /** One save: returns by committing, by raising, or by dying with its process. */
    method Save(h: Receipt -> Digest, previous: Jobs, jobs: Jobs, s: Script) returns (outcome: Outcome)
      modifies this
      ensures (files, outcome) == SaveFiles(h, old(files), previous, jobs, s)
    {
      hide DetailsOf, Accepted, ClockAdvances, Stripped, Loaded;
      if Crashed(s, 0) {
        return Died;
      }
      var retained := DetailsOf(h, jobs);
      var details := DetailsOf(h, previous) + retained;
      if !Accepted(jobs) || !ClockAdvances(previous, jobs) || (details == map[] && !s.staleReadable) {
        return Raised;
      }
      var compact := details != retained || (details == map[] && files.details != map[]);
      if details != map[] && s.detail.Lands() {
        files := files.(details := details);
      }
      if Crashed(s, 1) {
        return Died;
      }
      if details != map[]
         && (s.cancelledEarly || !s.detail.Landed? || !s.detailRead || files.details != details) {
        return Raised;
      }
      if s.primary.Lands() {
        files := files.(primary := Stripped(jobs));
      }
      if Crashed(s, 2) {
        return Died;
      }
      if !ReadsBack(h, files, previous, jobs, s) || s.cancelledLate {
        return Raised;
      }
      if compact && s.compaction.Lands() {
        files := files.(details := retained);
      }
      if Crashed(s, 3) {
        return Died;
      }
      return if s.cancelledLast && compact then Raised else Saved;
    }
  }

  // ------------------------------------------------------------------- atomicity

  /** `jobs` is a later map: whatever changed carries a new revision, and says why it failed. */
  ghost predicate Follows(before: Jobs, jobs: Jobs) {
    && (forall id :: id in before && id in jobs ==>
          before[id] == jobs[id] || before[id].revision != jobs[id].revision)
    && (forall id :: id in jobs && (id in before ==> before[id] != jobs[id]) ==>
          (jobs[id].phase.Failed? || jobs[id].phase.RecoveryRequired? ==> jobs[id].failureStage.Some?))
  }

  /** Details only ever describe failed receipts, whether or not those were ever committed. */
  ghost predicate FailuresOnly(h: Receipt -> Digest, details: Details) {
    forall k :: k in details ==>
      exists r: Receipt :: (r.phase.Failed? || r.phase.RecoveryRequired?) && k.digest == h(r)
  }

  /** The files hold exactly `jobs`, perhaps beside details that no receipt uses. */
  ghost predicate Holds(h: Receipt -> Digest, f: Files, jobs: Jobs) {
    && AllValid(jobs)
    && f.primary == Stripped(jobs)
    && (forall id :: id in jobs ==> Matches(h, id, jobs[id], f.details))
    && FailuresOnly(h, f.details)
  }

  /** The details say of this receipt exactly what it says itself. */
  predicate Matches(h: Receipt -> Digest, id: JobId, r: Receipt, details: Details) {
    Lookup(details, KeyOf(h, id, r))
    == if r.failureStage.Some? then Some(Detail(r.failureStage.value, r.resultSubcode)) else None
  }

  lemma HoldsJoins(h: Receipt -> Digest, f: Files, jobs: Jobs)
    requires Holds(h, f, jobs)
    ensures Loaded(h, f) == Some(jobs)
  {
    hide Valid, JoinOne, KeyOf, Strip, Matches, FailuresOnly;
    forall id | id in jobs
      ensures JoinOne(h, id, Strip(jobs[id]), f.details) == jobs[id] && Valid(jobs[id])
      ensures Strip(jobs[id]).failureStage.None?
    {
      HeldJoins(h, id, jobs[id], f.details);
    }
    assert JoinAll(h, f) == jobs;
  }

  /** What was stripped from a receipt is what its details put back. */
  lemma HeldJoins(h: Receipt -> Digest, id: JobId, r: Receipt, details: Details)
    requires Valid(r) && Matches(h, id, r, details)
    ensures JoinOne(h, id, Strip(r), details) == r && Strip(r).failureStage.None?
  {
  }

  lemma DetailsMatch(h: Receipt -> Digest, jobs: Jobs)
    ensures forall k :: k in DetailsOf(h, jobs) <==>
              k.id in jobs && jobs[k.id].failureStage.Some? && k == KeyOf(h, k.id, jobs[k.id])
    ensures forall id :: id in jobs ==> Matches(h, id, jobs[id], DetailsOf(h, jobs))
  {
    forall k: DetailKey | k.id in jobs && jobs[k.id].failureStage.Some? && k == KeyOf(h, k.id, jobs[k.id])
      ensures k in DetailsOf(h, jobs)
    {
      assert KeyOf(h, k.id, jobs[k.id]) in DetailsOf(h, jobs);
    }
  }

  /** Beside each other, the details of two maps in order still match both of them. */
  lemma UnionMatches(h: Receipt -> Digest, before: Jobs, jobs: Jobs)
    requires Follows(before, jobs)
    ensures var union := DetailsOf(h, before) + DetailsOf(h, jobs);
            && (forall id :: id in before ==> Matches(h, id, before[id], union))
            && (forall id :: id in jobs ==> Matches(h, id, jobs[id], union))
  {
    DetailsMatch(h, before);
    DetailsMatch(h, jobs);
    hide DetailsOf;
    var union := DetailsOf(h, before) + DetailsOf(h, jobs);
    forall id | id in before
      ensures Matches(h, id, before[id], union)
    {
      assert Matches(h, id, before[id], DetailsOf(h, before));
      if KeyOf(h, id, before[id]) in DetailsOf(h, jobs) {
        assert jobs[id] == before[id];
        assert Matches(h, id, jobs[id], DetailsOf(h, jobs));
      }
    }
    forall id | id in jobs
      ensures Matches(h, id, jobs[id], union)
    {
      assert Matches(h, id, jobs[id], DetailsOf(h, jobs));
      if KeyOf(h, id, jobs[id]) in DetailsOf(h, before) {
        assert jobs[id] == before[id];
      }
    }
  }

  lemma DetailsAreFailures(h: Receipt -> Digest, jobs: Jobs)
    requires AllValid(jobs)
    ensures FailuresOnly(h, DetailsOf(h, jobs))
  {
    forall k | k in DetailsOf(h, jobs)
      ensures exists r: Receipt :: (r.phase.Failed? || r.phase.RecoveryRequired?) && k.digest == h(r)
    {
      assert Valid(jobs[k.id]);
      var r := Strip(jobs[k.id]);
      assert (r.phase.Failed? || r.phase.RecoveryRequired?) && k.digest == h(r);
    }
  }

  lemma UnionHolds(h: Receipt -> Digest, before: Jobs, jobs: Jobs)
    requires Follows(before, jobs) && AllValid(before) && AllValid(jobs)
    ensures var union := DetailsOf(h, before) + DetailsOf(h, jobs);
            && Holds(h, Files(Stripped(before), union), before)
            && Holds(h, Files(Stripped(jobs), union), jobs)
            && Holds(h, Files(Stripped(jobs), DetailsOf(h, jobs)), jobs)
  {
    hide DetailsOf, Matches, Valid, Stripped, Follows, FailuresOnly;
    UnionMatches(h, before, jobs);
    DetailsMatch(h, jobs);
    DetailsAreFailures(h, before);
    DetailsAreFailures(h, jobs);
    FailuresUnion(h, DetailsOf(h, before), DetailsOf(h, jobs));
  }

  lemma FailuresUnion(h: Receipt -> Digest, a: Details, b: Details)
    requires FailuresOnly(h, a) && FailuresOnly(h, b)
    ensures FailuresOnly(h, a + b)
  {
  }

  /** With nothing to say about either map, details left by an aborted save match nobody new. */
  lemma StaleHolds(h: Receipt -> Digest, f: Files, before: Jobs, jobs: Jobs)
    requires CollisionFree(h) && Holds(h, f, before) && Follows(before, jobs) && AllValid(jobs)
    requires DetailsOf(h, before) + DetailsOf(h, jobs) == map[]
    ensures Holds(h, f.(primary := Stripped(jobs)), jobs)
  {
    DetailsMatch(h, jobs);
    hide DetailsOf, Valid;
    assert DetailsOf(h, jobs) == map[];
    forall id | id in jobs
      ensures Matches(h, id, jobs[id], f.details)
    {
      if id in before && before[id] == jobs[id] {
        assert Matches(h, id, before[id], f.details);
      } else {
        assert Matches(h, id, jobs[id], DetailsOf(h, jobs));
        UnusedKey(h, f.details, id, jobs[id]);
      }
    }
  }

  lemma UnusedKey(h: Receipt -> Digest, details: Details, id: JobId, r: Receipt)
    requires CollisionFree(h) && FailuresOnly(h, details)
    requires !r.phase.Failed? && !r.phase.RecoveryRequired?
    ensures KeyOf(h, id, r) !in details
  {
    assert forall s: Receipt :: h(Strip(r)) == h(s) ==> s.phase == r.phase;
  }

  /**
   * A save is atomic across the two files. Wherever it is cut short, and
   * whatever details an earlier aborted save left behind, reading and joining
   * the files gives exactly the old map or exactly the new one, and the new
   * one whenever the save returned.
   */
  lemma SaveIsAtomic(h: Receipt -> Digest, f: Files, before: Jobs, jobs: Jobs, s: Script)
    requires CollisionFree(h) && Holds(h, f, before) && Follows(before, jobs)
    ensures var (f', outcome) := SaveFiles(h, f, before, jobs, s);
            && (Holds(h, f', before) || Holds(h, f', jobs))
            && (Loaded(h, f') == Some(before) || Loaded(h, f') == Some(jobs))
            && (outcome.Saved? ==> Loaded(h, f') == Some(jobs))
            && (s.primary.Refused? ==> Loaded(h, f') == Some(before))
  {
    hide SaveFiles, Holds, CollisionFree, Follows, Loaded;
    SaveHolds(h, f, before, jobs, s);
    var f' := SaveFiles(h, f, before, jobs, s).0;
    if Holds(h, f', jobs) { HoldsJoins(h, f', jobs); }
    if Holds(h, f', before) { HoldsJoins(h, f', before); }
  }

  lemma SaveHolds(h: Receipt -> Digest, f: Files, before: Jobs, jobs: Jobs, s: Script)
    requires CollisionFree(h) && Holds(h, f, before) && Follows(before, jobs)
    ensures var (f', outcome) := SaveFiles(h, f, before, jobs, s);
            && (Holds(h, f', before) || Holds(h, f', jobs))
            && (outcome.Saved? ==> Holds(h, f', jobs))
            && (s.primary.Refused? ==> Holds(h, f', before))
  {
    hide Holds, Stripped, Loaded, DetailsOf, ClockAdvances, Follows, CollisionFree, Accepted, AllValid;
    if Accepted(jobs) && ClockAdvances(before, jobs) {
      AcceptedValid(jobs);
      HoldsParts(h, f, before);
      UnionHolds(h, before, jobs);
      var union := DetailsOf(h, before) + DetailsOf(h, jobs);
      assert f.(details := union) == Files(Stripped(before), union);
      if union == map[] {
        StaleHolds(h, f, before, jobs);
        assert Widened(h, f, before, jobs, s) == f;
      } else {
        assert Widened(h, f, before, jobs, s) == if s.detail.Lands() then f.(details := union) else f;
      }
    }
  }

  lemma AcceptedValid(jobs: Jobs)
    requires Accepted(jobs)
    ensures AllValid(jobs)
  {
  }

  lemma HoldsParts(h: Receipt -> Digest, f: Files, jobs: Jobs)
    requires Holds(h, f, jobs)
    ensures AllValid(jobs) && f.primary == Stripped(jobs)
  {
    hide Valid, Matches;
  }

  /**
   * Seen from above, a save is exactly one of the three endings the store
   * operations allow for: not written, written and verified, or written while
   * its caller is told that it failed.
   */
  lemma SaveRefines(h: Receipt -> Digest, f: Files, m: Manager, before: Jobs, jobs: Jobs, s: Script)
    returns (event: SaveEvent)
    requires CollisionFree(h) && Holds(h, f, before) && Follows(before, jobs)
    ensures var (f', outcome) := SaveFiles(h, f, before, jobs, s);
            var (disk', _, ok) := InstallJobs.Save(before, m, jobs, event);
            Loaded(h, f') == Some(disk') && ok == outcome.Saved?
  {
    hide Holds, CollisionFree, Follows, Loaded;
    SaveIsAtomic(h, f, before, jobs, s);
    var (f', outcome) := SaveFiles(h, f, before, jobs, s);
    SavedAccepted(h, f, before, jobs, s);
    if !Accepted(jobs) || !ClockAdvances(before, jobs) {
      HoldsJoins(h, f, before);
    }
    hide SaveFiles, Accepted, ClockAdvances;
    event := if outcome.Saved? then Committed
             else if Loaded(h, f') == Some(jobs) then WrittenUnverified else NotWritten;
  }

  lemma SavedAccepted(h: Receipt -> Digest, f: Files, before: Jobs, jobs: Jobs, s: Script)
    ensures var (f', outcome) := SaveFiles(h, f, before, jobs, s);
            !Accepted(jobs) || !ClockAdvances(before, jobs) ==> f' == f && !outcome.Saved?
  {
    hide Accepted, ClockAdvances, ReadsBack, Widened, Replaced, Compacted, DetailsOf;
  }

  // ------------------------------------------------------------------ whole runs

  datatype Attempt = Attempt(jobs: Jobs, script: Script)

  /** The map a manager reads back. */
  function Durable(h: Receipt -> Digest, f: Files): Jobs {
    var loaded := Loaded(h, f);
    if loaded.Some? then loaded.value else map[]
  }

  function AfterAttempt(h: Receipt -> Digest, f: Files, a: Attempt): Files {
    SaveFiles(h, f, Durable(h, f), a.jobs, a.script).0
  }

  function AfterAll(h: Receipt -> Digest, f: Files, attempts: seq<Attempt>): Files
    decreases |attempts|
  {
    if attempts == [] then f else AfterAll(h, AfterAttempt(h, f, attempts[0]), attempts[1..])
  }

  /** Every attempt is made from the map that was read back just before it. */
  ghost predicate Orderly(h: Receipt -> Digest, f: Files, attempts: seq<Attempt>)
    decreases |attempts|
  {
    attempts == []
    || (Follows(Durable(h, f), attempts[0].jobs)
        && Orderly(h, AfterAttempt(h, f, attempts[0]), attempts[1..]))
  }

  /**
   * Over any number of saves, each dying or failing anywhere, the store stays
   * readable, holds a map that somebody meant to save, and never a mixture.
   */
  lemma {:induction false} StoreStaysWhole(h: Receipt -> Digest, f: Files, jobs: Jobs, attempts: seq<Attempt>)
    requires CollisionFree(h) && Holds(h, f, jobs) && Orderly(h, f, attempts)
    ensures var loaded := Loaded(h, AfterAll(h, f, attempts));
            && loaded.Some?
            && Holds(h, AfterAll(h, f, attempts), loaded.value)
            && (loaded.value == jobs
                || exists i :: 0 <= i < |attempts| && loaded.value == attempts[i].jobs)
    decreases |attempts|
  {
    hide Holds, CollisionFree, Follows, SaveFiles, Loaded;
    HoldsJoins(h, f, jobs);
    if attempts != [] {
      var next := AfterAttempt(h, f, attempts[0]);
      SaveHolds(h, f, jobs, attempts[0].jobs, attempts[0].script);
      var kept := if Holds(h, next, jobs) then jobs else attempts[0].jobs;
      StoreStaysWhole(h, next, kept, attempts[1..]);
      var loaded := Loaded(h, AfterAll(h, f, attempts));
      if loaded.value != kept {
        var i :| 0 <= i < |attempts[1..]| && loaded.value == attempts[1..][i].jobs;
        assert attempts[i + 1] == attempts[1..][i];
      }
    }
  }

  /** The store's own operations only ever try to save a map that follows what they read. */
  lemma CallsFollow(disk: Jobs, m: Manager, call: Call, env: Env)
    requires call.Create? ==> call.id !in disk
    ensures Follows(disk, Perform(disk, m, call, env).disk)
  {
    hide Perform, SameJob;
    PerformStep(disk, m, call, env);
    var disk' := Perform(disk, m, call, env).disk;
    forall id | id in disk' && (id in disk ==> disk[id] != disk'[id])
      && (disk'[id].phase.Failed? || disk'[id].phase.RecoveryRequired?)
      ensures disk'[id].failureStage.Some?
    {
      EndingsAreRecorded(disk, m, call, env, id);
    }
  }

  lemma EndingsAreRecorded(disk: Jobs, m: Manager, call: Call, env: Env, id: JobId)
    requires call.Create? ==> call.id !in disk
    requires var disk' := Perform(disk, m, call, env).disk;
             && id in disk' && (id in disk ==> disk[id] != disk'[id])
             && (disk'[id].phase.Failed? || disk'[id].phase.RecoveryRequired?)
    ensures Perform(disk, m, call, env).disk[id].failureStage.Some?
  {
    hide Perform, SaveAndReturn, Refreshed, Pruned, Advances, Valid, FactsFit, ResultFits, SameJob;
    PerformStep(disk, m, call, env);
    assert id == call.id && (call.Take? || call.Move?);
    assert call.Take? ==> Perform(disk, m, call, env)
                          == Claim(disk, m, id, call.revision, call.cleaned, env) by { CallIs(disk, m, call, env); }
    assert call.Move? ==> Perform(disk, m, call, env)
                          == Transition(disk, m, id, call.revision, call.advance, env) by {
      CallIs(disk, m, call, env);
    }
    if call.Take? {
      ClaimRecords(disk, m, id, call.revision, call.cleaned, env);
    } else {
      MoveRecords(disk, m, id, call.revision, call.advance, env);
    }
  }

  lemma ClaimRecords(disk: Jobs, m: Manager, id: JobId, revision: nat, cleaned: Option<nat>, env: Env)
    requires id in disk
    requires var disk' := Claim(disk, m, id, revision, cleaned, env).disk;
             && id in disk' && disk[id] != disk'[id]
             && (disk'[id].phase.Failed? || disk'[id].phase.RecoveryRequired?)
    ensures Claim(disk, m, id, revision, cleaned, env).disk[id].failureStage.Some?
  {
    hide SaveAndReturn, Refreshed, Pruned, Valid;
    var m1 := Refreshed(disk, m, env.readable).0;
    var jobs := Pruned(disk[id := ClaimedReceipt(disk[id], env.now)], env.now);
    SaveCases(disk, m1, jobs, id, env.save);
    PrunedKeeps(disk[id := ClaimedReceipt(disk[id], env.now)], env.now);
  }

  lemma MoveRecords(disk: Jobs, m: Manager, id: JobId, revision: nat, a: Advance, env: Env)
    requires id in disk
    requires var disk' := Transition(disk, m, id, revision, a, env).disk;
             && id in disk' && disk[id] != disk'[id]
             && (disk'[id].phase.Failed? || disk'[id].phase.RecoveryRequired?)
    ensures Transition(disk, m, id, revision, a, env).disk[id].failureStage.Some?
  {
    hide SaveAndReturn, Refreshed, Pruned, Advances, Valid, FactsFit, ResultFits, SameJob;
    var m1 := Refreshed(disk, m, env.readable).0;
    var jobs := Pruned(disk[id := AdvancedReceipt(disk[id], a, env.now)], env.now);
    SaveCases(disk, m1, jobs, id, env.save);
    PrunedKeeps(disk[id := AdvancedReceipt(disk[id], a, env.now)], env.now);
  }

  lemma CallIs(disk: Jobs, m: Manager, call: Call, env: Env)
    ensures call.Take? ==> Perform(disk, m, call, env)
                           == Claim(disk, m, call.id, call.revision, call.cleaned, env)
    ensures call.Move? ==> Perform(disk, m, call, env)
                           == Transition(disk, m, call.id, call.revision, call.advance, env)
  {
    hide Claim, Transition, CreateOrJoin, VerifyBarrier, RequestCancel, Get;
  }

  lemma PrunedKeeps(jobs: Jobs, now: int)
    ensures forall id :: id in Pruned(jobs, now) ==> id in jobs && Pruned(jobs, now)[id] == jobs[id]
  {
  }

  /** Nothing goes wrong: every write lands, everything reads back, and nobody is cancelled. */
  predicate Smooth(s: Script) {
    && s.staleReadable && s.detail.Landed? && s.detailRead && !s.cancelledEarly
    && s.primary.Landed? && s.primaryRead && s.detailReread && !s.cancelledLate
    && !s.cancelledLast && s.crash.None?
  }

  /**
   * A save that nothing disturbs is refused only for the map itself. Otherwise it
   * returns, with the new map in the files and no detail in them but its own.
   */
  lemma UndisturbedSaveReturns(h: Receipt -> Digest, f: Files, before: Jobs, jobs: Jobs, s: Script)
    requires CollisionFree(h) && Holds(h, f, before) && Follows(before, jobs) && Smooth(s)
    ensures var (f', outcome) := SaveFiles(h, f, before, jobs, s);
            && (outcome.Saved? <==> Accepted(jobs) && ClockAdvances(before, jobs))
            && (outcome.Saved? ==>
                  && Loaded(h, f') == Some(jobs) && f'.primary == Stripped(jobs)
                  && (s.compaction.Landed? ==> f'.details == DetailsOf(h, jobs)))
            && (!outcome.Saved? ==> outcome.Raised? && f' == f)
  {
    hide Holds, CollisionFree, Follows, DetailsOf, Loaded, Accepted, ClockAdvances, ReadsBack, Compacted, Stripped;
    if Accepted(jobs) && ClockAdvances(before, jobs) {
      ReadsWhatItWrote(h, f, before, jobs, s);
      SmoothFiles(h, f, before, jobs, s);
      SaveHolds(h, f, before, jobs, s);
      HoldsJoins(h, SaveFiles(h, f, before, jobs, s).0, jobs);
    }
  }

  /** What the compaction leaves, where every write before it landed. */
  lemma SmoothFiles(h: Receipt -> Digest, f: Files, before: Jobs, jobs: Jobs, s: Script)
    requires Smooth(s)
    ensures var union := DetailsOf(h, before) + DetailsOf(h, jobs);
            var f1 := Widened(h, f, before, jobs, s);
            var f2 := Replaced(f1, jobs, s);
            var f3 := Compacted(h, f2, before, jobs, union == map[] && f.details != map[], s);
            && (union != map[] ==> f1.details == union)
            && f3.primary == Stripped(jobs)
            && (s.compaction.Landed? ==> f3.details == DetailsOf(h, jobs))
  {
    hide DetailsOf, Stripped;
  }

  lemma ReadsWhatItWrote(h: Receipt -> Digest, f: Files, before: Jobs, jobs: Jobs, s: Script)
    requires CollisionFree(h) && Holds(h, f, before) && Follows(before, jobs) && Smooth(s) && Accepted(jobs)
    ensures var f2 := Replaced(Widened(h, f, before, jobs, s), jobs, s);
            ReadsBack(h, f2, before, jobs, s)
  {
    AcceptedValid(jobs);
    UnionHolds(h, before, jobs);
    hide Holds, CollisionFree, Follows, DetailsOf, Loaded, Accepted;
    var union := DetailsOf(h, before) + DetailsOf(h, jobs);
    HoldsJoins(h, Files(Stripped(jobs), union), jobs);
  }

  // ----------------------------------------------------------------- the bound

  lemma {:induction false} KeysBounded(keys: set<DetailKey>, ids: set<JobId>)
    requires forall k :: k in keys ==> k.id in ids
    requires forall a, b :: a in keys && b in keys && a.id == b.id ==> a == b
    ensures |keys| <= |ids|
    decreases |keys|
  {
    if keys != {} {
      var k :| k in keys;
      KeysBounded(keys - {k}, ids - {k.id});
    }
  }

  /** The widened detail file never outgrows what its parser accepts. */
  lemma DetailsStayBounded(h: Receipt -> Digest, before: Jobs, jobs: Jobs)
    requires Accepted(before) && Accepted(jobs)
    ensures |DetailsOf(h, before) + DetailsOf(h, jobs)| <= MAX_DETAILS
  {
    FewDetails(h, before);
    FewDetails(h, jobs);
    hide DetailsOf, Accepted;
    assert (DetailsOf(h, before) + DetailsOf(h, jobs)).Keys == DetailsOf(h, before).Keys + DetailsOf(h, jobs).Keys;
  }

  lemma FewDetails(h: Receipt -> Digest, jobs: Jobs)
    requires Accepted(jobs)
    ensures |DetailsOf(h, jobs)| <= MAX_TERMINAL_JOBS
  {
    DetailsMatch(h, jobs);
    forall k: DetailKey | k in DetailsOf(h, jobs) ensures k.id in TerminalIds(jobs) {
      assert Valid(jobs[k.id]);
    }
    hide DetailsOf, Valid;
    KeysBounded(DetailsOf(h, jobs).Keys, TerminalIds(jobs));
  }
}
