/**
 * Custody of one job's APK: a partial file that is filled, checked and renamed
 * into place, while every file operation may fail, every wait may be cancelled
 * and the process may die between any two operations.
 */
module InstallArtifacts {
  import opened Wrappers

  type Bytes = seq<nat>

  datatype ArtifactError =
    | PathInvalid | ReadyInvalid | Busy | TooLarge | SizeMismatch | DigestMismatch | IoFailed
    | Network | Cancelled

  const MAX_APK_BYTES: nat := 0x1000_0000

  /** The two names a job may own in the custody directory. */
  datatype Dir = Dir(ready: Option<Bytes>, part: Option<Bytes>)

  /** What the signed descriptor demands of the file. */
  datatype Contract = Contract(size: nat, digest: string, hash: Bytes -> string)
  {
    predicate Fits(b: Bytes) { |b| == size && hash(b) == digest }
  }

  /** Never both names, and never a ready file that is not the signed one. */
  predicate Wholesome(d: Dir, c: Contract) {
    !(d.ready.Some? && d.part.Some?) && (d.ready.Some? ==> c.Fits(d.ready.value))
  }

  /** The descriptor of the partial file: opened once, and never closed again once closed. */
  datatype Descriptor = Unopened | Open | Closed

  /** How one wait for a worker thread ends. */
  datatype Wait = Wait(
    ran: bool,            // false: cancelled before the thread picked the work up
    cancelled: bool)      // the caller was cancelled while it waited

  /** What the server sends next. */
  datatype Piece = Chunk(bytes: Bytes) | End | Broken

  /** The body a server sends, if it sends one to its end. */
  function Body(pieces: seq<Piece>): Option<Bytes>
    decreases |pieces|
  {
    if pieces == [] then None
    else match pieces[0]
      case End => Some([])
      case Broken => None
      case Chunk(bytes) =>
        match Body(pieces[1..])
        case Some(rest) => Some(bytes + rest)
        case None => None
  }

  /** What was received so far, before what is still to come. */
  function After(sofar: Bytes, pieces: seq<Piece>): Option<Bytes> {
    match Body(pieces) case Some(rest) => Some(sofar + rest) case None => None
  }

  lemma AfterChunk(sofar: Bytes, pieces: seq<Piece>)
    requires pieces != []
    ensures pieces[0].Chunk? ==> After(sofar, pieces) == After(sofar + pieces[0].bytes, pieces[1..])
    ensures pieces[0].End? ==> After(sofar, pieces) == Some(sofar)
    ensures pieces[0].Broken? ==> After(sofar, pieces).None?
  {
    if pieces[0].Chunk? && Body(pieces[1..]).Some? {
      assert sofar + (pieces[0].bytes + Body(pieces[1..]).value) == sofar + pieces[0].bytes + Body(pieces[1..]).value;
    }
    assert sofar + [] == sofar;
  }

  class Custody {
    const contract: Contract
    const faults: nat -> bool      // whether the n-th file operation fails
    const waits: nat -> Wait       // how the n-th wait ends
    const shortWrites: nat -> nat  // how much the n-th write takes
    var operations: nat
    var waited: nat
    var dir: Dir
    var descriptor: Descriptor
    var trail: seq<Dir>            // every state the directory has been in

    constructor (contract: Contract, dir: Dir, faults: nat -> bool, waits: nat -> Wait,
                 shortWrites: nat -> nat)
      requires Wholesome(dir, contract)
      ensures Sound() && this.dir == dir && descriptor == Unopened && this.contract == contract
    {
      this.contract, this.faults, this.waits, this.shortWrites := contract, faults, waits, shortWrites;
      this.dir := dir;
      operations, waited, descriptor, trail := 0, 0, Unopened, [dir];
    }

    /** Wherever the process dies, it leaves a directory in order. */
    ghost predicate Sound()
      reads this
    {
      && Wholesome(dir, contract)
      && dir in trail
      && (forall d :: d in trail ==> Wholesome(d, contract))
    }

    /** Nothing goes wrong: every operation works, every write takes something, every wait ends well. */
    ghost predicate Smooth() {
      forall k :: !faults(k) && shortWrites(k) > 0 && waits(k) == Wait(true, false)
    }

    // -------------------------------------------------------------- file operations

    method Fails() returns (failed: bool)
      modifies this`operations
      ensures failed == faults(old(operations))
    {
      failed := faults(operations);
      operations := operations + 1;
    }

    method Become(next: Dir)
      requires Sound() && Wholesome(next, contract)
      modifies this`dir, this`trail
      ensures Sound() && dir == next && trail == old(trail) + [next]
    {
      dir := next;
      trail := trail + [next];
    }

    /** Close the partial's descriptor; the kernel releases it even when it reports an error. */
    method CloseFile() returns (failed: bool)
      requires descriptor.Open?
      modifies this`operations, this`descriptor
      ensures descriptor == Closed && (Smooth() ==> !failed)
    {
      failed := Fails();
      descriptor := Closed;
    }

    /** Remove the partial and flush the directory; a failing flush may follow a removal. */
    method UnlinkPart() returns (failed: bool)
      requires Sound()
      modifies this`operations, this`dir, this`trail
      ensures Sound() && old(trail) <= trail
      ensures dir == old(dir) || dir == old(dir).(part := None)
      ensures !failed ==> dir.part.None?
      ensures Smooth() ==> !failed
    {
      failed := Fails();
      if !failed && dir.part.Some? {
        Become(dir.(part := None));
        failed := Fails();
      }
    }

    /** Undo the creation of a partial: whatever closing reports, unlinking is tried. */
    method DiscardOpenPartial() returns (failed: bool)
      requires Sound() && descriptor.Open?
      modifies this`operations, this`dir, this`trail, this`descriptor
      ensures Sound() && old(trail) <= trail && dir.ready == old(dir).ready
      ensures descriptor == Open ==> failed && dir == old(dir)
      ensures !failed ==> dir.part.None?
      ensures dir == old(dir) || dir == old(dir).(part := None)
    {
      failed := Fails();            // stat of the descriptor
      if failed {
        return;
      }
      failed := CloseFile();
      var unlinkFailed := UnlinkPart();
      failed := failed || unlinkFailed;
    }

    // ------------------------------------------------------------------ preparation

    /**
     * A new partial file to fill, or false because the signed file is there
     * already. A partial file left by someone else is never touched.
     */
    method PrepareDestination() returns (result: Result<bool, ArtifactError>)
      requires Sound() && descriptor.Unopened?
      modifies this`operations, this`dir, this`trail, this`descriptor
      ensures Sound() && old(trail) <= trail
      ensures result.Success? && result.value ==> descriptor.Open? && dir == Dir(None, Some([]))
      ensures result.Success? && !result.value ==>
                descriptor.Unopened? && dir == old(dir) && dir.ready.Some? && contract.Fits(dir.ready.value)
      ensures old(dir).ready.Some? ==> dir == old(dir)
      ensures old(dir).part.Some? ==> dir == old(dir) && result.Failure?
      ensures Smooth() && old(dir).part.None? ==> result == Success(old(dir).ready.None?)
    {
      var failed := Fails();        // open and check the directory
      if failed {
        return Failure(IoFailed);
      }
      result := OpenPartial();
      failed := Fails();            // close the directory
      if failed {
        if descriptor.Open? {
          var reopenFailed := Fails();
          if reopenFailed {
            var ignored := CloseFile();
          } else {
            var ignored := DiscardOpenPartial();
          }
        }
        return Failure(IoFailed);
      }
    }

    method OpenPartial() returns (result: Result<bool, ArtifactError>)
      requires Sound() && descriptor.Unopened?
      modifies this`operations, this`dir, this`trail, this`descriptor
      ensures Sound() && old(trail) <= trail
      ensures result.Success? && result.value ==> descriptor.Open? && dir == Dir(None, Some([]))
      ensures !(result.Success? && result.value) && descriptor.Open? ==> result.Failure?
      ensures result.Success? && !result.value ==>
                descriptor.Unopened? && dir == old(dir) && dir.ready.Some? && contract.Fits(dir.ready.value)
      ensures old(dir).ready.Some? ==> dir == old(dir) && descriptor.Unopened?
      ensures old(dir).part.Some? ==> dir == old(dir) && result.Failure? && descriptor.Unopened?
      ensures Smooth() && old(dir).part.None? ==> result == Success(old(dir).ready.None?)
    {
      var failed := Fails();        // look up both names
      if failed {
        return Failure(IoFailed);
      }
      if dir.ready.Some? {
        if dir.part.Some? {
          return Failure(PathInvalid);
        }
        failed := Fails();          // read and hash the ready file
        if failed {
          return Failure(IoFailed);
        }
        if !contract.Fits(dir.ready.value) {
          return Failure(ReadyInvalid);
        }
        return Success(false);
      }
      if dir.part.Some? {
        return Failure(Busy);
      }
      failed := Fails();            // create exclusively
      if failed {
        return Failure(IoFailed);
      }
      Become(dir.(part := Some([])));
      descriptor := Open;
      failed := Fails();            // check what was opened
      if failed {
        var ignored := DiscardOpenPartial();
        return Failure(IoFailed);
      }
      return Success(true);
    }

    // --------------------------------------------------------------------- filling

    /** Write a whole chunk, however little each write takes. */
    method WriteAll(body: Bytes) returns (failed: bool)
      requires Sound() && descriptor.Open? && dir.part.Some?
      modifies this`operations, this`dir, this`trail
      ensures Sound() && old(trail) <= trail && dir.part.Some? && dir.ready == old(dir).ready
      ensures !failed ==> dir.part == Some(old(dir).part.value + body)
      ensures old(dir).part.value <= dir.part.value <= old(dir).part.value + body
      ensures Smooth() ==> !failed
    {
      var view := body;
      while view != []
        invariant Sound() && old(trail) <= trail && dir.part.Some? && dir.ready == old(dir).ready
        invariant dir.part.value + view == old(dir).part.value + body
        invariant old(dir).part.value <= dir.part.value
        decreases |view|
      {
        var written := shortWrites(operations);
        failed := Fails();
        if failed || written == 0 {
          return true;
        }
        var taken := if written < |view| then written else |view|;
        Become(dir.(part := Some(dir.part.value + view[..taken])));
        assert view == view[..taken] + view[taken..];
        view := view[taken..];
      }
      assert dir.part.value + [] == dir.part.value;
      return false;
    }

    method FinishFile() returns (failed: bool)
      requires descriptor.Open?
      modifies this`operations, this`descriptor
      ensures descriptor == Closed && (Smooth() ==> !failed)
    {
      failed := Fails();            // flush
      var closeFailed := CloseFile();
      failed := failed || closeFailed;
    }

    /** Re-hash the closed partial, then publish it; a publication in doubt is taken back. */
    method PromotePartial() returns (result: Result<(), ArtifactError>)
      requires Sound()
      modifies this`operations, this`dir, this`trail
      ensures Sound() && old(trail) <= trail
      ensures result.Success? ==> old(dir).part.Some? && dir == Dir(old(dir).part, None)
      ensures dir == old(dir) || (old(dir).part.Some? && dir.part.None?)
      ensures Smooth() && old(dir).ready.None? && old(dir).part.Some? && contract.Fits(old(dir).part.value) ==>
                result.Success?
    {
      var failed := Fails();        // open the directory and look up both names
      if failed || dir.part.None? {
        return Failure(IoFailed);
      }
      if dir.ready.Some? {
        return Failure(PathInvalid);
      }
      failed := Fails();            // read and hash the partial
      if failed {
        return Failure(IoFailed);
      }
      if !contract.Fits(dir.part.value) {
        return Failure(DigestMismatch);
      }
      failed := Fails();            // rename
      if failed {
        return Failure(IoFailed);
      }
      Become(Dir(dir.part, None));
      var flushFailed := Fails();
      var hashFailed := Fails();
      if flushFailed || hashFailed || !contract.Fits(dir.ready.value) {
        var unlinkFailed := Fails();
        if !unlinkFailed {
          Become(dir.(ready := None));
        }
        return Failure(IoFailed);
      }
      failed := Fails();            // close the directory
      return if failed then Failure(IoFailed) else Success(());
    }

    /** Close if still open, and remove the partial; the ready file is left alone. */
    method AbandonPartial(close: bool) returns (failed: bool)
      requires Sound() && (close ==> descriptor.Open?)
      modifies this`operations, this`dir, this`trail, this`descriptor
      ensures Sound() && old(trail) <= trail && dir.ready == old(dir).ready
      ensures descriptor == if close then Closed else old(descriptor)
      ensures !failed ==> dir.part.None?
      ensures Smooth() ==> !failed
    {
      failed := false;
      if close {
        failed := CloseFile();
      }
      var removeFailed := UnlinkPart();
      failed := failed || removeFailed;
    }

    // ------------------------------------------------------------------ downloading

    method NextWait() returns (w: Wait)
      modifies this`waited
      ensures w == waits(old(waited))
    {
      w := waits(waited);
      waited := waited + 1;
    }

    /** Abandon in a worker; if the thread pool refuses the work, everything is left as it is. */
    method Cleanup(close: bool)
      requires Sound() && (close ==> descriptor.Open?)
      modifies this`operations, this`waited, this`dir, this`trail, this`descriptor
      ensures Sound() && old(trail) <= trail && dir.ready == old(dir).ready
      ensures !close ==> descriptor == old(descriptor)
      ensures Smooth() ==> dir.part.None? && (close ==> descriptor == Closed)
    {
      var w := NextWait();
      if w.ran {
        var ignored := AbandonPartial(close);
      }
    }

    method PrepareWaiting() returns (result: Result<bool, ArtifactError>)
      requires Sound() && descriptor.Unopened?
      modifies this`operations, this`waited, this`dir, this`trail, this`descriptor
      ensures Sound() && old(trail) <= trail
      ensures result.Success? && result.value ==> descriptor.Open? && dir == Dir(None, Some([]))
      ensures result.Success? && !result.value ==>
                descriptor.Unopened? && dir.ready.Some? && dir.part.None? && contract.Fits(dir.ready.value)
      ensures old(dir).ready.Some? ==> dir.ready == old(dir).ready
      ensures result.Success? ==> result.value == old(dir).ready.None?
      ensures Smooth() && old(dir).part.None? ==> result.Success?
    {
      var w := NextWait();
      if !w.ran {
        return Failure(Cancelled);
      }
      result := PrepareDestination();
      if w.cancelled {
        Cleanup(result == Success(true));
        return Failure(Cancelled);
      }
    }

    /** Receive the body into the partial file, refusing anything beyond the signed size. */
    method Receive(pieces: seq<Piece>) returns (result: Result<Bytes, ArtifactError>)
      requires Sound() && descriptor.Open? && dir == Dir(None, Some([]))
      modifies this`operations, this`waited, this`dir, this`trail
      ensures Sound() && old(trail) <= trail && dir.part.Some? && dir.ready.None?
      ensures result.Success? ==> dir.part == Some(result.value) && Body(pieces) == Some(result.value)
      ensures |dir.part.value| <= contract.size && |dir.part.value| <= MAX_APK_BYTES
      ensures Smooth() ==>
                (result.Success? <==> && Body(pieces).Some? && |Body(pieces).value| <= contract.size
                                      && |Body(pieces).value| <= MAX_APK_BYTES)
    {
      var body: Bytes := [];
      assert Body(pieces).Some? ==> [] + Body(pieces).value == Body(pieces).value;
      assert pieces[0..] == pieces;
      for i := 0 to |pieces|
        invariant Sound() && old(trail) <= trail && dir == Dir(None, Some(body))
        invariant |body| <= contract.size && |body| <= MAX_APK_BYTES
        invariant After(body, pieces[i..]) == Body(pieces)
      {
        AfterChunk(body, pieces[i..]);
        assert pieces[i..][1..] == pieces[i + 1..];
        match pieces[i] {
          case Broken => return Failure(Network);
          case End => return Success(body);
          case Chunk(bytes) =>
            if |body| + |bytes| > MAX_APK_BYTES {
              return Failure(TooLarge);
            }
            if |body| + |bytes| > contract.size {
              return Failure(SizeMismatch);
            }
            var w := NextWait();
            if !w.ran {
              return Failure(Cancelled);
            }
            var failed := WriteAll(bytes);
            if w.cancelled {
              return Failure(Cancelled);
            }
            if failed {
              return Failure(IoFailed);
            }
            body := body + bytes;
        }
      }
      return Failure(Network);
    }

    /** Check what was received, close it, and publish it. */
    method Publish(body: Bytes) returns (result: Result<(), ArtifactError>, open: bool)
      requires Sound() && descriptor.Open? && dir == Dir(None, Some(body))
      modifies this`operations, this`waited, this`dir, this`trail, this`descriptor
      ensures Sound() && old(trail) <= trail
      ensures open ==> descriptor.Open? && result.Failure?
      ensures result.Success? ==> dir == Dir(Some(body), None) && descriptor == Closed
      ensures Smooth() && contract.Fits(body) ==> result.Success?
      ensures Smooth() && result.Failure? ==> open
    {
      if |body| != contract.size {
        return Failure(SizeMismatch), true;
      }
      if contract.hash(body) != contract.digest {
        return Failure(DigestMismatch), true;
      }
      // From here on the caller has let go of the descriptor, closed or not.
      var w := NextWait();
      if !w.ran {
        return Failure(Cancelled), false;
      }
      var failed := FinishFile();
      if w.cancelled {
        return Failure(Cancelled), false;
      }
      if failed {
        return Failure(IoFailed), false;
      }
      w := NextWait();
      if !w.ran {
        return Failure(Cancelled), false;
      }
      result := PromotePartial();
      if w.cancelled {
        result := Failure(Cancelled);
      }
      return result, false;
    }

    /**
     * A whole download. Through every failure, cancellation and death the
     * directory stays in order, and returning normally means that the signed
     * file is there under its own name and no partial is left beside it: the
     * one that was there before, or what the server sent. Where nothing goes
     * wrong and the server sends the signed body, it does return normally.
     */
    method Download(pieces: seq<Piece>) returns (result: Result<(), ArtifactError>)
      requires Sound() && descriptor.Unopened?
      modifies this`operations, this`waited, this`dir, this`trail, this`descriptor
      ensures Sound() && old(trail) <= trail
      ensures result.Success? ==>
                dir.ready.Some? && dir.part.None? && contract.Fits(dir.ready.value) && !descriptor.Open?
      ensures old(dir).ready.Some? ==> dir.ready == old(dir).ready
      ensures result.Success? && old(dir).ready.None? ==> Body(pieces) == dir.ready
      ensures Smooth() && old(dir).ready.Some? ==> result.Success?
      ensures (Smooth() && old(dir).part.None? && contract.size <= MAX_APK_BYTES
               && Body(pieces).Some? && contract.Fits(Body(pieces).value)) ==> result.Success?
      ensures Smooth() && old(dir).part.None? ==> dir.part.None? && !descriptor.Open?
    {
      var prepared := PrepareWaiting();
      match prepared {
        case Failure(e) => return Failure(e);
        case Success(created) =>
          if !created {
            return Success(());
          }
      }
      var received := Receive(pieces);
      match received {
        case Failure(e) =>
          Cleanup(true);
          return Failure(e);
        case Success(body) =>
          var open;
          result, open := Publish(body);
          if result.Failure? {
            Cleanup(open);
          }
      }
    }
  }

  /** One process: what it is sent, what happens to it, and how many changes it lives to make. */
  datatype Life = Life(
    pieces: seq<Piece>, faults: nat -> bool, waits: nat -> Wait, shortWrites: nat -> nat, survives: nat)

  /**
   * Download again and again, dying anywhere each time: the directory is in
   * order whenever somebody looks.
   */
  method DownloadUntil(contract: Contract, lives: seq<Life>) returns (dir: Dir)
    ensures Wholesome(dir, contract)
  {
    dir := Dir(None, None);
    for i := 0 to |lives|
      invariant Wholesome(dir, contract)
    {
      var custody := new Custody(contract, dir, lives[i].faults, lives[i].waits, lives[i].shortWrites);
      var ignored := custody.Download(lives[i].pieces);
      dir := if lives[i].survives < |custody.trail| then custody.trail[lives[i].survives] else custody.dir;
    }
  }

  // ------------------------------------------------------------------- reconciling

  datatype Name = Ready(id: nat) | Partial(id: nat) | Other(text: string)

  type Listing = map<Name, Bytes>

  /** How one removal ends: done, not done, or done but reported as failed. */
  datatype Unlink = Removed | NotRemoved | RemovedUnknown

  predicate Stale(name: Name, retained: set<nat>) { !name.Other? && name.id !in retained }

  function Kept(all: Listing, retained: set<nat>): Listing {
    map n | n in all && !Stale(n, retained) :: all[n]
  }

  /**
   * Remove what no live job owns. One name that is not an artifact's stops
   * everything before the first removal; a failing removal stops the rest;
   * and no retained file is ever touched.
   */
  method ReconcileArtifacts(listing: Listing, retained: set<nat>, unlinks: nat -> Unlink)
    returns (left: Listing, ok: bool)
    ensures forall n :: n in left ==> n in listing && left[n] == listing[n]
    ensures forall n :: n in listing && !Stale(n, retained) ==> n in left
    ensures (exists n :: n in listing && n.Other?) ==> left == listing && !ok
    ensures ok ==> left == Kept(listing, retained)
  {
    left := listing;
    if n :| n in listing && n.Other? {
      return left, false;
    }
    var todo := set n | n in listing && Stale(n, retained);
    var step := 0;
    while todo != {}
      invariant todo <= set n | n in listing && Stale(n, retained)
      invariant left == map n | n in listing && (!Stale(n, retained) || n in todo) :: listing[n]
      decreases |todo|
    {
      var n :| n in todo;
      if unlinks(step) != NotRemoved {
        left := left - {n};
      }
      if unlinks(step) != Removed {
        return left, false;
      }
      todo := todo - {n};
      step := step + 1;
    }
    return left, true;
  }
}
