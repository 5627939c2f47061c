/**
 * The write handle: a sequential upload through a pipe that starts with the
 * first write, flush or close, and ends with one close.
 */
module VfsWrite {
  import opened Wrappers
  import opened VfsDir
  import opened VfsFile

  datatype Err = Nil | NotPermitted | NotSeekable | IsClosed | Failed

  /** The bytes of the accepted writes, one after the other. */
  function Flatten(writes: seq<Bytes>): Bytes {
    if writes == [] then [] else Flatten(writes[..|writes| - 1]) + writes[|writes| - 1]
  }

  lemma {:induction false} FlattenMore(taken: seq<Bytes>, part: Bytes)
    ensures Flatten(taken + [part]) == Flatten(taken) + part
  {
    assert (taken + [part])[..|taken|] == taken;
  }

  // ---------- the protocol of a handle ----------

  /**
   * A call, with the answers of the upload: `cut`, if it ends early while it is
   * given these bytes, is how many it still takes; `works` tells whether what it
   * has been given is stored.
   */
  datatype HandleCall =
    | Write(p: Bytes, off: int, cut: Option<nat>)
    | FlushIt(cut: Option<nat>, works: bool)
    | ReleaseIt(works: bool)
    | CloseIt(reason: bool, works: bool)
    | TruncateTo(size: int)
    | RenameTo(dPath: Path, leaf: string)

  /** A handle between calls: `free` tells whether an upload may start, as there is no object or it may be replaced. */
  datatype Point = Point(closed: bool, written: bool, started: bool, broken: bool, stored: bool, free: bool)

  function Min(a: nat, b: nat): nat {
    if a < b then a else b
  }

  /** A write, with `at` bytes taken before it: the error, what is taken of it, and the handle afterwards. */
  function Writes(p: Bytes, off: int, cut: Option<nat>, at: nat, a: Point): (Err, Bytes, Point) {
    if a.closed then (IsClosed, [], a)
    else if off != at then (NotSeekable, [], a)
    else if !a.started && !a.free then (NotPermitted, [], a)
    else
      var b := a.(written := true, started := true);
      if a.broken then (Failed, [], b)
      else if cut.None? then (Nil, p, b)
      else (Failed, p[..Min(cut.value, |p|)], b.(broken := true))
  }

  /** The end of a handle that is not closed. */
  function Ends(reason: bool, works: bool, a: Point): (Err, Bytes, Point) {
    if !a.started && !a.free then (Nil, [], a.(closed := true))
    else
      var stored := works && !reason && !a.broken;
      (if stored then Nil else Failed, [], a.(closed := true, started := true, stored := stored))
  }

  function Does(call: HandleCall, at: nat, a: Point): (Err, Bytes, Point) {
    match call
    case Write(p, off, cut) => Writes(p, off, cut, at, a)
    case FlushIt(cut, works) => if a.closed then (Nil, [], a) else if !a.written then Writes([], at, cut, at, a) else Ends(false, works, a)
    case ReleaseIt(works) => if a.closed then (Nil, [], a) else Ends(false, works, a)
    case CloseIt(reason, works) => if a.closed then (IsClosed, [], a) else Ends(reason, works, a)
    case TruncateTo(size) => if size != at then (NotPermitted, [], a) else (Nil, [], if size == 0 then a.(free := true) else a)
    case RenameTo(_, _) => (Nil, [], a)
  }

  /** What the calls so far did, one after the other. */
  ghost predicate Outcomes(calls: seq<HandleCall>, errs: seq<Err>, taken: seq<Bytes>, points: seq<Point>) {
    && |taken| == |errs| <= |calls| && |points| == |errs| + 1
    && forall k {:trigger errs[k]} :: 0 <= k < |errs| ==> (errs[k], taken[k], points[k + 1]) == Does(calls[k], |Flatten(taken[..k])|, points[k])
  }

  lemma {:induction false} OutcomesMore(calls: seq<HandleCall>, errs: seq<Err>, taken: seq<Bytes>, points: seq<Point>, err: Err, part: Bytes, b: Point)
    requires Outcomes(calls, errs, taken, points) && |errs| < |calls|
    requires (err, part, b) == Does(calls[|errs|], |Flatten(taken)|, points[|errs|])
    ensures Outcomes(calls, errs + [err], taken + [part], points + [b])
  {
    forall k | 0 <= k < |errs| + 1
      ensures ((errs + [err])[k], (taken + [part])[k], (points + [b])[k + 1]) == Does(calls[k], |Flatten((taken + [part])[..k])|, (points + [b])[k])
    {
      if k < |errs| {
        assert (taken + [part])[..k] == taken[..k];
        assert (errs[k], taken[k], points[k + 1]) == Does(calls[k], |Flatten(taken[..k])|, points[k]);
      } else {
        assert (taken + [part])[..k] == taken;
      }
    }
  }

  /** A closed handle stays as it is, but that Truncate(0) may be called on it. */
  lemma {:induction false} ShutUpTo(calls: seq<HandleCall>, errs: seq<Err>, taken: seq<Bytes>, points: seq<Point>, j: nat, k: nat)
    requires Outcomes(calls, errs, taken, points) && j <= k <= |errs| && points[j].closed
    ensures points[k].(free := points[j].free) == points[j] && forall i {:trigger taken[i]} :: j <= i < k ==> taken[i] == []
    decreases k - j
  {
    if j < k {
      assert (errs[j], taken[j], points[j + 1]) == Does(calls[j], |Flatten(taken[..j])|, points[j]);
      ShutUpTo(calls, errs, taken, points, j + 1, k);
    }
  }

  /** Only one call closes the handle. */
  lemma {:induction false} ClosedOnce(calls: seq<HandleCall>, errs: seq<Err>, taken: seq<Bytes>, points: seq<Point>, j: nat, k: nat)
    requires Outcomes(calls, errs, taken, points) && j < |errs| && k < |errs|
    requires !points[j].closed && points[j + 1].closed && !points[k].closed && points[k + 1].closed
    ensures j == k
  {
    if j < k {
      ShutUpTo(calls, errs, taken, points, j + 1, k);
    } else if k < j {
      ShutUpTo(calls, errs, taken, points, k + 1, j);
    }
  }

  /** The upload ends early during this call. */
  predicate Breaks(call: HandleCall, at: nat, a: Point) {
    && !a.closed && (a.started || a.free)
    && match call
       case Write(_, off, cut) => cut.Some? && off == at
       case FlushIt(cut, _) => cut.Some? && !a.written
       case _ => false
  }

  /** This call closes the handle without giving up the upload, and that works. */
  predicate Completes(call: HandleCall, a: Point) {
    && !a.closed && (a.started || a.free)
    && match call
       case FlushIt(_, works) => works && a.written
       case ReleaseIt(works) => works
       case CloseIt(reason, works) => works && !reason
       case _ => false
  }

  /** The upload ends early during one of the first n calls. */
  ghost predicate Broke(calls: seq<HandleCall>, taken: seq<Bytes>, points: seq<Point>, n: nat)
    requires n <= |calls| && n <= |taken| && n <= |points|
  {
    exists k {:trigger calls[k]} :: 0 <= k < n && Breaks(calls[k], |Flatten(taken[..k])|, points[k])
  }

  lemma {:induction false} BreaksWhen(call: HandleCall, at: nat, a: Point)
    ensures Does(call, at, a).2.broken <==> a.broken || Breaks(call, at, a)
  {
  }

  lemma {:induction false} BrokenWhen(calls: seq<HandleCall>, errs: seq<Err>, taken: seq<Bytes>, points: seq<Point>, n: nat)
    requires Outcomes(calls, errs, taken, points) && n <= |errs| && !points[0].broken
    ensures points[n].broken <==> Broke(calls, taken, points, n)
  {
    if n > 0 {
      BrokenWhen(calls, errs, taken, points, n - 1);
      assert (errs[n - 1], taken[n - 1], points[n]) == Does(calls[n - 1], |Flatten(taken[..n - 1])|, points[n - 1]);
      BreaksWhen(calls[n - 1], |Flatten(taken[..n - 1])|, points[n - 1]);
    }
  }

  /**
   * The upload is stored if and only if a call that closes the handle completes
   * it and it has not ended early before; a handle that had neither an upload
   * nor leave to start one stores nothing.
   */
  lemma {:induction false} StoredWhen(calls: seq<HandleCall>, errs: seq<Err>, taken: seq<Bytes>, points: seq<Point>, n: nat)
    requires Outcomes(calls, errs, taken, points) && n <= |errs| && !points[0].stored && !points[0].broken
    ensures points[n].stored ==> points[n].closed
    ensures points[n].stored <==> exists k {:trigger calls[k]} :: 0 <= k < n && Completes(calls[k], points[k]) && !Broke(calls, taken, points, k)
  {
    if n > 0 {
      StoredWhen(calls, errs, taken, points, n - 1);
      BrokenWhen(calls, errs, taken, points, n - 1);
      assert (errs[n - 1], taken[n - 1], points[n]) == Does(calls[n - 1], |Flatten(taken[..n - 1])|, points[n - 1]);
      assert points[n].stored <==> points[n - 1].stored || (Completes(calls[n - 1], points[n - 1]) && !points[n - 1].broken);
    }
  }

  /** Writes of these parts, one after the other. */
  function WritesOf(parts: seq<Bytes>): (calls: seq<HandleCall>)
    ensures |calls| == |parts|
  {
    seq(|parts|, k requires 0 <= k < |parts| => Write(parts[k], |Flatten(parts[..k])|, None))
  }

  lemma {:induction false} AllTaken(parts: seq<Bytes>, calls: seq<HandleCall>, errs: seq<Err>, taken: seq<Bytes>, points: seq<Point>, k: nat)
    requires WritesOf(parts) <= calls && Outcomes(calls, errs, taken, points) && k <= |parts| && k <= |errs|
    requires !points[0].closed && !points[0].broken && (points[0].started || points[0].free)
    ensures taken[..k] == parts[..k] && !points[k].closed && !points[k].broken && (points[k].started || points[k].free)
    ensures forall i {:trigger errs[i]} :: 0 <= i < k ==> errs[i] == Nil
  {
    if k > 0 {
      AllTaken(parts, calls, errs, taken, points, k - 1);
      assert (errs[k - 1], taken[k - 1], points[k]) == Does(calls[k - 1], |Flatten(taken[..k - 1])|, points[k - 1]);
      assert calls[k - 1] == WritesOf(parts)[k - 1];
      assert taken[..k] == taken[..k - 1] + [taken[k - 1]] && parts[..k] == parts[..k - 1] + [parts[k - 1]];
    }
  }

  /**
   * Parts written one after the other to an upload that takes them and works are
   * all stored when the handle is released, without an error.
   */
  lemma {:induction false} WrittenIsStored(parts: seq<Bytes>, errs: seq<Err>, taken: seq<Bytes>, points: seq<Point>)
    requires Outcomes(WritesOf(parts) + [ReleaseIt(true)], errs, taken, points) && |errs| == |parts| + 1
    requires !points[0].closed && !points[0].broken && (points[0].started || points[0].free)
    ensures points[|errs|].stored && points[|errs|].closed && Flatten(taken) == Flatten(parts)
    ensures forall i {:trigger errs[i]} :: 0 <= i < |errs| ==> errs[i] == Nil
  {
    var calls, n := WritesOf(parts) + [ReleaseIt(true)], |parts|;
    AllTaken(parts, calls, errs, taken, points, n);
    assert (errs[n], taken[n], points[n + 1]) == Does(calls[n], |Flatten(taken[..n])|, points[n]);
    assert taken == parts + [[]];
    FlattenMore(parts, []);
  }

  // ---------- the file ----------

  /** The directory lists the file from the start of an upload on. */
  function Entered(s: State, starts: bool): State {
    if starts then s.(listed := true) else s
  }

  /** The end of a handle: a failed upload of a file without an object takes the file off its directory. */
  function Ended(s: State, h: Handle, uploaded: Option<Bytes>, started: bool): State {
    Closed(if started && uploaded.None? && s.o.None? then s.(listed := false) else s, h, uploaded, {})
  }

  lemma {:induction false} RanKeepsObject(s: State, c: Calls, refused: set<Path>)
    ensures Ran(s, c, refused).0.o.Some? == s.o.Some? && Ran(s, c, refused).0.listed == s.listed
  {
    if c.Call? {
      RanKeepsObject(s, c.before, refused);
    }
  }

  lemma {:induction false} ClosedKeepsObject(s: State, h: Handle, refused: set<Path>)
    ensures Closed(s, h, None, refused).o.Some? == s.o.Some?
  {
    var s1 := WithUpload(s, h, None).(writers := Less(s.writers, h));
    RanKeepsObject(s1, s1.pending, refused);
  }

  /** What the end of a handle leaves of the file. */
  lemma {:induction false} EndKeeps(s: State, h: Handle, uploaded: Option<Bytes>, started: bool, before: Bytes)
    requires Inv(s) && Holds(s, before) && h in s.writers
    ensures var s' := Ended(s, h, uploaded, started);
            && Inv(s') && Holds(s', Or(uploaded, before)) && s'.writers == Less(s.writers, h)
            && (s'.o.Some? <==> uploaded.Some? || s.o.Some?)
            && s'.listed == (uploaded.Some? || (s.listed && !(started && s.o.None?)))
  {
    var s0 := if started && uploaded.None? && s.o.None? then s.(listed := false) else s;
    CloseKeeps(s0, h, uploaded);
    CloseHolds(s0, h, uploaded, {}, before);
    var s1 := WithUpload(s0, h, uploaded).(writers := Less(s0.writers, h));
    RanKeepsObject(s1, s1.pending, {});
    RanPath(s1, s1.pending, {});
  }

  class WriteHandle {
    const file: OpenFile
    const handle: Handle
    const trunc: bool          // opened with O_TRUNC
    var offset: nat
    var closed: bool
    var writeCalled: bool
    var isOpen: bool           // the upload has started
    var truncated: bool
    var pipe: Bytes            // what the upload has been given
    var broken: bool           // the upload has ended early
    ghost var asked: bool      // Truncate(0) has been called
    ghost var stored: bool     // the upload has become the file's object

    /** The offset counts the bytes in the pipe; the handle is registered until it is closed. */
    ghost predicate Valid()
      reads this, file
    {
      && file.Valid() && offset == |pipe| && (!isOpen ==> offset == 0 && !writeCalled) && (isOpen ==> truncated)
      && (truncated ==> asked || isOpen) && (stored ==> closed && isOpen)
      && (!closed ==> handle in file.writers)
    }

    ghost function Here(): Point
      reads this, file
    {
      Point(closed, writeCalled, isOpen, broken, stored, SafeToTruncate())
    }

    /** newWriteFileHandle. */
    constructor (file: OpenFile, id: nat, trunc: bool)
      requires file.Valid()
      modifies file
      ensures Valid() && this.file == file && this.trunc == trunc && !asked && pipe == []
      ensures Here() == Point(false, false, false, false, false, trunc || old(file.o).None?)
      ensures handle == Handle(id, PathOf(old(file.Now()))) && file.Now() == Opened(old(file.Now()), id)
    {
      this.file, this.trunc := file, trunc;
      offset, closed, writeCalled, isOpen, truncated, pipe, broken := 0, false, false, false, false, [], false;
      asked, stored := false, false;
      handle := Handle(id, file.dPath + [file.leaf]);
      new;
      ghost var s := file.Now();
      var _ := file.AddWriter(id);
      assert file.o == file.Now().o == s.o;
    }

    predicate SafeToTruncate()
      reads this, file
    {
      truncated || trunc || file.o.None?
    }

    /** openPending: an existing object is only replaced under O_TRUNC or after Truncate(0). */
    method OpenPending() returns (err: Err)
      requires Valid()
      modifies this`isOpen, this`truncated, this`pipe, file`listed
      ensures Valid() && file.Now() == Entered(old(file.Now()), isOpen && !old(isOpen)) && pipe == old(pipe)
      ensures Here() == old(Here()).(started := old(isOpen || SafeToTruncate())) && err == if isOpen then Nil else NotPermitted
      ensures isOpen && !old(isOpen) ==> file.o.None? || trunc || asked
    {
      if isOpen {
        return Nil;
      }
      if !SafeToTruncate() {
        return NotPermitted;
      }
      pipe := [];
      truncated := true;
      file.Enlist(true);
      isOpen := true;
      err := Nil;
    }

    /** The pipe takes all of p, or a part of it as the upload ends early. */
    method PipeWrite(p: Bytes, cut: Option<nat>) returns (n: nat, ok: bool)
      modifies this`pipe, this`broken
      ensures broken == (old(broken) || cut.Some?) && ok == !broken
      ensures n == (if ok then |p| else if old(broken) then 0 else Min(cut.value, |p|)) && pipe == old(pipe) + p[..n]
    {
      n, ok := 0, false;
      if !broken {
        n, ok := if cut.None? then |p| else Min(cut.value, |p|), cut.None?;
        pipe := pipe + p[..n];
      }
      broken := !ok;
    }

    /** writeAt. */
    method WriteAt(p: Bytes, off: int, cut: Option<nat>) returns (n: nat, err: Err, ghost taken: Bytes)
      requires Valid()
      modifies this`offset, this`writeCalled, this`isOpen, this`truncated, this`pipe, this`broken, file`listed
      ensures Valid() && pipe == old(pipe) + taken && taken <= p && file.Now() == Entered(old(file.Now()), isOpen && !old(isOpen))
      ensures (err, taken, Here()) == Writes(p, off, cut, |old(pipe)|, old(Here())) && n == if err == Nil then |p| else 0
      ensures old(closed) || off != old(offset) ==> unchanged(this)
      ensures isOpen && !old(isOpen) ==> file.o.None? || trunc || asked
    {
      taken := [];
      if closed {
        return 0, IsClosed, taken;
      }
      if offset != off {
        return 0, NotSeekable, taken;
      }
      err := OpenPending();
      if err != Nil {
        return 0, err, taken;
      }
      writeCalled := true;
      assert p[..|p|] == p && p[..0] == [];
      var ok;
      n, ok := PipeWrite(p, cut);
      offset := offset + n;
      taken := p[..n];
      if !ok {
        return 0, Failed, taken;
      }
      err := Nil;
    }

    /** closeWithError; the upload is failed when there is a reason. */
    method CloseWithError(reason: bool, works: bool) returns (err: Err, ghost uploaded: Option<Bytes>)
      requires Valid()
      modifies this`closed, this`isOpen, this`truncated, this`pipe, this`stored, file
      ensures Valid() && pipe == old(pipe)
      ensures old(closed) ==> err == IsClosed && unchanged(this, file)
      ensures !old(closed) ==> (err, [], Here()) == Ends(reason, works, old(Here()))
      ensures !old(closed) ==> file.Now() == Ended(Entered(old(file.Now()), isOpen && !old(isOpen)), handle, uploaded, isOpen)
      ensures !old(closed) ==> uploaded == if stored then Some(pipe) else None
      ensures isOpen && !old(isOpen) ==> old(file.o).None? || trunc || asked
    {
      uploaded := None;
      if closed {
        return IsClosed, uploaded;
      }
      closed := true;
      if !isOpen && !SafeToTruncate() {
        ghost var s := file.Now();
        ClosedKeepsObject(s, handle, {});
        file.CloseWriter(handle, None, {});
        assert file.o == file.Now().o;
        return Nil, uploaded;
      }
      err := OpenPending();
      var ok := works && !reason && !broken;
      if ok {
        uploaded, stored := Some(pipe), true;
        file.CloseWriter(handle, Some(pipe), {});
        return Nil, uploaded;
      }
      if file.o.None? {
        file.Enlist(false);
      }
      file.CloseWriter(handle, None, {});
      err := Failed;
    }

    /** Truncate: only to the size it has. */
    method Truncate(size: int) returns (err: Err)
      requires Valid()
      modifies this`truncated, this`asked
      ensures Valid() && (err, [], Here()) == Does(TruncateTo(size), |pipe|, old(Here()))
      ensures truncated == (old(truncated) || size == 0 == offset) && asked == (old(asked) || size == 0 == offset)
    {
      if size != offset {
        return NotPermitted;
      }
      if size == 0 {
        truncated, asked := true, true;
      }
      err := Nil;
    }

    /** Flush: a handle not yet written to starts its upload, any other is closed. */
    method Flush(cut: Option<nat>, works: bool) returns (err: Err, ghost uploaded: Option<Bytes>)
      requires Valid()
      modifies this`offset, this`writeCalled, this`isOpen, this`truncated, this`pipe, this`broken, this`closed, this`stored, file
      ensures Valid() && pipe == old(pipe) && (err, [], Here()) == Does(FlushIt(cut, works), |pipe|, old(Here()))
      ensures closed == (old(closed) || old(writeCalled)) && (old(closed) ==> unchanged(this, file))
      ensures !old(closed) && closed ==> file.Now() == Ended(Entered(old(file.Now()), isOpen && !old(isOpen)), handle, uploaded, isOpen)
      ensures !closed ==> file.Now() == Entered(old(file.Now()), isOpen && !old(isOpen)) && isOpen == old(isOpen || SafeToTruncate())
      ensures !old(closed) ==> uploaded == if stored then Some(pipe) else None
      ensures isOpen && !old(isOpen) ==> old(file.o).None? || trunc || asked
    {
      uploaded := None;
      if closed {
        return Nil, uploaded;
      }
      if !writeCalled {
        var n;
        ghost var taken;
        n, err, taken := WriteAt([], offset, cut);
        return err, uploaded;
      }
      err, uploaded := CloseWithError(false, works);
    }

    /** Release: closes unless that has been done. */
    method Release(works: bool) returns (err: Err, ghost uploaded: Option<Bytes>)
      requires Valid()
      modifies this`closed, this`isOpen, this`truncated, this`pipe, this`stored, file
      ensures Valid() && pipe == old(pipe) && closed && (err, [], Here()) == Does(ReleaseIt(works), |pipe|, old(Here()))
      ensures old(closed) ==> unchanged(this, file)
      ensures !old(closed) ==> file.Now() == Ended(Entered(old(file.Now()), isOpen && !old(isOpen)), handle, uploaded, isOpen)
      ensures !old(closed) ==> uploaded == if stored then Some(pipe) else None
      ensures isOpen && !old(isOpen) ==> old(file.o).None? || trunc || asked
    {
      uploaded := None;
      if closed {
        return Nil, uploaded;
      }
      err, uploaded := CloseWithError(false, works);
    }

    /**
     * What holds between calls, where `was` is the file as the calls found it
     * and `before` its data: the pipe has what the calls gave it; the object has
     * the data of the upload once that is stored, else the old; the handle is
     * registered until it is closed and then gone once; and the directory lists
     * the file while it has an object or is being uploaded.
     */
    ghost predicate Between(was: State, before: Bytes, taken: seq<Bytes>)
      reads this, file
    {
      && Valid() && Inv(file.Now()) && pipe == Flatten(taken)
      && Holds(file.Now(), if stored then pipe else before)
      && (!stored ==> file.o.Some? == was.o.Some?) && (stored ==> file.o.Some?)
      && (was.o.Some? && isOpen ==> trunc || asked)
      && file.writers == (if closed then Less(was.writers, handle) else was.writers)
      && (was.listed == was.o.Some? ==> file.listed == (file.o.Some? || (isOpen && !closed)))
    }

    /** Renaming the file under the handle. */
    method RenameFile(dPath: Path, leaf: string, ghost was: State, ghost before: Bytes, ghost taken: seq<Bytes>)
      requires Between(was, before, taken)
      modifies file
      ensures Between(was, before, taken) && Here() == old(Here())
    {
      ghost var s := file.Now();
      ghost var s1, call := s.(dPath := dPath, leaf := leaf), Call(s.pending, dPath + [leaf]);
      RenameKeeps(s, dPath, leaf);
      RanHolds(s1, call, {}, if stored then pipe else before);
      RanPath(s1, call, {});
      RanKeepsObject(s1, call, {});
      var renamed := file.Rename(dPath, leaf, {});
      assert file.writers == s.writers;
    }

    method WriteCall(p: Bytes, off: int, cut: Option<nat>, ghost was: State, ghost before: Bytes, ghost taken: seq<Bytes>) returns (err: Err, ghost part: Bytes)
      requires Between(was, before, taken)
      modifies this, file
      ensures Between(was, before, taken + [part]) && (err, part, Here()) == Writes(p, off, cut, |Flatten(taken)|, old(Here()))
    {
      var n;
      ghost var s := file.Now();
      n, err, part := WriteAt(p, off, cut);
      FlattenMore(taken, part);
      assert file.listed == file.Now().listed && file.o == file.Now().o && s.listed == old(file.listed) && s.o == old(file.o);
    }

    /** A call that may close the handle. */
    method EndCall(call: HandleCall) returns (err: Err, ghost uploaded: Option<Bytes>)
      requires Valid() && (call.FlushIt? || call.ReleaseIt? || call.CloseIt?)
      modifies this, file
      ensures Valid() && pipe == old(pipe) && asked == old(asked) && (err, [], Here()) == Does(call, |pipe|, old(Here()))
      ensures old(closed) ==> unchanged(this, file)
      ensures !old(closed) && closed ==> file.Now() == Ended(Entered(old(file.Now()), isOpen && !old(isOpen)), handle, uploaded, isOpen)
      ensures !closed ==> file.Now() == Entered(old(file.Now()), isOpen && !old(isOpen))
      ensures !old(closed) ==> uploaded == if stored then Some(pipe) else None
      ensures isOpen && !old(isOpen) ==> old(file.o).None? || trunc || asked
    {
      match call {
        case FlushIt(cut, works) => err, uploaded := Flush(cut, works);
        case ReleaseIt(works) => err, uploaded := Release(works);
        case CloseIt(reason, works) => err, uploaded := CloseWithError(reason, works);
      }
    }

    /** What holds between calls still does. */
    method CloseCall(call: HandleCall, ghost was: State, ghost before: Bytes, ghost taken: seq<Bytes>) returns (err: Err)
      requires Between(was, before, taken) && (call.FlushIt? || call.ReleaseIt? || call.CloseIt?)
      modifies this, file
      ensures Between(was, before, taken) && (err, [], Here()) == Does(call, |Flatten(taken)|, old(Here()))
    {
      ghost var uploaded, s := None, file.Now();
      err, uploaded := EndCall(call);
      assert file.listed == file.Now().listed && file.o == file.Now().o && s.listed == old(file.listed) && s.o == old(file.o);
      if closed && !old(closed) {
        EndKeeps(Entered(s, isOpen && !old(isOpen)), handle, uploaded, isOpen, before);
      }
    }

    method OneCall(call: HandleCall, ghost was: State, ghost before: Bytes, ghost taken: seq<Bytes>) returns (err: Err, ghost part: Bytes)
      requires Between(was, before, taken)
      modifies this, file
      ensures Between(was, before, taken + [part]) && (err, part, Here()) == Does(call, |Flatten(taken)|, old(Here()))
    {
      part, err := [], Nil;
      FlattenMore(taken, []);
      match call {
        case Write(p, off, cut) => err, part := WriteCall(p, off, cut, was, before, taken);
        case TruncateTo(size) => err := Truncate(size);
        case RenameTo(dPath, leaf) => RenameFile(dPath, leaf, was, before, taken);
        case _ => err := CloseCall(call, was, before, taken);
      }
    }

    /**
     * Any sequence of calls, whatever the upload answers: each has the outcome
     * of the protocol.  The upload has, one after the other, what it took of the
     * writes; once stored, with no writer left, that is the data at the file's
     * path.  A closed handle is registered once less.  An object that existed is
     * only replaced under O_TRUNC or after Truncate(0).  Once closed, the
     * directory lists the file exactly if it has an object.
     */
    method Serve(calls: seq<HandleCall>, ghost before: Bytes) returns (errs: seq<Err>, ghost taken: seq<Bytes>, ghost points: seq<Point>)
      requires Valid() && Inv(file.Now()) && Holds(file.Now(), before) && pipe == [] && !isOpen && !closed && !stored
      modifies this, file
      ensures |errs| == |calls| && Outcomes(calls, errs, taken, points) && points[0] == old(Here()) && points[|calls|] == Here()
      ensures Valid() && pipe == Flatten(taken) && offset == |pipe|
      ensures stored && !Writing(file.Now()) ==>
                PathOf(file.Now()) in file.store && file.store[PathOf(file.Now())] == Flatten(taken)
      ensures !stored ==> Holds(file.Now(), before) && file.o.Some? == old(file.o.Some?)
      ensures old(file.o).Some? && !trunc && !asked ==> !isOpen && !stored
      ensures file.writers == if closed then Less(old(file.writers), handle) else old(file.writers)
      ensures old(file.listed == file.o.Some?) ==> file.listed == (file.o.Some? || (isOpen && !closed))
    {
      ghost var was := file.Now();
      errs, taken, points := [], [], [Here()];
      for k := 0 to |calls|
        invariant |errs| == k && Between(was, before, taken)
        invariant Outcomes(calls, errs, taken, points) && points[0] == old(Here()) && points[k] == Here()
      {
        var err;
        ghost var part;
        err, part := OneCall(calls[k], was, before, taken);
        OutcomesMore(calls, errs, taken, points, err, part, Here());
        errs, taken, points := errs + [err], taken + [part], points + [Here()];
      }
    }
  }
}
