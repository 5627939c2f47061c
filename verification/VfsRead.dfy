/**
 * The read handle: sequential reads, seeks, retries with a reopened reader, and
 * a hash of what has been read, checked at the end.
 */
module VfsRead {
  import opened Wrappers

  /** Outcomes: nil, io.EOF, io.ErrUnexpectedEOF, and the other errors told apart as far as the handle does. */
  datatype Err = Nil | Eof | UnexpectedEof | Failed | NotSeekable | IsClosed | Corrupted

  predicate AtEnd(err: Err) {
    err == Eof || err == UnexpectedEof
  }

  function Min(a: int, b: int): int {
    if a < b then a else b
  }

  /** The bytes at off, at most want of them and none past the end. */
  function Slice(data: Bytes, off: int, want: nat): Bytes {
    if 0 <= off <= |data| then data[off..Min(off + want, |data|)] else []
  }

  /** The first n bytes at off. */
  predicate IsPrefixAt(p: Bytes, data: Bytes, off: int) {
    p == [] || (0 <= off && off + |p| <= |data| && p == data[off..off + |p|])
  }

  /**
   * What a read may return: bytes from off on; all that were asked for and are
   * there unless it failed.  An end of file may be wrong only where `mayLie`.
   */
  ghost predicate Honest(data: Bytes, want: nat, off: int, mayLie: bool, p: Bytes, err: Err) {
    && |p| <= want && IsPrefixAt(p, data, off)
    && (err == Nil ==> |p| == want && p == Slice(data, off, want))
    && (err == Eof ==> p == Slice(data, off, want) || (p == [] && mayLie))
  }

  /** What checkHash finds with this much of the data hashed. */
  function Verdict(data: Bytes, hashed: bool, readCalled: bool, offset: nat, size: int, sum: Bytes -> string, stored: Option<string>): Err
    requires offset <= |data|
  {
    if hashed && readCalled && size <= offset && stored.Some? && sum(data[..offset]) != stored.value then Corrupted else Nil
  }

  /** With the right size, a complete hashed read is judged by the whole content, and anything less not at all. */
  lemma {:induction false} KnownSizeIsJudgedWhole(data: Bytes, hashed: bool, readCalled: bool, offset: nat, sum: Bytes -> string, stored: Option<string>)
    requires offset <= |data|
    ensures Verdict(data, hashed, readCalled, offset, |data|, sum, stored) == Corrupted <==>
              hashed && readCalled && offset == |data| && stored.Some? && sum(data) != stored.value
  {
    assert offset == |data| ==> data[..offset] == data;
  }

  /** A read that fails: after how many bytes, and whether it looks like an end of file. */
  datatype Fault = Fault(after: nat, early: bool)

  /** The fault strikes a read of so many bytes where so many are left. */
  predicate Hits(fault: Option<Fault>, want: nat, left: int) {
    fault.Some? && fault.value.after < want && (fault.value.after < left || (fault.value.after == left && !fault.value.early))
  }

  /** The fault ends a read before its first byte, as if there were none. */
  predicate EndsAtOnce(fault: Option<Fault>, want: nat, left: int) {
    want > 0 && left > 0 && fault == Some(Fault(0, true))
  }

  /**
   * What is planned for n attempts to read so many bytes, from read s and
   * positioning q on, each after a repositioning: all fail, and the last ends at
   * once as if at the end of the file.
   */
  ghost predicate EndsAfter(faults: nat -> Option<Fault>, opens: nat -> bool, want: nat, left: int, s: nat, q: nat, n: nat)
    decreases n, 1
  {
    n > 0 && if opens(q) then EndsFrom(faults, opens, want, left, s, q + 1, n) else EndsAfter(faults, opens, want, left, s, q + 1, n - 1)
  }

  /** The same with the reader already in place for the first attempt. */
  ghost predicate EndsFrom(faults: nat -> Option<Fault>, opens: nat -> bool, want: nat, left: int, s: nat, q: nat, n: nat)
    requires n > 0
    decreases n, 0
  {
    if n == 1 then EndsAtOnce(faults(s), want, left)
    else Hits(faults(s), want, left) && EndsAfter(faults, opens, want, left, s + 1, q, n - 1)
  }

  lemma {:induction false} NextAttempt(faults: nat -> Option<Fault>, opens: nat -> bool, want: nat, left: int, s: nat, q: nat, n: nat)
    requires n > 0
    ensures EndsAfter(faults, opens, want, left, s, q, n) <==>
              if !opens(q) then EndsAfter(faults, opens, want, left, s, q + 1, n - 1)
              else if n == 1 then EndsAtOnce(faults(s), want, left)
              else Hits(faults(s), want, left) && EndsAfter(faults, opens, want, left, s + 1, q + 1, n - 1)
  {
    assert opens(q) ==> (EndsAfter(faults, opens, want, left, s, q, n) <==> EndsFrom(faults, opens, want, left, s, q + 1, n));
  }

  /** What is planned for n such attempts: one of them gets into place and is not hit. */
  ghost predicate ServedAfter(faults: nat -> Option<Fault>, opens: nat -> bool, want: nat, left: int, s: nat, q: nat, n: nat)
    decreases n, 1
  {
    n > 0 && if opens(q) then ServedFrom(faults, opens, want, left, s, q + 1, n) else ServedAfter(faults, opens, want, left, s, q + 1, n - 1)
  }

  /** The same with the reader already in place for the first attempt. */
  ghost predicate ServedFrom(faults: nat -> Option<Fault>, opens: nat -> bool, want: nat, left: int, s: nat, q: nat, n: nat)
    requires n > 0
    decreases n, 0
  {
    !Hits(faults(s), want, left) || ServedAfter(faults, opens, want, left, s + 1, q, n - 1)
  }

  lemma {:induction false} NextServed(faults: nat -> Option<Fault>, opens: nat -> bool, want: nat, left: int, s: nat, q: nat, n: nat)
    requires n > 0
    ensures ServedAfter(faults, opens, want, left, s, q, n) <==>
              if !opens(q) then ServedAfter(faults, opens, want, left, s, q + 1, n - 1)
              else !Hits(faults(s), want, left) || ServedAfter(faults, opens, want, left, s + 1, q + 1, n - 1)
  {
    assert opens(q) ==> (ServedAfter(faults, opens, want, left, s, q, n) <==> ServedFrom(faults, opens, want, left, s, q + 1, n));
  }

  /** When every repositioning works: one of the n reads planned is not hit. */
  lemma {:induction false} ServedAfterWhen(faults: nat -> Option<Fault>, opens: nat -> bool, want: nat, left: int, s: nat, q: nat, n: nat)
    requires forall i :: q <= i ==> opens(i)
    ensures ServedAfter(faults, opens, want, left, s, q, n) <==> exists i :: s <= i < s + n && !Hits(faults(i), want, left)
    decreases n
  {
    if n > 0 {
      assert opens(q);
      NextServed(faults, opens, want, left, s, q, n);
      ServedAfterWhen(faults, opens, want, left, s + 1, q + 1, n - 1);
    }
  }

  /** When every repositioning works, that is: the reads but the last fail, and the last ends at once. */
  lemma {:induction false} EndsAfterWhen(faults: nat -> Option<Fault>, opens: nat -> bool, want: nat, left: int, s: nat, q: nat, n: nat)
    requires n > 0 && forall i :: q <= i ==> opens(i)
    ensures EndsAfter(faults, opens, want, left, s, q, n) <==>
              EndsAtOnce(faults(s + n - 1), want, left) && forall i :: s <= i < s + n - 1 ==> Hits(faults(i), want, left)
    decreases n
  {
    assert opens(q);
    if n > 1 {
      EndsAfterWhen(faults, opens, want, left, s + 1, q + 1, n - 1);
    }
  }

  /** However the repositionings go, some read of these attempts ends at once. */
  lemma {:induction false} EndsAfterNeeds(faults: nat -> Option<Fault>, opens: nat -> bool, want: nat, left: int, s: nat, q: nat, n: nat) returns (i: nat)
    requires EndsAfter(faults, opens, want, left, s, q, n)
    ensures s <= i < s + n && EndsAtOnce(faults(i), want, left) && forall j :: s <= j < i ==> Hits(faults(j), want, left)
    decreases n
  {
    i := s;
    if !opens(q) {
      i := EndsAfterNeeds(faults, opens, want, left, s, q + 1, n - 1);
    } else if n > 1 {
      i := EndsAfterNeeds(faults, opens, want, left, s + 1, q + 1, n - 1);
    }
  }

  /**
   * The buffered, chunked reader under the handle.  Any read may fail, and a
   * failure sticks until the reader is repositioned or reopened, which may fail
   * too.  What fails when is a plan made beforehand.
   */
  class Reader {
    const data: Bytes
    const faults: nat -> Option<Fault>  // of each read
    const opens: nat -> bool            // whether each repositioning works
    const skips: nat -> bool            // whether each skip finds its target in the buffer
    const closes: bool                  // whether closing works
    var pos: nat
    var broken: bool
    var early: bool                     // it broke with an end of file
    var served: nat
    var positions: nat
    var skipped: nat

    constructor (data: Bytes, faults: nat -> Option<Fault>, opens: nat -> bool, skips: nat -> bool, closes: bool)
      ensures this.data == data && this.faults == faults && this.opens == opens && this.skips == skips && this.closes == closes
      ensures Valid() && broken && served == 0 && positions == 0 && skipped == 0
    {
      this.data, this.faults, this.opens, this.skips, this.closes := data, faults, opens, skips, closes;
      pos, broken, early, served, positions, skipped := 0, true, false, 0, 0, 0;
    }

    ghost predicate Valid()
      reads this
    {
      (broken || pos <= |data|) && (broken && early ==> Truncates())
    }

    /** It may also report a premature end of file. */
    ghost predicate Truncates() {
      exists n :: faults(n).Some? && faults(n).value.early
    }

    /** At this place, unless it is broken. */
    ghost predicate At(offset: int)
      reads this
    {
      broken || pos == offset
    }

    /** The next read of so many bytes will fail. */
    predicate Fails(want: nat)
      reads this
    {
      want > 0 && (broken || Hits(faults(served), want, |data| - pos))
    }

    /** io.ReadFull. */
    method ReadFull(want: nat) returns (p: Bytes, err: Err)
      requires Valid()
      modifies this`pos, this`broken, this`early, this`served
      ensures Valid() && |p| <= want && (err == Nil <==> |p| == want) && (err == Nil || AtEnd(err) || err == Failed)
      ensures old(broken) ==> p == [] && (err != Nil ==> broken)
      ensures !old(broken) ==> old(pos) + |p| <= |data| && p == data[old(pos)..old(pos) + |p|] && At(old(pos) + |p|)
      ensures err == Nil && want > 0 ==> !old(broken)
      ensures err == Nil ==> broken == old(broken) && (!broken ==> pos == old(pos) + want)
      ensures (err == Eof ==> p == []) && (err == UnexpectedEof ==> p != [])
      ensures AtEnd(err) && !Truncates() ==> !old(broken) && old(pos) + |p| == |data|
      ensures err != Nil && !(AtEnd(err) && !old(broken) && old(pos) + |p| == |data|) ==> broken
      ensures !Truncates() ==> (err == Failed <==> old(Fails(want)))
      ensures served == old(served) + if want > 0 && !old(broken) then 1 else 0
      ensures want > 0 && old(broken) ==> err == if old(early) then Eof else Failed
      ensures want > 0 && !old(broken) && Hits(faults(old(served)), want, |data| - old(pos)) ==>
                |p| == faults(old(served)).value.after && if faults(old(served)).value.early then AtEnd(err) else err == Failed
      ensures !old(broken) && !Hits(faults(old(served)), want, |data| - old(pos)) ==>
                |p| == Min(want, |data| - old(pos)) && (err == Nil || AtEnd(err))
    {
      if want == 0 {
        return [], Nil;
      }
      if broken {
        return [], if early then Eof else Failed;
      }
      var fault, left := faults(served), |data| - pos;
      served := served + 1;
      var n := if Hits(fault, want, left) then fault.value.after else Min(want, left);
      p := data[pos..pos + n];
      pos := pos + n;
      if n == want {
        return p, Nil;
      }
      err := if n == 0 then Eof else UnexpectedEof;
      if Hits(fault, want, left) {
        broken, early := true, fault.value.early;
        if !early {
          err := Failed;
        }
      }
    }

    /** Repositioning: RangeSeek, or opening anew at an offset. */
    method Position(offset: int) returns (ok: bool)
      requires Valid()
      modifies this`pos, this`broken, this`early, this`positions
      ensures Valid() && (ok ==> !broken && pos == offset) && (!ok ==> broken && !early) && positions == old(positions) + 1
      ensures ok == (0 <= offset <= |data| && opens(old(positions)))
    {
      ok := 0 <= offset <= |data| && opens(positions);
      positions := positions + 1;
      broken, early := !ok, false;
      if ok {
        pos := offset;
      }
    }

    /** A skip to that place works. */
    predicate CanSkip(offset: int)
      reads this
    {
      skips(skipped) && !broken && 0 <= offset <= |data|
    }

    /** SkipBytes: only from within the buffer of a working reader. */
    method SkipBytes(offset: int) returns (ok: bool)
      requires Valid()
      modifies this`pos, this`broken, this`early, this`skipped
      ensures Valid() && (ok ==> !broken && pos == offset) && (!ok ==> broken) && ok == old(CanSkip(offset))
    {
      ok := CanSkip(offset);
      skipped := skipped + 1;
      if ok {
        pos := offset;
      } else {
        broken, early := true, false;
      }
    }
  }

  class ReadHandle {
    const r: Reader
    const sum: Bytes -> string     // the hash function
    const storedSum: Option<string>  // the hash the remote has for the object
    const noSeek: bool
    const retries: nat             // LowLevelRetries
    var size: int
    var sizeUnknown: bool
    var offset: int
    var roffset: int
    var hash: Option<Bytes>        // what the hasher has consumed
    var readCalled: bool
    var isOpen: bool
    var closed: bool

    /** newReadFileHandle; the object's size is right or negative for unknown. */
    constructor (r: Reader, sum: Bytes -> string, storedSum: Option<string>, noSeek: bool, noChecksum: bool, retries: nat, objectSize: int)
      requires r.Valid() && (objectSize < 0 || objectSize == |r.data|)
      requires objectSize < 0 ==> !r.Truncates()
      ensures Valid() && this.r == r && this.sum == sum && this.storedSum == storedSum && this.noSeek == noSeek && this.retries == retries
      ensures sizeUnknown == (objectSize < 0) && offset == roffset == 0 && hash.Some? == !noChecksum && !readCalled && !isOpen && !closed
    {
      this.r, this.sum, this.storedSum, this.noSeek, this.retries := r, sum, storedSum, noSeek, retries;
      size, sizeUnknown := if objectSize < 0 then 0 else objectSize, objectSize < 0;
      offset, roffset, hash := 0, 0, if noChecksum then None else Some([]);
      readCalled, isOpen, closed := false, false, false;
    }

    /** The reader stands at offset, the size is right once known, the hasher has seen all bytes before offset. */
    ghost predicate Valid()
      reads this, r
    {
      && r.Valid() && 0 <= offset <= |r.data|
      && (!sizeUnknown ==> size == |r.data|) && (sizeUnknown ==> size == 0 && !r.Truncates())
      && (isOpen ==> r.At(offset)) && (!isOpen ==> offset == 0 && !readCalled)
      && (hash.Some? ==> hash.value == r.data[..offset])
    }

    /** The first read of so many bytes where the handle stands will fail. */
    predicate Fails(want: nat)
      reads this, r
    {
      if isOpen then r.Fails(want) else want > 0 && Hits(r.faults(r.served), want, |r.data|)
    }

    /** openPending. */
    method OpenPending() returns (ok: bool)
      requires Valid()
      modifies this`isOpen, r
      ensures Valid() && ok == isOpen == (old(isOpen) || old(r.opens(r.positions)))
      ensures isOpen ==> forall want: nat :: r.Fails(want) == old(Fails(want))
      ensures r.served == old(r.served) && r.skipped == old(r.skipped) && r.positions == old(r.positions) + if old(isOpen) then 0 else 1
      ensures isOpen ==> r.broken == (old(isOpen) && old(r.broken)) && (r.broken ==> r.early == old(r.early))
    {
      if isOpen {
        return true;
      }
      ok := r.Position(0);
      if ok {
        isOpen := true;
      }
    }

    /** seek: the hash is given up, whatever happens. */
    method SeekTo(off: int, reopen: bool) returns (err: Err)
      requires Valid() && isOpen
      modifies this`hash, this`offset, r
      ensures Valid()
      ensures err == Nil || err == Failed || err == NotSeekable
      ensures err == Nil ==> offset == off && !r.broken && hash == None
      ensures err != Nil ==> offset == old(offset)
      ensures err == NotSeekable <==> noSeek
      ensures hash == None || hash == old(hash)
      ensures noSeek ==> unchanged(this)
      ensures r.served == old(r.served)
      ensures !noSeek && !reopen && old(r.CanSkip(off)) ==> err == Nil && r.positions == old(r.positions)
      ensures !noSeek && (reopen || !old(r.CanSkip(off))) ==>
                r.positions == old(r.positions) + 1 && (err == Nil <==> 0 <= off <= |r.data| && r.opens(old(r.positions)))
    {
      if noSeek {
        return NotSeekable;
      }
      hash := None;
      if !reopen {
        var skipped := r.SkipBytes(off);
        if skipped {
          offset := off;
          return Nil;
        }
      }
      var ok := r.Position(off);
      if !ok {
        return Failed;
      }
      offset := off;
      err := Nil;
    }

    /** Valid, but with the reader already past the bytes p. */
    ghost predicate Passed(p: Bytes, newOffset: int)
      reads this, r
    {
      && r.Valid() && 0 <= offset && newOffset == offset + |p| <= |r.data| && p == r.data[offset..newOffset]
      && (!sizeUnknown ==> size == |r.data|) && (sizeUnknown ==> size == 0 && !r.Truncates())
      && isOpen && r.At(newOffset)
      && (hash.Some? ==> hash.value == r.data[..offset])
    }

    /** One attempt of the loop: a read at offset, which ends the loop unless it fails. */
    method Attempt(want: nat, ghost off: int) returns (p: Bytes, err: Err, newOffset: int)
      requires Valid() && isOpen && offset == off
      modifies this`size, this`sizeUnknown, this`readCalled, r
      ensures |p| <= want && IsPrefixAt(p, r.data, off)
      ensures err == Nil ==> p == Slice(r.data, off, want) && Passed(p, newOffset)
      ensures err == Nil ==> sizeUnknown == (old(sizeUnknown) && |p| == want)
      ensures (old(sizeUnknown) ==> (err != Nil <==> old(r.Fails(want)))) && (!old(r.Fails(want)) ==> err == Nil)
      ensures readCalled == (old(readCalled) || want > 0)
      ensures err != Nil ==> Valid() && r.broken && unchanged(this`size, this`sizeUnknown)
      ensures err == Nil || err == Failed || (AtEnd(err) && r.Truncates() && (err == Eof ==> p == []))
      ensures r.served == (old(r.served) + if want > 0 && !old(r.broken) then 1 else 0) && r.positions == old(r.positions)
      ensures !old(sizeUnknown) && off < size && !old(r.broken) ==>
                (err == Nil <==> !Hits(r.faults(old(r.served)), want, size - off)) && (err == Eof <==> EndsAtOnce(r.faults(old(r.served)), want, size - off))
      ensures !old(sizeUnknown) && off < size && old(r.broken) && want > 0 ==> err == if old(r.early) then Eof else Failed
    {
      if want > 0 {
        readCalled := true;
      }
      p, err := r.ReadFull(want);
      newOffset := offset + |p|;
      if AtEnd(err) && (newOffset == size || sizeUnknown) {
        if sizeUnknown {
          sizeUnknown, size := false, newOffset;
        }
        err := Nil;
      }
    }

    /**
     * An end of file can be wrong: with an unknown size, exactly when the read is
     * out of sequence or its first attempt fails and may be repeated; with a
     * known one, when all attempts fail and the last ends at once.
     */
    ghost predicate EndsWrongly(want: nat, off: int)
      reads this, r
    {
      if sizeUnknown then off != offset || (Fails(want) && retries > 0) else want > 0 && 0 <= off < size && AllEnd(want, off)
    }

    /** All attempts for the bytes at off will fail, the last ending at once. */
    ghost predicate AllEnd(want: nat, off: int)
      reads this, r
    {
      if isOpen then WillEnd(want, off, off != offset, false, retries + 1)
      else if noSeek && (off != 0 || retries > 0) then false
      else if off != 0 && !r.skips(r.skipped) then EndsAfter(r.faults, r.opens, want, |r.data| - off, r.served, r.positions + 1, retries + 1)
      else EndsFrom(r.faults, r.opens, want, |r.data| - off, r.served, r.positions + 1, retries + 1)
    }

    /**
     * The n attempts left for the bytes at off will fail, the last ending at
     * once: the first where the reader stands, or after a skip, or after
     * repositioning; the others after opening anew.
     */
    ghost predicate WillEnd(want: nat, off: int, doSeek: bool, reopen: bool, n: nat)
      requires n > 0
      reads this, r
    {
      var left := |r.data| - off;
      if noSeek && (doSeek || n > 1) then false
      else if doSeek && (reopen || !r.CanSkip(off)) then EndsAfter(r.faults, r.opens, want, left, r.served, r.positions, n)
      else if doSeek || !r.broken then EndsFrom(r.faults, r.opens, want, left, r.served, r.positions, n)
      else if n == 1 then r.early
      else EndsAfter(r.faults, r.opens, want, left, r.served, r.positions, n - 1)
    }

    /** Some attempt for the bytes at off will get into place and not be hit. */
    ghost predicate AnyServed(want: nat, off: int)
      reads this, r
    {
      if isOpen then WillServe(want, off, off != offset, false, retries + 1)
      else if noSeek then off == 0 && !Hits(r.faults(r.served), want, |r.data| - off)
      else if off != 0 && !r.skips(r.skipped) then ServedAfter(r.faults, r.opens, want, |r.data| - off, r.served, r.positions + 1, retries + 1)
      else ServedFrom(r.faults, r.opens, want, |r.data| - off, r.served, r.positions + 1, retries + 1)
    }

    /** One of the n attempts left for the bytes at off will. */
    ghost predicate WillServe(want: nat, off: int, doSeek: bool, reopen: bool, n: nat)
      requires n > 0
      reads this, r
    {
      var left := |r.data| - off;
      if noSeek then !doSeek && !r.broken && !Hits(r.faults(r.served), want, left)
      else if doSeek && (reopen || !r.CanSkip(off)) then ServedAfter(r.faults, r.opens, want, left, r.served, r.positions, n)
      else if doSeek || !r.broken then ServedFrom(r.faults, r.opens, want, left, r.served, r.positions, n)
      else ServedAfter(r.faults, r.opens, want, left, r.served, r.positions, n - 1)
    }

    /** What a read returns when all goes well: the bytes there are, and the end of the file if these are fewer than asked for. */
    ghost predicate Complete(want: nat, off: int, p: Bytes, err: Err)
      reads this
    {
      p == Slice(r.data, off, want) && err == if |p| == want then Nil else Eof
    }

    /** readAt. */
    method ReadAt(want: nat, off: int) returns (p: Bytes, err: Err)
      requires Valid()
      modifies this`size, this`sizeUnknown, this`offset, this`hash, this`readCalled, this`isOpen, r
      ensures Valid() && isOpen == (old(isOpen) || old(r.opens(r.positions))) && (!old(sizeUnknown) ==> unchanged(this`size, this`sizeUnknown))
      ensures Honest(r.data, want, off, old(EndsWrongly(want, off)), p, err)
      ensures old(sizeUnknown) && isOpen && !closed && off >= 0 && (noSeek ==> off == old(offset)) ==>
                (err == Eof && p != Slice(r.data, off, want) <==> old(EndsWrongly(want, off)) && Slice(r.data, off, want) != [])
                && (old(EndsWrongly(want, off)) ==> p == [] && err == Eof)
                && (off == old(offset) && old(Fails(want)) && retries == 0 ==> err == Failed)
      ensures !old(sizeUnknown) && isOpen && !closed ==>
                (err == Eof && p != Slice(r.data, off, want) <==> old(EndsWrongly(want, off)))
                && (old(EndsWrongly(want, off)) ==> p == [] && offset == off < size)
      ensures !old(sizeUnknown) && isOpen && !closed && want > 0 && 0 <= off < size ==> (Complete(want, off, p, err) <==> old(AnyServed(want, off)))
      ensures !old(sizeUnknown) && isOpen && !closed && off >= size && off != old(offset) && !noSeek ==> p == [] && err == Eof
      ensures !isOpen ==> p == [] && err == Failed
      ensures isOpen && !closed && noSeek && off != old(offset) ==> p == [] && err == NotSeekable
      ensures isOpen && !closed && off == old(offset) && !old(Fails(want)) ==>
                Complete(want, off, p, err) && offset == off + |p| && readCalled == (old(readCalled) || want > 0)
                && sizeUnknown == (old(sizeUnknown) && |p| == want) && hash.Some? == old(hash).Some?
      ensures err == Nil ==> offset == off + |p| && (want > 0 ==> readCalled)
      ensures p != [] && err == Eof ==> offset == |r.data| && !sizeUnknown
      ensures isOpen && closed ==> p == [] && err == IsClosed
      ensures hash.Some? ==> old(hash).Some?
    {
      p := [];
      var ok := OpenPending();
      if !ok {
        return p, Failed;
      }
      if closed {
        return p, IsClosed;
      }
      if off != offset && noSeek {
        return p, NotSeekable;
      }
      p, err := ReadOpened(want, off);
    }

    /** readAt once the handle is open: the attempts, and taking in what they gave. */
    method ReadOpened(want: nat, off: int) returns (p: Bytes, err: Err)
      requires Valid() && isOpen && !closed
      modifies this`size, this`sizeUnknown, this`offset, this`hash, this`readCalled, r
      ensures Valid() && err != IsClosed && (!old(sizeUnknown) ==> unchanged(this`size, this`sizeUnknown)) && Honest(r.data, want, off, old(EndsWrongly(want, off)), p, err)
      ensures old(sizeUnknown) && off >= 0 && old(EndsWrongly(want, off)) ==> p == [] && err == Eof
      ensures !old(sizeUnknown) ==>
                (err == Eof && p != Slice(r.data, off, want) <==> old(EndsWrongly(want, off)))
                && (old(EndsWrongly(want, off)) ==> p == [] && offset == off < size)
      ensures !old(sizeUnknown) && want > 0 && 0 <= off < size ==> (Complete(want, off, p, err) <==> old(AnyServed(want, off)))
      ensures !old(sizeUnknown) && off >= size && off != old(offset) ==> p == [] && err == Eof
      ensures old(sizeUnknown) && off == old(offset) && old(Fails(want)) && retries == 0 ==> err == Failed
      ensures off == old(offset) && !old(Fails(want)) ==>
                Complete(want, off, p, err) && offset == off + |p| && readCalled == (old(readCalled) || want > 0)
                && sizeUnknown == (old(sizeUnknown) && |p| == want) && hash.Some? == old(hash).Some?
      ensures err == Nil ==> offset == off + |p| && (want > 0 ==> readCalled)
      ensures p != [] && err == Eof ==> offset == |r.data| && !sizeUnknown
      ensures hash.Some? ==> old(hash).Some?
    {
      var newOffset;
      p, err, newOffset := Attempts(want, off);
      if err == Nil {
        Accept(p, newOffset);
        err := if |p| != want then Eof else Nil;
      }
    }

    /** One round of the loop: a seek if there is need, then an attempt. */
    method Try(want: nat, off: int, doSeek: bool, reopen: bool, p0: Bytes, ghost n: nat) returns (p: Bytes, err: Err, newOffset: int)
      requires Valid() && isOpen && n > 0 && (!doSeek ==> offset == off) && |p0| <= want && IsPrefixAt(p0, r.data, off)
      modifies this`size, this`sizeUnknown, this`offset, this`hash, this`readCalled, r
      ensures |p| <= want && IsPrefixAt(p, r.data, off)
      ensures err == Nil ==> p == Slice(r.data, off, want) && offset == off && Passed(p, newOffset)
      ensures err == Nil ==> (want > 0 ==> readCalled) && sizeUnknown == (old(sizeUnknown) && |p| == want)
      ensures err != Nil ==> Valid() && unchanged(this`size, this`sizeUnknown)
      ensures err == Nil || err == Failed || err == NotSeekable || (AtEnd(err) && r.Truncates() && offset == off && (err == Eof ==> p == []))
      ensures hash.Some? ==> old(hash).Some?
      ensures !doSeek ==> err != NotSeekable && hash == old(hash) && readCalled == (old(readCalled) || want > 0) && (old(sizeUnknown) ==> (err != Nil <==> old(r.Fails(want))))
      ensures !doSeek && !old(r.Fails(want)) ==> err == Nil
      ensures old(!sizeUnknown) && want > 0 && 0 <= off < size ==>
                (err == Nil ==> !old(WillEnd(want, off, doSeek, reopen, n)))
                && (n == 1 ==> (err == Eof <==> old(WillEnd(want, off, doSeek, reopen, n))))
                && (n > 1 && err != Nil ==> (WillEnd(want, off, true, true, n - 1) <==> old(WillEnd(want, off, doSeek, reopen, n))))
      ensures old(!sizeUnknown) && want > 0 && 0 <= off < size ==>
                (err == Nil ==> old(WillServe(want, off, doSeek, reopen, n)))
                && (err != Nil && old(WillServe(want, off, doSeek, reopen, n)) ==> n > 1)
                && (n > 1 && err != Nil ==> (WillServe(want, off, true, true, n - 1) <==> old(WillServe(want, off, doSeek, reopen, n))))
    {
      p, err, newOffset := p0, Nil, 0;
      NextAttempt(r.faults, r.opens, want, |r.data| - off, r.served, r.positions, n);
      NextServed(r.faults, r.opens, want, |r.data| - off, r.served, r.positions, n);
      if doSeek {
        err := SeekTo(off, reopen);
      }
      if err == Nil {
        p, err, newOffset := Attempt(want, off);
      }
    }

    /** The loop of readAt. */
    method Attempts(want: nat, off: int) returns (p: Bytes, err: Err, newOffset: int)
      requires Valid() && isOpen
      modifies this`size, this`sizeUnknown, this`offset, this`hash, this`readCalled, r
      ensures err == Nil ==> |p| <= want && p == Slice(r.data, off, want) && off == offset && Passed(p, newOffset)
      ensures err == Nil ==> (want > 0 ==> readCalled) && sizeUnknown == (old(sizeUnknown) && |p| == want)
      ensures err == Eof ==> p == []
      ensures err != Nil ==> Valid() && unchanged(this`size, this`sizeUnknown) && Honest(r.data, want, off, old(EndsWrongly(want, off)), p, err)
      ensures old(sizeUnknown) && off >= 0 ==> (err == Eof <==> old(EndsWrongly(want, off)))
      ensures !old(sizeUnknown) && want > 0 && 0 <= off < size ==> (err == Eof <==> old(EndsWrongly(want, off))) && (err == Eof ==> offset == off)
      ensures !old(sizeUnknown) && want > 0 && 0 <= off < size ==> (err == Nil <==> old(AnyServed(want, off)))
      ensures !old(sizeUnknown) && off >= size && off != old(offset) ==> err == Eof
      ensures old(sizeUnknown) && off == old(offset) && old(Fails(want)) && retries == 0 ==> err == Failed
      ensures off == old(offset) && !old(Fails(want)) ==>
                err == Nil && readCalled == (old(readCalled) || want > 0) && hash == old(hash)
      ensures err != IsClosed && (hash.Some? ==> old(hash).Some?)
    {
      var doSeek, doReopen, tries := off != offset, false, 0;
      p, newOffset := [], 0;
      while true
        invariant Valid() && isOpen && tries <= retries && (!doSeek ==> offset == off)
        invariant |p| <= want && IsPrefixAt(p, r.data, off)
        invariant sizeUnknown == old(sizeUnknown) && size == old(size) && (hash.Some? ==> old(hash).Some?)
        invariant tries == 0 ==> doSeek == (off != old(offset)) && !doReopen && unchanged(this) && r.Fails(want) == old(Fails(want))
        invariant tries > 0 && off == old(offset) ==> old(Fails(want))
        invariant tries > 0 ==> doSeek && doReopen && (sizeUnknown && off >= 0 ==> off == old(offset) && old(Fails(want)))
        invariant !sizeUnknown && want > 0 && 0 <= off < size ==>
                    (WillEnd(want, off, doSeek, doReopen, retries - tries + 1) <==> old(EndsWrongly(want, off)))
                    && (WillServe(want, off, doSeek, doReopen, retries - tries + 1) <==> old(AnyServed(want, off)))
        decreases retries - tries
      {
        if doSeek && off >= size {
          return [], Eof, 0;
        }
        p, err, newOffset := Try(want, off, doSeek, doReopen, p, retries - tries + 1);
        if err == Nil || tries >= retries {
          return;
        }
        tries := tries + 1;
        doSeek, doReopen := true, true;
      }
    }

    /** The bytes read are accepted: the offset moves on and the hasher sees them. */
    method Accept(p: Bytes, newOffset: int)
      requires Passed(p, newOffset)
      modifies this`offset, this`hash
      ensures Valid() && offset == newOffset && (hash.Some? <==> old(hash).Some?)
    {
      offset := newOffset;
      if hash.Some? {
        hash := Some(hash.value + p);
      }
    }

    /** Read: from the place the last Read or Seek left. */
    method Read(want: nat) returns (p: Bytes, err: Err)
      requires Valid()
      modifies this, r
      ensures Valid() && closed == old(closed) && (!old(sizeUnknown) ==> unchanged(this`size, this`sizeUnknown))
      ensures Honest(r.data, want, old(roffset), old(EndsWrongly(want, roffset)), p, err) && roffset == old(roffset) + |p|
      ensures !old(sizeUnknown) && isOpen && !closed ==> (err == Eof && p != Slice(r.data, old(roffset), want) <==> old(EndsWrongly(want, roffset)))
      ensures !old(sizeUnknown) && isOpen && !closed && want > 0 && 0 <= old(roffset) < size ==>
                (Complete(want, old(roffset), p, err) <==> old(AnyServed(want, roffset)))
      ensures !old(sizeUnknown) && old(roffset) >= old(size) ==> p == [] && err == Eof
      ensures old(sizeUnknown) || old(roffset) < old(size) ==> isOpen == (old(isOpen) || old(r.opens(r.positions)))
      ensures old(sizeUnknown) && isOpen && !closed && old(roffset) == old(offset) && !old(Fails(want)) ==> Complete(want, old(roffset), p, err)
    {
      if roffset >= size && !sizeUnknown {
        return [], Eof;
      }
      p, err := ReadAt(want, roffset);
      roffset := roffset + |p|;
    }

    /** Seek, with whence 0 for the start, 1 for the current place and 2 for the end. */
    method Seek(to: int, whence: int) returns (n: int, err: Err)
      requires Valid()
      modifies this`roffset
      ensures Valid() && (err == Nil <==> !noSeek)
      ensures err == Nil ==> n == roffset == to + (if whence == 0 then 0 else if whence == 2 then size else old(roffset))
      ensures err != Nil ==> roffset == old(roffset)
    {
      if noSeek {
        return 0, NotSeekable;
      }
      if whence == 0 {
        roffset := 0;
      } else if whence == 2 {
        roffset := size;
      }
      roffset := roffset + to;
      return roffset, Nil;
    }

    /** The object is undamaged: its content has the hash the remote has for it. */
    predicate Undamaged()
      reads this
    {
      storedSum == Some(sum(r.data))
    }

    /** Part of an object of unknown size has been read and hashed, and the hash of the part is not that of the whole. */
    ghost predicate PartRead()
      requires Valid()
      reads this, r
    {
      sizeUnknown && hash.Some? && readCalled && offset < |r.data| && sum(r.data[..offset]) != sum(r.data)
    }

    /** checkHash: an undamaged object is blamed exactly after a partial read while its size is unknown. */
    method CheckHash() returns (err: Err)
      requires Valid()
      ensures err == Verdict(r.data, hash.Some?, readCalled, offset, size, sum, storedSum)
      ensures !sizeUnknown && err == Corrupted ==> storedSum.Some? && sum(r.data) != storedSum.value
      ensures !sizeUnknown && hash.Some? && readCalled && offset == |r.data| && storedSum.Some? && sum(r.data) != storedSum.value ==>
                err == Corrupted
      ensures Undamaged() ==> (err == Corrupted <==> PartRead())
    {
      KnownSizeIsJudgedWhole(r.data, hash.Some?, readCalled, offset, sum, storedSum);
      assert offset == |r.data| ==> r.data[..offset] == r.data;
      if hash.None? || !readCalled || offset < size {
        return Nil;
      }
      if storedSum.Some? && sum(hash.value) != storedSum.value {
        return Corrupted;
      }
      return Nil;
    }

    /** close: once. */
    method Close() returns (err: Err)
      requires Valid()
      modifies this`closed
      ensures Valid() && closed && (old(closed) <==> err == IsClosed)
      ensures !old(closed) ==>
                err == if !isOpen then Nil else if !r.closes then Failed
                       else Verdict(r.data, hash.Some?, readCalled, offset, size, sum, storedSum)
      ensures Undamaged() ==> (err == Corrupted <==> !old(closed) && isOpen && r.closes && PartRead())
    {
      if closed {
        return IsClosed;
      }
      closed := true;
      if !isOpen {
        return Nil;
      }
      if !r.closes {
        return Failed;
      }
      err := CheckHash();
    }

    /** Flush. */
    method Flush() returns (err: Err)
      requires Valid()
      ensures err == if isOpen then Verdict(r.data, hash.Some?, readCalled, offset, size, sum, storedSum) else Nil
      ensures Undamaged() ==> (err == Corrupted <==> isOpen && PartRead())
    {
      if !isOpen {
        return Nil;
      }
      err := CheckHash();
    }

    /** Release: a handle never opened stays as it is. */
    method Release() returns (err: Err)
      requires Valid()
      modifies this`closed
      ensures Valid() && closed == (old(closed) || isOpen) && err != IsClosed
    {
      if !isOpen || closed {
        return Nil;
      }
      err := Close();
    }
  }

  // ---------- objects of unknown size ----------

  /**
   * The first bytes of an undamaged object of unknown size are read, with no
   * fault anywhere, and the handle is closed: that is reported as corruption if
   * and only if part of the object, but not all, was asked for and the hash
   * tells that part from the whole.
   */
  method UnknownSizeFalseAlarmWhen(data: Bytes, want: nat, sum: Bytes -> string, noSeek: bool, retries: nat) returns (p: Bytes, err: Err)
    ensures p == Slice(data, 0, want)
    ensures err == Nil || err == Corrupted
    ensures err == Corrupted <==> 0 < want < |data| && sum(data[..want]) != sum(data)
  {
    var r := new Reader(data, n => None, n => true, n => true, true);
    var h := new ReadHandle(r, sum, Some(sum(data)), noSeek, false, retries, -1);
    var readErr;
    p, readErr := h.ReadAt(want, 0);
    err := h.Close();
  }

  /** Reading one of two bytes and closing is reported as corruption, with any hash that tells the two apart. */
  method PartialReadFalseAlarm(sum: Bytes -> string) returns (p: Bytes, err: Err)
    ensures p == [1] && (sum([1]) != sum([1, 2]) ==> err == Corrupted)
  {
    var data: Bytes := [1, 2];
    assert data[..1] == [1];
    p, err := UnknownSizeFalseAlarmWhen(data, 1, sum, false, 10);
  }

  /** The first read of an object of unknown size fails: with retries left that is reported as the end of the file. */
  method FailingReadLooksLikeEnd(data: Bytes, want: nat, after: nat, noSeek: bool, retries: nat) returns (p: Bytes, err: Err)
    requires after < want && after <= |data|
    ensures err == (if retries > 0 then Eof else Failed) && (retries > 0 ==> p == [])
  {
    var r := new Reader(data, n => Some(Fault(after, false)), n => true, n => true, true);
    var h := new ReadHandle(r, bytes => "", None, noSeek, true, retries, -1);
    p, err := h.ReadAt(want, 0);
  }

  /** Without any fault, reading an object of unknown size anywhere but from its start finds its end there. */
  method SkippingLooksLikeEnd(data: Bytes, want: nat, off: nat, retries: nat) returns (p: Bytes, err: Err)
    requires off > 0
    ensures p == [] && err == Eof
  {
    var r := new Reader(data, n => None, n => true, n => true, true);
    var h := new ReadHandle(r, bytes => "", None, false, true, retries, -1);
    p, err := h.ReadAt(want, off);
  }

  // ---------- readers that end too early ----------

  /**
   * Every read of an object of known size ends at once as if at the end: that is
   * what the handle reports, and closing it finds nothing wrong.
   */
  method EarlyEndGoesUnnoticed(data: Bytes, want: nat, sum: Bytes -> string, retries: nat) returns (p: Bytes, err: Err, closeErr: Err)
    requires data != [] && want > 0
    ensures p == [] && err == Eof && closeErr == Nil
  {
    var r := new Reader(data, n => Some(Fault(0, true)), n => true, n => true, true);
    var h := new ReadHandle(r, sum, Some(sum(data)), false, false, retries, |data|);
    if retries > 0 {
      EndsAfterWhen(r.faults, r.opens, want, |data|, 1, 1, retries);
    }
    p, err := h.ReadAt(want, 0);
    closeErr := h.Close();
  }

  // ---------- readers without faults ----------

  /** A reader that never fails serves every read within an object of known size, whatever the handle did before. */
  lemma {:induction false} FaultlessIsServed(h: ReadHandle, want: nat, off: int)
    requires h.Valid() && 0 <= off < |h.r.data| && (h.noSeek ==> off == h.offset) && (h.isOpen ==> !h.r.broken)
    requires (forall n :: h.r.faults(n).None?) && forall n :: h.r.opens(n)
    ensures h.AnyServed(want, off)
  {
    ServedAfterWhen(h.r.faults, h.r.opens, want, |h.r.data| - off, h.r.served, h.r.positions, h.retries + 1);
    ServedAfterWhen(h.r.faults, h.r.opens, want, |h.r.data| - off, h.r.served, h.r.positions + 1, h.retries + 1);
    assert !Hits(h.r.faults(h.r.served), want, |h.r.data| - off);
  }

  /** A complete read without faults is judged by its hash when the handle is closed. */
  method WholeReadIsJudged(data: Bytes, want: nat, sum: Bytes -> string, stored: Option<string>, noSeek: bool, retries: nat, known: bool)
    returns (p: Bytes, err: Err)
    requires want > 0 && |data| <= want
    ensures p == data && (err == Corrupted <==> stored.Some? && sum(data) != stored.value) && (err == Nil || err == Corrupted)
  {
    var r := new Reader(data, n => None, n => true, n => true, true);
    var h := new ReadHandle(r, sum, stored, noSeek, false, retries, if known then |data| else -1);
    var readErr;
    p, readErr := h.ReadAt(want, 0);
    err := h.Close();
    assert data[..|data|] == data;
  }

  /** Such a read, of a new handle. */
  method FaultlessReadIsComplete(data: Bytes, want: nat, off: nat, skips: nat -> bool, retries: nat) returns (p: Bytes, err: Err)
    requires want > 0 && off < |data|
    ensures p == Slice(data, off, want) && err == if |p| == want then Nil else Eof
  {
    var r := new Reader(data, n => None, n => true, skips, true);
    var h := new ReadHandle(r, bytes => "", None, false, true, retries, |data|);
    FaultlessIsServed(h, want, off);
    p, err := h.ReadAt(want, off);
  }
}
