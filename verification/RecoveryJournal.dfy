/**
 * The write-ahead journal: one checksummed JSON row per line, the checksum
 * chained from row to row, an unterminated last line discarded on load.
 */
module RecoveryJournal {
  import opened Wrappers
  import opened RecoveryModel

  function Zeros(n: nat): (s: Hex)
    ensures IsHex(s, n)
  {
    if n == 0 then "" else Zeros(n - 1) + "0"
  }

  const ZERO_DIGEST: Hex := Zeros(64)

  function NextDigest(c: Codec, digest: Hex, event: Event): Hex {
    c.sha(c.ascii(digest) + c.encodeEvent(event))
  }

  /** The line `append` writes after a prefix whose running digest is given. */
  function Line(c: Codec, digest: Hex, event: Event): Bytes {
    c.encodeRow(Row(event, NextDigest(c, digest, event))) + [NEWLINE]
  }

  /** The running digest after the events. */
  function Chain(c: Codec, digest: Hex, events: seq<Event>): Hex {
    if events == [] then digest
    else NextDigest(c, Chain(c, digest, events[..|events| - 1]), events[|events| - 1])
  }

  /** The file that appending the events one by one produces. */
  function Encoded(c: Codec, events: seq<Event>): Bytes {
    if events == [] then []
    else
      var before := events[..|events| - 1];
      Encoded(c, before) + Line(c, Chain(c, ZERO_DIGEST, before), events[|events| - 1])
  }

  /** Where the line that starts at `start` ends: just after its newline, or at the end of the file. */
  function LineEnd(file: Bytes, start: nat): (end: nat)
    requires start < |file|
    ensures start < end <= |file|
    ensures NoNewline(file[start..end - 1])
    ensures file[end - 1] == NEWLINE || end == |file|
    decreases |file| - start
  {
    if file[start] == NEWLINE || start + 1 == |file| then start + 1
    else LineEnd(file, start + 1)
  }

  datatype Loaded = Corrupt
                  | Log(events: seq<Event>, digest: Hex, kept: nat)

  /** What reading on from `start` yields, given the events and the digest read so far. */
  function LoadFrom(c: Codec, file: Bytes, start: nat, events: seq<Event>, digest: Hex): (r: Loaded)
    requires start <= |file|
    ensures r.Log? ==> r.kept <= |file|
    decreases |file| - start
  {
    if start == |file| then Log(events, digest, start)
    else
      var end := LineEnd(file, start);
      if file[end - 1] != NEWLINE then Log(events, digest, start)
      else
        match c.parseRow(file[start..end])
        case None => Corrupt
        case Some(row) =>
          var next := NextDigest(c, digest, row.event);
          if row.sha256 != next then Corrupt
          else LoadFrom(c, file, end, events + [row.event], next)
  }

  function Load(c: Codec, file: Bytes): (r: Loaded)
    ensures r.Log? ==> r.kept <= |file|
  {
    LoadFrom(c, file, 0, [], ZERO_DIGEST)
  }

  /** A newline-free stretch ends where the first newline after it is. */
  lemma {:induction false} LineEndAt(file: Bytes, start: nat, end: nat)
    requires start < end <= |file|
    requires NoNewline(file[start..end - 1])
    requires file[end - 1] == NEWLINE || end == |file|
    ensures LineEnd(file, start) == end
    decreases end - start
  {
    if start + 1 < end {
      assert file[start..end - 1][0] == file[start];
      assert file[start + 1..end - 1] == file[start..end - 1][1..];
      LineEndAt(file, start + 1, end);
    }
  }

  /** One line with its newline. */
  predicate IsLine(b: Bytes) {
    b != [] && b[|b| - 1] == NEWLINE && NoNewline(b[..|b| - 1])
  }

  lemma {:induction false} LineIsRead(file: Bytes, start: nat, line: Bytes)
    requires IsLine(line) && start + |line| <= |file| && file[start..start + |line|] == line
    ensures start < |file| && LineEnd(file, start) == start + |line| && file[start + |line| - 1] == NEWLINE
  {
    assert file[start..start + |line| - 1] == line[..|line| - 1];
    assert file[start + |line| - 1] == line[|line| - 1];
    LineEndAt(file, start, start + |line|);
  }

  /** Reading the file gets to `start` with these events and this digest. */
  ghost predicate ReadsTo(c: Codec, file: Bytes, start: nat, events: seq<Event>, digest: Hex) {
    start <= |file| && Load(c, file) == LoadFrom(c, file, start, events, digest)
  }

  /** One complete row in front of the cursor is accepted and the rest is read on from there. */
  lemma {:induction false} RowIsRead(c: Codec, file: Bytes, start: nat, events: seq<Event>, digest: Hex, line: Bytes, e: Event)
    requires IsLine(line) && start + |line| <= |file| && file[start..start + |line|] == line
    requires c.parseRow(line) == Some(Row(e, NextDigest(c, digest, e)))
    ensures LoadFrom(c, file, start, events, digest) == LoadFrom(c, file, start + |line|, events + [e], NextDigest(c, digest, e))
  {
    LineIsRead(file, start, line);
  }

  function Concat(lines: seq<Bytes>): Bytes {
    if lines == [] then [] else Concat(lines[..|lines| - 1]) + lines[|lines| - 1]
  }

  /** Line k is a row with event k and the digest chained through the events up to it. */
  ghost predicate RowsOf(c: Codec, lines: seq<Bytes>, events: seq<Event>) {
    && |lines| == |events|
    && forall k {:trigger lines[k]} :: 0 <= k < |lines| ==> RowAt(c, lines[k], events, k)
  }

  ghost predicate RowAt(c: Codec, line: Bytes, events: seq<Event>, k: nat)
    requires k < |events|
  {
    IsLine(line) && c.parseRow(line) == Some(Row(events[k], Chain(c, ZERO_DIGEST, events[..k + 1])))
  }

  lemma {:induction false} RowsLess(c: Codec, lines: seq<Bytes>, events: seq<Event>)
    requires RowsOf(c, lines, events) && lines != []
    ensures RowsOf(c, lines[..|lines| - 1], events[..|events| - 1])
    ensures var n := |lines| - 1;
            IsLine(lines[n]) && c.parseRow(lines[n]) == Some(Row(events[n], NextDigest(c, Chain(c, ZERO_DIGEST, events[..n]), events[n])))
  {
    var n := |lines| - 1;
    forall k | 0 <= k < n
      ensures RowAt(c, lines[..n][k], events[..n], k)
    {
      assert RowAt(c, lines[k], events, k);
      assert events[..n][..k + 1] == events[..k + 1];
    }
    assert RowAt(c, lines[n], events, n);
    assert events[..n + 1] == events;
  }

  lemma {:induction false} RowsMore(c: Codec, lines: seq<Bytes>, events: seq<Event>, line: Bytes, e: Event)
    requires RowsOf(c, lines, events) && IsLine(line) && c.parseRow(line) == Some(Row(e, NextDigest(c, Chain(c, ZERO_DIGEST, events), e)))
    ensures RowsOf(c, lines + [line], events + [e]) && Concat(lines + [line]) == Concat(lines) + line
    ensures Chain(c, ZERO_DIGEST, events + [e]) == NextDigest(c, Chain(c, ZERO_DIGEST, events), e)
  {
    var ls, es := lines + [line], events + [e];
    assert ls[..|lines|] == lines && es[..|events|] == events;
    forall k | 0 <= k < |ls|
      ensures RowAt(c, ls[k], es, k)
    {
      if k < |lines| {
        assert RowAt(c, lines[k], events, k);
        assert es[..k + 1] == events[..k + 1];
      } else {
        assert es[..k + 1] == es;
      }
    }
  }

  lemma {:induction false} Snoc<T>(s: seq<T>)
    requires s != []
    ensures s[..|s| - 1] + [s[|s| - 1]] == s
  {
  }

  /** A file that begins with rows is read up to their end. */
  lemma {:induction false} RowsAreRead(c: Codec, lines: seq<Bytes>, events: seq<Event>, file: Bytes)
    requires RowsOf(c, lines, events) && Concat(lines) <= file
    ensures ReadsTo(c, file, |Concat(lines)|, events, Chain(c, ZERO_DIGEST, events))
  {
    if lines != [] {
      var n := |lines| - 1;
      PrefixParts(Concat(lines[..n]), lines[n], file);
      RowsLess(c, lines, events);
      RowsAreRead(c, lines[..n], events[..n], file);
      RowIsRead(c, file, |Concat(lines[..n])|, events[..n], Chain(c, ZERO_DIGEST, events[..n]), lines[n], events[n]);
      Snoc(events);
    }
  }

  /** What appending produces is such rows. */
  lemma {:induction false} EncodedIsRows(c: Codec, events: seq<Event>) returns (lines: seq<Bytes>)
    requires Sound(c)
    ensures RowsOf(c, lines, events) && Concat(lines) == Encoded(c, events)
  {
    lines := [];
    if events != [] {
      var before, e := events[..|events| - 1], events[|events| - 1];
      var line := Line(c, Chain(c, ZERO_DIGEST, before), e);
      lines := EncodedIsRows(c, before);
      assert line[..|line| - 1] == c.encodeRow(Row(e, NextDigest(c, Chain(c, ZERO_DIGEST, before), e)));
      RowsMore(c, lines, before, line, e);
      Snoc(events);
      lines := lines + [line];
    }
  }

  /** Reading stops in front of an unterminated line. */
  lemma {:induction false} LoadStops(c: Codec, file: Bytes, start: nat, events: seq<Event>, digest: Hex)
    requires start <= |file| && NoNewline(file[start..])
    ensures LoadFrom(c, file, start, events, digest) == Log(events, digest, start)
  {
    if start < |file| {
      assert file[start..][|file| - 1 - start] == file[|file| - 1];
      assert file[start..|file| - 1] == file[start..][..|file| - 1 - start];
      LineEndAt(file, start, |file|);
    }
  }

  /** A journal with an unterminated tail loads to its complete rows; exactly the tail is cut off. */
  lemma {:induction false} LoadTorn(c: Codec, events: seq<Event>, tail: Bytes)
    requires Sound(c) && NoNewline(tail)
    ensures Load(c, Encoded(c, events) + tail)
         == Log(events, Chain(c, ZERO_DIGEST, events), |Encoded(c, events)|)
  {
    var rows := Encoded(c, events);
    var file := rows + tail;
    var lines := EncodedIsRows(c, events);
    RowsAreRead(c, lines, events, file);
    assert file[|rows|..] == tail;
    LoadStops(c, file, |rows|, events, Chain(c, ZERO_DIGEST, events));
  }

  // ---------- exactly which files load ----------

  lemma {:induction false} CutLine(file: Bytes, start: nat, end: nat)
    requires start < end <= |file| && NoNewline(file[start..end - 1])
    ensures file[end - 1] == NEWLINE ==> IsLine(file[start..end]) && file[..end] == file[..start] + file[start..end]
    ensures file[end - 1] != NEWLINE && end == |file| ==> NoNewline(file[start..])
  {
    var line := file[start..end];
    assert line[..|line| - 1] == file[start..end - 1] && line[|line| - 1] == file[end - 1];
    assert end == |file| ==> file[start..] == file[start..end - 1] + [file[end - 1]];
  }

  /** The file up to `start` is rows with these events. */
  ghost predicate HasRead(c: Codec, file: Bytes, start: nat, lines: seq<Bytes>, events: seq<Event>) {
    start <= |file| && file[..start] == Concat(lines) && RowsOf(c, lines, events)
  }

  lemma {:induction false} AcceptedRow(c: Codec, file: Bytes, start: nat, events: seq<Event>, digest: Hex) returns (end: nat, e: Event)
    requires start < |file| && file[LineEnd(file, start) - 1] == NEWLINE && LoadFrom(c, file, start, events, digest).Log?
    ensures end == LineEnd(file, start) && c.parseRow(file[start..end]) == Some(Row(e, NextDigest(c, digest, e)))
    ensures LoadFrom(c, file, start, events, digest) == LoadFrom(c, file, end, events + [e], NextDigest(c, digest, e))
  {
    end := LineEnd(file, start);
    e := c.parseRow(file[start..end]).value.event;
  }

  /** A complete line that is accepted is one more row. */
  lemma {:induction false} ReadsRow(c: Codec, file: Bytes, start: nat, lines: seq<Bytes>, events: seq<Event>) returns (end: nat, line: Bytes, e: Event)
    requires HasRead(c, file, start, lines, events) && start < |file| && file[LineEnd(file, start) - 1] == NEWLINE
    requires LoadFrom(c, file, start, events, Chain(c, ZERO_DIGEST, events)).Log?
    ensures start < end && HasRead(c, file, end, lines + [line], events + [e])
    ensures LoadFrom(c, file, start, events, Chain(c, ZERO_DIGEST, events)) == LoadFrom(c, file, end, events + [e], Chain(c, ZERO_DIGEST, events + [e]))
  {
    end, e := AcceptedRow(c, file, start, events, Chain(c, ZERO_DIGEST, events));
    CutLine(file, start, end);
    line := file[start..end];
    RowsMore(c, lines, events, line, e);
  }

  /** Whatever loads is rows and an unterminated tail. */
  lemma {:induction false} LoadedIsRows(c: Codec, file: Bytes, start: nat, lines: seq<Bytes>, events: seq<Event>, loaded: Loaded) returns (all: seq<Bytes>)
    requires HasRead(c, file, start, lines, events)
    requires loaded == LoadFrom(c, file, start, events, Chain(c, ZERO_DIGEST, events)) && loaded.Log?
    ensures HasRead(c, file, loaded.kept, all, loaded.events) && loaded.digest == Chain(c, ZERO_DIGEST, loaded.events) && NoNewline(file[loaded.kept..])
    decreases |file| - start
  {
    all := lines;
    if start < |file| {
      if file[LineEnd(file, start) - 1] == NEWLINE {
        var end, line, e := ReadsRow(c, file, start, lines, events);
        all := LoadedIsRows(c, file, end, lines + [line], events + [e], loaded);
      } else {
        CutLine(file, start, LineEnd(file, start));
      }
    }
  }

  /**
   * A journal loads if and only if it is rows, one event each with the digest
   * chained up to it, and an unterminated tail; then the events are those, the
   * digest is that of the last row, and the tail is what is cut off.
   */
  lemma {:induction false} LoadedWhen(c: Codec, file: Bytes, events: seq<Event>, kept: nat)
    ensures Load(c, file) == Log(events, Chain(c, ZERO_DIGEST, events), kept)
       <==> kept <= |file| && NoNewline(file[kept..]) && exists lines :: RowsOf(c, lines, events) && Concat(lines) == file[..kept]
    ensures Load(c, file).Log? ==> Load(c, file).digest == Chain(c, ZERO_DIGEST, Load(c, file).events)
  {
    if Load(c, file).Log? {
      var all := LoadedIsRows(c, file, 0, [], [], Load(c, file));
    }
    if kept <= |file| && NoNewline(file[kept..]) {
      forall lines | RowsOf(c, lines, events) && Concat(lines) == file[..kept]
        ensures Load(c, file) == Log(events, Chain(c, ZERO_DIGEST, events), kept)
      {
        RowsAreRead(c, lines, events, file);
        LoadStops(c, file, kept, events, Chain(c, ZERO_DIGEST, events));
      }
    }
  }

  lemma {:induction false} EncodedAppend(c: Codec, events: seq<Event>, e: Event)
    ensures Encoded(c, events + [e])
         == Encoded(c, events) + Line(c, Chain(c, ZERO_DIGEST, events), e)
    ensures Chain(c, ZERO_DIGEST, events + [e]) == NextDigest(c, Chain(c, ZERO_DIGEST, events), e)
  {
    assert (events + [e])[..|events|] == events;
  }

  /**
   * Crash atomicity of `append`: however many bytes of the new line reached
   * the disk, the journal loads to the old events or to the old events and the
   * new one, never to anything else, and is never rejected.
   */
  lemma {:induction false} TornAppendIsAtomic(c: Codec, events: seq<Event>, e: Event, k: nat)
    requires Sound(c)
    requires k <= |Line(c, Chain(c, ZERO_DIGEST, events), e)|
    ensures
      var line := Line(c, Chain(c, ZERO_DIGEST, events), e);
      var loaded := if k < |line| then events else events + [e];
      Load(c, Encoded(c, events) + line[..k])
      == Log(loaded, Chain(c, ZERO_DIGEST, loaded), |Encoded(c, loaded)|)
  {
    var line := Line(c, Chain(c, ZERO_DIGEST, events), e);
    if k < |line| {
      assert line[..k] == line[..|line| - 1][..k];
      LoadTorn(c, events, line[..k]);
    } else {
      EncodedAppend(c, events, e);
      LoadTorn(c, events + [e], []);
      assert Encoded(c, events) + line[..k] == Encoded(c, events + [e]) + [];
    }
  }

  /** The strings hashed along a chain. */
  function Hashed(c: Codec, digest: Hex, events: seq<Event>): set<Bytes> {
    if events == [] then {}
    else
      var before := events[..|events| - 1];
      Hashed(c, digest, before) + {c.ascii(Chain(c, digest, before)) + c.encodeEvent(events[|events| - 1])}
  }

  ghost predicate CollisionFree(c: Codec, play: set<Bytes>) {
    forall x, y :: x in play && y in play && c.sha(x) == c.sha(y) ==> x == y
  }

  /** Digests print as 64 bytes, distinct ones differently, and distinct events are encoded differently. */
  ghost predicate FixedWidth(c: Codec) {
    && (forall h: Hex :: IsHex(h, 64) ==> |c.ascii(h)| == 64)
    && (forall g: Hex, h: Hex :: IsHex(g, 64) && IsHex(h, 64) && c.ascii(g) == c.ascii(h) ==> g == h)
    && (forall d: Event, e: Event :: c.encodeEvent(d) == c.encodeEvent(e) ==> d == e)
  }

  /** One byte per hex digit, as the tool prints digests. */
  function AsciiOf(h: Hex): (b: Bytes)
    ensures |b| == |h| && forall i :: 0 <= i < |h| && IsHexDigit(h[i]) ==> b[i] as int == h[i] as int
  {
    seq(|h|, i requires 0 <= i < |h| => if IsHexDigit(h[i]) then h[i] as bv8 else 0)
  }

  /** Printing digests in ASCII has that width and keeps them apart, so every sound codec gives one of fixed width. */
  lemma {:induction false} AsciiIsFixedWidth(c: Codec)
    requires Sound(c) && forall d: Event, e: Event :: c.encodeEvent(d) == c.encodeEvent(e) ==> d == e
    ensures Sound(c.(ascii := AsciiOf)) && FixedWidth(c.(ascii := AsciiOf))
  {
    forall g: Hex, h: Hex | IsHex(g, 64) && IsHex(h, 64) && AsciiOf(g) == AsciiOf(h)
      ensures g == h
    {
      forall i | 0 <= i < 64
        ensures g[i] == h[i]
      {
        assert AsciiOf(g)[i] as int == g[i] as int && AsciiOf(h)[i] as int == h[i] as int;
      }
    }
  }

  lemma {:induction false} ChainWidth(c: Codec, events: seq<Event>)
    requires Sound(c)
    ensures IsHex(Chain(c, ZERO_DIGEST, events), 64)
  {
  }

  lemma {:induction false} SameParts(a: Bytes, b: Bytes, c: Bytes, d: Bytes)
    requires a + b == c + d && |a| == |c|
    ensures a == c && b == d
  {
    assert a == (a + b)[..|a|] && c == (c + d)[..|a|];
    assert b == (a + b)[|a|..] && d == (c + d)[|a|..];
  }

  lemma {:induction false} SameStep(c: Codec, g: Hex, d: Event, h: Hex, e: Event)
    requires FixedWidth(c) && IsHex(g, 64) && IsHex(h, 64) && NextDigest(c, g, d) == NextDigest(c, h, e)
    requires CollisionFree(c, {c.ascii(g) + c.encodeEvent(d), c.ascii(h) + c.encodeEvent(e)})
    ensures g == h && d == e
  {
    SameParts(c.ascii(g), c.encodeEvent(d), c.ascii(h), c.encodeEvent(e));
  }

  lemma {:induction false} SameEnds<T>(a: seq<T>, b: seq<T>)
    requires |a| == |b| > 0 && a[..|a| - 1] == b[..|a| - 1] && a[|a| - 1] == b[|a| - 1]
    ensures a == b
  {
    assert a == a[..|a| - 1] + [a[|a| - 1]] && b == b[..|a| - 1] + [b[|a| - 1]];
  }

  /**
   * The last checksum pins down the whole log: two logs of one length whose
   * chains end in the same digest are the same log, unless the hash collided on
   * a string one of them hashed.
   */
  lemma {:induction false} ChainDeterminesLog(c: Codec, a: seq<Event>, b: seq<Event>)
    requires Sound(c) && FixedWidth(c)
    requires |a| == |b|
    requires CollisionFree(c, Hashed(c, ZERO_DIGEST, a) + Hashed(c, ZERO_DIGEST, b))
    requires Chain(c, ZERO_DIGEST, a) == Chain(c, ZERO_DIGEST, b)
    ensures a == b
  {
    if a != [] {
      var a', b' := a[..|a| - 1], b[..|b| - 1];
      ChainWidth(c, a');
      ChainWidth(c, b');
      SameStep(c, Chain(c, ZERO_DIGEST, a'), a[|a| - 1], Chain(c, ZERO_DIGEST, b'), b[|b| - 1]);
      ChainDeterminesLog(c, a', b');
      SameEnds(a, b);
    }
  }

  /** The open journal: the file, the events read from it and the running digest. */
  class Journal {
    const codec: Codec
    var file: Bytes
    var events: seq<Event>
    var digest: Hex

    ghost predicate Valid()
      reads this
    {
      file == Encoded(codec, events) && digest == Chain(codec, ZERO_DIGEST, events)
    }

    /** Opening binds the object to the file; nothing is read yet. */
    constructor (codec: Codec, file: Bytes)
      ensures this.codec == codec && this.file == file && events == [] && digest == ZERO_DIGEST
    {
      this.codec, this.file := codec, file;
      events, digest := [], ZERO_DIGEST;
    }

    /** `__enter__`: read line by line, cut a torn tail off, refuse any other damage. */
    method Enter() returns (ok: bool)
      requires events == [] && digest == ZERO_DIGEST
      modifies this
      ensures ok == Load(codec, old(file)).Log?
      ensures ok ==> (
        var log := Load(codec, old(file));
        events == log.events && digest == log.digest && file == old(file)[..log.kept])
      ensures !ok ==> file == old(file)
    {
      var start := 0;
      while start < |file|
        invariant start <= |file| && file == old(file)
        invariant LoadFrom(codec, file, start, events, digest) == Load(codec, file)
        decreases |file| - start
      {
        var end := LineEnd(file, start);
        if file[end - 1] != NEWLINE {
          file := file[..start];
          return true;
        }
        match codec.parseRow(file[start..end]) {
          case None =>
            return false;
          case Some(row) =>
            var next := NextDigest(codec, digest, row.event);
            if row.sha256 != next {
              return false;
            }
            events, digest, start := events + [row.event], next, end;
        }
      }
      return true;
    }

    /** Entering whatever a crash left of a journal restores validity with the complete rows. */
    method Reopen(ghost complete: seq<Event>, ghost tail: Bytes) returns (ok: bool)
      requires Sound(codec) && NoNewline(tail)
      requires events == [] && digest == ZERO_DIGEST
      requires file == Encoded(codec, complete) + tail
      modifies this
      ensures ok && Valid() && events == complete
    {
      LoadTorn(codec, complete, tail);
      ok := Enter();
      assert file == Encoded(codec, complete);
    }

    /** `append`: the row reaches the file before the in-memory state moves on. */
    method Append(event: Event)
      requires Valid()
      modifies this
      ensures Valid() && events == old(events) + [event]
      ensures file == old(file) + Line(codec, old(digest), event)
    {
      EncodedAppend(codec, events, event);
      var next := NextDigest(codec, digest, event);
      file := file + codec.encodeRow(Row(event, next)) + [NEWLINE];
      digest := next;
      events := events + [event];
    }
  }
}
