/**
 * Byte ranges in the sense of section 2.1 of RFC 7233: as options, as headers,
 * and normalised to absolute ranges for an object of known size.
 */
module RangeOptions {
  import opened Wrappers
  import opened Decimal
  import opened Text

  const MAX: int := 0x7FFF_FFFF_FFFF_FFFF
  const MIN: int := -0x8000_0000_0000_0000

  /** Go's int64. */
  type int64 = x: int | MIN <= x <= MAX

  /** What int64 arithmetic makes of a mathematical result that is off by less than one turn. */
  function Wrap(x: int): int64
    requires 2 * MIN <= x <= 2 * MAX + 1
  {
    if x > MAX then x - 2 * (MAX + 1) else if x < MIN then x + 2 * (MAX + 1) else x
  }

  datatype OpenOption =
    | RangeOption(start: int64, end: int64)  // the end is inclusive; negative means not given
    | SeekOption(offset: int64)
    | NullOption
    | OtherOption(name: string)

  function MaxOf(a: int64, b: int64): int64 {
    if a < b then b else a
  }

  /** Decode: where to start and how much to read, -1 for all. */
  function Decode(start: int64, end: int64, size: int64): (int64, int64) {
    if start >= 0 then
      (start, if end >= 0 then Wrap(Wrap(end - start) + 1) else -1)
    else
      (if end >= 0 then MaxOf(Wrap(size - end), 0) else 0, -1)
  }

  /** Whether byte i is read. */
  predicate Selects(o: OpenOption, size: int64, i: int64) {
    match o
    case RangeOption(start, end) =>
      var (offset, limit) := Decode(start, end, size);
      offset <= i && (limit < 0 || i < offset + limit)
    case SeekOption(offset) => offset <= i
    case _ => true
  }

  /** What FixRangeOption makes of one option, for a size that is not negative. */
  function Fixed(o: OpenOption, size: int64): OpenOption
    requires size >= 0
  {
    if size == 0 then (if o.RangeOption? then NullOption else o)
    else
      match o
      case RangeOption(start, end) =>
        var x := if start < 0 then RangeOption(MaxOf(Wrap(size - end), 0), -1) else o;
        if x.end > size || x.end < 0 then RangeOption(x.start, size - 1) else x
      case SeekOption(offset) => RangeOption(offset, size - 1)
      case _ => o
  }

  /** Both options read the same bytes of an object of that size. */
  ghost predicate SameBytes(o: OpenOption, o': OpenOption, size: int64) {
    forall i: int64 {:trigger Selects(o, size, i)} :: 0 <= i < size ==> (Selects(o, size, i) <==> Selects(o', size, i))
  }

  // ---------- normalising ----------

  /**
   * A range with at least one bound keeps its bytes, whatever the bounds.  One
   * without bounds reads everything before and nothing after, unless the
   * subtraction of its end wraps around.
   */
  lemma {:induction false} FixedRangeSameWhen(start: int64, end: int64, size: int64)
    requires size > 0
    ensures SameBytes(RangeOption(start, end), Fixed(RangeOption(start, end), size), size)
       <==> !(start < 0 && end < 0 && size - end <= MAX)
  {
    var o, o' := RangeOption(start, end), Fixed(RangeOption(start, end), size);
    if start < 0 && end < 0 && size - end <= MAX {
      assert Selects(o, size, 0) && !Selects(o', size, 0);
    } else {
      forall i: int64 | 0 <= i < size
        ensures Selects(o, size, i) <==> Selects(o', size, i)
      {
      }
    }
  }

  /** Fetching with neither bound given is fetching everything, but not after normalising. */
  lemma {:induction false} UnboundedRangeLosesAll()
    ensures !SameBytes(RangeOption(-1, -1), Fixed(RangeOption(-1, -1), 10), 10)
  {
    FixedRangeSameWhen(-1, -1, 10);
  }

  /** A seek keeps its bytes exactly when its offset is not negative. */
  lemma {:induction false} FixedSeekSameWhen(offset: int64, size: int64)
    requires size > 0
    ensures SameBytes(SeekOption(offset), Fixed(SeekOption(offset), size), size) <==> offset >= 0
  {
    var o, o' := SeekOption(offset), Fixed(SeekOption(offset), size);
    if offset < 0 {
      assert Selects(o, size, 0) && !Selects(o', size, 0);
    } else {
      forall i: int64 | 0 <= i < size
        ensures Selects(o, size, i) <==> Selects(o', size, i)
      {
      }
    }
  }

  /** The bytes a range with start and end in order asks for are exactly those between them. */
  lemma {:induction false} RangeIsInclusive(start: int64, end: int64, size: int64, i: int64)
    requires 0 <= start <= end && 0 <= i < size
    ensures Selects(RangeOption(start, end), size, i) <==> start <= i <= end
  {
  }

  /** A suffix range asks for the last bytes, or all if there are fewer. */
  lemma {:induction false} SuffixIsLast(start: int64, end: int64, size: int64, i: int64)
    requires start < 0 <= end && 0 <= i < size
    ensures Selects(RangeOption(start, end), size, i) <==> size - i <= end
  {
  }

  /** A normalised range counts from the start and ends at most one past the last byte. */
  lemma {:induction false} FixedIsAbsolute(start: int64, end: int64, size: int64)
    requires size > 0
    ensures var o := Fixed(RangeOption(start, end), size);
            o.RangeOption? && o.start >= 0 && 0 <= o.end <= size && (o.end == size <==> start >= 0 && end == size)
  {
  }

  /** Normalising again changes nothing. */
  lemma {:induction false} FixedTwice(o: OpenOption, size: int64)
    requires size >= 0 && (o.SeekOption? ==> o.offset >= 0)
    ensures Fixed(Fixed(o, size), size) == Fixed(o, size)
  {
  }

  function FixedAll(options: seq<OpenOption>, size: int64): (r: seq<OpenOption>)
    ensures |r| == |options|
    ensures forall k :: 0 <= k < |options| ==> r[k] == if size < 0 then options[k] else Fixed(options[k], size)
  {
    if options == [] then [] else [if size < 0 then options[0] else Fixed(options[0], size)] + FixedAll(options[1..], size)
  }

  /** FixRangeOption, in place: no ranges are left of an empty object, and options that are neither ranges nor seeks stay. */
  method FixRangeOption(options: array<OpenOption>, size: int64)
    modifies options
    ensures options[..] == FixedAll(old(options[..]), size)
    ensures size == 0 ==> forall k :: 0 <= k < options.Length ==> !options[k].RangeOption?
    ensures forall k :: 0 <= k < options.Length && !old(options[k].RangeOption?) && (size <= 0 || !old(options[k].SeekOption?)) ==> options[k] == old(options[k])
  {
    if size < 0 {
      return;
    } else if size == 0 {
      for i := 0 to options.Length
        invariant forall k :: 0 <= k < i ==> options[k] == Fixed(old(options[k]), size)
        invariant forall k :: i <= k < options.Length ==> options[k] == old(options[k])
      {
        if options[i].RangeOption? {
          options[i] := NullOption;
        }
      }
      return;
    }
    for i := 0 to options.Length
      invariant forall k :: 0 <= k < i ==> options[k] == Fixed(old(options[k]), size)
      invariant forall k :: i <= k < options.Length ==> options[k] == old(options[k])
    {
      match options[i] {
        case RangeOption(start, end) =>
          var x := options[i];
          if x.start < 0 {
            x := RangeOption(MaxOf(Wrap(size - x.end), 0), -1);
            options[i] := x;
          }
          if x.end > size || x.end < 0 {
            x := RangeOption(x.start, size - 1);
            options[i] := x;
          }
        case SeekOption(offset) =>
          options[i] := RangeOption(offset, size - 1);
        case _ =>
      }
    }
  }

  // ---------- headers ----------

  datatype ParseError = NoPreamble | MultipleRanges | NoDash | BadStart | BadEnd

  const PREAMBLE: string := "bytes="

  /** A bound as printed: nothing if negative. */
  function Bound(x: int64): string {
    if x >= 0 then Format(x) else ""
  }

  /** The value of the Range header. */
  function Header(start: int64, end: int64): string {
    PREAMBLE + (Bound(start) + "-" + Bound(end))
  }

  /** strconv.ParseInt in base 10 for 64 bits. */
  function ParseInt(s: string): Option<int64> {
    var digits := if s != "" && (s[0] == '+' || s[0] == '-') then s[1..] else s;
    if digits == "" || !AllDigits(digits) then None
    else
      var n: int := Value(digits);
      var v := if s[0] == '-' then -n else n;
      if MIN <= v <= MAX then Some(v) else None
  }

  /** A bound of the range: absent, a number, or bad. */
  function ParseBound(s: string): Option<int64> {
    if s == "" then Some(-1)
    else
      var v := ParseInt(s);
      if v.Some? && v.value >= 0 then v else None
  }

  /** ParseRangeOption. */
  function Parse(header: string): Result<OpenOption, ParseError> {
    if !(PREAMBLE <= header) then Err(NoPreamble) else ParseSpec(header[|PREAMBLE|..])
  }

  function ParseSpec(s: string): Result<OpenOption, ParseError> {
    if ',' in s then Err(MultipleRanges)
    else
      var dash := IndexOf(s, '-');
      if dash == |s| then Err(NoDash)
      else
        var start, end := ParseBound(TrimSpace(s[..dash])), ParseBound(TrimSpace(s[dash + 1..]));
        if start.None? then Err(BadStart)
        else if end.None? then Err(BadEnd)
        else Ok(RangeOption(start.value, end.value))
  }

  lemma {:induction false} DigitsAreNotTrimmed(s: string)
    requires AllDigits(s)
    ensures TrimSpace(s) == s && ',' !in s && '-' !in s
  {
  }

  /** A bound is read back as printed; one that is not printed is read as -1. */
  lemma {:induction false} BoundRoundTrip(x: int64)
    ensures AllDigits(Bound(x)) && ParseBound(Bound(x)) == Some(if x >= 0 then x else -1)
  {
    if x >= 0 {
      ValueOfFormat(x);
      assert IsDigit(Format(x)[0]);
    }
  }

  lemma {:induction false} SpecPieces(a: string, b: string)
    requires AllDigits(a) && AllDigits(b)
    ensures ',' !in a + "-" + b && IndexOf(a + "-" + b, '-') == |a|
    ensures (a + "-" + b)[..|a|] == a && (a + "-" + b)[|a| + 1..] == b
  {
    DigitsAreNotTrimmed(a);
    DigitsAreNotTrimmed(b);
    IndexAfter(a, '-', b);
  }

  lemma {:induction false} Unprefixed(pre: string, s: string)
    ensures pre <= pre + s && (pre + s)[|pre|..] == s
  {
  }

  /** Reading a printed header gives the range back. */
  lemma {:induction false} HeaderRoundTrip(start: int64, end: int64)
    ensures Parse(Header(start, end)) == Ok(RangeOption(if start >= 0 then start else -1, if end >= 0 then end else -1))
  {
    var a, b := Bound(start), Bound(end);
    BoundRoundTrip(start);
    BoundRoundTrip(end);
    DigitsAreNotTrimmed(a);
    DigitsAreNotTrimmed(b);
    SpecPieces(a, b);
    Unprefixed(PREAMBLE, a + "-" + b);
  }

  /** A bound is nothing, or digits for at most the largest int64, with a sign or without, a minus only before zero. */
  lemma {:induction false} BoundAcceptedWhen(s: string)
    ensures ParseBound(s).Some? <==>
              || s == ""
              || exists d :: d != "" && AllDigits(d) && Value(d) <= MAX && (s == d || s == "+" + d || (s == "-" + d && Value(d) == 0))
  {
    if s != "" {
      if s[0] == '+' || s[0] == '-' {
        assert s == [s[0]] + s[1..];
      }
      forall d | d != "" && AllDigits(d) && Value(d) <= MAX && (s == d || s == "+" + d || (s == "-" + d && Value(d) == 0))
        ensures ParseBound(s).Some?
      {
        assert IsDigit(d[0]);
        assert s != d ==> s[1..] == d;
      }
    }
  }

  /** The header is the preamble and one range of two bounds, with space around them or without. */
  predicate Ranges(header: string, a: string, b: string) {
    && header == PREAMBLE + (a + "-" + b) && ',' !in a && '-' !in a && ',' !in b
    && ParseBound(TrimSpace(a)).Some? && ParseBound(TrimSpace(b)).Some?
  }

  lemma {:induction false} AcceptedRanges(header: string) returns (a: string, b: string)
    requires Parse(header).Ok?
    ensures Ranges(header, a, b)
  {
    var s := header[|PREAMBLE|..];
    var dash := IndexOf(s, '-');
    a, b := s[..dash], s[dash + 1..];
    assert header == PREAMBLE + s && s == a + "-" + b;
  }

  lemma {:induction false} RangesAccepted(header: string, a: string, b: string)
    requires Ranges(header, a, b)
    ensures Parse(header) == Ok(RangeOption(ParseBound(TrimSpace(a)).value, ParseBound(TrimSpace(b)).value))
  {
    Unprefixed(PREAMBLE, a + "-" + b);
    IndexAfter(a, '-', b);
    assert (a + "-" + b)[..|a|] == a && (a + "-" + b)[|a| + 1..] == b;
  }

  /** A header is accepted if and only if it is one range, and then it means that. */
  lemma {:induction false} AcceptedWhen(header: string)
    ensures Parse(header).Ok? <==> exists a, b :: Ranges(header, a, b)
    ensures forall a, b :: Ranges(header, a, b) ==> Parse(header) == Ok(RangeOption(ParseBound(TrimSpace(a)).value, ParseBound(TrimSpace(b)).value))
  {
    if Parse(header).Ok? {
      var a, b := AcceptedRanges(header);
    }
    forall a, b | Ranges(header, a, b)
      ensures Parse(header) == Ok(RangeOption(ParseBound(TrimSpace(a)).value, ParseBound(TrimSpace(b)).value))
    {
      RangesAccepted(header, a, b);
    }
  }

  /** More than one range is refused as such. */
  lemma {:induction false} CommaIsRefused(header: string)
    requires PREAMBLE <= header && ',' in header
    ensures Parse(header) == Err(MultipleRanges)
  {
    assert header == PREAMBLE + header[|PREAMBLE|..];
  }

  /** Whatever header is accepted, the range is one that prints and reads back the same. */
  lemma {:induction false} AcceptedIsNormal(header: string)
    requires Parse(header).Ok?
    ensures var o := Parse(header).value;
            o.RangeOption? && o.start >= -1 && o.end >= -1 && Parse(Header(o.start, o.end)) == Ok(o)
  {
    var o := Parse(header).value;
    HeaderRoundTrip(o.start, o.end);
  }
}
