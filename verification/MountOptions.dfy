/**
 * The -o argument of the mount helper: comma separated options, bare or with a
 * value that may be quoted, a quote inside being doubled.
 */
module MountOptions {
  import opened Wrappers
  import opened Text

  datatype Error = BadOption | OptionName | EmptyOption | QuotedValue | AfterQuote | Syntax

  type Parsed = Result<seq<string>, Error>

  /** helperValidOptChars. */
  predicate ValidChar(c: char) {
    c == '-' || c == '_' || '0' <= c <= '9' || 'a' <= c <= 'z' || 'A' <= c <= 'Z'
  }

  predicate IsQuote(c: char) {
    c == '\'' || c == '"'
  }

  const ENV: string := "env"
  const SYSTEMD: string := "x-systemd"

  /** c may follow the part of a name read so far. */
  predicate MayFollow(name: string, c: char) {
    if c == '.' then name == ENV || name == SYSTEMD else ValidChar(c)
  }

  /** strings.ReplaceAll of a doubled quote by a single one. */
  function Halve(s: string, q: char): string {
    if |s| >= 2 && s[0] == q && s[1] == q then [q] + Halve(s[2..], q)
    else if s == "" then ""
    else [s[0]] + Halve(s[1..], q)
  }

  function Prepend(opts: seq<string>, r: Parsed): Parsed {
    if r.Ok? then Ok(opts + r.value) else r
  }

  // ---------- the grammar, one character at a time; the text ends with a comma ----------

  /** In an option name, of which `name` has been read. */
  function InName(name: string, rest: string): Parsed
    decreases |rest|
  {
    if rest == "" then (if name == "" then Ok([]) else Err(Syntax))
    else if rest[0] == ',' || rest[0] == '=' then
      if name == "" then Err(EmptyOption)
      else if name[0] == '-' then Err(OptionName)
      else if rest[0] == '=' then InValue(name, "", rest[1..])
      else Prepend([name], InName("", rest[1..]))
    else if MayFollow(name, rest[0]) then InName(name + [rest[0]], rest[1..])
    else Err(BadOption)
  }

  /** In a value; a quote counts only as its first character. */
  function InValue(name: string, value: string, rest: string): Parsed
    decreases |rest|
  {
    if rest == "" then Err(Syntax)
    else if rest[0] == ',' then Prepend([name + "=" + value], InName("", rest[1..]))
    else if IsQuote(rest[0]) && value == "" then InQuotes(name, rest[0], "", rest[1..])
    else InValue(name, value + [rest[0]], rest[1..])
  }

  /** Between quotes, with the raw text so far. */
  function InQuotes(name: string, q: char, raw: string, rest: string): Parsed
    decreases |rest|
  {
    if rest == "" then Err(QuotedValue)
    else if rest[0] == q then BehindQuote(name, q, raw, rest[1..])
    else InQuotes(name, q, raw + [rest[0]], rest[1..])
  }

  /** Behind a quote that ends the value or is the first of two. */
  function BehindQuote(name: string, q: char, raw: string, rest: string): Parsed
    decreases |rest|
  {
    if rest == "" then Err(AfterQuote)
    else if rest[0] == ',' then Prepend([name + "=" + Halve(raw, q)], InName("", rest[1..]))
    else if rest[0] == q then InQuotes(name, q, raw + [q, q], rest[1..])
    else Err(AfterQuote)
  }

  /** What the option string means. */
  function Parse(optString: string): Parsed {
    var s := TrimSpace(optString);
    if s == "" then Ok([]) else InName("", s + ",")
  }

  // ---------- printing and reading back ----------

  /** An option and the way it is written. */
  datatype Written = Bare(name: string) | Plain(name: string, value: string) | Quoted(name: string, value: string, quote: char)

  predicate GoodName(name: string) {
    name != "" && name[0] != '-' && forall k :: 0 <= k < |name| ==> MayFollow(name[..k], name[k])
  }

  /** It can be written that way; any value at all can be quoted. */
  predicate Writable(o: Written) {
    GoodName(o.name)
    && match o
       case Bare(_) => true
       case Plain(_, value) => ',' !in value && (value != "" ==> !IsQuote(value[0]))
       case Quoted(_, _, q) => IsQuote(q)
  }

  /** What the parser should return for it. */
  function Meaning(o: Written): string {
    if o.Bare? then o.name else o.name + "=" + o.value
  }

  function Doubled(value: string, q: char): string {
    if value == "" then ""
    else (if value[0] == q then [q, q] else [value[0]]) + Doubled(value[1..], q)
  }

  function Print(o: Written): string {
    match o
    case Bare(name) => name
    case Plain(name, value) => name + "=" + value
    case Quoted(name, value, q) => name + "=" + [q] + Doubled(value, q) + [q]
  }

  /** Each option followed by a comma. */
  function Printed(opts: seq<Written>): string {
    if opts == [] then "" else Print(opts[0]) + "," + Printed(opts[1..])
  }

  /** The options joined by commas. */
  function Joined(opts: seq<Written>): string {
    if opts == [] then "" else Printed(opts)[..|Printed(opts)| - 1]
  }

  function Meanings(opts: seq<Written>): seq<string> {
    if opts == [] then [] else [Meaning(opts[0])] + Meanings(opts[1..])
  }

  lemma {:induction false} HalveDoubled(value: string, q: char)
    ensures Halve(Doubled(value, q), q) == value
  {
    if value != "" {
      var d, rest := Doubled(value, q), Doubled(value[1..], q);
      HalveDoubled(value[1..], q);
      if value[0] == q {
        assert d == [q, q] + rest && d[2..] == rest;
      } else {
        assert d == [value[0]] + rest && d[1..] == rest;
      }
      assert value == [value[0]] + value[1..];
    }
  }

  lemma {:induction false} NameIsRead(name: string, k: nat, rest: string)
    requires k <= |name| && forall j :: k <= j < |name| ==> MayFollow(name[..j], name[j])
    ensures InName(name[..k], name[k..] + rest) == InName(name, rest)
    decreases |name| - k
  {
    if k == |name| {
      assert name[..k] == name && name[k..] + rest == rest;
    } else {
      var text := name[k..] + rest;
      assert text[0] == name[k] && text[1..] == name[k + 1..] + rest && name[..k] + [name[k]] == name[..k + 1];
      NameIsRead(name, k + 1, rest);
    }
  }

  lemma {:induction false} PlainIsRead(name: string, value: string, k: nat, rest: string)
    requires k <= |value| && ',' !in value && (value != "" ==> !IsQuote(value[0]))
    ensures InValue(name, value[..k], value[k..] + rest) == InValue(name, value, rest)
    decreases |value| - k
  {
    if k == |value| {
      assert value[..k] == value && value[k..] + rest == rest;
    } else {
      var text := value[k..] + rest;
      assert text[0] == value[k] && text[1..] == value[k + 1..] + rest && value[..k] + [value[k]] == value[..k + 1];
      PlainIsRead(name, value, k + 1, rest);
    }
  }

  lemma {:induction false} QuotedIsRead(name: string, q: char, raw: string, value: string, rest: string)
    requires IsQuote(q)
    ensures InQuotes(name, q, raw, Doubled(value, q) + ([q] + rest)) == BehindQuote(name, q, raw + Doubled(value, q), rest)
    decreases |value|
  {
    var text := Doubled(value, q) + ([q] + rest);
    if value == "" {
      assert text == [q] + rest && text[1..] == rest && raw + Doubled(value, q) == raw;
    } else {
      var more := Doubled(value[1..], q);
      if value[0] == q {
        assert text == [q, q] + (more + ([q] + rest));
        assert text[1..][1..] == more + ([q] + rest);
        assert raw + [q, q] + more == raw + Doubled(value, q);
        QuotedIsRead(name, q, raw + [q, q], value[1..], rest);
      } else {
        assert text == [value[0]] + (more + ([q] + rest));
        assert text[1..] == more + ([q] + rest);
        assert raw + [value[0]] + more == raw + Doubled(value, q);
        QuotedIsRead(name, q, raw + [value[0]], value[1..], rest);
      }
    }
  }

  lemma {:induction false} QuotedOptionIsRead(name: string, value: string, q: char, rest: string)
    requires IsQuote(q)
    ensures InValue(name, "", [q] + Doubled(value, q) + [q] + ("," + rest)) == Prepend([name + "=" + value], InName("", rest))
  {
    var text := [q] + Doubled(value, q) + [q] + ("," + rest);
    assert text[1..] == Doubled(value, q) + ([q] + ("," + rest));
    QuotedIsRead(name, q, "", value, "," + rest);
    HalveDoubled(value, q);
    assert "" + Doubled(value, q) == Doubled(value, q);
    assert ("," + rest)[1..] == rest;
  }

  lemma {:induction false} NameThenComma(name: string, rest: string)
    requires GoodName(name)
    ensures InName("", name + ("," + rest)) == Prepend([name], InName("", rest))
  {
    assert name[..0] == "" && name[0..] == name && ("," + rest)[1..] == rest;
    NameIsRead(name, 0, "," + rest);
  }

  lemma {:induction false} NameThenValue(name: string, rest: string)
    requires GoodName(name)
    ensures InName("", name + ("=" + rest)) == InValue(name, "", rest)
  {
    assert name[..0] == "" && name[0..] == name && ("=" + rest)[1..] == rest;
    NameIsRead(name, 0, "=" + rest);
  }

  lemma {:induction false} PlainOptionIsRead(name: string, value: string, rest: string)
    requires ',' !in value && (value != "" ==> !IsQuote(value[0]))
    ensures InValue(name, "", value + ("," + rest)) == Prepend([name + "=" + value], InName("", rest))
  {
    assert value[..0] == "" && value[0..] == value && ("," + rest)[1..] == rest;
    PlainIsRead(name, value, 0, "," + rest);
  }

  lemma {:induction false} Reassociate(name: string, value: string, rest: string)
    ensures name + "," + rest == name + ("," + rest)
    ensures name + "=" + value + "," + rest == name + ("=" + (value + ("," + rest)))
  {
  }

  lemma {:induction false} ReassociateQuoted(name: string, d: string, q: char, rest: string)
    ensures name + "=" + [q] + d + [q] + "," + rest == name + ("=" + ([q] + d + [q] + ("," + rest)))
  {
  }

  /** One written option is read as itself. */
  lemma {:induction false} OptionIsRead(o: Written, rest: string)
    requires Writable(o)
    ensures InName("", Print(o) + "," + rest) == Prepend([Meaning(o)], InName("", rest))
  {
    match o {
      case Bare(name) =>
        Reassociate(name, "", rest);
        NameThenComma(name, rest);
      case Plain(name, value) =>
        Reassociate(name, value, rest);
        NameThenValue(name, value + ("," + rest));
        PlainOptionIsRead(name, value, rest);
      case Quoted(name, value, q) =>
        ReassociateQuoted(name, Doubled(value, q), q, rest);
        NameThenValue(name, [q] + Doubled(value, q) + [q] + ("," + rest));
        QuotedOptionIsRead(name, value, q, rest);
    }
  }

  lemma {:induction false} OptionsAreRead(opts: seq<Written>)
    requires forall o :: o in opts ==> Writable(o)
    ensures InName("", Printed(opts)) == Ok(Meanings(opts))
    decreases |opts|
  {
    if opts != [] {
      OptionIsRead(opts[0], Printed(opts[1..]));
      OptionsAreRead(opts[1..]);
    }
  }

  lemma {:induction false} NothingToTrim(s: string)
    requires s != "" && !IsSpace(s[0]) && !IsSpace(s[|s| - 1])
    ensures TrimSpace(s) == s
  {
  }

  /** The last option, if plain, does not end in a space, which would be trimmed. */
  predicate EndsTight(opts: seq<Written>) {
    opts != [] && opts[|opts| - 1].Plain? && opts[|opts| - 1].value != "" ==>
      !IsSpace(opts[|opts| - 1].value[|opts[|opts| - 1].value| - 1])
  }

  lemma {:induction false} PrintIsTight(o: Written)
    requires Writable(o)
    ensures Print(o) != "" && !IsSpace(Print(o)[0])
    ensures EndsTight([o]) ==> !IsSpace(Print(o)[|Print(o)| - 1])
  {
    var name := o.name;
    assert MayFollow(name[..0], name[0]) && name[..0] == "";
    assert Print(o)[0] == name[0];
    assert MayFollow(name[..|name| - 1], name[|name| - 1]);
  }

  lemma {:induction false} PrintedIsTight(opts: seq<Written>)
    requires opts != [] && (forall o :: o in opts ==> Writable(o)) && EndsTight(opts)
    ensures |Printed(opts)| >= 2 && Printed(opts)[|Printed(opts)| - 1] == ','
    ensures !IsSpace(Printed(opts)[0]) && !IsSpace(Printed(opts)[|Printed(opts)| - 2])
    decreases |opts|
  {
    var head, tail := Print(opts[0]), Printed(opts[1..]);
    PrintIsTight(opts[0]);
    assert Printed(opts) == head + "," + tail;
    if |opts| == 1 {
      assert opts == [opts[0]] && tail == "";
    } else {
      assert EndsTight(opts[1..]);
      PrintedIsTight(opts[1..]);
    }
  }

  /**
   * Options joined by commas are read back exactly, each with its own way of
   * writing and any value at all between quotes.
   */
  lemma {:induction false} RoundTrip(opts: seq<Written>)
    requires (forall o :: o in opts ==> Writable(o)) && EndsTight(opts)
    ensures Parse(Joined(opts)) == Ok(Meanings(opts))
  {
    if opts != [] {
      PrintedIsTight(opts);
      var s := Joined(opts);
      assert s + "," == Printed(opts);
      NothingToTrim(s);
      OptionsAreRead(opts);
    }
  }

  // ---------- what is accepted ----------

  predicate Readable(name: string) {
    forall k :: 0 <= k < |name| ==> MayFollow(name[..k], name[k])
  }

  predicate AllWritable(opts: seq<Written>) {
    forall o :: o in opts ==> Writable(o)
  }

  lemma {:induction false} ReadableMore(name: string, c: char)
    requires Readable(name) && MayFollow(name, c)
    ensures Readable(name + [c])
  {
    var more := name + [c];
    forall k | 0 <= k < |more|
      ensures MayFollow(more[..k], more[k])
    {
      assert more[..k] == name[..k];
      assert k == |name| ==> name[..k] == name;
    }
  }

  lemma {:induction false} DoubledMore(value: string, c: char, q: char)
    ensures Doubled(value + [c], q) == Doubled(value, q) + if c == q then [q, q] else [c]
  {
    if value == "" {
      assert value + [c] == [c] && (value + [c])[1..] == "";
    } else {
      assert (value + [c])[1..] == value[1..] + [c] && (value + [c])[0] == value[0];
      DoubledMore(value[1..], c, q);
    }
  }

  lemma {:induction false} Shifted(a: string, rest: string)
    requires rest != ""
    ensures a + rest == a + [rest[0]] + rest[1..]
  {
  }

  lemma {:induction false} Grouped(a: string, b: string, c: string, d: string)
    ensures a + b + c + d == a + b + (c + d) && a + (b + c) + d == a + b + c + d
  {
  }

  /** Another option in front. */
  lemma {:induction false} OneMore(o: Written, opts: seq<Written>, rest: string) returns (more: seq<Written>)
    requires Writable(o) && AllWritable(opts) && Printed(opts) == rest && InName("", rest) == Ok(Meanings(opts))
    ensures AllWritable(more) && Printed(more) == Print(o) + "," + rest && Prepend([Meaning(o)], InName("", rest)) == Ok(Meanings(more))
  {
    more := [o] + opts;
    assert more[1..] == opts;
  }

  /** What is accepted is a list of options as they are written. */
  lemma {:induction false} Unread(rest: string) returns (opts: seq<Written>)
    requires InName("", rest).Ok?
    ensures AllWritable(opts) && Printed(opts) == rest && InName("", rest) == Ok(Meanings(opts))
    decreases |rest|, 1
  {
    opts := NameUnread("", rest);
    assert "" + rest == rest;
  }

  /** From within a name. */
  lemma {:induction false} NameUnread(name: string, rest: string) returns (opts: seq<Written>)
    requires Readable(name) && InName(name, rest).Ok?
    ensures AllWritable(opts) && Printed(opts) == name + rest && InName(name, rest) == Ok(Meanings(opts))
    decreases |rest|, 0
  {
    if rest == "" {
      opts := [];
    } else {
      Shifted(name, rest);
      if rest[0] == ',' {
        opts := Unread(rest[1..]);
        opts := OneMore(Bare(name), opts, rest[1..]);
      } else if rest[0] == '=' {
        opts := ValueUnread(name, "", rest[1..]);
      } else {
        ReadableMore(name, rest[0]);
        opts := NameUnread(name + [rest[0]], rest[1..]);
      }
    }
  }

  lemma {:induction false} ValueUnread(name: string, value: string, rest: string) returns (opts: seq<Written>)
    requires Writable(Plain(name, value)) && InValue(name, value, rest).Ok?
    ensures AllWritable(opts) && Printed(opts) == name + "=" + value + rest && InValue(name, value, rest) == Ok(Meanings(opts))
    decreases |rest|, 0
  {
    Shifted(name + "=" + value, rest);
    if rest[0] == ',' {
      opts := Unread(rest[1..]);
      opts := OneMore(Plain(name, value), opts, rest[1..]);
    } else if IsQuote(rest[0]) && value == "" {
      opts := QuotesUnread(name, rest[0], "", rest[1..]);
    } else {
      opts := ValueUnread(name, value + [rest[0]], rest[1..]);
      Grouped(name + "=", value, [rest[0]], rest[1..]);
    }
  }

  lemma {:induction false} QuotesUnread(name: string, q: char, value: string, rest: string) returns (opts: seq<Written>)
    requires Writable(Quoted(name, value, q)) && InQuotes(name, q, Doubled(value, q), rest).Ok?
    ensures AllWritable(opts) && Printed(opts) == name + "=" + [q] + Doubled(value, q) + rest && InQuotes(name, q, Doubled(value, q), rest) == Ok(Meanings(opts))
    decreases |rest|, 0
  {
    Shifted(name + "=" + [q] + Doubled(value, q), rest);
    if rest[0] == q {
      opts := BehindUnread(name, q, value, rest[1..]);
    } else {
      DoubledMore(value, rest[0], q);
      opts := QuotesUnread(name, q, value + [rest[0]], rest[1..]);
      Grouped(name + "=" + [q], Doubled(value, q), [rest[0]], rest[1..]);
    }
  }

  lemma {:induction false} BehindUnread(name: string, q: char, value: string, rest: string) returns (opts: seq<Written>)
    requires Writable(Quoted(name, value, q)) && BehindQuote(name, q, Doubled(value, q), rest).Ok?
    ensures AllWritable(opts) && Printed(opts) == name + "=" + [q] + Doubled(value, q) + [q] + rest
    ensures BehindQuote(name, q, Doubled(value, q), rest) == Ok(Meanings(opts))
    decreases |rest|, 0
  {
    Shifted(name + "=" + [q] + Doubled(value, q) + [q], rest);
    if rest[0] == ',' {
      opts := Unread(rest[1..]);
      HalveDoubled(value, q);
      opts := OneMore(Quoted(name, value, q), opts, rest[1..]);
    } else {
      DoubledMore(value, q, q);
      opts := QuotesUnread(name, q, value + [q], rest[1..]);
      Twice(name + "=" + [q], Doubled(value, q), q, rest[1..]);
    }
  }

  lemma {:induction false} Twice(a: string, b: string, q: char, c: string)
    ensures a + b + [q] + [q] + c == a + (b + [q, q]) + c
  {
  }

  lemma {:induction false} JoinedIs(opts: seq<Written>, s: string)
    ensures opts != [] ==> (Joined(opts) == s <==> Printed(opts) == s + ",")
  {
    if opts != [] {
      var last := Printed(opts)[|Printed(opts)| - 1];
      PrintedEnds(opts);
      assert Printed(opts) == Joined(opts) + [last];
    }
  }

  lemma {:induction false} PrintedEnds(opts: seq<Written>)
    requires opts != []
    ensures Printed(opts) != "" && Printed(opts)[|Printed(opts)| - 1] == ','
    decreases |opts|
  {
    if |opts| > 1 {
      PrintedEnds(opts[1..]);
    }
  }

  lemma {:induction false} WrittenIsRead(opts: seq<Written>, s: string)
    requires AllWritable(opts) && TrimSpace(s) == Joined(opts)
    ensures Parse(s) == Ok(Meanings(opts))
  {
    if opts != [] {
      JoinedIs(opts, TrimSpace(s));
      OptionsAreRead(opts);
      var head := Print(opts[0]);
      PrintIsTight(opts[0]);
      assert |Printed(opts)| >= |head| + 1;
    }
  }

  /**
   * The language: a string is accepted if and only if, but for space around it,
   * it is options joined by commas as they are written, and then it means them.
   */
  lemma {:induction false} AcceptedWhen(s: string)
    ensures Parse(s).Ok? <==> exists opts :: AllWritable(opts) && TrimSpace(s) == Joined(opts)
    ensures forall opts :: AllWritable(opts) && TrimSpace(s) == Joined(opts) ==> Parse(s) == Ok(Meanings(opts))
  {
    forall opts | AllWritable(opts) && TrimSpace(s) == Joined(opts)
      ensures Parse(s) == Ok(Meanings(opts))
    {
      WrittenIsRead(opts, s);
    }
    if Parse(s).Ok? {
      var text := TrimSpace(s);
      if text == "" {
        assert AllWritable([]) && Joined([]) == text;
      } else {
        var opts := Unread(text + ",");
        JoinedIs(opts, text);
        assert AllWritable(opts) && text == Joined(opts);
      }
    }
  }

  /** An option with a proper name, bare or with a value. */
  ghost predicate Proper(opt: string) {
    exists name {:trigger GoodName(name)} :: GoodName(name) && (opt == name || name + "=" <= opt)
  }

  lemma {:induction false} MeaningsProper(opts: seq<Written>)
    requires AllWritable(opts)
    ensures forall opt :: opt in Meanings(opts) ==> Proper(opt)
    decreases |opts|
  {
    if opts != [] {
      MeaningsProper(opts[1..]);
      assert Writable(opts[0]);
      assert GoodName(opts[0].name) && (!opts[0].Bare? ==> opts[0].name + "=" <= Meaning(opts[0]));
    }
  }

  /** Every option of every accepted string has a proper name. */
  lemma {:induction false} AcceptedIsProper(s: string)
    requires Parse(s).Ok?
    ensures forall opt :: opt in Parse(s).value ==> Proper(opt)
  {
    AcceptedWhen(s);
    var opts :| AllWritable(opts) && TrimSpace(s) == Joined(opts);
    MeaningsProper(opts);
  }

  /** What comes before an error does not matter for it. */
  lemma {:induction false} ErrorIsOfTheRest(opts: seq<Written>, rest: string)
    requires AllWritable(opts)
    ensures InName("", Printed(opts) + rest) == Prepend(Meanings(opts), InName("", rest))
    decreases |opts|
  {
    if opts == [] {
      assert "" + rest == rest;
      PrependMore([], "", InName("", rest));
    } else {
      var tail := Printed(opts[1..]);
      assert Printed(opts) + rest == Print(opts[0]) + "," + (tail + rest);
      OptionIsRead(opts[0], tail + rest);
      ErrorIsOfTheRest(opts[1..], rest);
      assert InName("", rest).Ok? ==> [Meaning(opts[0])] + (Meanings(opts[1..]) + InName("", rest).value) == Meanings(opts) + InName("", rest).value;
    }
  }

  /** Nothing between two commas, or before an equals sign, is an empty option. */
  lemma {:induction false} EmptyIsRefused(opts: seq<Written>, c: char, rest: string)
    requires AllWritable(opts) && (c == ',' || c == '=')
    ensures InName("", Printed(opts) + ([c] + rest)) == Err(EmptyOption)
  {
    ErrorIsOfTheRest(opts, [c] + rest);
  }

  // ---------- the code ----------

  datatype Mode = Param | Value | QuotedText | AfterQuoteMark

  lemma {:induction false} NothingToHalve(s: string, q: char)
    requires q !in s
    ensures Halve(s, q) == s
  {
    if s != "" {
      NothingToHalve(s[1..], q);
      assert s == [s[0]] + s[1..];
    }
  }

  /** What remains to be read in a state of the loop. */
  function Remaining(mode: Mode, text: string, param: string, quote: char, prev: nat, i: nat): Parsed
    requires prev <= i <= |text| && (mode.AfterQuoteMark? ==> prev < i)
  {
    match mode
    case Param => InName(text[prev..i], text[i..])
    case Value => InValue(param, text[prev..i], text[i..])
    case QuotedText => InQuotes(param, quote, text[prev..i], text[i..])
    case AfterQuoteMark => BehindQuote(param, quote, text[prev..i - 1], text[i..])
  }

  lemma {:induction false} PrependMore(opts: seq<string>, opt: string, r: Parsed)
    ensures Prepend(opts, Prepend([opt], r)) == Prepend(opts + [opt], r) && Prepend([], r) == r
  {
    if r.Ok? {
      assert opts + ([opt] + r.value) == opts + [opt] + r.value && [] + r.value == r.value;
    }
  }

  /** The start of the next option. */
  lemma {:induction false} NextOption(text: string, param: string, quote: char, k: nat)
    requires k <= |text|
    ensures Remaining(Param, text, param, quote, k, k) == InName("", text[k..])
    ensures k == |text| ==> Remaining(Param, text, param, quote, k, k) == Ok([])
  {
    assert text[k..k] == "";
  }

  /** parseHelperOptionString. */
  method ParseHelperOptionString(input: string) returns (r: Parsed)
    ensures r == Parse(input)
  {
    var optString := TrimSpace(input);
    if optString == "" {
      return Ok([]);
    }
    var text := optString + ",";
    var mode, prev, quote, param, doubled := Param, 0, '"', "", false;
    var opts: seq<string> := [];
    var i := 0;
    assert text[0..] == text;
    NextOption(text, param, quote, 0);
    PrependMore([], "", InName("", text));
    while i < |text|
      invariant prev <= i <= |text| && (mode.AfterQuoteMark? ==> prev < i)
      invariant mode.QuotedText? && !doubled ==> quote !in text[prev..i]
      invariant mode.AfterQuoteMark? && !doubled ==> quote !in text[prev..i - 1]
      invariant mode.AfterQuoteMark? ==> text[i - 1] == quote
      invariant Parse(input) == Prepend(opts, Remaining(mode, text, param, quote, prev, i))
    {
      var c := text[i];
      assert text[i..][0] == c && text[i..][1..] == text[i + 1..];
      assert text[prev..i] + [c] == text[prev..i + 1];
      match mode {
        case Param =>
          if c == ',' || c == '=' {
            param := text[prev..i];
            if |param| == 0 {
              return Err(EmptyOption);
            }
            if param[0] == '-' {
              return Err(OptionName);
            }
            prev := i + 1;
            if c == '=' {
              mode := Value;
              assert text[prev..i + 1] == "";
            } else {
              NextOption(text, param, quote, prev);
              PrependMore(opts, param, InName("", text[prev..]));
              opts := opts + [param];
            }
          } else if c == '.' {
            if text[prev..i] != ENV && text[prev..i] != SYSTEMD {
              return Err(BadOption);
            }
          } else if !ValidChar(c) {
            return Err(BadOption);
          }
        case Value =>
          if IsQuote(c) {
            if i == prev {
              quote, prev, doubled, mode := c, i + 1, false, QuotedText;
              assert text[prev..i + 1] == "";
            }
          } else if c == ',' {
            var value := text[prev..i];
            prev := i + 1;
            NextOption(text, param, quote, prev);
            PrependMore(opts, param + "=" + value, InName("", text[prev..]));
            opts := opts + [param + "=" + value];
            mode := Param;
          }
        case QuotedText =>
          if c == quote {
            mode := AfterQuoteMark;
          }
        case AfterQuoteMark =>
          if c == ',' {
            var value := text[prev..i - 1];
            if doubled {
              value := Halve(value, quote);
            } else {
              NothingToHalve(value, quote);
            }
            prev := i + 1;
            NextOption(text, param, quote, prev);
            PrependMore(opts, param + "=" + value, InName("", text[prev..]));
            opts := opts + [param + "=" + value];
            mode := Param;
          } else if c == quote {
            assert text[prev..i - 1] + [quote, quote] == text[prev..i + 1];
            mode, doubled := QuotedText, true;
          } else {
            return Err(AfterQuote);
          }
      }
      i := i + 1;
    }
    NextOption(text, param, quote, i);
    assert opts + [] == opts;
    match mode {
      case QuotedText => return Err(QuotedValue);
      case AfterQuoteMark => return Err(AfterQuote);
      case Param => return if prev > |optString| then Ok(opts) else Err(Syntax);
      case Value => return Err(Syntax);
    }
  }
}
