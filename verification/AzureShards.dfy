/**
 * Splitting a listing by blob name: the ladder of boundaries, the shards
 * between them, and why listing the shards one after the other is listing
 * everything, common prefixes included.
 */
module AzureShards {
  import opened Wrappers

  // ---------- the order of names ----------

  /** Byte order. */
  predicate Less(a: string, b: string) {
    b != "" && (a == "" || a[0] < b[0] || (a[0] == b[0] && Less(a[1..], b[1..])))
  }

  lemma {:induction false} LessOrder(a: string, b: string, c: string)
    ensures !Less(a, a)
    ensures Less(a, b) && Less(b, c) ==> Less(a, c)
    ensures Less(a, b) || a == b || Less(b, a)
  {
    if a != "" {
      LessOrder(a[1..], if b == "" then "" else b[1..], if c == "" then "" else c[1..]);
      if b != "" && a[0] == b[0] && a[1..] == b[1..] {
        assert a == [a[0]] + a[1..] && b == [b[0]] + b[1..];
      }
    } else if b != "" && c != "" {
    }
  }

  lemma {:induction false} LessBehind(dir: string, a: string, b: string)
    ensures Less(dir + a, dir + b) <==> Less(a, b)
  {
    if dir == "" {
      assert dir + a == a && dir + b == b;
    } else {
      assert (dir + a)[1..] == dir[1..] + a && (dir + b)[1..] == dir[1..] + b;
      LessBehind(dir[1..], a, b);
    }
  }

  // ---------- the ladder ----------

  const ALPHABET: nat := 36

  /** The digits, then the lower case letters. */
  function Letter(k: nat): char
    requires k < ALPHABET
  {
    if k < 10 then '0' + k as char else 'a' + (k - 10) as char
  }

  lemma {:induction false} LettersAscend(j: nat, k: nat)
    requires j < k < ALPHABET
    ensures Letter(j) < Letter(k)
  {
  }

  lemma {:induction false} Scale(a: nat, b: nat, t: nat)
    requires a <= b
    ensures a * t <= b * t
  {
  }

  lemma {:induction false} DivBelow(a: nat, k: nat, t: nat)
    requires t > 0 && a < k * t
    ensures a / t < k
  {
    var q := a / t;
    assert q * t <= a;
    if k <= q {
      Scale(k, q, t);
    }
  }

  lemma {:induction false} DivAbove(a: nat, k: nat, t: nat)
    requires t > 0 && k * t <= a
    ensures k <= a / t
  {
    var q := a / t;
    assert a < (q + 1) * t;
    if q < k {
      Scale(q + 1, k, t);
    }
  }

  lemma {:induction false} Distribute(p: nat, q: nat, t: nat)
    ensures (p + q) * t == p * t + q * t
  {
  }

  lemma {:induction false} DivSum(a: nat, b: nat, t: nat)
    requires t > 0
    ensures a / t + b / t <= (a + b) / t <= a / t + b / t + 1
  {
    var p, q := a / t, b / t;
    Distribute(p, q, t);
    Distribute(p + q, 2, t);
    DivAbove(a + b, p + q, t);
    DivBelow(a + b, p + q + 2, t);
  }

  /** The place in the alphabet of rung i of t. */
  function Rung(i: nat, t: nat): nat
    requires t > 0
  {
    i * ALPHABET / t
  }

  /** The places in the alphabet grow strictly and stay inside. */
  lemma {:induction false} RungsAscend(i: nat, t: nat)
    requires 0 < t <= ALPHABET && i < t
    ensures Rung(i, t) < ALPHABET
    ensures i > 0 ==> Rung(i - 1, t) < Rung(i, t)
  {
    DivBelow(i * ALPHABET, ALPHABET, t);
    if i > 0 {
      var a := (i - 1) * ALPHABET;
      var p := a / t;
      assert p * t <= a;
      assert (p + 1) * t == p * t + t;
      DivAbove(i * ALPHABET, p + 1, t);
    }
  }

  /**
   * The rungs spread evenly: the first is the first letter, and from each to the
   * next, from the last to the end of the alphabet, there are as many letters as
   * from any other, or one more.
   */
  lemma {:induction false} RungsAreEven(i: nat, t: nat)
    requires 0 < t <= ALPHABET && i < t
    ensures Rung(0, t) == 0 && Rung(t, t) == ALPHABET
    ensures Rung(i + 1, t) - Rung(i, t) == ALPHABET / t || Rung(i + 1, t) - Rung(i, t) == ALPHABET / t + 1
  {
    DivAbove(t * ALPHABET, ALPHABET, t);
    DivBelow(t * ALPHABET, ALPHABET + 1, t);
    DivSum(i * ALPHABET, ALPHABET, t);
    assert (i + 1) * ALPHABET == i * ALPHABET + ALPHABET;
  }

  predicate IsRung(p: string, directory: string) {
    exists k :: 0 <= k < ALPHABET && p == directory + [Letter(k)]
  }

  /** Boundaries of the form directory + letter, strictly ascending. */
  ghost predicate Ladder(points: seq<string>, directory: string) {
    && (forall j :: 0 <= j < |points| ==> IsRung(points[j], directory))
    && (forall j, k :: 0 <= j < k < |points| ==> Less(points[j], points[k]))
  }

  /** arrowShardTarget. */
  function ShardTarget(parallelism: int): int {
    parallelism * 4
  }

  /** arrowLadderBoundaries. */
  method LadderBoundaries(directory: string, wanted: int) returns (points: seq<string>)
    ensures Ladder(points, directory)
    ensures |points| == if wanted < 1 then 0 else if wanted > ALPHABET then ALPHABET else wanted
    ensures forall k :: 0 <= k < |points| ==> Rung(k, |points|) < ALPHABET && points[k] == directory + [Letter(Rung(k, |points|))]
  {
    points := [];
    if wanted < 1 {
      return;
    }
    var target := if wanted > ALPHABET then ALPHABET else wanted;
    var last := -1;
    for i := 0 to target
      invariant |points| == i && Ladder(points, directory)
      invariant last == if i == 0 then -1 else Rung(i - 1, target)
      invariant i > 0 ==> 0 <= last < ALPHABET && points[i - 1] == directory + [Letter(last)]
      invariant forall k :: 0 <= k < i ==> Rung(k, target) < ALPHABET && points[k] == directory + [Letter(Rung(k, target))]
    {
      RungsAscend(i, target);
      var idx := Rung(i, target);
      if idx == last {
        assert false;  // the places are distinct, so none is skipped
        continue;
      }
      NextRung(points, directory, last, idx);
      last := idx;
      points := points + [directory + [Letter(idx)]];
    }
  }

  lemma {:induction false} NextRung(points: seq<string>, directory: string, last: int, idx: nat)
    requires Ladder(points, directory) && last < idx < ALPHABET
    requires |points| > 0 ==> 0 <= last && points[|points| - 1] == directory + [Letter(last)]
    ensures Ladder(points + [directory + [Letter(idx)]], directory)
  {
    var more := points + [directory + [Letter(idx)]];
    forall j | 0 <= j < |points|
      ensures Less(points[j], more[|points|])
    {
      LettersAscend(last, idx);
      LessBehind(directory, [Letter(last)], [Letter(idx)]);
      LessOrder(points[j], points[|points| - 1], more[|points|]);
    }
  }

  function FoldChar(c: char): char {
    if 'A' <= c <= 'Z' then ('a' as int + (c as int - 'A' as int)) as char else c
  }

  /** The name as a comparison without regard to case sees it. */
  function Fold(s: string): string {
    if s == "" then "" else [FoldChar(s[0])] + Fold(s[1..])
  }

  lemma {:induction false} FoldBehind(dir: string, c: char)
    ensures Fold(dir + [c]) == Fold(dir) + [FoldChar(c)]
  {
    if dir == "" {
      assert dir + [c] == [c] && [c][1..] == "";
    } else {
      assert (dir + [c])[1..] == dir[1..] + [c];
      FoldBehind(dir[1..], c);
    }
  }

  /** The ladder also ascends for a service that compares bounds without regard to case. */
  lemma {:induction false} LadderAscendsFolded(points: seq<string>, directory: string, j: nat, k: nat)
    requires Ladder(points, directory) && j < k < |points|
    ensures Less(Fold(points[j]), Fold(points[k]))
  {
    assert IsRung(points[j], directory) && IsRung(points[k], directory);
    var a: nat :| a < ALPHABET && points[j] == directory + [Letter(a)];
    var b: nat :| b < ALPHABET && points[k] == directory + [Letter(b)];
    LessBehind(directory, [Letter(a)], [Letter(b)]);
    FoldBehind(directory, Letter(a));
    FoldBehind(directory, Letter(b));
    LessBehind(Fold(directory), [Letter(a)], [Letter(b)]);
  }

  /** A ladder with upper case letters would not: "Z" comes before "a" but after it when case is ignored. */
  lemma {:induction false} MixedCaseWouldNot()
    ensures Less("Z", "a") && Less(Fold("a"), Fold("Z"))
  {
    assert "a"[1..] == "" && "Z"[1..] == "";
    assert Fold("a") == "a" && Fold("Z") == "z";
  }

  // ---------- the shards ----------

  /** Names from `from` on and before `before`; an empty bound is none. */
  datatype Shard = Shard(from: string, before: string)

  predicate InShard(name: string, s: Shard) {
    (s.from == "" || !Less(name, s.from)) && (s.before == "" || Less(name, s.before))
  }

  /** Half-open shards from no bound through all points to no bound. */
  ghost predicate Chain(shards: seq<Shard>, points: seq<string>) {
    && |shards| == |points| + 1
    && forall j {:trigger shards[j]} :: 0 <= j < |shards| ==>
         shards[j] == Shard(if j == 0 then "" else points[j - 1], if j == |points| then "" else points[j])
  }

  method MakeShards(points: seq<string>) returns (shards: seq<Shard>)
    ensures Chain(shards, points)
  {
    shards := [];
    var prev := "";
    for k := 0 to |points|
      invariant |shards| == k && prev == if k == 0 then "" else points[k - 1]
      invariant forall j :: 0 <= j < k ==> shards[j] == Shard(if j == 0 then "" else points[j - 1], points[j])
    {
      shards := shards + [Shard(prev, points[k])];
      prev := points[k];
    }
    shards := shards + [Shard(prev, "")];
  }

  /** The shards for a directory, or none where the listing cannot usefully be split. */
  method PlanShards(directory: string, parallelism: int) returns (shards: seq<Shard>, ghost points: seq<string>)
    ensures Ladder(points, directory) && (shards == [] || Chain(shards, points))
    ensures |shards| == if parallelism < 1 then 0 else if parallelism >= 9 then 37 else 4 * parallelism + 1
  {
    var boundaries := LadderBoundaries(directory, ShardTarget(parallelism));
    points := boundaries;
    if |boundaries| < 1 {
      return [], points;
    }
    shards := MakeShards(boundaries);
  }

  ghost predicate Ascending(points: seq<string>) {
    && (forall j :: 0 <= j < |points| ==> points[j] != "")
    && (forall j, k :: 0 <= j < k < |points| ==> Less(points[j], points[k]))
  }

  /** How many points are not above the name, which is its shard. */
  function ShardOf(name: string, points: seq<string>): (j: nat)
    ensures j <= |points|
  {
    if points == [] || Less(name, points[0]) then 0 else 1 + ShardOf(name, points[1..])
  }

  lemma {:induction false} ShardOfBounds(name: string, points: seq<string>, k: nat)
    requires Ascending(points) && k < |points|
    ensures Less(name, points[k]) <==> ShardOf(name, points) <= k
  {
    if Less(name, points[0]) {
      LessOrder(name, points[0], points[k]);
    } else if k > 0 {
      assert Ascending(points[1..]) && points[1..][k - 1] == points[k];
      ShardOfBounds(name, points[1..], k - 1);
    }
  }

  /** Every name is in exactly one shard. */
  lemma {:induction false} ExactlyOneShard(name: string, shards: seq<Shard>, points: seq<string>, j: nat)
    requires Ascending(points) && Chain(shards, points) && j < |shards|
    ensures InShard(name, shards[j]) <==> j == ShardOf(name, points)
  {
    if j > 0 {
      assert shards[j].from == points[j - 1] && points[j - 1] != "";
      ShardOfBounds(name, points, j - 1);
    }
    if j < |points| {
      assert shards[j].before == points[j] && points[j] != "";
      ShardOfBounds(name, points, j);
    }
  }

  // ---------- keys: blobs and common prefixes ----------

  predicate HasPrefix(name: string, p: string) {
    p <= name
  }

  /** The place of the first delimiter at or after k, or the length. */
  function FirstDelimiter(name: string, k: nat, delimiter: char): (d: nat)
    requires k <= |name|
    ensures k <= d <= |name|
    decreases |name| - k
  {
    if k == |name| || name[k] == delimiter then k else FirstDelimiter(name, k + 1, delimiter)
  }

  /**
   * What the listing shows for a blob below the directory: its name, or, when
   * there is a delimiter and the rest of the name has one, the name up to and
   * including the first.
   */
  function Key(name: string, directory: string, delimiter: Option<char>): (key: string)
    requires HasPrefix(name, directory)
    ensures HasPrefix(key, directory) && HasPrefix(name, key) && (|name| > |directory| ==> |key| > |directory|)
  {
    if delimiter.None? then name
    else
      var d := FirstDelimiter(name, |directory|, delimiter.value);
      if d == |name| then name else name[..d + 1]
  }

  /** A name and its key are on the same side of every rung. */
  lemma {:induction false} KeySameSide(name: string, directory: string, delimiter: Option<char>, p: string)
    requires HasPrefix(name, directory) && IsRung(p, directory)
    ensures Less(Key(name, directory, delimiter), p) <==> Less(name, p)
  {
    var key := Key(name, directory, delimiter);
    var k: nat :| k < ALPHABET && p == directory + [Letter(k)];
    var a, b, c := name[|directory|..], key[|directory|..], [Letter(k)];
    assert name == directory + a && key == directory + b;
    LessBehind(directory, a, c);
    LessBehind(directory, b, c);
    assert c[1..] == "";
    if |name| > |directory| {
      assert a[0] == b[0];
    } else {
      assert a == "" && b == "";
    }
  }

  /** The keys shown for the blobs of a shard. */
  ghost function Keys(blobs: set<string>, directory: string, delimiter: Option<char>, s: Shard): set<string> {
    set name | name in blobs && HasPrefix(name, directory) && InShard(name, s) :: Key(name, directory, delimiter)
  }

  /** No bounds. */
  const EVERYTHING: Shard := Shard("", "")

  lemma {:induction false} RungsAreAscending(points: seq<string>, directory: string)
    requires Ladder(points, directory)
    ensures Ascending(points)
  {
    forall j | 0 <= j < |points|
      ensures points[j] != ""
    {
      assert IsRung(points[j], directory);
    }
  }

  lemma {:induction false} KeyInSameShard(name: string, directory: string, delimiter: Option<char>, points: seq<string>)
    requires Ladder(points, directory) && HasPrefix(name, directory)
    ensures ShardOf(Key(name, directory, delimiter), points) == ShardOf(name, points)
    decreases |points|
  {
    if points != [] {
      KeySameSide(name, directory, delimiter, points[0]);
      KeyInSameShard(name, directory, delimiter, points[1..]);
    }
  }

  /** Every blob and every common prefix is shown by exactly one shard: the one its own name belongs to. */
  lemma {:induction false} KeyInExactlyOneShard(blobs: set<string>, directory: string, delimiter: Option<char>, points: seq<string>,
                                                shards: seq<Shard>, key: string, j: nat)
    requires Ladder(points, directory) && Chain(shards, points) && j < |shards|
    ensures key in Keys(blobs, directory, delimiter, shards[j]) <==>
              key in Keys(blobs, directory, delimiter, EVERYTHING) && j == ShardOf(key, points)
  {
    RungsAreAscending(points, directory);
    forall name | name in blobs && HasPrefix(name, directory)
      ensures InShard(name, shards[j]) <==> j == ShardOf(Key(name, directory, delimiter), points)
    {
      ExactlyOneShard(name, shards, points, j);
      KeyInSameShard(name, directory, delimiter, points);
    }
  }

  // ---------- listings ----------

  /** The keys in order, each once. */
  ghost predicate IsListing(list: seq<string>, keys: set<string>) {
    && (forall i, j :: 0 <= i < j < |list| ==> Less(list[i], list[j]))
    && (forall key :: key in list <==> key in keys)
  }

  function Flatten(lists: seq<seq<string>>): seq<string> {
    if lists == [] then [] else Flatten(lists[..|lists| - 1]) + lists[|lists| - 1]
  }

  lemma {:induction false} ListingSize(list: seq<string>, keys: set<string>)
    requires IsListing(list, keys)
    ensures |list| == |keys|
    decreases |list|
  {
    if list == [] {
      assert keys == {};
    } else {
      RestIsListing(list, keys);
      ListingSize(list[1..], keys - {list[0]});
      assert list[0] in list;
    }
  }

  /** There is only one listing of given keys. */
  lemma {:induction false} ListingIsUnique(a: seq<string>, b: seq<string>, keys: set<string>)
    requires IsListing(a, keys) && IsListing(b, keys)
    ensures a == b
    decreases |a|
  {
    ListingSize(a, keys);
    ListingSize(b, keys);
    if a != [] {
      SameFirst(a, b, keys);
      RestIsListing(a, keys);
      RestIsListing(b, keys);
      ListingIsUnique(a[1..], b[1..], keys - {a[0]});
      assert a == [a[0]] + a[1..] && b == [b[0]] + b[1..];
    }
  }

  lemma {:induction false} SameFirst(a: seq<string>, b: seq<string>, keys: set<string>)
    requires IsListing(a, keys) && IsListing(b, keys) && a != [] && b != []
    ensures a[0] == b[0]
  {
    assert a[0] in a && b[0] in b;
    assert a[0] in b && b[0] in a;
    var i :| 0 <= i < |a| && a[i] == b[0];
    var j :| 0 <= j < |b| && b[j] == a[0];
    LessOrder(a[0], b[0], a[0]);
  }

  lemma {:induction false} RestIsListing(a: seq<string>, keys: set<string>)
    requires IsListing(a, keys) && a != []
    ensures IsListing(a[1..], keys - {a[0]})
  {
    forall key
      ensures key in a[1..] <==> key in keys - {a[0]}
    {
      LessOrder(a[0], a[0], a[0]);
      assert key in a <==> key == a[0] || key in a[1..];
      if key in a[1..] {
        var i :| 0 <= i < |a[1..]| && a[1..][i] == key;
        assert Less(a[0], a[i + 1]);
      }
    }
  }

  /** The keys of the first n shards. */
  ghost function FirstKeys(all: set<string>, points: seq<string>, n: nat): set<string> {
    set key | key in all && ShardOf(key, points) < n
  }

  lemma {:induction false} LaterShardIsGreater(points: seq<string>, a: string, b: string)
    requires Ascending(points) && ShardOf(a, points) < ShardOf(b, points)
    ensures Less(a, b)
  {
    var k := ShardOf(a, points);
    ShardOfBounds(a, points, k);
    ShardOfBounds(b, points, k);
    LessOrder(a, points[k], b);
    LessOrder(points[k], b, a);
  }

  /** The listings of the first n shards, one after the other, list their keys. */
  lemma {:induction false} FirstShardsList(all: set<string>, points: seq<string>, lists: seq<seq<string>>, keysOf: seq<set<string>>, n: nat)
    requires Ascending(points) && |lists| == |keysOf| && n <= |lists|
    requires forall j, key :: 0 <= j < |keysOf| ==> (key in keysOf[j] <==> key in all && ShardOf(key, points) == j)
    requires forall j :: 0 <= j < |lists| ==> IsListing(lists[j], keysOf[j])
    ensures IsListing(Flatten(lists[..n]), FirstKeys(all, points, n))
    decreases n
  {
    if n > 0 {
      FirstShardsList(all, points, lists, keysOf, n - 1);
      var front, last := Flatten(lists[..n - 1]), lists[n - 1];
      assert lists[..n][..n - 1] == lists[..n - 1];
      assert Flatten(lists[..n]) == front + last;
      JoinListings(front, last, FirstKeys(all, points, n - 1), keysOf[n - 1], points);
      assert FirstKeys(all, points, n) == FirstKeys(all, points, n - 1) + keysOf[n - 1];
    }
  }

  lemma {:induction false} JoinListings(a: seq<string>, b: seq<string>, keysA: set<string>, keysB: set<string>, points: seq<string>)
    requires Ascending(points) && IsListing(a, keysA) && IsListing(b, keysB)
    requires forall x, y :: x in keysA && y in keysB ==> ShardOf(x, points) < ShardOf(y, points)
    ensures IsListing(a + b, keysA + keysB)
  {
    forall x, y | x in a && y in b
      ensures Less(x, y)
    {
      LaterShardIsGreater(points, x, y);
    }
    var list := a + b;
    forall i, j | 0 <= i < j < |list|
      ensures Less(list[i], list[j])
    {
      if i < |a| <= j {
        assert list[i] in a && list[j] in b;
      }
    }
  }

  /**
   * Whatever the directory, the delimiter and the number of shards: the shard
   * listings in order are the listing without bounds.
   */
  lemma {:induction false} ShardsListEverything(blobs: set<string>, directory: string, delimiter: Option<char>, points: seq<string>,
                                                shards: seq<Shard>, lists: seq<seq<string>>, sequential: seq<string>)
    requires Ladder(points, directory) && Chain(shards, points) && |lists| == |shards|
    requires forall j :: 0 <= j < |lists| ==> IsListing(lists[j], Keys(blobs, directory, delimiter, shards[j]))
    requires IsListing(sequential, Keys(blobs, directory, delimiter, EVERYTHING))
    ensures Flatten(lists) == sequential
  {
    RungsAreAscending(points, directory);
    var all := Keys(blobs, directory, delimiter, EVERYTHING);
    var keysOf := seq(|shards|, j requires 0 <= j < |shards| => Keys(blobs, directory, delimiter, shards[j]));
    forall j, key | 0 <= j < |keysOf|
      ensures key in keysOf[j] <==> key in all && ShardOf(key, points) == j
    {
      KeyInExactlyOneShard(blobs, directory, delimiter, points, shards, key, j);
    }
    FirstShardsList(all, points, lists, keysOf, |lists|);
    assert lists[..|lists|] == lists;
    assert FirstKeys(all, points, |lists|) == all;
    ListingIsUnique(Flatten(lists), sequential, all);
  }
}
