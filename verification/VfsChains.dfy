/**
 * Parent chains of a set of directories, as plain values: `parents` maps every
 * directory to its parent or to None at a root.
 */
module VfsChains {
  import opened Wrappers

  /** The directories met on the way up from d, as long as they are in `avail`. */
  ghost function Chain<D>(parents: map<D, Option<D>>, d: D, avail: set<D>): set<D>
    decreases avail
  {
    if d in avail && d in parents then
      {d} + (if parents[d].None? then {} else Chain(parents, parents[d].value, avail - {d}))
    else {}
  }

  /** The way up from d ends at a root without leaving `avail`. */
  ghost predicate Rooted<D>(parents: map<D, Option<D>>, d: D, avail: set<D>)
    decreases avail
  {
    d in avail && d in parents && (parents[d].Some? ==> Rooted(parents, parents[d].value, avail - {d}))
  }

  /** No cycles and no parent outside the set. */
  ghost predicate Forest<D>(parents: map<D, Option<D>>) {
    forall d {:trigger Rooted(parents, d, parents.Keys)} :: d in parents ==> Rooted(parents, d, parents.Keys)
  }

  /** d and its ancestors. */
  ghost function Up<D>(parents: map<D, Option<D>>, d: D): set<D> {
    Chain(parents, d, parents.Keys)
  }

  lemma {:induction false} ChainStays<D>(parents: map<D, Option<D>>, d: D, avail: set<D>)
    ensures Chain(parents, d, avail) <= avail
    decreases avail
  {
    if d in avail && d in parents && parents[d].Some? {
      ChainStays(parents, parents[d].value, avail - {d});
    }
  }

  lemma {:induction false} RootedWider<D>(parents: map<D, Option<D>>, d: D, avail: set<D>, wider: set<D>)
    requires Rooted(parents, d, avail) && avail <= wider
    ensures Rooted(parents, d, wider) && Chain(parents, d, wider) == Chain(parents, d, avail)
    decreases avail
  {
    if parents[d].Some? {
      RootedWider(parents, parents[d].value, avail - {d}, wider - {d});
    }
  }

  /** The chain of a directory is itself followed by the chain of its parent, which does not return to it. */
  lemma {:induction false} UpUnfold<D>(parents: map<D, Option<D>>, d: D)
    requires Forest(parents) && d in parents
    ensures parents[d].None? ==> Up(parents, d) == {d}
    ensures parents[d].Some? ==>
              parents[d].value in parents
              && Up(parents, d) == {d} + Up(parents, parents[d].value)
              && d !in Up(parents, parents[d].value)
  {
    assert Rooted(parents, d, parents.Keys);
    if parents[d].Some? {
      var rest := parents.Keys - {d};
      RootedWider(parents, parents[d].value, rest, parents.Keys);
      ChainStays(parents, parents[d].value, rest);
    }
  }

  lemma {:induction false} UpInside<D>(parents: map<D, Option<D>>, d: D)
    ensures Up(parents, d) <= parents.Keys
  {
    ChainStays(parents, d, parents.Keys);
  }

  /** Ancestors of an ancestor are ancestors. */
  lemma {:induction false} UpTransitive<D>(parents: map<D, Option<D>>, d: D, a: D)
    requires Forest(parents) && d in parents && a in Up(parents, d)
    ensures a in parents && Up(parents, a) <= Up(parents, d)
    decreases |Up(parents, d)|
  {
    UpUnfold(parents, d);
    if a != d {
      var p := parents[d].value;
      assert |Up(parents, d)| == |Up(parents, p)| + 1;
      UpTransitive(parents, p, a);
    }
  }

  /** No directory lies below two different children of one directory. */
  lemma {:induction false} SiblingsApart<D>(parents: map<D, Option<D>>, d: D, a: D, b: D)
    requires Forest(parents) && d in parents && a in parents && b in parents
    requires a != b && parents[a].Some? && parents[a] == parents[b]
    ensures !(a in Up(parents, d) && b in Up(parents, d))
    decreases |Up(parents, d)|
  {
    UpUnfold(parents, d);
    UpUnfold(parents, a);
    UpUnfold(parents, b);
    if d == a || d == b {
    } else if parents[d].Some? {
      var p := parents[d].value;
      assert |Up(parents, d)| == |Up(parents, p)| + 1;
      SiblingsApart(parents, p, a, b);
    }
  }

  // ---------- counting virtual entries ----------

  /** The virtual entries of d and of everything whose parent chain passes through d. */
  ghost function Under<D>(parents: map<D, Option<D>>, virt: map<D, set<string>>, d: D): set<(D, string)> {
    set x, n | x in virt && n in virt[x] && d in Up(parents, x) :: (x, n)
  }

  /** The parents form a forest and every count is exact. */
  ghost predicate Exact<D>(parents: map<D, Option<D>>, virt: map<D, set<string>>, counts: map<D, int>) {
    && Forest(parents)
    && forall d {:trigger Tallied(parents, virt, counts, d)} :: d in parents ==> Tallied(parents, virt, counts, d)
  }

  ghost predicate Tallied<D>(parents: map<D, Option<D>>, virt: map<D, set<string>>, counts: map<D, int>, d: D) {
    d in counts && counts[d] == |Under(parents, virt, d)|
  }

  ghost function Put<D>(virt: map<D, set<string>>, d: D, names: set<string>): map<D, set<string>> {
    virt[d := names]
  }

  ghost function Bumped<D>(counts: map<D, int>, ds: set<D>, n: int): map<D, int> {
    map x | x in counts :: counts[x] + (if x in ds then n else 0)
  }

  lemma {:induction false} UnderWithName<D>(parents: map<D, Option<D>>, virt: map<D, set<string>>, d: D, n: string, a: D)
    requires d in virt && n !in virt[d]
    ensures |Under(parents, Put(virt, d, virt[d] + {n}), a)|
         == |Under(parents, virt, a)| + (if a in Up(parents, d) then 1 else 0)
  {
    var virt' := Put(virt, d, virt[d] + {n});
    var before, after := Under(parents, virt, a), Under(parents, virt', a);
    forall x, m
      ensures (x, m) in after <==> (x, m) in before || (x == d && m == n && a in Up(parents, d))
    {
      assert x != d && x in virt ==> virt'[x] == virt[x];
    }
    if a in Up(parents, d) {
      assert after == before + {(d, n)};
    } else {
      assert after == before;
    }
  }

  /** A new virtual entry of d is counted by adding one all the way up. */
  lemma {:induction false} ExactAfterAdd<D>(parents: map<D, Option<D>>, virt: map<D, set<string>>, counts: map<D, int>, d: D, n: string)
    requires Exact(parents, virt, counts) && d in virt && n !in virt[d] && counts.Keys == parents.Keys
    ensures Exact(parents, Put(virt, d, virt[d] + {n}), Bumped(counts, Up(parents, d), 1))
  {
    forall a | a in parents
      ensures Tallied(parents, Put(virt, d, virt[d] + {n}), Bumped(counts, Up(parents, d), 1), a)
    {
      assert Tallied(parents, virt, counts, a);
      UnderWithName(parents, virt, d, n, a);
    }
  }

  /** A removed one by taking one off all the way up. */
  lemma {:induction false} ExactAfterRemove<D>(parents: map<D, Option<D>>, virt: map<D, set<string>>, counts: map<D, int>, d: D, n: string)
    requires Exact(parents, virt, counts) && d in virt && n in virt[d] && counts.Keys == parents.Keys
    ensures Exact(parents, Put(virt, d, virt[d] - {n}), Bumped(counts, Up(parents, d), -1))
  {
    var virt' := Put(virt, d, virt[d] - {n});
    assert virt'[d] + {n} == virt[d];
    assert Put(virt', d, virt'[d] + {n}) == virt;
    forall a | a in parents
      ensures Tallied(parents, virt', Bumped(counts, Up(parents, d), -1), a)
    {
      assert Tallied(parents, virt, counts, a);
      UnderWithName(parents, virt', d, n, a);
    }
  }

  /** A count is zero exactly when there is no virtual entry at or below the directory. */
  lemma {:induction false} ZeroCount<D>(parents: map<D, Option<D>>, virt: map<D, set<string>>, counts: map<D, int>, d: D)
    requires Exact(parents, virt, counts) && d in parents
    ensures d in counts && counts[d] >= 0
    ensures counts[d] == 0 <==> forall x :: x in virt && d in Up(parents, x) ==> virt[x] == {}
  {
    var u := Under(parents, virt, d);
    assert Tallied(parents, virt, counts, d);
    if |u| == 0 {
      forall x, n | x in virt && d in Up(parents, x)
        ensures n !in virt[x]
      {
        assert (x, n) !in u;
      }
    } else {
      var p :| p in u;
      assert p.1 in virt[p.0];
    }
  }

  // ---------- a new directory ----------

  lemma {:induction false} ChainAgrees<D>(parents: map<D, Option<D>>, parents': map<D, Option<D>>, d: D, avail: set<D>)
    requires forall x :: x in avail && x in parents ==> x in parents' && parents'[x] == parents[x]
    requires Rooted(parents, d, avail)
    ensures Rooted(parents', d, avail) && Chain(parents', d, avail) == Chain(parents, d, avail)
    decreases avail
  {
    if parents[d].Some? {
      ChainAgrees(parents, parents', parents[d].value, avail - {d});
    }
  }

  lemma {:induction false} UpAfterNew<D>(parents: map<D, Option<D>>, d: D, child: D, x: D)
    requires Forest(parents) && x in parents && child !in parents
    ensures Rooted(parents[child := Some(d)], x, parents[child := Some(d)].Keys)
    ensures Up(parents[child := Some(d)], x) == Up(parents, x)
  {
    var parents' := parents[child := Some(d)];
    assert Rooted(parents, x, parents.Keys);
    ChainAgrees(parents, parents', x, parents.Keys);
    RootedWider(parents', x, parents.Keys, parents'.Keys);
  }

  ghost function Tally<D>(counts: map<D, int>, d: D, n: int): map<D, int> {
    counts[d := n]
  }

  ghost function Hung<D>(parents: map<D, Option<D>>, d: D, child: D): map<D, Option<D>> {
    parents[child := Some(d)]
  }

  lemma {:induction false} UnderAfterNew<D>(parents: map<D, Option<D>>, virt: map<D, set<string>>, d: D, child: D, a: D)
    requires Forest(parents) && d in parents && child !in parents && virt.Keys == parents.Keys
    ensures a in parents ==> Under(Hung(parents, d, child), Put(virt, child, {}), a) == Under(parents, virt, a)
    ensures Under(Hung(parents, d, child), Put(virt, child, {}), child) == {}
  {
    var parents', virt' := Hung(parents, d, child), Put(virt, child, {});
    forall x | x in parents
      ensures Up(parents', x) == Up(parents, x) && child !in Up(parents, x)
    {
      UpAfterNew(parents, d, child, x);
      UpInside(parents, x);
    }
  }

  /** Hanging a new directory without virtual entries under d keeps every count exact. */
  lemma {:induction false} ExactAfterNew<D>(parents: map<D, Option<D>>, virt: map<D, set<string>>, counts: map<D, int>, d: D, child: D)
    requires Exact(parents, virt, counts) && d in parents && child !in parents && virt.Keys == parents.Keys
    ensures Exact(Hung(parents, d, child), Put(virt, child, {}), Tally(counts, child, 0))
  {
    var parents' := Hung(parents, d, child);
    forall x | x in parents
      ensures Rooted(parents', x, parents'.Keys)
    {
      UpAfterNew(parents, d, child, x);
    }
    assert Rooted(parents, d, parents.Keys);
    ChainAgrees(parents, parents', d, parents.Keys);
    assert parents'.Keys - {child} == parents.Keys;
    forall a | a in parents'
      ensures Tallied(parents', Put(virt, child, {}), Tally(counts, child, 0), a)
    {
      assert a != child ==> Tallied(parents, virt, counts, a);
      UnderAfterNew(parents, virt, d, child, a);
    }
  }

  // ---------- a subtree ----------

  /** d and everything below it, with d as the root. */
  ghost function Cut<D>(parents: map<D, Option<D>>, d: D): map<D, Option<D>> {
    map x | x in parents && d in Up(parents, x) :: if x == d then None else parents[x]
  }

  lemma {:induction false} CutRooted<D>(parents: map<D, Option<D>>, d: D, x: D)
    requires Forest(parents) && d in parents && x in parents && d in Up(parents, x)
    ensures Rooted(Cut(parents, d), x, Up(parents, x) * Cut(parents, d).Keys)
    decreases |Up(parents, x)|
  {
    var keys := Cut(parents, d).Keys;
    UpUnfold(parents, x);
    if x != d {
      var p := parents[x].value;
      assert |Up(parents, x)| == |Up(parents, p)| + 1;
      CutRooted(parents, d, p);
      assert Up(parents, p) * keys == Up(parents, x) * keys - {x};
    }
  }

  /** Cutting off a subtree leaves a forest. */
  lemma {:induction false} CutForest<D>(parents: map<D, Option<D>>, d: D)
    requires Forest(parents) && d in parents
    ensures Forest(Cut(parents, d))
  {
    var cut := Cut(parents, d);
    forall x | x in cut
      ensures Rooted(cut, x, cut.Keys)
    {
      CutRooted(parents, d, x);
      RootedWider(cut, x, Up(parents, x) * cut.Keys, cut.Keys);
    }
  }
}
