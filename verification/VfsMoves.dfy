/**
 * What moving a directory to another parent does to the counts of virtual
 * entries: `rename` changes the parent and leaves every count alone.
 */
module VfsMoves {
  import opened Wrappers
  import opened VfsChains

  ghost function Moved<D>(parents: map<D, Option<D>>, d: D, q: D): map<D, Option<D>> {
    parents[d := Some(q)]
  }

  /** d can be moved from p to q: q is not d and not below it. */
  ghost predicate Movable<D>(parents: map<D, Option<D>>, d: D, p: D, q: D) {
    Forest(parents) && d in parents && parents[d] == Some(p) && q in parents && d !in Up(parents, q)
  }

  /** The chain of x after the move. */
  ghost function NewChain<D>(parents: map<D, Option<D>>, d: D, p: D, q: D, x: D): set<D> {
    if d in Up(parents, x) then (Up(parents, x) - Up(parents, p)) + Up(parents, q) else Up(parents, x)
  }

  /** Two ancestors of one directory lie on one chain. */
  lemma {:induction false} Comparable<D>(parents: map<D, Option<D>>, x: D, a: D, b: D)
    requires Forest(parents) && x in parents && a in Up(parents, x) && b in Up(parents, x)
    ensures a in Up(parents, b) || b in Up(parents, a)
    decreases |Up(parents, x)|
  {
    UpUnfold(parents, x);
    if a != x && b != x {
      var y := parents[x].value;
      assert |Up(parents, x)| == |Up(parents, y)| + 1;
      Comparable(parents, y, a, b);
    }
  }

  lemma {:induction false} OneOrder<D>(parents: map<D, Option<D>>, a: D, b: D)
    requires Forest(parents) && a in parents && b in parents && a in Up(parents, b) && b in Up(parents, a)
    ensures a == b
  {
    UpUnfold(parents, a);
    if a != b {
      var p := parents[a].value;
      UpTransitive(parents, p, b);
      UpTransitive(parents, b, a);
    }
  }

  lemma {:induction false} RootedInUp<D>(parents: map<D, Option<D>>, x: D)
    requires Forest(parents) && x in parents
    ensures Rooted(parents, x, Up(parents, x)) && Chain(parents, x, Up(parents, x)) == Up(parents, x)
    decreases |Up(parents, x)|
  {
    UpUnfold(parents, x);
    if parents[x].Some? {
      var y := parents[x].value;
      assert |Up(parents, x)| == |Up(parents, y)| + 1;
      RootedInUp(parents, y);
      assert Up(parents, x) - {x} == Up(parents, y);
    }
  }

  lemma {:induction false} ChainStep<D>(parents: map<D, Option<D>>, x: D, y: D, avail: set<D>, rest: set<D>)
    requires x in avail && avail - {x} == rest && x in parents && parents[x] == Some(y)
    requires Rooted(parents, y, rest) && Chain(parents, y, rest) == rest
    ensures Rooted(parents, x, avail) && Chain(parents, x, avail) == avail
  {
  }

  lemma {:induction false} NewChainStep<D>(parents: map<D, Option<D>>, d: D, p: D, q: D, x: D, y: D)
    requires Movable(parents, d, p, q) && x in parents && x != d && d in Up(parents, x) && parents[x] == Some(y)
    ensures x in NewChain(parents, d, p, q, x) && NewChain(parents, d, p, q, x) - {x} == NewChain(parents, d, p, q, y)
    ensures y in parents && d in Up(parents, y) && |Up(parents, y)| < |Up(parents, x)|
  {
    UpUnfold(parents, x);
    UpUnfold(parents, d);
    assert |Up(parents, x)| == |Up(parents, y)| + 1;
    if x in Up(parents, q) {
      UpTransitive(parents, q, x);
    }
    if x in Up(parents, p) {
      UpTransitive(parents, p, x);
    }
  }

  lemma {:induction false} ChainOfMoved<D>(parents: map<D, Option<D>>, d: D, p: D, q: D)
    requires Movable(parents, d, p, q)
    ensures Rooted(Moved(parents, d, q), d, NewChain(parents, d, p, q, d))
    ensures Chain(Moved(parents, d, q), d, NewChain(parents, d, p, q, d)) == NewChain(parents, d, p, q, d)
  {
    UpUnfold(parents, d);
    RootedInUp(parents, q);
    ChainAgrees(parents, Moved(parents, d, q), q, Up(parents, q));
    assert NewChain(parents, d, p, q, d) - {d} == Up(parents, q);
    ChainStep(Moved(parents, d, q), d, q, NewChain(parents, d, p, q, d), Up(parents, q));
  }

  lemma {:induction false} ChainAfterMove<D>(parents: map<D, Option<D>>, d: D, p: D, q: D, x: D)
    requires Movable(parents, d, p, q) && x in parents
    ensures Rooted(Moved(parents, d, q), x, NewChain(parents, d, p, q, x))
    ensures Chain(Moved(parents, d, q), x, NewChain(parents, d, p, q, x)) == NewChain(parents, d, p, q, x)
    decreases |Up(parents, x)|
  {
    if d !in Up(parents, x) {
      RootedInUp(parents, x);
      ChainAgrees(parents, Moved(parents, d, q), x, Up(parents, x));
    } else if x == d {
      ChainOfMoved(parents, d, p, q);
    } else {
      UpUnfold(parents, x);
      var y := parents[x].value;
      NewChainStep(parents, d, p, q, x, y);
      ChainAfterMove(parents, d, p, q, y);
      ChainStep(Moved(parents, d, q), x, y, NewChain(parents, d, p, q, x), NewChain(parents, d, p, q, y));
    }
  }

  /** After the move the parents still form a forest, with these chains. */
  lemma {:induction false} UpAfterMove<D>(parents: map<D, Option<D>>, d: D, p: D, q: D, x: D)
    requires Movable(parents, d, p, q) && x in parents
    ensures Rooted(Moved(parents, d, q), x, Moved(parents, d, q).Keys)
    ensures Up(Moved(parents, d, q), x) == NewChain(parents, d, p, q, x)
  {
    UpInside(parents, x);
    UpInside(parents, q);
    assert Moved(parents, d, q).Keys == parents.Keys;
    ChainAfterMove(parents, d, p, q, x);
    RootedWider(Moved(parents, d, q), x, NewChain(parents, d, p, q, x), parents.Keys);
  }

  /** The old parent still counts what left, unless the new one is below it. */
  lemma {:induction false} OldParentOvercounts<D>(parents: map<D, Option<D>>, virt: map<D, set<string>>, d: D, p: D, q: D)
    requires Movable(parents, d, p, q) && virt.Keys == parents.Keys
    requires p !in Up(parents, q) && Under(parents, virt, d) != {}
    ensures |Under(Moved(parents, d, q), virt, p)| < |Under(parents, virt, p)|
  {
    UpUnfold(parents, d);
    UpUnfold(parents, p);
    var parents' := Moved(parents, d, q);
    forall x | x in parents
      ensures p in Up(parents', x) ==> p in Up(parents, x) && d !in Up(parents, x)
      ensures d in Up(parents, x) ==> p in Up(parents, x)
    {
      UpAfterMove(parents, d, p, q, x);
      if d in Up(parents, x) {
        UpTransitive(parents, x, d);
      }
    }
    var e :| e in Under(parents, virt, d);
    Smaller(Under(parents', virt, p), Under(parents, virt, p), e);
  }

  lemma {:induction false} Smaller<T>(a: set<T>, b: set<T>, e: T)
    requires a <= b && e in b && e !in a
    ensures |a| < |b|
  {
    var rest := b - a;
    assert |b| == |a| + |rest| by {
      assert a + rest == b && a !! rest;
    }
    assert e in rest;
  }

  /** The new parent does not count what came, unless it is above the old one. */
  lemma {:induction false} NewParentUndercounts<D>(parents: map<D, Option<D>>, virt: map<D, set<string>>, d: D, p: D, q: D)
    requires Movable(parents, d, p, q) && virt.Keys == parents.Keys
    requires q !in Up(parents, p) && Under(parents, virt, d) != {}
    ensures |Under(parents, virt, q)| < |Under(Moved(parents, d, q), virt, q)|
  {
    UpUnfold(parents, d);
    UpUnfold(parents, q);
    var parents' := Moved(parents, d, q);
    forall x | x in parents
      ensures d in Up(parents, x) ==> q in Up(parents', x) && q !in Up(parents, x)
      ensures q in Up(parents, x) ==> q in Up(parents', x)
    {
      UpAfterMove(parents, d, p, q, x);
      if d in Up(parents, x) && q in Up(parents, x) {
        Comparable(parents, x, d, q);
      }
    }
    var e :| e in Under(parents, virt, d);
    Smaller(Under(parents, virt, q), Under(parents', virt, q), e);
  }

  /** With nothing virtual at or below d nothing has to be counted elsewhere. */
  lemma {:induction false} EmptyMoveIsExact<D>(parents: map<D, Option<D>>, virt: map<D, set<string>>, counts: map<D, int>, d: D, p: D, q: D)
    requires Movable(parents, d, p, q) && virt.Keys == parents.Keys
    requires Exact(parents, virt, counts) && Under(parents, virt, d) == {}
    ensures Exact(Moved(parents, d, q), virt, counts)
  {
    var parents' := Moved(parents, d, q);
    forall x | x in parents
      ensures Rooted(parents', x, parents'.Keys)
      ensures Up(parents', x) == Up(parents, x) || virt[x] == {}
    {
      UpAfterMove(parents, d, p, q, x);
      if d in Up(parents, x) {
        NoneUnder(parents, virt, d, x);
      }
    }
    forall a | a in parents'
      ensures Tallied(parents', virt, counts, a)
    {
      assert Tallied(parents, virt, counts, a);
      UnderSame(parents, parents', virt, a);
    }
  }

  lemma {:induction false} UnderSame<D>(parents: map<D, Option<D>>, parents': map<D, Option<D>>, virt: map<D, set<string>>, a: D)
    requires forall x {:trigger virt[x]} :: x in virt ==> Up(parents', x) == Up(parents, x) || virt[x] == {}
    ensures Under(parents', virt, a) == Under(parents, virt, a)
  {
    forall x, n
      ensures (x, n) in Under(parents', virt, a) <==> (x, n) in Under(parents, virt, a)
    {
      if x in virt {
        assert virt[x] == {} || Up(parents', x) == Up(parents, x);
      }
    }
  }

  lemma {:induction false} NoneUnder<D>(parents: map<D, Option<D>>, virt: map<D, set<string>>, d: D, x: D)
    requires Under(parents, virt, d) == {} && x in virt && d in Up(parents, x)
    ensures virt[x] == {}
  {
    forall n
      ensures n !in virt[x]
    {
      assert (x, n) !in Under(parents, virt, d);
    }
  }

  /** A move keeps the counts exact if and only if nothing is virtual at or below d or the parent stays. */
  lemma {:induction false} MoveIsExactWhen<D>(parents: map<D, Option<D>>, virt: map<D, set<string>>, counts: map<D, int>, d: D, p: D, q: D)
    requires Movable(parents, d, p, q) && virt.Keys == parents.Keys && Exact(parents, virt, counts)
    ensures d in counts
    ensures Exact(Moved(parents, d, q), virt, counts) <==> counts[d] == 0 || p == q
  {
    assert Tallied(parents, virt, counts, d);
    UpUnfold(parents, d);
    if p == q {
      assert Moved(parents, d, q) == parents;
    } else if counts[d] == 0 {
      EmptyMoveIsExact(parents, virt, counts, d, p, q);
    } else {
      var parents' := Moved(parents, d, q);
      assert Tallied(parents, virt, counts, p) && Tallied(parents, virt, counts, q);
      if p !in Up(parents, q) {
        OldParentOvercounts(parents, virt, d, p, q);
        assert !Tallied(parents', virt, counts, p);
      } else {
        if q in Up(parents, p) {
          OneOrder(parents, p, q);
        }
        NewParentUndercounts(parents, virt, d, p, q);
        assert !Tallied(parents', virt, counts, q);
      }
    }
  }

  /** A concrete move that leaves wrong counts: directory 3 with one virtual entry goes from 1 to 2. */
  lemma {:induction false} MoveCanBreakCounts()
    ensures exists parents: map<nat, Option<nat>>, virt: map<nat, set<string>>, counts: map<nat, int> ::
      Movable(parents, 3, 1, 2) && virt.Keys == parents.Keys && Exact(parents, virt, counts) && !Exact(Moved(parents, 3, 2), virt, counts)
  {
    var parents: map<nat, Option<nat>> := map[0 := None, 1 := Some(0), 2 := Some(0), 3 := Some(1)];
    var virt: map<nat, set<string>> := map[0 := {}, 1 := {}, 2 := {}, 3 := {"x"}];
    var counts: map<nat, int> := map[0 := 1, 1 := 1, 2 := 0, 3 := 1];
    SmallChains(parents);
    SmallCounts(parents, virt, counts);
    MoveIsExactWhen(parents, virt, counts, 3, 1, 2);
  }

  lemma {:induction false} SmallCounts(parents: map<nat, Option<nat>>, virt: map<nat, set<string>>, counts: map<nat, int>)
    requires parents.Keys == {0, 1, 2, 3} && Forest(parents)
    requires Up(parents, 0) == {0} && Up(parents, 1) == {0, 1} && Up(parents, 2) == {0, 2} && Up(parents, 3) == {0, 1, 3}
    requires virt == map[0 := {}, 1 := {}, 2 := {}, 3 := {"x"}] && counts == map[0 := 1, 1 := 1, 2 := 0, 3 := 1]
    ensures Exact(parents, virt, counts)
  {
    forall d | d in parents
      ensures Tallied(parents, virt, counts, d)
    {
      var u := Under(parents, virt, d);
      forall e
        ensures e in u <==> e == (3, "x") && d != 2
      {
      }
      assert u == if d == 2 then {} else {(3, "x")};
    }
  }

  lemma {:induction false} SmallChains(parents: map<nat, Option<nat>>)
    requires parents == map[0 := None, 1 := Some(0), 2 := Some(0), 3 := Some(1)]
    ensures Forest(parents)
    ensures Up(parents, 0) == {0} && Up(parents, 1) == {0, 1} && Up(parents, 2) == {0, 2} && Up(parents, 3) == {0, 1, 3}
  {
    RootedWider(parents, 0, {0}, {0, 1});
    RootedWider(parents, 0, {0}, {0, 2});
    assert {0, 1} - {1} == {0} && {0, 2} - {2} == {0} && {0, 1, 3} - {3} == {0, 1};
    RootedWider(parents, 0, {0}, parents.Keys);
    RootedWider(parents, 1, {0, 1}, parents.Keys);
    RootedWider(parents, 2, {0, 2}, parents.Keys);
    RootedWider(parents, 3, {0, 1, 3}, parents.Keys);
  }
}
