/**
 * Walking the cache from a directory by item names, and how far a change
 * reaches.
 */
module VfsTree {
  import opened Wrappers
  import opened VfsChains
  import opened VfsDir

  /** The directory reached from d by the item names ks. */
  ghost function Walk(all: map<Dir, map<string, Node>>, d: Dir, ks: seq<string>): Option<Dir> {
    if d !in all then None
    else if ks == [] then Some(d)
    else if ks[0] in all[d] && all[d][ks[0]].DirNode? then Walk(all, all[d][ks[0]].dir, ks[1..])
    else None
  }

  /** x is d or lies below it. */
  ghost predicate Inside(parents: map<Dir, Option<Dir>>, d: Dir, x: Dir) {
    x in parents && d in Up<Dir>(parents, x)
  }

  lemma {:induction false} InsideChild(parents: map<Dir, Option<Dir>>, d: Dir, c: Dir, x: Dir)
    requires Forest<Dir>(parents) && d in parents && HangsUnder(parents, c, d) && Inside(parents, c, x)
    ensures Inside(parents, d, x) && x != d
  {
    UpUnfold<Dir>(parents, c);
    UpUnfold<Dir>(parents, d);
    UpTransitive<Dir>(parents, x, c);
  }

  lemma {:induction false} ChildIsSmaller(parents: map<Dir, Option<Dir>>, d: Dir, c: Dir)
    requires Forest<Dir>(parents) && d in parents && HangsUnder(parents, c, d)
    ensures parents.Keys - Up<Dir>(parents, c) < parents.Keys - Up<Dir>(parents, d)
  {
    UpUnfold<Dir>(parents, c);
    assert c in parents.Keys - Up<Dir>(parents, d);
  }

  /** A directory below one child is not below another. */
  lemma {:induction false} InsideApart(parents: map<Dir, Option<Dir>>, d: Dir, c: Dir, e: Dir, x: Dir)
    requires Forest<Dir>(parents) && HangsUnder(parents, c, d) && HangsUnder(parents, e, d) && c != e && Inside(parents, c, x)
    ensures !Inside(parents, e, x)
  {
    SiblingsApart<Dir>(parents, x, c, e);
  }

  /** A walk only meets directories below its start. */
  lemma {:induction false} WalkInside(parents: map<Dir, Option<Dir>>, all: map<Dir, map<string, Node>>, d: Dir, ks: seq<string>)
    requires Forest<Dir>(parents) && Hangs(parents, all) && d in parents
    requires Walk(all, d, ks).Some?
    ensures Inside(parents, d, Walk(all, d, ks).value) && Walk(all, d, ks).value in all
    decreases |ks|
  {
    if ks == [] {
      UpUnfold<Dir>(parents, d);
    } else {
      assert HangsAt(parents, all, d);
      var c := all[d][ks[0]].dir;
      WalkInside(parents, all, c, ks[1..]);
      InsideChild(parents, d, c, Walk(all, c, ks[1..]).value);
    }
  }

  /** The items of d and of everything below it are the same. */
  ghost predicate SameInside<V>(parents: map<Dir, Option<Dir>>, d: Dir, m: map<Dir, V>, m': map<Dir, V>) {
    forall x {:trigger Inside(parents, d, x)} :: x in parents && Inside(parents, d, x) ==> x in m && x in m' && m[x] == m'[x]
  }

  lemma {:induction false} WalkSame(parents: map<Dir, Option<Dir>>, all: map<Dir, map<string, Node>>, all': map<Dir, map<string, Node>>,
                                    d: Dir, ks: seq<string>)
    requires Forest<Dir>(parents) && Hangs(parents, all) && d in parents && SameInside(parents, d, all, all')
    ensures Walk(all', d, ks) == Walk(all, d, ks)
    decreases |ks|
  {
    UpUnfold<Dir>(parents, d);
    assert Inside(parents, d, d);
    if ks != [] && ks[0] in all[d] && all[d][ks[0]].DirNode? {
      assert HangsAt(parents, all, d);
      var c := all[d][ks[0]].dir;
      forall x | Inside(parents, c, x)
        ensures Inside(parents, d, x)
      {
        InsideChild(parents, d, c, x);
      }
      WalkSame(parents, all, all', c, ks[1..]);
    }
  }

  /** Counts depend only on the virtual entries below. */
  lemma {:induction false} CountSame(parents: map<Dir, Option<Dir>>, virt: map<Dir, set<string>>, counts: map<Dir, int>,
                                     virt': map<Dir, set<string>>, counts': map<Dir, int>, d: Dir)
    requires Exact<Dir>(parents, virt, counts) && Exact<Dir>(parents, virt', counts')
    requires virt.Keys == parents.Keys && virt'.Keys == parents.Keys && SameInside(parents, d, virt, virt')
    ensures SameInside(parents, d, counts, counts')
  {
    forall x | Inside(parents, d, x)
      ensures x in counts && x in counts' && counts[x] == counts'[x]
    {
      assert Tallied<Dir>(parents, virt, counts, x) && Tallied<Dir>(parents, virt', counts', x);
      forall y | y in parents && x in Up<Dir>(parents, y)
        ensures virt[y] == virt'[y]
      {
        UpTransitive<Dir>(parents, y, x);
        assert Inside(parents, d, y);
      }
      assert Under<Dir>(parents, virt, x) == Under<Dir>(parents, virt', x);
    }
  }
}
