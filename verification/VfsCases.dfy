/**
 * Concrete runs of the directory cache that show where it falls short of what
 * one would expect.
 */
module VfsCases {
  import opened Wrappers
  import opened VfsChains
  import opened VfsDir
  import opened VfsTree
  import opened VfsRename
  import opened VfsCache
  import opened VfsOps
  import opened VfsRuns
  import VfsForget

  /** A directory without a parent lies in no other. */
  lemma {:induction false} RootIsApart(root: Dir, S: set<Dir>, F: set<File>, c: Cache, x: Dir)
    requires Keeps(root, S, F, c) && x != root
    ensures !Inside(c.parents, x, root)
  {
    ForestNow(S, F, c);
    UpUnfold<Dir>(c.parents, root);
  }

  /** What a new directory is after it has been listed. */
  lemma {:induction false} NewDirIs(c: Cache, c': Cache, d: Dir, leaf: string, x: Dir)
    requires Tidy(c) && Edited(c, c', d) && c'.all[d] == c.all[d][leaf := DirNode(x)] && x !in c.parents
    ensures x in c'.parents && c'.parents[x] == Some(d) && c'.paths[x] == c.paths[d] + [leaf] && c'.all[x] == map[]
  {
    assert HangsAt(c.parents, c.all, d);
    assert OldOrNew(c, c', d, leaf);
  }

  /** And a new file. */
  lemma {:induction false} NewFileIs(c: Cache, c': Cache, d: Dir, leaf: string, f: File)
    requires Tidy(c) && NodeAdded(c, c', d, leaf, false) && c'.all[d] == c.all[d][leaf := FileNode(f)]
    ensures f in c'.home && c'.home[f] == Seat(d, leaf) && f in c'.dpaths && c'.dpaths[f] == c.paths[d]
  {
    assert OldOrNew(c, c', d, leaf);
    assert Known(c.home.Keys, c.all[d]);
  }

  // ---------- a file listed with an old path ----------

  /** A root alone. */
  method OneRoot(canHaveEmptyDirectories: bool) returns (root: Dir, ghost S: set<Dir>, ghost c: Cache)
    ensures (forall d {:trigger d in S} :: d in S ==> fresh(d)) && root in S && Keeps(root, S, {}, c) && Noted(c)
    ensures c.all[root] == map[] && c.paths[root] == []
  {
    root := NewRoot(canHaveEmptyDirectories);
    S, c := {root}, Snap({root}, {});
    SnapStands({root}, {}, c);
  }

  /** Everything but the items of d is as it was. */
  ghost predicate OnlyItemsOf(c: Cache, c': Cache, d: Dir) {
    forall y {:trigger y in c.parents} :: y in c.parents ==>
      && y in c'.parents && y in c.all && y in c'.all && y in c.paths && y in c'.paths
      && c'.parents[y] == c.parents[y] && c'.paths[y] == c.paths[y] && (y != d ==> c'.all[y] == c.all[y])
  }

  lemma {:induction false} OneMore(S: set<Dir>, x: Dir)
    ensures forall d {:trigger d in S + {x}} :: d in S + {x} ==> d in S || d == x
  {
  }

  /** A directory more. */
  method NewDir(d: Dir, leaf: string, root: Dir, ghost S: set<Dir>, ghost c: Cache) returns (x: Dir, ghost S': set<Dir>, ghost c': Cache)
    requires d in S && Keeps(root, S, {}, c)
    modifies S`items, S`virtual, S`virtuals
    ensures (forall y {:trigger y in S'} :: y in S' ==> y in S || fresh(y)) && (forall y {:trigger y in S} :: y in S ==> y in S')
    ensures x in S' && x !in S && x.virtuals == 0 && Keeps(root, S', {}, c') && OnlyItemsOf(c, c', d) && (Noted(c) ==> Noted(c'))
    ensures c'.all[d] == c.all[d][leaf := DirNode(x)] && c'.all[x] == map[] && c'.parents[x] == Some(d) && c'.paths[x] == c.paths[d] + [leaf]
  {
    x, c' := VfsRuns.AddDir(d, leaf, root, S, {}, c);
    NewDirIs(c, c', d, leaf, x);
    OneMore(S, x);
    S' := S + {x};
  }

  /** A root with a directory in it. */
  method OneDir(canHaveEmptyDirectories: bool, leaf: string) returns (root: Dir, a: Dir, ghost S: set<Dir>, ghost c: Cache)
    ensures (forall d {:trigger d in S} :: d in S ==> fresh(d)) && root in S && a in S && a != root && Keeps(root, S, {}, c) && Noted(c)
    ensures c.all[root] == map[leaf := DirNode(a)] && c.all[a] == map[] && c.parents[a] == Some(root) && c.paths[root] == [] && c.paths[a] == [leaf]
  {
    ghost var S1, c1;
    root, S1, c1 := OneRoot(canHaveEmptyDirectories);
    a, S, c := NewDir(root, leaf, root, S1, c1);
    assert root in c1.parents;
  }

  lemma {:induction false} OnlyThis(f: File)
    ensures forall g {:trigger g in {} + {f}} :: g in {} + {f} ==> g == f
  {
  }

  /** The directory "a" with the file f, which belongs to it as "x". */
  ghost predicate OneFileAt(c: Cache, root: Dir, a: Dir, f: File) {
    && root in c.all && root in c.paths && c.paths[root] == [] && a in c.all && a in c.paths && a != root
    && "a" in c.all[root] && c.all[root]["a"] == DirNode(a) && c.paths[a] == ["a"]
    && f in c.home && f in c.dpaths && c.home[f] == Seat(a, "x") && c.dpaths[f] == ["a"]
  }

  lemma {:induction false} FileIsThere(c: Cache, c': Cache, root: Dir, a: Dir, f: File)
    requires Edited(c, c', a) && c.all.Keys == c.parents.Keys && root in c.all && root != a && root in c.paths && c.paths[root] == [] && a in c.paths
    requires c.all[root] == map["a" := DirNode(a)] && c.paths[a] == ["a"] && f in c'.home && f in c'.dpaths && c'.home[f] == Seat(a, "x") && c'.dpaths[f] == ["a"]
    ensures OneFileAt(c', root, a, f)
  {
  }

  lemma {:induction false} FileIsGone(c: Cache, c': Cache, root: Dir, a: Dir, f: File)
    requires OneFileAt(c, root, a, f) && a in c.marks && c' == Unlisting(c, a, "x")
    ensures OneFileAt(c', root, a, f) && !Shows(ShapeOf(c'), f)
  {
  }

  /** A root with a directory "a" and a new file "x" in it. */
  method OneFile(canHaveEmptyDirectories: bool) returns (root: Dir, a: Dir, f: File, ghost S: set<Dir>, ghost F: set<File>, ghost c: Cache)
    ensures (forall d {:trigger d in S} :: d in S ==> fresh(d)) && (forall g {:trigger g in F} :: g in F ==> fresh(g)) && root in S && a in S && f in F && Keeps(root, S, F, c) && Noted(c) && OneFileAt(c, root, a, f)
  {
    ghost var c1;
    root, a, S, c1 := OneDir(canHaveEmptyDirectories, "a");
    f, c := VfsRuns.AddFile(a, "x", root, S, {}, c1);
    NewFileIs(c1, c, a, "x", f);
    FileIsThere(c1, c, root, a, f);
    OnlyThis(f);
    F := {} + {f};
  }

  /** The file is removed while it is still being written. */
  method Removed(canHaveEmptyDirectories: bool) returns (root: Dir, a: Dir, f: File, ghost S: set<Dir>, ghost F: set<File>, ghost c: Cache)
    ensures (forall d {:trigger d in S} :: d in S ==> fresh(d)) && (forall g {:trigger g in F} :: g in F ==> fresh(g)) && root in S && a in S && f in F && Keeps(root, S, F, c) && Noted(c)
    ensures OneFileAt(c, root, a, f) && !Shows(ShapeOf(c), f)
  {
    ghost var c1;
    root, a, f, S, F, c1 := OneFile(canHaveEmptyDirectories);
    c := Remove(a, "x", root, S, F, c1);
    FileIsGone(c1, c, root, a, f);
  }

  /** And its directory renamed. */
  method Renamed(canHaveEmptyDirectories: bool) returns (root: Dir, a: Dir, f: File, ghost S: set<Dir>, ghost F: set<File>, ghost c: Cache)
    ensures (forall d {:trigger d in S} :: d in S ==> fresh(d)) && (forall g {:trigger g in F} :: g in F ==> fresh(g)) && root in S && a in S && a != root && f in F && Keeps(root, S, F, c) && Noted(c)
    ensures "b" in c.all[root] && c.all[root]["b"] == DirNode(a) && c.paths[a] == ["b"] && c.home[f] == Seat(a, "x") && c.dpaths[f] == ["a"]
  {
    ghost var c1, c2;
    root, a, f, S, F, c1 := Removed(canHaveEmptyDirectories);
    RootIsApart(root, S, F, c1, a);
    assert root.items == c1.all[root];
    c2, c := MoveDir(root, "a", root, "b", root, S, F, c1, VfsForget.Busy(F));
    assert c.dpaths[f] == c1.dpaths[f];
  }

  /**
   * A new file in a directory "a" is removed while it is being written, the
   * directory is renamed to "b", and when the upload ends the file is listed
   * again: in "b", with "a" as the path of its directory.
   */
  method ListedWithOldPath(canHaveEmptyDirectories: bool) returns (root: Dir, a: Dir, f: File, ghost S: set<Dir>, ghost F: set<File>)
    ensures Valid(root, S, F) && root in S && a in S && f in F && "b" in root.items && root.items["b"] == DirNode(a) && a.path == ["b"]
    ensures "x" in a.items && a.items["x"] == FileNode(f) && f.d == a && f.leaf == "x" && f.dPath == ["a"]
    ensures !Noted(Snap(S, F))
  {
    ghost var c;
    root, a, f, S, F, c := Renamed(canHaveEmptyDirectories);
    ghost var c' := AddKnown(f, root, S, F, c);
    OldPathNow(root, a, f, S, F, c, c');
  }

  lemma {:induction false} OldPathNow(root: Dir, a: Dir, f: File, S: set<Dir>, F: set<File>, c: Cache, c': Cache)
    requires root in S && a in S && a != root && f in F && Keeps(root, S, F, c') && !Noted(c') && Spans(S, F, c)
    requires "b" in c.all[root] && c.all[root]["b"] == DirNode(a) && c.paths[a] == ["b"] && c.home[f] == Seat(a, "x") && c.dpaths[f] == ["a"]
    requires c' == Listing(c, a, "x", FileNode(f))
    ensures Valid(root, S, F) && !Noted(Snap(S, F)) && "b" in root.items && root.items["b"] == DirNode(a) && a.path == ["b"]
    ensures "x" in a.items && a.items["x"] == FileNode(f) && f.d == a && f.leaf == "x" && f.dPath == ["a"]
  {
    SnapStands(S, F, c');
  }

  // ---------- a lost namesake ----------

  /** A root with directories "p" and "q", each with a directory "n". */
  ghost predicate Twins(c: Cache, root: Dir, p: Dir, q: Dir, x: Dir, y: Dir) {
    && root in c.all && p in c.all && q in c.all && x in c.all && p != q && x != root && x != q && x != y && q in c.parents && c.parents[q] == Some(root)
    && "n" in c.all[p] && c.all[p]["n"] == DirNode(x) && "n" in c.all[q] && c.all[q]["n"] == DirNode(y)
  }

  method TwoDirs(canHaveEmptyDirectories: bool) returns (root: Dir, p: Dir, q: Dir, ghost S: set<Dir>, ghost c: Cache)
    ensures (forall d {:trigger d in S} :: d in S ==> fresh(d)) && root in S && p in S && q in S && p != q && root != p && root != q
    ensures Keeps(root, S, {}, c) && c.all[p] == map[] && c.all[q] == map[] && c.parents[q] == Some(root)
  {
    ghost var S1, c1;
    root, p, S1, c1 := OneDir(canHaveEmptyDirectories, "p");
    q, S, c := NewDir(root, "q", root, S1, c1);
    assert p in c1.parents;
  }

  method ThreeDirs(canHaveEmptyDirectories: bool) returns (root: Dir, p: Dir, q: Dir, y: Dir, ghost S: set<Dir>, ghost c: Cache)
    ensures (forall d {:trigger d in S} :: d in S ==> fresh(d)) && root in S && p in S && q in S && y in S && p != q
    ensures Keeps(root, S, {}, c) && c.all[p] == map[] && c.all[q] == map["n" := DirNode(y)] && c.parents[q] == Some(root)
  {
    ghost var S1, c1;
    root, p, q, S1, c1 := TwoDirs(canHaveEmptyDirectories);
    y, S, c := NewDir(q, "n", root, S1, c1);
    assert p in c1.parents && q in c1.parents;
  }

  method Pair(canHaveEmptyDirectories: bool) returns (root: Dir, p: Dir, q: Dir, x: Dir, y: Dir, ghost S: set<Dir>, ghost c: Cache)
    ensures (forall d {:trigger d in S} :: d in S ==> fresh(d)) && p in S && q in S && x in S && y in S && Keeps(root, S, {}, c)
    ensures Twins(c, root, p, q, x, y) && x.virtuals == 0
  {
    ghost var S1, c1;
    root, p, q, y, S1, c1 := ThreeDirs(canHaveEmptyDirectories);
    x, S, c := NewDir(p, "n", root, S1, c1);
    assert q in c1.parents && root in c1.parents;
  }

  lemma {:induction false} TwinIsApart(root: Dir, p: Dir, q: Dir, x: Dir, y: Dir, S: set<Dir>, c: Cache)
    requires Keeps(root, S, {}, c) && Twins(c, root, p, q, x, y)
    ensures !Inside(c.parents, x, q)
  {
    RootIsApart(root, S, {}, c, x);
    ForestNow(S, {}, c);
    UpUnfold<Dir>(c.parents, q);
  }

  /** What the move has made of the new parent. */
  lemma {:induction false} TwinIsLost(root: Dir, p: Dir, q: Dir, x: Dir, y: Dir, S: set<Dir>, c: Cache, c1: Cache, c': Cache)
    requires Sound(root, c) && Twins(c, root, p, q, x, y) && q in S && y in S && Keeps(root, S, {}, c')
    requires c1.all.Keys == c1.marks.Keys == c.all.Keys && c' == Rehung(c1, p, "n", q, "m", DirNode(x)) && c1.all[q] == Relisted(c.all[q], "n", "m", x)
    ensures Valid(root, S, {}) && "m" in q.items && q.items["m"] == DirNode(x) && "n" !in q.items
  {
    SnapStands(S, {}, c');
    RehungDest(c1, p, "n", q, "m", DirNode(x));
  }

  /**
   * Directories "p" and "q" each have a directory "n".  Moving the one in "p" to
   * "q" under the name "m" makes "q" forget its own "n".
   */
  method LostNamesake(canHaveEmptyDirectories: bool) returns (root: Dir, q: Dir, x: Dir, y: Dir, ghost S: set<Dir>, ghost c: Cache)
    ensures Valid(root, S, {}) && q in S && q in c.all && "n" in c.all[q] && c.all[q]["n"] == DirNode(y) && x != y
    ensures "m" in q.items && q.items["m"] == DirNode(x) && "n" !in q.items
  {
    var p;
    root, p, q, x, y, S, c := Pair(canHaveEmptyDirectories);
    TwinIsApart(root, p, q, x, y, S, c);
    assert p.items == c.all[p];
    ghost var c1, c';
    c1, c' := MoveDir(p, "n", q, "m", root, S, {}, c, VfsForget.Busy({}));
    TwinIsLost(root, p, q, x, y, S, c, c1, c');
  }
}
