/**
 * Renaming a directory: what stays cached below it gets its new path.
 */
module VfsRename {
  import opened Wrappers
  import opened VfsChains
  import opened VfsDir
  import opened VfsTree
  import VfsForget
  import VfsMoves

  /** The paths of the directories and the directory paths noted in the files. */
  datatype Names = Names(paths: map<Dir, Path>, dpaths: map<File, Path>)

  ghost function Paths(T: set<Dir>): (m: map<Dir, Path>)
    reads T`path
    ensures m.Keys == T
  {
    map d | d in T :: d.path
  }

  ghost function DirPaths(F: set<File>): (m: map<File, Path>)
    reads F`dPath
    ensures m.Keys == F
  {
    map f | f in F :: f.dPath
  }

  /** The path of each directory. */
  ghost predicate PathsAre(S: set<Dir>, paths: map<Dir, Path>)
    reads S`path
  {
    paths.Keys == S && forall x {:trigger paths[x]} :: x in S ==> paths[x] == x.path
  }

  /** The directory path noted in each file. */
  ghost predicate DirPathsAre(F: set<File>, dpaths: map<File, Path>)
    reads F`dPath
  {
    dpaths.Keys == F && forall f {:trigger dpaths[f]} :: f in F ==> dpaths[f] == f.dPath
  }

  lemma {:induction false} DirPathsNow(F: set<File>, dpaths: map<File, Path>)
    requires DirPathsAre(F, dpaths)
    ensures DirPaths(F) == dpaths
  {
  }

  /** Where a file belongs: its directory and its name there. */
  datatype Seat = Seat(dir: Dir, leaf: string)

  ghost predicate HomesAre(F: set<File>, home: map<File, Seat>)
    reads F`d, F`leaf
  {
    home.Keys == F && forall f {:trigger home[f]} :: f in F ==> home[f] == Seat(f.d, f.leaf)
  }

  /** The paths of these directories and those noted in the files. */
  ghost predicate NamesAre(T: set<Dir>, F: set<File>, v: Names)
    reads T`path, F`dPath
  {
    v == Names(Paths(T), DirPaths(F))
  }

  /** The parents inside the tree of top. */
  ghost function CutParents(T: set<Dir>, top: Dir): (m: map<Dir, Option<Dir>>)
    reads T`parent
    ensures m.Keys == T
  {
    map d | d in T :: if d == top then None else d.parent
  }

  /** What a rename relies on and leaves alone: parents, items and where the files belong. */
  datatype Shape = Shape(parents: map<Dir, Option<Dir>>, all: map<Dir, map<string, Node>>, home: map<File, Seat>)

  ghost predicate Now(T: set<Dir>, F: set<File>, top: Dir, t: Shape, v: Names)
    reads T`parent, T`items, T`path, F`d, F`leaf, F`dPath
  {
    match t
    case Shape(parents, all, home) =>
      parents == CutParents(T, top) && all == Items(T) && HomesAre(F, home) && v == Names(Paths(T), DirPaths(F))
  }

  /** Listed directories hang where they are listed, listed files are at home there under that name. */
  ghost predicate Proper(t: Shape) {
    && t.all.Keys == t.parents.Keys && Forest<Dir>(t.parents) && Hangs(t.parents, t.all)
    && forall x, n {:trigger t.all[x][n]} :: x in t.all && n in t.all[x] && t.all[x][n].FileNode? ==>
         t.all[x][n].file in t.home && t.home[t.all[x][n].file] == Seat(x, n)
  }

  /** A directory is listed under its name. */
  ghost predicate Named(t: Shape, paths: map<Dir, Path>) {
    forall x, n {:trigger t.all[x][n]} :: x in t.all && n in t.all[x] && t.all[x][n].DirNode? ==>
      t.all[x][n].dir in paths && NameOf(paths[t.all[x][n].dir]) == n
  }

  ghost predicate SameNames(v: Names, v': Names) {
    && v.paths.Keys == v'.paths.Keys && v.dpaths.Keys == v'.dpaths.Keys
    && forall x {:trigger v'.paths[x]} :: x in v'.paths ==> NameOf(v'.paths[x]) == NameOf(v.paths[x])
  }

  /** File f is listed where it belongs. */
  ghost predicate Shows(t: Shape, f: File)
    requires f in t.home
  {
    t.home[f].dir in t.all && t.home[f].leaf in t.all[t.home[f].dir] && t.all[t.home[f].dir][t.home[f].leaf] == FileNode(f)
  }

  /** Paths differ at most at and below d, and those noted in files only where these are listed. */
  ghost predicate SameOutside(t: Shape, d: Dir, v: Names, v': Names) {
    && (forall x {:trigger Inside(t.parents, d, x)} :: x in t.parents && !Inside(t.parents, d, x) && x in v.paths && x in v'.paths
          ==> v'.paths[x] == v.paths[x])
    && (forall f {:trigger t.home[f]} :: f in t.home && !(Inside(t.parents, d, t.home[f].dir) && Shows(t, f)) && f in v.dpaths && f in v'.dpaths
          ==> v'.dpaths[f] == v.dpaths[f])
  }

  /** x has path p, so its files say, and they belong there under the names that list them. */
  ghost predicate SettledAt(t: Shape, v: Names, x: Dir, p: Path) {
    && x in v.paths && v.paths[x] == p && x in t.all
    && forall n {:trigger t.all[x][n]} :: n in t.all[x] && t.all[x][n].FileNode? ==>
         t.all[x][n].file in v.dpaths && v.dpaths[t.all[x][n].file] == p
         && t.all[x][n].file in t.home && t.home[t.all[x][n].file] == Seat(x, n)
  }

  /** The files x lists note its path. */
  ghost predicate NotedAt(t: Shape, v: Names, x: Dir) {
    && x in t.all && x in v.paths
    && forall n {:trigger t.all[x][n]} :: n in t.all[x] && t.all[x][n].FileNode? ==>
         t.all[x][n].file in v.dpaths && v.dpaths[t.all[x][n].file] == v.paths[x]
  }

  /** Where the files noted the path of their directory they still do, but perhaps at d. */
  ghost predicate Carried(t: Shape, d: Dir, v: Names, v': Names) {
    forall x {:trigger NotedAt(t, v', x)} :: x in t.all && x != d && NotedAt(t, v, x) ==> NotedAt(t, v', x)
  }

  /** Everything cached at and below d has the path of d joined with the names leading to it. */
  ghost predicate Settled(t: Shape, v: Names, d: Dir, p: Path) {
    forall ks {:trigger Walk(t.all, d, ks)} :: Walk(t.all, d, ks).Some? ==> SettledAt(t, v, Walk(t.all, d, ks).value, p + ks)
  }

  /** The entry under name n of d is settled. */
  ghost predicate DoneAt(t: Shape, v: Names, node: Node, n: string, p: Path) {
    match node
    case FileNode(f) => f in v.dpaths && v.dpaths[f] == p
    case DirNode(c) => Settled(t, v, c, p + [n])
  }

  ghost predicate Done(t: Shape, v: Names, nodes: map<string, Node>, todo: set<string>, p: Path) {
    forall n {:trigger n in nodes} :: n in nodes && n !in todo ==> DoneAt(t, v, nodes[n], n, p)
  }

  // ---------- steps on the values ----------

  lemma {:induction false} SettledSame(t: Shape, v: Names, v': Names, c: Dir, p: Path)
    requires Proper(t) && c in t.parents && v'.paths.Keys == v.paths.Keys && v'.dpaths.Keys == v.dpaths.Keys
    requires forall x {:trigger Inside(t.parents, c, x)} :: Inside(t.parents, c, x) && x in v.paths ==> v'.paths[x] == v.paths[x]
    requires forall f {:trigger t.home[f]} :: f in t.home && Inside(t.parents, c, t.home[f].dir) && f in v.dpaths ==> v'.dpaths[f] == v.dpaths[f]
    requires Settled(t, v, c, p)
    ensures Settled(t, v', c, p)
  {
    forall ks | Walk(t.all, c, ks).Some?
      ensures SettledAt(t, v', Walk(t.all, c, ks).value, p + ks)
    {
      WalkInside(t.parents, t.all, c, ks);
      assert SettledAt(t, v, Walk(t.all, c, ks).value, p + ks);
    }
  }

  /** A change inside child c leaves the other entries of d as they are. */
  lemma {:induction false} DoneElsewhere(t: Shape, v: Names, v': Names, d: Dir, c: Dir, n: string, p: Path)
    requires Proper(t) && d in t.parents && HangsUnder(t.parents, c, d) && n in t.all[d]
    requires v'.paths.Keys == v.paths.Keys && v'.dpaths.Keys == v.dpaths.Keys
    requires SameOutside(t, c, v, v') && t.all[d][n] != DirNode(c) && DoneAt(t, v, t.all[d][n], n, p)
    ensures DoneAt(t, v', t.all[d][n], n, p)
  {
    if t.all[d][n].DirNode? {
      var e := t.all[d][n].dir;
      assert HangsAt(t.parents, t.all, d);
      forall x | Inside(t.parents, e, x)
        ensures !Inside(t.parents, c, x)
      {
        InsideApart(t.parents, d, e, c, x);
      }
      SettledSame(t, v, v', e, p + [n]);
    } else {
      UpUnfold<Dir>(t.parents, c);
    }
  }

  /** One more child directory is done. */
  lemma {:induction false} DoneMore(t: Shape, v: Names, v': Names, d: Dir, todo: set<string>, leaf: string, p: Path)
    requires Proper(t) && d in t.parents && leaf in t.all[d] && t.all[d][leaf].DirNode?
    requires Named(t, v.paths) && SameNames(v, v') && SameOutside(t, t.all[d][leaf].dir, v, v')
    requires Done(t, v, t.all[d], todo, p) && Settled(t, v', t.all[d][leaf].dir, p + [leaf])
    ensures Done(t, v', t.all[d], todo - {leaf}, p)
  {
    var c := t.all[d][leaf].dir;
    assert HangsAt(t.parents, t.all, d);
    forall n | n in t.all[d] && n !in todo - {leaf}
      ensures DoneAt(t, v', t.all[d][n], n, p)
    {
      if n != leaf {
        assert t.all[d][n].DirNode? && t.all[d][n].dir == c ==> n == leaf;
        DoneElsewhere(t, v, v', d, c, n, p);
      }
    }
  }

  /** One more file is done. */
  lemma {:induction false} DoneFile(t: Shape, v: Names, d: Dir, todo: set<string>, leaf: string, p: Path)
    requires Proper(t) && d in t.parents && leaf in t.all[d] && t.all[d][leaf].FileNode?
    requires Done(t, v, t.all[d], todo, p) && t.all[d][leaf].file in v.dpaths
    ensures Done(t, v.(dpaths := v.dpaths[t.all[d][leaf].file := p]), t.all[d], todo - {leaf}, p)
    ensures SameOutside(t, d, v, v.(dpaths := v.dpaths[t.all[d][leaf].file := p]))
  {
    var f := t.all[d][leaf].file;
    var v' := v.(dpaths := v.dpaths[f := p]);
    UpUnfold<Dir>(t.parents, d);
    assert HangsAt(t.parents, t.all, d) && t.home[f] == Seat(d, leaf);
    forall n | n in t.all[d] && n !in todo - {leaf}
      ensures DoneAt(t, v', t.all[d][n], n, p)
    {
      if n != leaf && t.all[d][n].DirNode? {
        var c := t.all[d][n].dir;
        UpUnfold<Dir>(t.parents, c);
        SettledSame(t, v, v', c, p + [n]);
      }
    }
  }

  /** Noting the path in a file of d touches no other directory. */
  lemma {:induction false} CarriedFile(t: Shape, v: Names, d: Dir, leaf: string, p: Path)
    requires Proper(t) && d in t.all && leaf in t.all[d] && t.all[d][leaf].FileNode? && t.all[d][leaf].file in v.dpaths
    ensures Carried(t, d, v, v.(dpaths := v.dpaths[t.all[d][leaf].file := p]))
  {
    var f := t.all[d][leaf].file;
    var v' := v.(dpaths := v.dpaths[f := p]);
    forall x | x != d && NotedAt(t, v, x)
      ensures NotedAt(t, v', x)
    {
      assert t.home[f] == Seat(d, leaf);
    }
  }

  /** Neither does the path of d. */
  lemma {:induction false} CarriedPath(t: Shape, v: Names, d: Dir, p: Path)
    ensures Carried(t, d, v, v.(paths := v.paths[d := p]))
  {
  }

  lemma {:induction false} CarriedMove(t: Shape, d: Dir, v: Names, p: Path, v': Names)
    requires Carried(t, d, v.(paths := v.paths[d := p]), v')
    ensures Carried(t, d, v, v')
  {
    CarriedPath(t, v, d, p);
    forall x | x in t.all && x != d && NotedAt(t, v, x)
      ensures NotedAt(t, v', x)
    {
      assert NotedAt(t, v.(paths := v.paths[d := p]), x);
    }
  }

  /** A change inside child c, which ends with the files of c noted, after one inside d. */
  lemma {:induction false} CarriedThen(t: Shape, d: Dir, c: Dir, v0: Names, v1: Names, v2: Names, p: Path)
    requires Carried(t, d, v0, v1) && Carried(t, c, v1, v2) && Settled(t, v2, c, p) && c in t.all
    ensures Carried(t, d, v0, v2)
  {
    assert Walk(t.all, c, []) == Some(c);
    assert SettledAt(t, v2, c, p + []);
    forall x | x != d && NotedAt(t, v0, x)
      ensures NotedAt(t, v2, x)
    {
      assert NotedAt(t, v1, x);
    }
  }

  lemma {:induction false} OutsideThen(t: Shape, d: Dir, c: Dir, v0: Names, v1: Names, v2: Names)
    requires Proper(t) && d in t.parents && HangsUnder(t.parents, c, d)
    requires v0.paths.Keys == v1.paths.Keys == v2.paths.Keys && v0.dpaths.Keys == v1.dpaths.Keys == v2.dpaths.Keys
    requires SameOutside(t, d, v0, v1) && SameOutside(t, c, v1, v2)
    ensures SameOutside(t, d, v0, v2)
    ensures d in v1.paths ==> v2.paths[d] == v1.paths[d]
  {
    forall x | Inside(t.parents, c, x)
      ensures Inside(t.parents, d, x) && x != d
    {
      InsideChild(t.parents, d, c, x);
    }
    assert !Inside(t.parents, c, d);
  }

  lemma {:induction false} SettledWhole(t: Shape, v: Names, d: Dir, p: Path)
    requires Proper(t) && d in t.all && d in v.paths && v.paths[d] == p && Done(t, v, t.all[d], {}, p)
    ensures Settled(t, v, d, p)
  {
    forall ks | Walk(t.all, d, ks).Some?
      ensures SettledAt(t, v, Walk(t.all, d, ks).value, p + ks)
    {
      if ks == [] {
        assert p + ks == p;
      } else {
        var c := t.all[d][ks[0]].dir;
        assert DoneAt(t, v, t.all[d][ks[0]], ks[0], p);
        assert Walk(t.all, c, ks[1..]) == Walk(t.all, d, ks);
        assert p + [ks[0]] + ks[1..] == p + ks;
      }
    }
  }

  // ---------- the code ----------

  method SetPath(d: Dir, p: Path, ghost T: set<Dir>, ghost F: set<File>, ghost top: Dir, ghost t: Shape, ghost v: Names)
    requires d in T && Now(T, F, top, t, v)
    modifies d`path
    ensures Now(T, F, top, t, v.(paths := v.paths[d := p]))
  {
    d.path := p;
    assert Paths(T) == v.paths[d := p];
  }

  /** File.renameDir. */
  method RenameDir(f: File, p: Path, ghost F: set<File>)
    requires f in F
    modifies f`dPath
    ensures DirPaths(F) == old(DirPaths(F))[f := p]
  {
    f.dPath := p;
  }

  /** The entry for d in its parent goes from its old name to the new one, which are the same here. */
  method Relist(d: Dir, p: Dir, from: string, to: string, ghost T: set<Dir>)
    requires p in T && from == to && from in p.items && p.items[from] == DirNode(d)
    modifies p`items
    ensures Items(T) == old(Items(T))
  {
    p.items := p.items - {from};
    p.items := p.items[to := DirNode(d)];
    assert p.items == old(p.items);
  }

  /** The first step of renameTree. */
  method MoveTo(d: Dir, dirPath: Path, ghost T: set<Dir>, ghost F: set<File>, ghost top: Dir, ghost t: Shape, ghost v: Names)
    returns (ghost v': Names)
    requires d in T && Now(T, F, top, t, v) && Proper(t)
    requires Listed(t, v, top, d, dirPath)
    modifies T`items, d`path
    ensures Now(T, F, top, t, v') && v' == v.(paths := v.paths[d := dirPath])
  {
    if d.path != dirPath {
      var p := d.parent.value;
      assert HangsAt(t.parents, t.all, p);
      Relist(d, p, NameOf(d.path), NameOf(dirPath), T);
      SetPath(d, dirPath, T, F, top, t, v);
      v' := v.(paths := v.paths[d := dirPath]);
    } else {
      v' := v;
      assert v.paths[d := dirPath] == v.paths;
    }
  }

  /** d is the top, already at its path, or listed by its parent under the name of both paths. */
  ghost predicate Listed(t: Shape, v: Names, top: Dir, d: Dir, dirPath: Path) {
    && d in v.paths && d in t.parents && NameOf(dirPath) == NameOf(v.paths[d])
    && if d == top then v.paths[d] == dirPath
       else t.parents[d].Some? && t.parents[d].value in t.all && NameOf(dirPath) in t.all[t.parents[d].value]
            && t.all[t.parents[d].value][NameOf(dirPath)] == DirNode(d)
  }

  /** renameTree. */
  method RenameTree(d: Dir, dirPath: Path, ghost T: set<Dir>, ghost F: set<File>, ghost top: Dir, ghost t: Shape, ghost v: Names)
    returns (ghost v': Names)
    requires d in T && Now(T, F, top, t, v) && Proper(t) && Named(t, v.paths) && Listed(t, v, top, d, dirPath)
    modifies T`items, T`path, F`dPath
    ensures Now(T, F, top, t, v') && SameNames(v, v') && SameOutside(t, d, v, v')
    ensures Settled(t, v', d, dirPath) && Carried(t, d, v, v')
    decreases T - Up<Dir>(t.parents, d)
  {
    v' := MoveTo(d, dirPath, T, F, top, t, v);
    CarriedPath(t, v, d, dirPath);
    UpUnfold<Dir>(t.parents, d);
    var nodes := d.items;
    var todo := nodes.Keys;
    while todo != {}
      invariant todo <= nodes.Keys && nodes == t.all[d]
      invariant Now(T, F, top, t, v') && SameNames(v, v') && SameOutside(t, d, v, v') && v'.paths[d] == dirPath
      invariant Done(t, v', nodes, todo, dirPath) && Carried(t, d, v, v')
      decreases todo
    {
      var leaf :| leaf in todo;
      if nodes[leaf].DirNode? {
        v' := RenameChild(d, dirPath, leaf, T, F, top, t, v, v', todo);
      } else {
        v' := RenameFile(d, dirPath, leaf, T, F, top, t, v', todo);
      }
      todo := todo - {leaf};
    }
    SettledWhole(t, v', d, dirPath);
  }

  /** One round of the loop, for a directory. */
  method RenameChild(d: Dir, dirPath: Path, leaf: string, ghost T: set<Dir>, ghost F: set<File>, ghost top: Dir, ghost t: Shape,
                     ghost v: Names, ghost v1: Names, ghost todo: set<string>)
    returns (ghost v': Names)
    requires d in T && Now(T, F, top, t, v1) && Proper(t) && Named(t, v.paths) && leaf in t.all[d] && t.all[d][leaf].DirNode?
    requires SameNames(v, v1) && SameOutside(t, d, v, v1) && v1.paths[d] == dirPath && Done(t, v1, t.all[d], todo, dirPath)
    requires Carried(t, d, v, v1)
    modifies T`items, T`path, F`dPath
    ensures Now(T, F, top, t, v') && SameNames(v, v') && SameOutside(t, d, v, v') && v'.paths[d] == dirPath
    ensures Done(t, v', t.all[d], todo - {leaf}, dirPath) && Carried(t, d, v, v')
    decreases T - Up<Dir>(t.parents, d), 0
  {
    var c := d.items[leaf].dir;
    assert HangsAt(t.parents, t.all, d);
    ChildIsSmaller(t.parents, d, c);
    v' := RenameTree(c, dirPath + [leaf], T, F, top, t, v1);
    OutsideThen(t, d, c, v, v1, v');
    CarriedThen(t, d, c, v, v1, v', dirPath + [leaf]);
    DoneMore(t, v1, v', d, todo, leaf, dirPath);
  }

  /** One round of the loop, for a file. */
  method RenameFile(d: Dir, dirPath: Path, leaf: string, ghost T: set<Dir>, ghost F: set<File>, ghost top: Dir, ghost t: Shape,
                    ghost v1: Names, ghost todo: set<string>)
    returns (ghost v': Names)
    requires d in T && Now(T, F, top, t, v1) && Proper(t) && leaf in t.all[d] && t.all[d][leaf].FileNode?
    requires Done(t, v1, t.all[d], todo, dirPath)
    modifies F`dPath
    ensures Now(T, F, top, t, v') && v'.paths == v1.paths && v'.dpaths.Keys == v1.dpaths.Keys && SameOutside(t, d, v1, v')
    ensures Done(t, v', t.all[d], todo - {leaf}, dirPath) && Carried(t, d, v1, v')
  {
    var f := d.items[leaf].file;
    CarriedFile(t, v1, d, leaf, dirPath);
    DoneFile(t, v1, d, todo, leaf, dirPath);
    RenameDir(f, dirPath, F);
    v' := v1.(dpaths := v1.dpaths[f := dirPath]);
  }

  // ---------- Dir.rename ----------

  /** The shape of the tree of d within a larger one. */
  ghost function CutShape(t: Shape, d: Dir): Shape {
    var cut := Cut<Dir>(t.parents, d);
    Shape(cut, map x | x in t.all && x in cut :: t.all[x], t.home)
  }

  lemma {:induction false} CutIsProper(t: Shape, d: Dir)
    requires Proper(t) && d in t.parents
    ensures Proper(CutShape(t, d))
  {
    var t' := CutShape(t, d);
    CutForest<Dir>(t.parents, d);
    UpUnfold<Dir>(t.parents, d);
    forall x | x in t'.all
      ensures HangsAt(t'.parents, t'.all, x)
    {
      assert HangsAt(t.parents, t.all, x);
      forall n | n in t.all[x] && t.all[x][n].DirNode?
        ensures HangsUnder(t'.parents, t.all[x][n].dir, x)
      {
        UpUnfold<Dir>(t.parents, t.all[x][n].dir);
      }
    }
  }

  /** Inside the tree of d nothing lists d, so its new path breaks no name. */
  lemma {:induction false} CutIsNamed(t: Shape, d: Dir, paths: map<Dir, Path>, paths': map<Dir, Path>)
    requires Proper(t) && d in t.parents && Named(t, paths)
    requires forall x :: x in CutShape(t, d).parents ==> x in paths' && (x != d && x in paths ==> paths'[x] == paths[x])
    ensures Named(CutShape(t, d), paths')
  {
    var t' := CutShape(t, d);
    CutIsProper(t, d);
    forall x, n | x in t'.all && n in t'.all[x] && t'.all[x][n].DirNode?
      ensures t'.all[x][n].dir in paths' && NameOf(paths'[t'.all[x][n].dir]) == n
    {
      assert HangsAt(t'.parents, t'.all, x);
      assert t.all[x][n] == t'.all[x][n];
    }
  }

  /** Every listed file has the listing directory as its own and is listed under its name. */
  ghost predicate AtHome(all: map<Dir, map<string, Node>>, home: map<File, Seat>) {
    forall x, n {:trigger all[x][n]} :: x in all && n in all[x] && all[x][n].FileNode? ==>
      all[x][n].file in home && home[all[x][n].file] == Seat(x, n)
  }

  lemma {:induction false} ProperAfterForget(parents: map<Dir, Option<Dir>>, s: VfsForget.Shot, s': VfsForget.Shot, home: map<File, Seat>,
                                             paths: map<Dir, Path>)
    requires VfsForget.Whole(parents, s') && VfsForget.Trimmed(s, s')
    requires AtHome(s.all, home) && Named(Shape(parents, s.all, home), paths)
    ensures Proper(Shape(parents, s'.all, home)) && Named(Shape(parents, s'.all, home), paths)
  {
    forall x, n | x in s'.all && n in s'.all[x]
      ensures x in s.all && n in s.all[x] && s.all[x][n] == s'.all[x][n]
    {
    }
  }

  /** After forgetting, the tree of d is fit for renaming. */
  lemma {:induction false} ReadyToRename(parents: map<Dir, Option<Dir>>, s: VfsForget.Shot, s': VfsForget.Shot, home: map<File, Seat>,
                                         d: Dir, paths: map<Dir, Path>, v: Names)
    requires VfsForget.Whole(parents, s') && VfsForget.Trimmed(s, s') && d in parents
    requires AtHome(s.all, home) && Named(Shape(parents, s.all, home), paths)
    requires v.paths.Keys == Cut<Dir>(parents, d).Keys && forall x :: x in v.paths && x != d && x in paths ==> v.paths[x] == paths[x]
    ensures Proper(CutShape(Shape(parents, s'.all, home), d)) && Named(CutShape(Shape(parents, s'.all, home), d), v.paths)
    ensures d in v.paths
  {
    var whole := Shape(parents, s'.all, home);
    ProperAfterForget(parents, s, s', home, paths);
    CutIsProper(whole, d);
    UpUnfold<Dir>(parents, d);
    CutIsNamed(whole, d, paths, v.paths);
  }

  /** The tree of d as it is. */
  lemma {:induction false} TreeNow(S: set<Dir>, F: set<File>, d: Dir, T: set<Dir>, t: Shape)
    requires d in S && t.parents == Parents(S) && t.all == Items(S) && HomesAre(F, t.home) && T == Cut<Dir>(t.parents, d).Keys
    ensures Now(T, F, d, CutShape(t, d), Names(Paths(T), DirPaths(F)))
  {
    assert CutParents(T, d) == Cut<Dir>(t.parents, d);
    assert Items(T) == CutShape(t, d).all;
  }

  /** After forgetting, the tree of d is fit for renaming. */
  lemma {:induction false} TreeReady(S: set<Dir>, F: set<File>, parents: map<Dir, Option<Dir>>, busy: set<File>,
                                     s: VfsForget.Shot, s': VfsForget.Shot, d: Dir, T: set<Dir>, newPath: Path,
                                     home: map<File, Seat>, paths: map<Dir, Path>)
    requires d in S && VfsForget.Now(S, F, parents, busy, s') && VfsForget.Whole(parents, s') && VfsForget.Trimmed(s, s')
    requires HomesAre(F, home) && PathsAre(S, paths) && T == Cut<Dir>(parents, d).Keys
    requires AtHome(s.all, home) && Named(Shape(parents, s.all, home), paths)
    ensures d in T && Now(T, F, d, CutShape(Shape(parents, s'.all, home), d), Names(Paths(T), DirPaths(F)))
    ensures Proper(CutShape(Shape(parents, s'.all, home), d))
    ensures Named(CutShape(Shape(parents, s'.all, home), d), Paths(T)[d := newPath])
  {
    UpUnfold<Dir>(parents, d);
    TreeNow(S, F, d, T, Shape(parents, s'.all, home));
    ReadyToRename(parents, s, s', home, d, paths, Names(Paths(T)[d := newPath], DirPaths(F)));
  }

  /** Files that are not listed in the tree keep the path they noted. */
  ghost predicate FilesOutside(t: Shape, v: Names, v': Names) {
    forall f {:trigger t.home[f]} :: f in t.home && !Shows(t, f) && f in v.dpaths && f in v'.dpaths ==> v'.dpaths[f] == v.dpaths[f]
  }

  /** The entries of the new parent after the move: the old name goes, whoever bears it there, and the new one is d. */
  function Relisted(items: map<string, Node>, oldName: string, newName: string, d: Dir): map<string, Node> {
    (items - {oldName})[newName := DirNode(d)]
  }

  /** The second half of rename. */
  method MoveTree(d: Dir, newParent: Dir, newPath: Path, ghost T: set<Dir>, ghost F: set<File>, ghost t: Shape, ghost v: Names)
    returns (ghost v': Names)
    requires d in T && newParent !in T && Now(T, F, d, t, v) && Proper(t) && Named(t, v.paths[d := newPath])
    modifies T`items, T`path, d`parent, d`hasRead, newParent`items, F`dPath
    ensures Now(T, F, d, t, v') && Settled(t, v', d, newPath)
    ensures SameNames(v.(paths := v.paths[d := newPath]), v') && FilesOutside(t, v, v') && Carried(t, d, v, v')
    ensures d.parent == Some(newParent)
    ensures !d.hasRead && newParent.items == Relisted(old(newParent.items), NameOf(old(d.path)), NameOf(newPath), d)
  {
    Reparent(d, newParent, newPath, T, F, t, v);
    v' := RenameTree(d, d.path, T, F, d, t, v.(paths := v.paths[d := newPath]));
    CarriedMove(t, d, v, newPath, v');
  }

  /** The new place of d: its parent, its path and its entry in the parent. */
  method Reparent(d: Dir, newParent: Dir, newPath: Path, ghost T: set<Dir>, ghost F: set<File>, ghost t: Shape, ghost v: Names)
    requires d in T && newParent !in T && Now(T, F, d, t, v)
    modifies d`parent, d`path, d`hasRead, newParent`items
    ensures Now(T, F, d, t, v.(paths := v.paths[d := newPath]))
    ensures d.parent == Some(newParent)
    ensures !d.hasRead && newParent.items == Relisted(old(newParent.items), NameOf(old(d.path)), NameOf(newPath), d)
  {
    var oldPath := d.path;
    Attach(d, newParent, T, F, t, v);
    SetPath(d, newPath, T, F, d, t, v);
    Enlist(d, newParent, NameOf(oldPath), NameOf(d.path), T, F, t, v.(paths := v.paths[d := newPath]));
  }

  /** The entry of d in its new parent; the old name goes there too. */
  method Enlist(d: Dir, newParent: Dir, oldName: string, newName: string, ghost T: set<Dir>, ghost F: set<File>, ghost t: Shape, ghost v: Names)
    requires newParent !in T && Now(T, F, d, t, v)
    modifies newParent`items
    ensures Now(T, F, d, t, v)
    ensures newParent.items == (old(newParent.items) - {oldName})[newName := DirNode(d)]
  {
    newParent.items := newParent.items - {oldName};
    newParent.items := newParent.items[newName := DirNode(d)];
  }

  method Attach(d: Dir, newParent: Dir, ghost T: set<Dir>, ghost F: set<File>, ghost t: Shape, ghost v: Names)
    requires d in T && Now(T, F, d, t, v)
    modifies d`parent, d`hasRead
    ensures Now(T, F, d, t, v) && d.parent == Some(newParent) && !d.hasRead
  {
    d.hasRead := false;
    d.parent := Some(newParent);
    assert CutParents(T, d) == t.parents;
  }

  /** The values are about these directories. */
  ghost predicate SpansAll(S: set<Dir>, parents: map<Dir, Option<Dir>>, s: VfsForget.Shot) {
    s.all.Keys == s.marks.Keys == s.counts.Keys == parents.Keys == S
  }

  /** The marks and counts are those of the directories. */
  ghost predicate MarksAt(S: set<Dir>, s: VfsForget.Shot)
    requires s.marks.Keys == s.counts.Keys == S
    reads S`virtual, S`virtuals
  {
    forall x {:trigger x.virtual} {:trigger x.virtuals} :: x in S ==> x.virtual == s.marks[x] && x.virtuals == s.counts[x]
  }

  /** The values are those of the directories, one by one. */
  ghost predicate StandsAt(S: set<Dir>, parents: map<Dir, Option<Dir>>, s: VfsForget.Shot)
    requires SpansAll(S, parents, s)
    reads S`parent, S`items, S`hasRead
  {
    && (forall x {:trigger x.parent} {:trigger x.hasRead} :: x in S ==> x.parent == parents[x] && (x.hasRead <==> x in s.read))
    && (forall x {:trigger x.items} :: x in S ==> x.items == s.all[x])
  }

  /** After the move the parent of d and that it has been read are not those any more. */
  ghost predicate PlacesAt(S: set<Dir>, parents: map<Dir, Option<Dir>>, s: VfsForget.Shot, d: Dir, newParent: Dir)
    requires parents.Keys == S
    reads S`parent, S`hasRead
  {
    forall x {:trigger x.parent} {:trigger x.hasRead} :: x in S ==>
      x.parent == (if x == d then Some(newParent) else parents[x]) && (x.hasRead <==> x in s.read && x != d)
  }

  /** The same after the move: the parent of d, that it has been read, and the items of the new parent are not those any more. */
  ghost predicate MovedAt(S: set<Dir>, parents: map<Dir, Option<Dir>>, s: VfsForget.Shot, d: Dir, newParent: Dir)
    requires SpansAll(S, parents, s)
    reads S`parent, S`items, S`hasRead
  {
    && PlacesAt(S, parents, s, d, newParent)
    && (forall x {:trigger x.items} :: x in S && x != newParent ==> x.items == s.all[x])
  }

  /** Outside the tree no directory has another path, and no file that is not listed in it notes another one. */
  ghost predicate Apart(S: set<Dir>, T: set<Dir>, F: set<File>, t: Shape, paths: map<Dir, Path>, dpaths: map<File, Path>)
    reads S`path, F`dPath
  {
    && (forall x {:trigger x.path} :: x in S && x !in T ==> x in paths && x.path == paths[x])
    && (forall f {:trigger f.dPath} :: f in F && f in t.home && !Shows(t, f) ==> f in dpaths && f.dPath == dpaths[f])
  }

  lemma {:induction false} NowStands(S: set<Dir>, F: set<File>, parents: map<Dir, Option<Dir>>, busy: set<File>, s: VfsForget.Shot)
    requires VfsForget.Now(S, F, parents, busy, s)
    ensures SpansAll(S, parents, s) && StandsAt(S, parents, s) && MarksAt(S, s)
  {
  }

  /** In the tree the last parts of the paths stay, but for d. */
  ghost predicate NamesStay(T: set<Dir>, d: Dir, newPath: Path, paths: map<Dir, Path>, paths': map<Dir, Path>) {
    forall x {:trigger paths'[x]} :: x in T ==> x in paths && x in paths' && NameOf(paths'[x]) == NameOf(if x == d then newPath else paths[x])
  }

  lemma {:induction false} PathsOf(S: set<Dir>, T: set<Dir>, paths: map<Dir, Path>)
    requires PathsAre(S, paths) && T <= S
    ensures SamePaths(T, paths, Paths(T))
  {
  }

  ghost predicate SamePaths(T: set<Dir>, paths: map<Dir, Path>, paths': map<Dir, Path>) {
    forall x {:trigger paths'[x]} :: x in T ==> x in paths && x in paths' && paths'[x] == paths[x]
  }

  lemma {:induction false} NamesStayThen(T: set<Dir>, d: Dir, newPath: Path, paths: map<Dir, Path>, v: Names, v': Names)
    requires SamePaths(T, paths, v.paths) && v.paths.Keys == T && d in T && SameNames(v.(paths := v.paths[d := newPath]), v')
    ensures NamesStay(T, d, newPath, paths, v'.paths)
  {
    forall x | x in T
      ensures x in v'.paths && NameOf(v'.paths[x]) == NameOf(if x == d then newPath else paths[x])
    {
      assert v.paths[x] == paths[x];
    }
  }

  lemma {:induction false} CarriedFrom(T: set<Dir>, t: Shape, d: Dir, paths: map<Dir, Path>, v: Names, v': Names)
    requires SamePaths(T, paths, v.paths) && v.paths.Keys == T && t.all.Keys == T && Carried(t, d, v, v')
    ensures Carried(t, d, Names(paths, v.dpaths), v')
  {
    forall x | x in t.all && x != d && NotedAt(t, Names(paths, v.dpaths), x)
      ensures NotedAt(t, v', x)
    {
      assert v.paths[x] == paths[x];
      assert NotedAt(t, v, x);
    }
  }

  /** Files that are not listed in the tree. */
  lemma {:induction false} FilesApart(T: set<Dir>, F: set<File>, top: Dir, t: Shape, v: Names, v': Names)
    requires Now(T, F, top, t, v') && FilesOutside(t, v, v') && v.dpaths.Keys == F
    ensures forall f {:trigger f.dPath} :: f in F && f in t.home && !Shows(t, f) ==> f in v.dpaths && f.dPath == v.dpaths[f]
  {
    forall f | f in F && f in t.home && !Shows(t, f)
      ensures f.dPath == v.dpaths[f]
    {
      assert v'.dpaths[f] == f.dPath;
    }
  }

  /** The move leaves all marks and counts alone. */
  method MoveMarks(d: Dir, newParent: Dir, newPath: Path, ghost S: set<Dir>, ghost T: set<Dir>, ghost F: set<File>, ghost t: Shape, ghost v: Names,
                   ghost s: VfsForget.Shot)
    returns (ghost v': Names)
    requires d in T && T <= S && newParent !in T && Now(T, F, d, t, v) && Proper(t) && Named(t, v.paths[d := newPath])
    requires s.marks.Keys == s.counts.Keys == S && MarksAt(S, s)
    modifies T`items, T`path, d`parent, d`hasRead, newParent`items, F`dPath
    ensures Now(T, F, d, t, v') && Settled(t, v', d, newPath)
    ensures SameNames(v.(paths := v.paths[d := newPath]), v') && FilesOutside(t, v, v') && Carried(t, d, v, v')
    ensures d.parent == Some(newParent) && !d.hasRead
    ensures newParent.items == Relisted(old(newParent.items), NameOf(old(d.path)), NameOf(newPath), d)
    ensures MarksAt(S, s)
  {
    v' := MoveTree(d, newParent, newPath, T, F, t, v);
  }

  /** And all places, but the one of d. */
  method MovePlaces(d: Dir, newParent: Dir, newPath: Path, ghost S: set<Dir>, ghost T: set<Dir>, ghost F: set<File>, ghost t: Shape, ghost v: Names,
                    ghost parents: map<Dir, Option<Dir>>, ghost s: VfsForget.Shot)
    returns (ghost v': Names)
    requires d in T && T <= S && newParent !in T && Now(T, F, d, t, v) && Proper(t) && Named(t, v.paths[d := newPath])
    requires SpansAll(S, parents, s) && MarksAt(S, s)
    requires forall x {:trigger x.parent} {:trigger x.hasRead} :: x in S ==> x.parent == parents[x] && (x.hasRead <==> x in s.read)
    modifies T`items, T`path, d`parent, d`hasRead, newParent`items, F`dPath
    ensures Now(T, F, d, t, v') && Settled(t, v', d, newPath)
    ensures SameNames(v.(paths := v.paths[d := newPath]), v') && FilesOutside(t, v, v') && Carried(t, d, v, v')
    ensures newParent.items == Relisted(old(newParent.items), NameOf(old(d.path)), NameOf(newPath), d)
    ensures MarksAt(S, s) && PlacesAt(S, parents, s, d, newParent)
  {
    v' := MoveMarks(d, newParent, newPath, S, T, F, t, v, s);
  }

  /** The move gives no directory and no file outside the tree another path. */
  method MoveApart(d: Dir, newParent: Dir, newPath: Path, ghost S: set<Dir>, ghost T: set<Dir>, ghost F: set<File>, ghost t: Shape, ghost v: Names,
                   ghost parents: map<Dir, Option<Dir>>, ghost s: VfsForget.Shot, ghost paths: map<Dir, Path>)
    returns (ghost v': Names)
    requires SpansAll(S, parents, s) && MarksAt(S, s)
    requires forall x {:trigger x.parent} {:trigger x.hasRead} :: x in S ==> x.parent == parents[x] && (x.hasRead <==> x in s.read)
    requires d in T && T <= S && newParent !in T && Now(T, F, d, t, v) && Proper(t) && Named(t, v.paths[d := newPath]) && PathsAre(S, paths)
    modifies T`items, T`path, d`parent, d`hasRead, newParent`items, F`dPath
    ensures Now(T, F, d, t, v') && Settled(t, v', d, newPath) && SameNames(v.(paths := v.paths[d := newPath]), v')
    ensures newParent.items == Relisted(old(newParent.items), NameOf(old(d.path)), NameOf(newPath), d)
    ensures Carried(t, d, v, v')
    ensures Apart(S, T, F, t, paths, v.dpaths) && MarksAt(S, s) && PlacesAt(S, parents, s, d, newParent)
  {
    v' := MovePlaces(d, newParent, newPath, S, T, F, t, v, parents, s);
    FilesApart(T, F, d, t, v, v');
  }

  /** The move leaves all marks and counts alone, and all items but those of the new parent. */
  method MoveStands(d: Dir, newParent: Dir, newPath: Path, ghost S: set<Dir>, ghost T: set<Dir>, ghost F: set<File>, ghost t: Shape, ghost v: Names,
                    ghost parents: map<Dir, Option<Dir>>, ghost s: VfsForget.Shot, ghost paths: map<Dir, Path>)
    returns (ghost v': Names)
    requires d in T && T <= S && newParent !in T && Now(T, F, d, t, v) && Proper(t) && Named(t, v.paths[d := newPath]) && PathsAre(S, paths)
    requires SpansAll(S, parents, s) && StandsAt(S, parents, s) && MarksAt(S, s) && forall x {:trigger t.all[x]} :: x in T ==> t.all[x] == s.all[x]
    modifies T`items, T`path, d`parent, d`hasRead, newParent`items, F`dPath
    ensures NamesAre(T, F, v') && HomesAre(F, t.home) && Settled(t, v', d, newPath) && NamesStay(T, d, newPath, paths, v'.paths)
    ensures newParent.items == Relisted(old(newParent.items), NameOf(old(d.path)), NameOf(newPath), d)
    ensures Carried(t, d, v, v')
    ensures Apart(S, T, F, t, paths, v.dpaths) && MarksAt(S, s) && MovedAt(S, parents, s, d, newParent)
  {
    PathsOf(S, T, paths);
    v' := MoveApart(d, newParent, newPath, S, T, F, t, v, parents, s, paths);
    NamesStayThen(T, d, newPath, paths, v, v');
    TreeItems(T, F, d, t, v', s);
  }

  /** The items of the tree are still those. */
  lemma {:induction false} TreeItems(T: set<Dir>, F: set<File>, top: Dir, t: Shape, v: Names, s: VfsForget.Shot)
    requires Now(T, F, top, t, v) && forall x {:trigger t.all[x]} :: x in T ==> x in s.all && t.all[x] == s.all[x]
    ensures forall x {:trigger x.items} :: x in T ==> x.items == s.all[x]
  {
    forall x | x in T
      ensures x.items == s.all[x]
    {
      assert t.all[x] == x.items;
    }
  }

  /** After the move the counts are exact just when nothing virtual moved along or the parent is the same. */
  lemma {:induction false} CountsAfterMove(S: set<Dir>, parents: map<Dir, Option<Dir>>, s: VfsForget.Shot, d: Dir, newParent: Dir)
    requires d in parents && newParent in parents && SpansAll(S, parents, s) && VfsForget.Whole(parents, s) && !Inside(parents, d, newParent)
    requires MovedAt(S, parents, s, d, newParent) && MarksAt(S, s)
    ensures Parents(S) == VfsMoves.Moved<Dir>(parents, d, newParent)
    ensures parents[d].Some? ==> (Counted(S) <==> s.counts[d] == 0 || parents[d] == Some(newParent))
  {
    assert Parents(S) == VfsMoves.Moved<Dir>(parents, d, newParent);
    assert Virtuals(S) == VfsForget.MarkNames(s.marks);
    assert Counts(S) == s.counts;
    if parents[d].Some? {
      VfsMoves.MoveIsExactWhen<Dir>(parents, VfsForget.MarkNames(s.marks), s.counts, d, parents[d].value, newParent);
    }
  }

  /** Directories have these paths. */
  ghost predicate DirsStay(S: set<Dir>, paths: map<Dir, Path>)
    requires paths.Keys == S
    reads S`path
  {
    forall x {:trigger paths[x]} {:trigger x.path} :: x in S ==> paths[x] == x.path
  }

  /** Directories and files have these paths, and the files belong there. */
  ghost predicate NodesStay(S: set<Dir>, F: set<File>, home: map<File, Seat>, paths: map<Dir, Path>, dpaths: map<File, Path>)
    requires paths.Keys == S && home.Keys == F && dpaths.Keys == F
    reads S`path, F`d, F`leaf, F`dPath
  {
    && DirsStay(S, paths)
    && (forall f {:trigger home[f]} {:trigger dpaths[f]} :: f in F ==> home[f] == Seat(f.d, f.leaf) && dpaths[f] == f.dPath)
  }

  /** Forgetting leaves the directories' paths alone. */
  method ForgetApart(d: Dir, ghost S: set<Dir>, ghost F: set<File>, ghost parents: map<Dir, Option<Dir>>,
                     ghost busy: set<File>, ghost pins: set<VfsForget.Pin>, ghost s: VfsForget.Shot, ghost paths: map<Dir, Path>)
    returns (ghost s': VfsForget.Shot)
    requires d in S && VfsForget.Now(S, F, parents, busy, s) && VfsForget.Good(parents, F, busy, pins, s)
    requires paths.Keys == S && DirsStay(S, paths)
    modifies S`items, S`virtual, S`hasRead, S`virtuals
    ensures VfsForget.Now(S, F, parents, busy, s') && VfsForget.Whole(parents, s') && VfsForget.Forgot(parents, d, pins, s, s')
    ensures VfsForget.Pinned(pins, s', busy) && VfsForget.Swept(s', busy, d)
    ensures DirsStay(S, paths)
  {
    var hasVirtual;
    hasVirtual, s' := VfsForget.ForgetAll(d, S, F, parents, busy, pins, s);
  }

  /** And those noted in the files. */
  method Forget(d: Dir, ghost S: set<Dir>, ghost F: set<File>, ghost parents: map<Dir, Option<Dir>>,
                ghost busy: set<File>, ghost pins: set<VfsForget.Pin>, ghost s: VfsForget.Shot, ghost home: map<File, Seat>, ghost paths: map<Dir, Path>, ghost dpaths: map<File, Path>)
    returns (ghost s': VfsForget.Shot)
    requires d in S && VfsForget.Now(S, F, parents, busy, s) && VfsForget.Good(parents, F, busy, pins, s)
    requires paths.Keys == S && home.Keys == F && dpaths.Keys == F && NodesStay(S, F, home, paths, dpaths)
    modifies S`items, S`virtual, S`hasRead, S`virtuals
    ensures VfsForget.Now(S, F, parents, busy, s') && VfsForget.Whole(parents, s') && VfsForget.Forgot(parents, d, pins, s, s')
    ensures VfsForget.Pinned(pins, s', busy) && VfsForget.Swept(s', busy, d)
    ensures NodesStay(S, F, home, paths, dpaths)
  {
    s' := ForgetApart(d, S, F, parents, busy, pins, s, paths);
  }

  /** After forgetting, everything is ready for the move. */
  lemma {:induction false} ReadyToMove(d: Dir, newPath: Path, S: set<Dir>, F: set<File>, parents: map<Dir, Option<Dir>>, busy: set<File>,
                                       s: VfsForget.Shot, s': VfsForget.Shot, home: map<File, Seat>, paths: map<Dir, Path>, dpaths: map<File, Path>)
    returns (T: set<Dir>, t: Shape, v: Names)
    requires d in S && VfsForget.Now(S, F, parents, busy, s') && VfsForget.Whole(parents, s') && VfsForget.Trimmed(s, s')
    requires paths.Keys == S && home.Keys == F && dpaths.Keys == F && NodesStay(S, F, home, paths, dpaths)
    requires AtHome(s.all, home) && Named(Shape(parents, s.all, home), paths)
    ensures T == Cut<Dir>(parents, d).Keys && t == CutShape(Shape(parents, s'.all, home), d) && v.dpaths == dpaths
    ensures d in T && Now(T, F, d, t, v) && Proper(t) && Named(t, v.paths[d := newPath])
    ensures SpansAll(S, parents, s') && StandsAt(S, parents, s') && MarksAt(S, s') && SamePaths(T, paths, v.paths) && v.paths.Keys == t.all.Keys == T
  {
    T := Cut<Dir>(parents, d).Keys;
    t, v := CutShape(Shape(parents, s'.all, home), d), Names(Paths(T), dpaths);
    TreeReady(S, F, parents, busy, s, s', d, T, newPath, home, paths);
    DirPathsNow(F, dpaths);
    PathsOf(S, T, paths);
    NowStands(S, F, parents, busy, s');
  }

  /**
   * Dir.rename: forget what can be forgotten, move d, and give the rest of the
   * tree its new paths.
   */
  method Rename(d: Dir, newParent: Dir, newPath: Path, ghost S: set<Dir>, ghost F: set<File>, ghost parents: map<Dir, Option<Dir>>, ghost busy: set<File>,
                ghost pins: set<VfsForget.Pin>, ghost s: VfsForget.Shot, ghost home: map<File, Seat>, ghost paths: map<Dir, Path>, ghost dpaths: map<File, Path>)
    returns (ghost T: set<Dir>, ghost s': VfsForget.Shot, ghost v': Names)
    requires d in S && newParent in S && VfsForget.Now(S, F, parents, busy, s) && VfsForget.Good(parents, F, busy, pins, s)
    requires HomesAre(F, home) && PathsAre(S, paths) && DirPathsAre(F, dpaths) && AtHome(s.all, home) && Named(Shape(parents, s.all, home), paths)
    requires !Inside(parents, d, newParent)
    modifies S`items, S`virtual, S`hasRead, S`virtuals, S`path, d`parent, F`dPath
    ensures T == Cut<Dir>(parents, d).Keys && VfsForget.Whole(parents, s') && VfsForget.Forgot(parents, d, pins, s, s')
    ensures VfsForget.Pinned(pins, s', busy) && VfsForget.Swept(s', busy, d)
    ensures NamesAre(T, F, v') && HomesAre(F, home)
    ensures Settled(CutShape(Shape(parents, s'.all, home), d), v', d, newPath) && NamesStay(T, d, newPath, paths, v'.paths)
    ensures Carried(CutShape(Shape(parents, s'.all, home), d), d, Names(paths, dpaths), v')
    ensures Apart(S, T, F, CutShape(Shape(parents, s'.all, home), d), paths, dpaths) && SpansAll(S, parents, s') && MarksAt(S, s') && MovedAt(S, parents, s', d, newParent)
    ensures newParent.items == Relisted(s.all[newParent], NameOf(paths[d]), NameOf(newPath), d)
    ensures parents[d].Some? ==> (Counted(S) <==> s'.counts[d] == 0 || parents[d] == Some(newParent))
  {
    ghost var t, v;
    s' := Forget(d, S, F, parents, busy, pins, s, home, paths, dpaths);
    T, t, v := ReadyToMove(d, newPath, S, F, parents, busy, s, s', home, paths, dpaths);
    v' := MoveStands(d, newParent, newPath, S, T, F, t, v, parents, s', paths);
    CarriedFrom(T, t, d, paths, v, v');
    CountsAfterMove(S, parents, s', d, newParent);
  }
}
