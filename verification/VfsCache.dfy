/**
 * The directory cache as one value, what every step keeps of it, and the steps
 * as changes of that value.
 */
module VfsCache {
  import opened Wrappers
  import opened VfsChains
  import opened VfsDir
  import opened VfsTree
  import opened VfsRename
  import VfsForget

  /** Where the directories hang, what they list, their marks and paths, where the files belong and the directory paths they note. */
  datatype Cache = Cache(
    parents: map<Dir, Option<Dir>>,
    all: map<Dir, map<string, Node>>,
    marks: map<Dir, map<string, VState>>,
    paths: map<Dir, Path>,
    home: map<File, Seat>,
    dpaths: map<File, Path>)

  ghost function Homes(F: set<File>): (m: map<File, Seat>)
    reads F`d, F`leaf
    ensures m.Keys == F
  {
    map f | f in F :: Seat(f.d, f.leaf)
  }

  ghost function Snap(S: set<Dir>, F: set<File>): Cache
    reads S`parent, S`items, S`virtual, S`path, F`d, F`leaf, F`dPath
  {
    Cache(Parents(S), Items(S), VfsForget.Marks(S), Paths(S), Homes(F), DirPaths(F))
  }

  /** The values are about these directories and files. */
  ghost predicate Spans(S: set<Dir>, F: set<File>, c: Cache) {
    c.parents.Keys == c.all.Keys == c.marks.Keys == c.paths.Keys == S && c.home.Keys == c.dpaths.Keys == F
  }

  /** The values are those of the directories and files, one by one. */
  ghost predicate Stands(S: set<Dir>, F: set<File>, c: Cache)
    reads S`parent, S`items, S`virtual, S`path, F`d, F`leaf, F`dPath
  {
    && Spans(S, F, c)
    && (forall x {:trigger x.parent} {:trigger x.path} :: x in S ==> x.parent == c.parents[x] && x.path == c.paths[x])
    && (forall x {:trigger x.items} {:trigger x.virtual} :: x in S ==> x.items == c.all[x] && x.virtual == c.marks[x])
    && (forall f {:trigger f.d} {:trigger f.leaf} {:trigger f.dPath} :: f in F ==> Seat(f.d, f.leaf) == c.home[f] && f.dPath == c.dpaths[f])
  }

  lemma {:induction false} SnapStands(S: set<Dir>, F: set<File>, c: Cache)
    ensures Stands(S, F, c) <==> c == Snap(S, F)
  {
    if Stands(S, F, c) {
      assert c.parents == Parents(S) && c.all == Items(S) && c.marks == VfsForget.Marks(S) && c.paths == Paths(S) && c.home == Homes(F) && c.dpaths == DirPaths(F);
    }
  }

  /** Each directory's files are known and listed once. */
  ghost predicate Filed(F: set<File>, all: map<Dir, map<string, Node>>) {
    forall d {:trigger d in all} :: d in all ==> Known(F, all[d]) && Distinct(all[d])
  }

  /** A directory is listed under the last part of its path. */
  ghost predicate Titled(all: map<Dir, map<string, Node>>, paths: map<Dir, Path>) {
    forall x, n {:trigger all[x][n]} :: x in all && n in all[x] && all[x][n].DirNode? ==>
      all[x][n].dir in paths && NameOf(paths[all[x][n].dir]) == n
  }

  ghost function ShapeOf(c: Cache): Shape {
    Shape(c.parents, c.all, c.home)
  }

  ghost function NamesOf(c: Cache): Names {
    Names(c.paths, c.dpaths)
  }

  /** What names lead to from d has these names after p as its path. */
  ghost predicate Laid(all: map<Dir, map<string, Node>>, paths: map<Dir, Path>, d: Dir, p: Path) {
    forall ks {:trigger Walk(all, d, ks)} :: Walk(all, d, ks).Some? ==> Walk(all, d, ks).value in paths && paths[Walk(all, d, ks).value] == p + ks
  }

  /** Every directory reached from root has as its path that of root and the names leading there. */
  ghost predicate Placed(root: Dir, c: Cache) {
    root in c.paths && Laid(c.all, c.paths, root, c.paths[root])
  }

  /** Every listed file notes the path of its directory. */
  ghost predicate Noted(c: Cache) {
    forall x {:trigger NotedAt(ShapeOf(c), NamesOf(c), x)} :: x in c.all ==> NotedAt(ShapeOf(c), NamesOf(c), x)
  }

  /** The files belong to known directories. */
  ghost predicate Housed(c: Cache) {
    forall f {:trigger c.home[f]} :: f in c.home ==> c.home[f].dir in c.parents
  }

  /** Cached directories hang where they are listed, under their names, and known files are at home where they are listed. */
  ghost predicate Tidy(c: Cache) {
    && c.all.Keys == c.parents.Keys && c.paths.Keys == c.parents.Keys && c.dpaths.Keys == c.home.Keys && Housed(c)
    && Hangs(c.parents, c.all) && Filed(c.home.Keys, c.all) && AtHome(c.all, c.home) && Titled(c.all, c.paths)
  }

  /** A tidy cache whose directories have the right paths. */
  ghost predicate Sound(root: Dir, c: Cache) {
    root in c.parents && c.parents[root].None? && Tidy(c) && Placed(root, c)
  }

  /** The items and marks of d are replaced. */
  function WithNodes(c: Cache, d: Dir, items: map<string, Node>, marks: map<string, VState>): Cache {
    c.(all := c.all[d := items], marks := c.marks[d := marks])
  }

  // ---------- the items of one directory change ----------

  /** All directories are still there, and only the items of d differ. */
  ghost predicate Kept(c: Cache, c': Cache, d: Dir) {
    forall x {:trigger x in c.parents} :: x in c.parents ==>
      && x in c'.parents && x in c.all && x in c'.all && x in c.paths && x in c'.paths
      && c'.parents[x] == c.parents[x] && c'.paths[x] == c.paths[x] && (x != d ==> c'.all[x] == c.all[x])
  }

  /** New directories hang under d and are empty. */
  ghost predicate NewAreBlank(c: Cache, c': Cache, d: Dir) {
    forall x {:trigger x in c'.parents} :: x in c'.parents && x !in c.parents ==>
      x in c'.all && c'.all[x] == map[] && c'.parents[x] == Some(d)
  }

  ghost predicate HomesKept(c: Cache, c': Cache) {
    forall f {:trigger f in c.home} :: f in c.home ==>
      f in c'.home && c'.home[f] == c.home[f] && (f in c.dpaths ==> f in c'.dpaths && c'.dpaths[f] == c.dpaths[f])
  }

  /** What d lists under n it listed before, or it is a new directory or a file that belongs there. */
  ghost predicate OldOrNew(c: Cache, c': Cache, d: Dir, n: string)
    requires d in c.all && d in c.paths && d in c'.all && n in c'.all[d]
  {
    || (n in c.all[d] && c.all[d][n] == c'.all[d][n])
    || match c'.all[d][n]
       case DirNode(x) => x in c'.parents && x !in c.parents && x in c'.paths && c'.paths[x] == c.paths[d] + [n]
       case FileNode(f) => f in c'.home && c'.home[f] == Seat(d, n)
  }

  /** New files belong to d. */
  ghost predicate NewBelong(c: Cache, c': Cache, d: Dir) {
    forall f {:trigger f in c'.home} :: f in c'.home && f !in c.home ==> c'.home[f].dir == d
  }

  ghost predicate Edited(c: Cache, c': Cache, d: Dir) {
    && d in c.parents && Kept(c, c', d) && NewAreBlank(c, c', d) && HomesKept(c, c') && NewBelong(c, c', d)
    && d in c.all && d in c.paths && d in c'.all && Distinct(c'.all[d])
    && (forall n {:trigger OldOrNew(c, c', d, n)} :: n in c'.all[d] ==> OldOrNew(c, c', d, n))
    && c'.all.Keys == c'.parents.Keys && c'.paths.Keys == c'.parents.Keys && c'.dpaths.Keys == c'.home.Keys
  }

  lemma {:induction false} EditHangs(c: Cache, c': Cache, d: Dir)
    requires Tidy(c) && Edited(c, c', d)
    ensures Hangs(c'.parents, c'.all)
  {
    forall x | x in c'.all
      ensures HangsAt(c'.parents, c'.all, x)
    {
      if x in c.parents {
        assert HangsAt(c.parents, c.all, x);
        forall n | n in c'.all[x] && c'.all[x][n].DirNode?
          ensures HangsUnder(c'.parents, c'.all[x][n].dir, x)
        {
          assert x == d ==> OldOrNew(c, c', d, n);
          if n in c.all[x] && c.all[x][n] == c'.all[x][n] {
            assert HangsUnder(c.parents, c.all[x][n].dir, x);
          }
        }
      }
    }
  }

  lemma {:induction false} EditFiles(c: Cache, c': Cache, d: Dir)
    requires Tidy(c) && Edited(c, c', d)
    ensures Filed(c'.home.Keys, c'.all) && AtHome(c'.all, c'.home) && Housed(c')
  {
    forall x, n | x in c'.all && n in c'.all[x] && c'.all[x][n].FileNode?
      ensures c'.all[x][n].file in c'.home && c'.home[c'.all[x][n].file] == Seat(x, n)
    {
      assert x in c.parents;
      assert x == d ==> OldOrNew(c, c', d, n);
      if n in c.all[x] && c.all[x][n] == c'.all[x][n] {
        assert c.home[c.all[x][n].file] == Seat(x, n);
      }
    }
    forall x | x in c'.all
      ensures Known(c'.home.Keys, c'.all[x]) && Distinct(c'.all[x])
    {
      if x in c.parents {
        assert x in c.all;
      }
    }
  }

  lemma {:induction false} EditTitles(c: Cache, c': Cache, d: Dir)
    requires Tidy(c) && Edited(c, c', d)
    ensures Titled(c'.all, c'.paths)
  {
    forall x, n | x in c'.all && n in c'.all[x] && c'.all[x][n].DirNode?
      ensures c'.all[x][n].dir in c'.paths && NameOf(c'.paths[c'.all[x][n].dir]) == n
    {
      assert x in c.parents;
      assert x == d ==> OldOrNew(c, c', d, n);
      if n in c.all[x] && c.all[x][n] == c'.all[x][n] {
        assert c.all[x][n].dir in c.parents;
      }
    }
  }

  /** One step of a walk after the edit. */
  lemma {:induction false} EditStep(c: Cache, c': Cache, d: Dir, x: Dir, n: string, z: Dir)
    requires Tidy(c) && Edited(c, c', d) && x in c.parents && n in c'.all[x] && c'.all[x][n] == DirNode(z)
    ensures (z in c.parents && n in c.all[x] && c.all[x][n] == DirNode(z)) || (x == d && z !in c.parents && z in c'.all && c'.all[z] == map[])
  {
    assert x == d ==> OldOrNew(c, c', d, n);
    assert HangsAt(c.parents, c.all, x);
  }

  /** y is what a walk from x by ks ends at, or a new directory that d lists under the last of ks. */
  ghost predicate WalkedOrNew(c: Cache, c': Cache, d: Dir, x: Dir, ks: seq<string>, y: Dir) {
    || (y in c.parents && Walk(c.all, x, ks) == Some(y))
    || (y !in c.parents && ks != [] && Walk(c.all, x, ks[..|ks| - 1]) == Some(d) && d in c'.all
        && ks[|ks| - 1] in c'.all[d] && c'.all[d][ks[|ks| - 1]] == DirNode(y))
  }

  lemma {:induction false} WalkedBefore(c: Cache, c': Cache, d: Dir, x: Dir, z: Dir, ks: seq<string>, y: Dir)
    requires ks != [] && x in c.all && ks[0] in c.all[x] && c.all[x][ks[0]] == DirNode(z) && WalkedOrNew(c, c', d, z, ks[1..], y)
    ensures WalkedOrNew(c, c', d, x, ks, y)
  {
    if y !in c.parents {
      assert ks[..|ks| - 1][1..] == ks[1..][..|ks| - 2];
    }
  }

  lemma {:induction false} EditWalk(c: Cache, c': Cache, d: Dir, x: Dir, ks: seq<string>)
    requires Tidy(c) && Edited(c, c', d) && x in c.parents && Walk(c'.all, x, ks).Some?
    ensures WalkedOrNew(c, c', d, x, ks, Walk(c'.all, x, ks).value)
    decreases |ks|
  {
    if ks != [] {
      var z := c'.all[x][ks[0]].dir;
      EditStep(c, c', d, x, ks[0], z);
      if z in c.parents {
        EditWalk(c, c', d, z, ks[1..]);
        WalkedBefore(c, c', d, x, z, ks, Walk(c'.all, x, ks).value);
      } else {
        assert ks[1..] == [];
        assert ks[..|ks| - 1] == [];
      }
    }
  }

  lemma {:induction false} EditPlaced(root: Dir, c: Cache, c': Cache, d: Dir)
    requires Sound(root, c) && Edited(c, c', d)
    ensures Placed(root, c')
  {
    forall ks | Walk(c'.all, root, ks).Some?
      ensures var y := Walk(c'.all, root, ks).value; y in c'.paths && c'.paths[y] == c.paths[root] + ks
    {
      EditPlacedAt(root, c, c', d, ks);
    }
  }

  lemma {:induction false} EditPlacedAt(root: Dir, c: Cache, c': Cache, d: Dir, ks: seq<string>)
    requires Sound(root, c) && Edited(c, c', d) && Walk(c'.all, root, ks).Some?
    ensures var y := Walk(c'.all, root, ks).value; y in c'.paths && c'.paths[y] == c.paths[root] + ks
  {
    var p := c.paths[root];
    EditWalk(c, c', d, root, ks);
    var y := Walk(c'.all, root, ks).value;
    if y in c.parents {
      assert c'.paths[y] == c.paths[y];
    } else {
      var last := |ks| - 1;
      assert c.paths[d] == p + ks[..last];
      assert OldOrNew(c, c', d, ks[last]);
      assert HangsAt(c.parents, c.all, d);
      assert p + ks[..last] + [ks[last]] == p + ks;
    }
  }

  /** The files d lists it listed before, or they note its path. */
  ghost predicate NotedNew(c: Cache, c': Cache, d: Dir)
    requires d in c.all && d in c.paths && d in c'.all
  {
    forall n {:trigger c'.all[d][n]} :: n in c'.all[d] && c'.all[d][n].FileNode? ==>
      || (n in c.all[d] && c.all[d][n] == c'.all[d][n])
      || (c'.all[d][n].file in c'.dpaths && c'.dpaths[c'.all[d][n].file] == c.paths[d])
  }

  lemma {:induction false} NotedAfterEdit(c: Cache, c': Cache, d: Dir)
    requires Tidy(c) && Noted(c) && Edited(c, c', d) && NotedNew(c, c', d)
    ensures Noted(c')
  {
    forall x | x in c'.all
      ensures NotedAt(ShapeOf(c'), NamesOf(c'), x)
    {
      if x in c.parents {
        assert NotedAt(ShapeOf(c), NamesOf(c), x);
        forall n | n in c'.all[x] && c'.all[x][n].FileNode?
          ensures c'.all[x][n].file in c'.dpaths && c'.dpaths[c'.all[x][n].file] == c'.paths[x]
        {
          if n in c.all[x] && c.all[x][n] == c'.all[x][n] {
            assert c.all[x][n].file in c.home;
          }
        }
      }
    }
  }

  lemma {:induction false} SoundAfterEdit(root: Dir, c: Cache, c': Cache, d: Dir)
    requires Sound(root, c) && Edited(c, c', d)
    ensures Sound(root, c')
  {
    EditHangs(c, c', d);
    EditFiles(c, c', d);
    EditTitles(c, c', d);
    EditPlaced(root, c, c', d);
  }

  /**
   * Known file f is listed by d under its name, whatever d listed there: the
   * cache stays sound if and only if f belongs to d, and the files' paths stay
   * right if and only if f notes the path of d.
   */
  lemma {:induction false} SoundAfterAddWhen(root: Dir, c: Cache, f: File, d: Dir, marks: map<string, VState>)
    requires Sound(root, c) && f in c.home && d in c.all
    ensures var c' := WithNodes(c, d, c.all[d][c.home[f].leaf := FileNode(f)], marks);
            && (Sound(root, c') <==> c.home[f].dir == d)
            && (Noted(c) ==> (Noted(c') <==> c.dpaths[f] == c.paths[d]))
  {
    var leaf := c.home[f].leaf;
    var c' := WithNodes(c, d, c.all[d][leaf := FileNode(f)], marks);
    assert c'.all[d][leaf] == FileNode(f);
    if c.home[f].dir == d {
      AddIsEdit(c, f, marks);
      SoundAfterEdit(root, c, c', d);
    }
    if Noted(c) {
      NotedAfterAddWhen(c, f, d, marks);
    }
  }

  lemma {:induction false} AddIsEdit(c: Cache, f: File, marks: map<string, VState>)
    requires Tidy(c) && f in c.home
    ensures var d := c.home[f].dir; Edited(c, WithNodes(c, d, c.all[d][c.home[f].leaf := FileNode(f)], marks), d)
  {
    var d, leaf := c.home[f].dir, c.home[f].leaf;
    var c' := WithNodes(c, d, c.all[d][leaf := FileNode(f)], marks);
    forall m, n | m in c'.all[d] && n in c'.all[d] && c'.all[d][m].FileNode? && c'.all[d][m] == c'.all[d][n]
      ensures m == n
    {
      assert m != leaf ==> c.home[c.all[d][m].file] == Seat(d, m);
      assert n != leaf ==> c.home[c.all[d][n].file] == Seat(d, n);
    }
    forall n | n in c'.all[d]
      ensures OldOrNew(c, c', d, n)
    {
    }
  }

  lemma {:induction false} NotedAfterAddWhen(c: Cache, f: File, d: Dir, marks: map<string, VState>)
    requires Tidy(c) && Noted(c) && f in c.home && d in c.all
    ensures Noted(WithNodes(c, d, c.all[d][c.home[f].leaf := FileNode(f)], marks)) <==> c.dpaths[f] == c.paths[d]
  {
    var leaf := c.home[f].leaf;
    var c' := WithNodes(c, d, c.all[d][leaf := FileNode(f)], marks);
    if c.dpaths[f] == c.paths[d] {
      forall x | x in c'.all
        ensures NotedAt(ShapeOf(c'), NamesOf(c'), x)
      {
        assert NotedAt(ShapeOf(c), NamesOf(c), x);
      }
    } else {
      assert c'.all[d][leaf] == FileNode(f);
      assert !NotedAt(ShapeOf(c'), NamesOf(c'), d);
    }
  }

  // ---------- items are dropped ----------

  /** Nothing is listed that was not listed before. */
  ghost predicate Dropped(c: Cache, c': Cache) {
    && c'.parents == c.parents && c'.paths == c.paths && c'.home == c.home && c'.dpaths == c.dpaths && c'.all.Keys == c.all.Keys
    && (forall x, n {:trigger c'.all[x][n]} :: x in c'.all && n in c'.all[x] ==> x in c.all && n in c.all[x] && c'.all[x][n] == c.all[x][n])
  }

  lemma {:induction false} DropTidy(c: Cache, c': Cache)
    requires Tidy(c) && Dropped(c, c')
    ensures Tidy(c')
  {
    forall x | x in c'.all
      ensures HangsAt(c'.parents, c'.all, x)
    {
      assert HangsAt(c.parents, c.all, x);
      forall n | n in c'.all[x] && c'.all[x][n].DirNode?
        ensures HangsUnder(c'.parents, c'.all[x][n].dir, x)
      {
        assert c.all[x][n] == c'.all[x][n];
      }
    }
    forall x | x in c'.all
      ensures Known(c'.home.Keys, c'.all[x]) && Distinct(c'.all[x])
    {
      assert x in c.all;
      assert forall n :: n in c'.all[x] ==> n in c.all[x] && c'.all[x][n] == c.all[x][n];
    }
  }

  /** Whatever can still be walked to was walked to by the same names. */
  lemma {:induction false} FewerWalks(all: map<Dir, map<string, Node>>, all': map<Dir, map<string, Node>>, x: Dir, ks: seq<string>)
    requires all'.Keys == all.Keys && Walk(all', x, ks).Some?
    requires forall y, n {:trigger all'[y][n]} :: y in all' && n in all'[y] && all'[y][n].DirNode? ==> n in all[y] && all'[y][n] == all[y][n]
    ensures Walk(all, x, ks) == Walk(all', x, ks) && Walk(all', x, ks).value in all'
    decreases |ks|
  {
    if ks != [] {
      assert all'[x][ks[0]] == all[x][ks[0]];
      FewerWalks(all, all', all'[x][ks[0]].dir, ks[1..]);
    }
  }

  lemma {:induction false} SoundAfterDrop(root: Dir, c: Cache, c': Cache)
    requires Sound(root, c) && Dropped(c, c')
    ensures Sound(root, c')
  {
    DropTidy(c, c');
    forall ks | Walk(c'.all, root, ks).Some?
      ensures var y := Walk(c'.all, root, ks).value; y in c'.paths && c'.paths[y] == c.paths[root] + ks
    {
      FewerWalks(c.all, c'.all, root, ks);
    }
  }

  lemma {:induction false} NotedAfterDrop(c: Cache, c': Cache)
    requires Noted(c) && Dropped(c, c')
    ensures Noted(c')
  {
    forall x | x in c'.all
      ensures NotedAt(ShapeOf(c'), NamesOf(c'), x)
    {
      assert NotedAt(ShapeOf(c), NamesOf(c), x);
      assert forall n {:trigger c'.all[x][n]} :: n in c'.all[x] ==> n in c.all[x] && c'.all[x][n] == c.all[x][n];
    }
  }

  // ---------- a directory moves ----------

  /** Directory x is listed by dest under newLeaf and nowhere else, and all else that is listed was so before. */
  ghost predicate DirMoved(c: Cache, c': Cache, x: Dir, dest: Dir, newLeaf: string) {
    && c'.all.Keys == c.all.Keys && c'.paths.Keys == c.paths.Keys && c'.parents.Keys == c.parents.Keys && c'.home == c.home
    && c'.dpaths.Keys == c.dpaths.Keys && x in c.parents && dest in c.parents
    && (forall y {:trigger c'.parents[y]} :: y in c.parents ==> c'.parents[y] == if y == x then Some(dest) else c.parents[y])
    && (forall y {:trigger c'.paths[y]} :: y in c.paths && y != x ==> NameOf(c'.paths[y]) == NameOf(c.paths[y]))
    && x in c'.paths && NameOf(c'.paths[x]) == newLeaf
    && (forall y, n {:trigger c'.all[y][n]} :: y in c'.all && n in c'.all[y] ==>
          (y == dest && n == newLeaf && c'.all[y][n] == DirNode(x))
          || (y in c.all && n in c.all[y] && c'.all[y][n] == c.all[y][n] && c.all[y][n] != DirNode(x)))
  }

  /** The tree t of x is settled at its new path; paths outside of it are as before, and those noted in files it does not list. */
  ghost predicate TreeMoved(c: Cache, c': Cache, x: Dir, newPath: Path, t: Shape) {
    && Proper(t) && x in t.parents && t.home == c.home && Settled(t, NamesOf(c'), x, newPath) && Carried(t, x, NamesOf(c), NamesOf(c'))
    && ItemsOf(c', t) && PathsOutside(c, c', x) && DirPathsOutside(c, c', t)
  }

  /** The tree t lists what the cache does. */
  ghost predicate ItemsOf(c: Cache, t: Shape) {
    forall y {:trigger t.all[y]} :: y in t.parents ==> y in t.all && y in c.all && c.all[y] == t.all[y]
  }

  ghost predicate PathsOutside(c: Cache, c': Cache, x: Dir) {
    forall y {:trigger c'.paths[y]} :: y in c.paths && !Inside(c.parents, x, y) ==> y in c'.paths && c'.paths[y] == c.paths[y]
  }

  ghost predicate DirPathsOutside(c: Cache, c': Cache, t: Shape) {
    forall f {:trigger c'.dpaths[f]} :: f in t.home && f in c.dpaths && !Shows(t, f) ==> f in c'.dpaths && c'.dpaths[f] == c.dpaths[f]
  }

  lemma {:induction false} MoveHangs(c: Cache, c': Cache, x: Dir, dest: Dir, newLeaf: string)
    requires Tidy(c) && DirMoved(c, c', x, dest, newLeaf)
    ensures Hangs(c'.parents, c'.all)
  {
    forall y | y in c'.all
      ensures HangsAt(c'.parents, c'.all, y)
    {
      assert HangsAt(c.parents, c.all, y);
      forall n | n in c'.all[y] && c'.all[y][n].DirNode?
        ensures HangsUnder(c'.parents, c'.all[y][n].dir, y)
      {
        if c'.all[y][n] != DirNode(x) {
          assert HangsUnder(c.parents, c.all[y][n].dir, y);
        }
      }
    }
  }

  lemma {:induction false} MoveFiles(c: Cache, c': Cache, x: Dir, dest: Dir, newLeaf: string)
    requires Tidy(c) && DirMoved(c, c', x, dest, newLeaf)
    ensures Filed(c'.home.Keys, c'.all) && AtHome(c'.all, c'.home)
  {
    forall y | y in c'.all
      ensures Known(c'.home.Keys, c'.all[y]) && Distinct(c'.all[y])
    {
      assert y in c.all;
      assert forall n :: n in c'.all[y] && c'.all[y][n].FileNode? ==> n in c.all[y] && c'.all[y][n] == c.all[y][n];
    }
  }

  lemma {:induction false} MoveTidy(c: Cache, c': Cache, x: Dir, dest: Dir, newLeaf: string)
    requires Tidy(c) && DirMoved(c, c', x, dest, newLeaf)
    ensures Tidy(c')
  {
    MoveHangs(c, c', x, dest, newLeaf);
    MoveFiles(c, c', x, dest, newLeaf);
    forall y, n | y in c'.all && n in c'.all[y] && c'.all[y][n].DirNode?
      ensures c'.all[y][n].dir in c'.paths && NameOf(c'.paths[c'.all[y][n].dir]) == n
    {
      assert y in c.all;
    }
  }

  /** What hangs below a directory laid out right is so too. */
  lemma {:induction false} ChildLaid(all: map<Dir, map<string, Node>>, paths: map<Dir, Path>, z: Dir, p: Path, n: string)
    requires Laid(all, paths, z, p) && z in all && n in all[z] && all[z][n].DirNode?
    ensures Laid(all, paths, all[z][n].dir, p + [n])
  {
    var w := all[z][n].dir;
    forall ks | Walk(all, w, ks).Some?
      ensures Walk(all, w, ks).value in paths && paths[Walk(all, w, ks).value] == p + [n] + ks
    {
      assert ([n] + ks)[1..] == ks;
      assert Walk(all, z, [n] + ks) == Walk(all, w, ks);
      assert p + ([n] + ks) == p + [n] + ks;
    }
  }

  lemma {:induction false} LaidSelf(all: map<Dir, map<string, Node>>, paths: map<Dir, Path>, z: Dir, p: Path)
    requires Laid(all, paths, z, p) && z in all
    ensures z in paths && paths[z] == p
  {
    assert Walk(all, z, []) == Some(z);
    assert p + [] == p;
  }

  /** Within the moved tree. */
  lemma {:induction false} MoveLaidBelow(c: Cache, c': Cache, x: Dir, newPath: Path, t: Shape, ks: seq<string>)
    requires TreeMoved(c, c', x, newPath, t) && Walk(c'.all, x, ks).Some?
    ensures var y := Walk(c'.all, x, ks).value; y in c'.paths && c'.paths[y] == newPath + ks
  {
    WalkSame(t.parents, t.all, c'.all, x, ks);
    assert SettledAt(t, NamesOf(c'), Walk(t.all, x, ks).value, newPath + ks);
  }

  lemma {:induction false} Joined(p: Path, ks: seq<string>)
    ensures if ks == [] then p + ks == p else p + [ks[0]] + ks[1..] == p + ks
  {
  }

  /** Along any walk from outside the moved tree. */
  lemma {:induction false} MoveLaid(c: Cache, c': Cache, x: Dir, dest: Dir, newLeaf: string, t: Shape, z: Dir, p: Path, ks: seq<string>)
    requires Tidy(c) && Forest<Dir>(c.parents) && DirMoved(c, c', x, dest, newLeaf) && TreeMoved(c, c', x, c.paths[dest] + [newLeaf], t)
    requires z in c.parents && !Inside(c.parents, x, z) && Laid(c.all, c.paths, z, p) && Walk(c'.all, z, ks).Some?
    ensures var y := Walk(c'.all, z, ks).value; y in c'.paths && c'.paths[y] == p + ks
    decreases |ks|
  {
    Joined(p, ks);
    LaidSelf(c.all, c.paths, z, p);
    if ks == [] {
      assert c'.paths[z] == c.paths[z];
    } else {
      var w := c'.all[z][ks[0]].dir;
      MoveStep(c, c', x, dest, newLeaf, z, ks[0], w);
      if w == x {
        MoveLaidBelow(c, c', x, p + [newLeaf], t, ks[1..]);
      } else {
        ChildLaid(c.all, c.paths, z, p, ks[0]);
        MoveLaid(c, c', x, dest, newLeaf, t, w, p + [ks[0]], ks[1..]);
      }
    }
  }

  /** One step of a walk outside the moved tree: into it at its new place, or as before. */
  lemma {:induction false} MoveStep(c: Cache, c': Cache, x: Dir, dest: Dir, newLeaf: string, z: Dir, n: string, w: Dir)
    requires Tidy(c) && Forest<Dir>(c.parents) && DirMoved(c, c', x, dest, newLeaf)
    requires z in c.parents && !Inside(c.parents, x, z) && n in c'.all[z] && c'.all[z][n] == DirNode(w)
    ensures if w == x then z == dest && n == newLeaf else n in c.all[z] && c.all[z][n] == DirNode(w) && w in c.parents && !Inside(c.parents, x, w)
  {
    if w != x {
      assert HangsAt(c.parents, c.all, z);
      UpUnfold<Dir>(c.parents, w);
    }
  }

  lemma {:induction false} SoundAfterMove(root: Dir, c: Cache, c': Cache, x: Dir, dest: Dir, newLeaf: string, t: Shape)
    requires Sound(root, c) && Forest<Dir>(c.parents) && DirMoved(c, c', x, dest, newLeaf) && TreeMoved(c, c', x, c.paths[dest] + [newLeaf], t)
    requires c.parents[x].Some?
    ensures Sound(root, c')
  {
    MoveTidy(c, c', x, dest, newLeaf);
    UpUnfold<Dir>(c.parents, root);
    assert c'.paths[root] == c.paths[root] && c'.parents[root] == c.parents[root];
    forall ks | Walk(c'.all, root, ks).Some?
      ensures var y := Walk(c'.all, root, ks).value; y in c'.paths && c'.paths[y] == c.paths[root] + ks
    {
      MoveLaid(c, c', x, dest, newLeaf, t, root, c.paths[root], ks);
    }
  }

  lemma {:induction false} NotedAfterMove(c: Cache, c': Cache, x: Dir, dest: Dir, newLeaf: string, newPath: Path, t: Shape)
    requires Tidy(c) && Noted(c) && DirMoved(c, c', x, dest, newLeaf) && TreeMoved(c, c', x, newPath, t)
    requires forall y {:trigger y in t.parents} :: y in c.parents && Inside(c.parents, x, y) ==> y in t.parents
    ensures Noted(c')
  {
    forall y | y in c'.all
      ensures NotedAt(ShapeOf(c'), NamesOf(c'), y)
    {
      assert NotedAt(ShapeOf(c), NamesOf(c), y);
      if y in t.parents {
        NotedInTree(c, c', x, dest, newLeaf, newPath, t, y);
      } else {
        NotedOutside(c, c', x, dest, newLeaf, newPath, t, y);
      }
    }
  }

  lemma {:induction false} NotedInTree(c: Cache, c': Cache, x: Dir, dest: Dir, newLeaf: string, newPath: Path, t: Shape, y: Dir)
    requires Tidy(c) && NotedAt(ShapeOf(c), NamesOf(c), y) && DirMoved(c, c', x, dest, newLeaf) && TreeMoved(c, c', x, newPath, t) && y in t.parents
    ensures NotedAt(ShapeOf(c'), NamesOf(c'), y)
  {
    assert c'.all[y] == t.all[y];
    if y == x {
      assert Walk(t.all, x, []) == Some(x);
      assert SettledAt(t, NamesOf(c'), x, newPath + []);
    } else {
      assert NotedAt(t, NamesOf(c), y);
      assert NotedAt(t, NamesOf(c'), y);
    }
  }

  lemma {:induction false} NotedOutside(c: Cache, c': Cache, x: Dir, dest: Dir, newLeaf: string, newPath: Path, t: Shape, y: Dir)
    requires Tidy(c) && NotedAt(ShapeOf(c), NamesOf(c), y) && DirMoved(c, c', x, dest, newLeaf) && TreeMoved(c, c', x, newPath, t)
    requires y in c'.all && y !in t.parents && !Inside(c.parents, x, y)
    ensures NotedAt(ShapeOf(c'), NamesOf(c'), y)
  {
    assert c'.paths[y] == c.paths[y];
    forall n | n in c'.all[y] && c'.all[y][n].FileNode?
      ensures c'.all[y][n].file in c'.dpaths && c'.dpaths[c'.all[y][n].file] == c'.paths[y]
    {
      var f := c'.all[y][n].file;
      assert c.all[y][n] == FileNode(f) && c.home[f] == Seat(y, n);
      assert !Shows(t, f);
      assert c'.dpaths[f] == c.dpaths[f];
    }
  }

  // ---------- a file moves ----------

  /** File f belongs to dest now and is listed there alone; all else that is listed was so before. */
  ghost predicate FileMoved(c: Cache, c': Cache, f: File, dest: Dir, newLeaf: string) {
    && c'.parents == c.parents && c'.paths == c.paths && c'.all.Keys == c.all.Keys && dest in c.parents && dest in c.paths
    && f in c.home && c'.home == c.home[f := Seat(dest, newLeaf)] && c'.dpaths == c.dpaths[f := c.paths[dest]]
    && (forall y, n {:trigger c'.all[y][n]} :: y in c'.all && n in c'.all[y] ==>
          (y == dest && n == newLeaf && c'.all[y][n] == FileNode(f))
          || (y in c.all && n in c.all[y] && c'.all[y][n] == c.all[y][n] && c.all[y][n] != FileNode(f)))
  }

  lemma {:induction false} FileMoveHangs(c: Cache, c': Cache, f: File, dest: Dir, newLeaf: string)
    requires Tidy(c) && FileMoved(c, c', f, dest, newLeaf)
    ensures Hangs(c'.parents, c'.all) && Titled(c'.all, c'.paths)
  {
    forall y | y in c'.all
      ensures HangsAt(c'.parents, c'.all, y)
    {
      assert HangsAt(c.parents, c.all, y);
      forall n | n in c'.all[y] && c'.all[y][n].DirNode?
        ensures HangsUnder(c'.parents, c'.all[y][n].dir, y)
      {
        assert c.all[y][n] == c'.all[y][n];
      }
    }
  }

  lemma {:induction false} FileMoveTidy(c: Cache, c': Cache, f: File, dest: Dir, newLeaf: string)
    requires Tidy(c) && FileMoved(c, c', f, dest, newLeaf)
    ensures Tidy(c')
  {
    FileMoveHangs(c, c', f, dest, newLeaf);
    forall y | y in c'.all
      ensures Known(c'.home.Keys, c'.all[y]) && Distinct(c'.all[y])
    {
      assert y in c.all;
      assert forall n :: n in c'.all[y] && c'.all[y][n] != FileNode(f) ==> n in c.all[y] && c'.all[y][n] == c.all[y][n];
    }
  }

  lemma {:induction false} NotedAfterFileMove(c: Cache, c': Cache, f: File, dest: Dir, newLeaf: string)
    requires Tidy(c) && Noted(c) && FileMoved(c, c', f, dest, newLeaf)
    ensures Noted(c')
  {
    forall y | y in c'.all
      ensures NotedAt(ShapeOf(c'), NamesOf(c'), y)
    {
      assert NotedAt(ShapeOf(c), NamesOf(c), y);
      forall n | n in c'.all[y] && c'.all[y][n].FileNode?
        ensures c'.all[y][n].file in c'.dpaths && c'.dpaths[c'.all[y][n].file] == c'.paths[y]
      {
        if c'.all[y][n] != FileNode(f) {
          assert c.all[y][n] == c'.all[y][n];
        }
      }
    }
  }

  lemma {:induction false} SoundAfterFileMove(root: Dir, c: Cache, c': Cache, f: File, dest: Dir, newLeaf: string)
    requires Sound(root, c) && FileMoved(c, c', f, dest, newLeaf)
    ensures Sound(root, c')
  {
    FileMoveTidy(c, c', f, dest, newLeaf);
    forall ks | Walk(c'.all, root, ks).Some?
      ensures var y := Walk(c'.all, root, ks).value; y in c'.paths && c'.paths[y] == c.paths[root] + ks
    {
      FewerWalks(c.all, c'.all, root, ks);
    }
  }
}
