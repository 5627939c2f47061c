/**
 * Whole runs of the directory cache: virtual adds and deletes, re-reads,
 * forgetting, renames and changes to the files, in any order and at any
 * directory.
 */
module VfsRuns {
  import opened Wrappers
  import opened VfsChains
  import opened VfsDir
  import opened VfsTree
  import opened VfsRename
  import opened VfsCache
  import opened VfsOps
  import VfsForget

  // ---------- new directories ----------

  lemma {:induction false} AdoptOne(d: Dir, S: set<Dir>, c: Dir)
    requires d in S && Counted(S) && c !in S && Dir.Blank(c, d)
    ensures Counted(S + {c})
  {
    var S' := S + {c};
    ExactAfterNew<Dir>(Parents(S), Virtuals(S), Counts(S), d, c);
    assert Parents(S') == Hung<Dir>(Parents(S), d, c);
    assert c.virtual.Keys == {};
    assert Virtuals(S') == Put<Dir>(Virtuals(S), c, {});
    assert Counts(S') == Tally<Dir>(Counts(S), c, 0);
  }

  /** Taking in new, blank directories below d keeps the counts exact. */
  lemma {:induction false} Adopted(d: Dir, S: set<Dir>, N: set<Dir>)
    requires d in S && Counted(S) && d.Newborn(N, S)
    ensures Counted(S + N)
    decreases N
  {
    if N == {} {
      assert S + N == S;
    } else {
      var c :| c in N;
      AdoptOne(d, S, c);
      Adopted(d, S + {c}, N - {c});
      assert S + {c} + (N - {c}) == S + N;
    }
  }

  /** The directories and files are as the values say, but for all items. */
  ghost predicate StandsWithoutItems(S: set<Dir>, F: set<File>, c: Cache)
    requires Spans(S, F, c)
    reads S`parent, S`path, F`d, F`leaf, F`dPath
  {
    DirsStand(S, F, c) && FilesStand(S, F, c)
  }

  ghost predicate DirsStand(S: set<Dir>, F: set<File>, c: Cache)
    requires Spans(S, F, c)
    reads S`parent, S`path
  {
    forall x {:trigger x.parent} {:trigger x.path} :: x in S ==> x.parent == c.parents[x] && x.path == c.paths[x]
  }

  ghost predicate FilesStand(S: set<Dir>, F: set<File>, c: Cache)
    requires Spans(S, F, c)
    reads F`d, F`leaf, F`dPath
  {
    forall f {:trigger f.d} {:trigger f.leaf} {:trigger f.dPath} :: f in F ==> Seat(f.d, f.leaf) == c.home[f] && f.dPath == c.dpaths[f]
  }

  /** The items of the other directories are as the values say. */
  ghost predicate ItemsBut(d: Dir, S: set<Dir>, c: Cache)
    requires c.all.Keys == S
    reads S`items
  {
    forall x {:trigger x.items} :: x in S && x != d ==> x.items == c.all[x]
  }

  /** And their marks. */
  ghost predicate VirtualsBut(d: Dir, S: set<Dir>, c: Cache)
    requires c.marks.Keys == S
    reads S`virtual
  {
    forall x {:trigger x.virtual} :: x in S && x != d ==> x.virtual == c.marks[x]
  }

  /** The directories and files are as the values say, but for the items and marks of d. */
  ghost predicate StandsBut(d: Dir, S: set<Dir>, F: set<File>, c: Cache)
    requires Spans(S, F, c)
    reads S`parent, S`items, S`virtual, S`path, F`d, F`leaf, F`dPath
  {
    StandsWithoutItems(S, F, c) && ItemsBut(d, S, c) && VirtualsBut(d, S, c)
  }

  /** The items of d list what they listed or something new. */
  ghost predicate Changed(d: Dir, S: set<Dir>, N: set<Dir>, F: set<File>, F': set<File>, c: Cache)
    requires Spans(S, F, c) && d in S && F <= F'
    reads d, S`parent, S`items, S`virtual, S`path, F`d, F`leaf, F`dPath, F'`d, F'`leaf, F'`dPath, N
  {
    StandsBut(d, S, F, c) && ListsNew(d, S, N, F, F', c.all[d])
  }

  /** What d lists it listed before, or it is new and belongs there. */
  ghost predicate ListsNew(d: Dir, S: set<Dir>, N: set<Dir>, F: set<File>, F': set<File>, before: map<string, Node>)
    reads d, F'`d, F'`leaf, F'`dPath, N
  {
    && d.Newborn(N, S) && NewOnly(before, d.items, N, F) && Known(F', d.items) && Distinct(d.items)
    && d.Entitled(d.items, N, F, F', true) && forall f {:trigger f in F'} :: f in F' && f !in F ==> f.d == d
  }

  lemma {:induction false} EditNow(d: Dir, S: set<Dir>, N: set<Dir>, F: set<File>, F': set<File>, c: Cache)
    requires Spans(S, F, c) && d in S && F <= F' && Changed(d, S, N, F, F', c)
    ensures Edited(c, Snap(S + N, F'), d)
  {
    var c' := Snap(S + N, F');
    forall n | n in c'.all[d]
      ensures OldOrNew(c, c', d, n)
    {
      assert c'.all[d] == d.items;
    }
  }

  lemma {:induction false} NewNow(d: Dir, S: set<Dir>, N: set<Dir>, F: set<File>, F': set<File>, c: Cache)
    requires Spans(S, F, c) && d in S && F <= F' && Changed(d, S, N, F, F', c)
    ensures NotedNew(c, Snap(S + N, F'), d)
  {
    assert Snap(S + N, F').all[d] == d.items;
  }

  lemma {:induction false} MarksNow(d: Dir, S: set<Dir>, N: set<Dir>, F: set<File>, F': set<File>, c: Cache)
    requires Spans(S, F, c) && d in S && VirtualsBut(d, S, c)
    ensures MarksBut(c, Snap(S + N, F'), d)
  {
  }

  /** What every step keeps, beside the paths noted in the files. */
  ghost predicate Keeps(root: Dir, S: set<Dir>, F: set<File>, c: Cache)
    reads S`parent, S`items, S`path, S`virtual, S`virtuals, F`d, F`leaf, F`dPath
  {
    Counted(S) && Stands(S, F, c) && Sound(root, c)
  }

  /** Everything still holds after the items of d have been changed and new directories taken in. */
  lemma {:induction false} KeepsAfter(root: Dir, d: Dir, S: set<Dir>, N: set<Dir>, F: set<File>, F': set<File>, c: Cache) returns (c': Cache)
    requires Counted(S) && Spans(S, F, c) && d in S && F <= F' && Changed(d, S, N, F, F', c) && Sound(root, c)
    ensures Keeps(root, S + N, F', c') && Edited(c, c', d) && NotedNew(c, c', d) && StaysNoted(c, c')
    ensures MarksBut(c, c', d) && d in c'.marks && c'.all[d] == d.items && c'.marks[d] == d.virtual
  {
    c' := Snap(S + N, F');
    Adopted(d, S, N);
    EditNow(d, S, N, F, F', c);
    NewNow(d, S, N, F, F', c);
    MarksNow(d, S, N, F, F', c);
    SoundAfterEdit(root, c, c', d);
    if Noted(c) {
      NotedAfterEdit(c, c', d);
    }
    SnapStands(S + N, F', c');
  }

  // ---------- the steps ----------

  /** The directory at ks below root, if it is cached. */
  method Lookup(root: Dir, ks: seq<string>, ghost S: set<Dir>) returns (r: Option<Dir>)
    requires root in S && Linked(S)
    ensures r == Walk(Items(S), root, ks)
    ensures r.Some? ==> r.value in S
  {
    var d, k := root, 0;
    while k < |ks|
      invariant k <= |ks| && d in S && Walk(Items(S), root, ks) == Walk(Items(S), d, ks[k..])
    {
      if !(ks[k] in d.items && d.items[ks[k]].DirNode?) {
        return None;
      }
      assert HangsAt(Parents(S), Items(S), d);
      assert ks[k..][1..] == ks[k + 1..];
      d := d.items[ks[k]].dir;
      k := k + 1;
    }
    r := Some(d);
  }

  /** A re-read, as far as it matters which nodes are listed. */
  method ReadNodes(d: Dir, entries: seq<Entry>, ghost S: set<Dir>, ghost F: set<File>, ghost before: map<string, Node>, ghost left: map<string, VState>) returns (ghost N: set<Dir>, ghost F': set<File>)
    requires d in S && Counted(S) && Known(F, d.items) && Distinct(d.items) && d.Within(entries) && before == d.items && left == d.Survivors(F)
    modifies d`items, d`virtual, S`virtuals, F`o
    ensures Counted(S) && F <= F' && fresh(N) && fresh(F' - F) && ListsNew(d, S, N, F, F', before)
    ensures Merged(before, left, entries, d.items, d.virtual)
  {
    var ok;
    ghost var G;
    ok, N, G := d.ReadDirFromEntries(entries, S, F);
    F' := F + NewFiles(d.items, F);
  }

  /** The files listed that are not in F. */
  ghost function NewFiles(items: map<string, Node>, F: set<File>): set<File> {
    set n | n in items && items[n].FileNode? && items[n].file !in F :: items[n].file
  }

  /** It leaves the other directories' items alone. */
  method ReadItems(d: Dir, entries: seq<Entry>, ghost S: set<Dir>, ghost F: set<File>, ghost c: Cache, ghost before: map<string, Node>, ghost left: map<string, VState>) returns (ghost N: set<Dir>, ghost F': set<File>)
    requires d in S && Counted(S) && Known(F, d.items) && Distinct(d.items) && d.Within(entries) && before == d.items && left == d.Survivors(F)
    requires c.all.Keys == S && ItemsBut(d, S, c)
    modifies d`items, d`virtual, S`virtuals, F`o
    ensures Counted(S) && F <= F' && fresh(N) && fresh(F' - F) && ListsNew(d, S, N, F, F', before) && ItemsBut(d, S, c)
    ensures Merged(before, left, entries, d.items, d.virtual)
  {
    N, F' := ReadNodes(d, entries, S, F, before, left);
  }

  /** And their marks. */
  method ReadMarks(d: Dir, entries: seq<Entry>, ghost S: set<Dir>, ghost F: set<File>, ghost c: Cache, ghost before: map<string, Node>, ghost left: map<string, VState>) returns (ghost N: set<Dir>, ghost F': set<File>)
    requires d in S && Counted(S) && Known(F, d.items) && Distinct(d.items) && d.Within(entries) && before == d.items && left == d.Survivors(F)
    requires c.all.Keys == c.marks.Keys == S && ItemsBut(d, S, c) && VirtualsBut(d, S, c)
    modifies d`items, d`virtual, S`virtuals, F`o
    ensures Counted(S) && F <= F' && fresh(N) && fresh(F' - F) && ListsNew(d, S, N, F, F', before) && ItemsBut(d, S, c) && VirtualsBut(d, S, c)
    ensures Merged(before, left, entries, d.items, d.virtual)
  {
    N, F' := ReadItems(d, entries, S, F, c, before, left);
  }

  /** It leaves the directories where they are. */
  method ReadDirs(d: Dir, entries: seq<Entry>, ghost S: set<Dir>, ghost F: set<File>, ghost c: Cache, ghost before: map<string, Node>, ghost left: map<string, VState>) returns (ghost N: set<Dir>, ghost F': set<File>)
    requires d in S && Counted(S) && Known(F, d.items) && Distinct(d.items) && d.Within(entries) && before == d.items && left == d.Survivors(F)
    requires Spans(S, F, c) && ItemsBut(d, S, c) && VirtualsBut(d, S, c) && DirsStand(S, F, c)
    modifies d`items, d`virtual, S`virtuals, F`o
    ensures Counted(S) && F <= F' && fresh(N) && fresh(F' - F) && ListsNew(d, S, N, F, F', before)
    ensures ItemsBut(d, S, c) && VirtualsBut(d, S, c) && DirsStand(S, F, c)
    ensures Merged(before, left, entries, d.items, d.virtual)
  {
    N, F' := ReadMarks(d, entries, S, F, c, before, left);
  }

  /** It leaves the files where they belong. */
  method ReadFiles(d: Dir, entries: seq<Entry>, ghost S: set<Dir>, ghost F: set<File>, ghost c: Cache, ghost before: map<string, Node>, ghost left: map<string, VState>) returns (ghost N: set<Dir>, ghost F': set<File>)
    requires d in S && Counted(S) && Known(F, d.items) && Distinct(d.items) && d.Within(entries) && before == d.items && left == d.Survivors(F)
    requires Spans(S, F, c) && ItemsBut(d, S, c) && VirtualsBut(d, S, c) && DirsStand(S, F, c) && FilesStand(S, F, c)
    modifies d`items, d`virtual, S`virtuals, F`o
    ensures Counted(S) && F <= F' && fresh(N) && fresh(F' - F) && ListsNew(d, S, N, F, F', before)
    ensures ItemsBut(d, S, c) && VirtualsBut(d, S, c) && DirsStand(S, F, c) && FilesStand(S, F, c)
    ensures Merged(before, left, entries, d.items, d.virtual)
  {
    N, F' := ReadDirs(d, entries, S, F, c, before, left);
  }

  method ReadHere(d: Dir, entries: seq<Entry>, ghost S: set<Dir>, ghost F: set<File>, ghost c: Cache, ghost before: map<string, Node>, ghost left: map<string, VState>) returns (ghost N: set<Dir>, ghost F': set<File>)
    requires d in S && Counted(S) && Known(F, d.items) && Distinct(d.items) && d.Within(entries) && before == d.items && left == d.Survivors(F)
    requires Spans(S, F, c) && StandsBut(d, S, F, c) && d.items == c.all[d]
    modifies d`items, d`virtual, S`virtuals, F`o
    ensures Counted(S) && F <= F' && fresh(N) && fresh(F' - F) && Changed(d, S, N, F, F', c)
    ensures Merged(before, left, entries, d.items, d.virtual)
  {
    N, F' := ReadFiles(d, entries, S, F, c, before, left);
  }

  /** addObject leaves what the other directories list alone. */
  method ListNodes(d: Dir, node: Node, ghost S: set<Dir>, ghost c: Cache)
    requires d in S && Counted(S) && c.all.Keys == c.marks.Keys == S && ItemsBut(d, S, c) && VirtualsBut(d, S, c)
    modifies d`items, d`virtual, S`virtuals
    ensures Counted(S) && ItemsBut(d, S, c) && VirtualsBut(d, S, c) && d.items == old(d.items)[old(Title(node)) := node]
    ensures d.virtual == old(d.virtual)[old(Title(node)) := AddMark(node)]
  {
    d.AddObject(node, S);
  }

  /** And the directories where they are. */
  method ListDirs(d: Dir, node: Node, ghost S: set<Dir>, ghost F: set<File>, ghost c: Cache)
    requires d in S && Counted(S) && Spans(S, F, c) && DirsStand(S, F, c) && ItemsBut(d, S, c) && VirtualsBut(d, S, c)
    modifies d`items, d`virtual, S`virtuals
    ensures Counted(S) && DirsStand(S, F, c) && ItemsBut(d, S, c) && VirtualsBut(d, S, c) && d.items == old(d.items)[old(Title(node)) := node]
    ensures d.virtual == old(d.virtual)[old(Title(node)) := AddMark(node)]
  {
    ListNodes(d, node, S, c);
  }

  /** addObject. */
  method ListHere(d: Dir, node: Node, ghost S: set<Dir>, ghost F: set<File>, ghost c: Cache)
    requires d in S && Counted(S) && Stands(S, F, c)
    modifies d`items, d`virtual, S`virtuals
    ensures Counted(S) && StandsBut(d, S, F, c) && d.items == c.all[d][old(Title(node)) := node]
    ensures d.virtual == c.marks[d][old(Title(node)) := AddMark(node)]
  {
    ListDirs(d, node, S, F, c);
  }

  /** The name of a node, from the values. */
  ghost function TitleIn(c: Cache, node: Node): string
    requires if node.FileNode? then node.file in c.home else node.dir in c.paths
  {
    match node
    case FileNode(f) => c.home[f].leaf
    case DirNode(x) => NameOf(c.paths[x])
  }

  /** addObject of a node that is known. */
  method ListKnown(d: Dir, node: Node, ghost S: set<Dir>, ghost F: set<File>, ghost c: Cache) returns (ghost c': Cache)
    requires d in S && Counted(S) && Stands(S, F, c) && if node.FileNode? then node.file in F else node.dir in S
    modifies d`items, d`virtual, S`virtuals
    ensures c' == Listing(c, d, TitleIn(c, node), node) && Counted(S) && Stands(S, F, c')
  {
    assert Title(node) == TitleIn(c, node);
    ListHere(d, node, S, F, c);
    StandsNow(d, S, F, c, d.items, d.virtual);
    c' := WithNodes(c, d, d.items, d.virtual);
  }

  /** delObject leaves what the other directories list alone. */
  method RemoveNodes(d: Dir, leaf: string, ghost S: set<Dir>, ghost c: Cache)
    requires d in S && Counted(S) && c.all.Keys == c.marks.Keys == S && ItemsBut(d, S, c) && VirtualsBut(d, S, c)
    modifies d`items, d`virtual, S`virtuals
    ensures Counted(S) && ItemsBut(d, S, c) && VirtualsBut(d, S, c) && d.items == old(d.items) - {leaf}
    ensures d.virtual == old(d.virtual)[leaf := Del]
  {
    d.DelObject(leaf, S);
  }

  /** And the directories where they are. */
  method RemoveDirs(d: Dir, leaf: string, ghost S: set<Dir>, ghost F: set<File>, ghost c: Cache)
    requires d in S && Counted(S) && Spans(S, F, c) && DirsStand(S, F, c) && ItemsBut(d, S, c) && VirtualsBut(d, S, c)
    modifies d`items, d`virtual, S`virtuals
    ensures Counted(S) && DirsStand(S, F, c) && ItemsBut(d, S, c) && VirtualsBut(d, S, c) && d.items == old(d.items) - {leaf}
    ensures d.virtual == old(d.virtual)[leaf := Del]
  {
    RemoveNodes(d, leaf, S, c);
  }

  /** delObject. */
  method RemoveHere(d: Dir, leaf: string, ghost S: set<Dir>, ghost F: set<File>, ghost c: Cache)
    requires d in S && Counted(S) && Stands(S, F, c)
    modifies d`items, d`virtual, S`virtuals
    ensures Counted(S) && StandsBut(d, S, F, c) && d.items == c.all[d] - {leaf} && d.virtual == c.marks[d][leaf := Del]
  {
    RemoveDirs(d, leaf, S, F, c);
  }

  /** What a purge leaves, from the values. */
  lemma {:induction false} SurvivorsAre(d: Dir, F: set<File>)
    requires Known(F, d.items)
    ensures d.Survivors(F) == VfsForget.Remaining(d, d.items, VfsForget.Busy(F), d.virtual)
  {
  }

  method Reread(d: Dir, entries: seq<Entry>, root: Dir, ghost S: set<Dir>, ghost F: set<File>, ghost c: Cache)
    returns (ghost S': set<Dir>, ghost F': set<File>, ghost c': Cache)
    requires d in S && Keeps(root, S, F, c) && d.Within(entries)
    modifies d`items, d`virtual, S`virtuals, F`o
    ensures Keeps(root, S', F', c') && S <= S' && F <= F' && StaysNoted(c, c') && ReadIn(c, c', d, old(VfsForget.Busy(F)), entries)
    ensures (forall y {:trigger y in S'} :: y in S' ==> y in S || fresh(y)) && (forall g {:trigger g in F'} :: g in F' ==> g in F || fresh(g))
  {
    assert Known(F, c.all[d]) && Distinct(c.all[d]);
    ghost var N;
    assert StandsBut(d, S, F, c) && d.virtual == c.marks[d];
    SurvivorsAre(d, F);
    N, F' := ReadHere(d, entries, S, F, c, c.all[d], VfsForget.Remaining(d, c.all[d], VfsForget.Busy(F), c.marks[d]));
    c' := KeepsAfter(root, d, S, N, F, F', c);
    Grown(S, N);
    S' := S + N;
  }

  lemma {:induction false} Grown<T>(S: set<T>, N: set<T>)
    ensures S <= S + N && forall y {:trigger y in S + N} :: y in S + N ==> y in S || y in N
  {
  }

  lemma {:induction false} OneMore<T>(S: set<T>, x: T)
    ensures S <= S + {x} && forall y {:trigger y in S + {x}} :: y in S + {x} ==> y in S || y == x
  {
  }

  lemma {:induction false} ListingDir(d: Dir, leaf: string, x: Dir, S: set<Dir>, F: set<File>, c: Cache)
    requires Spans(S, F, c) && d in S && StandsBut(d, S, F, c) && d.items == c.all[d][leaf := DirNode(x)]
    requires x !in S && Dir.Blank(x, d) && x.path == d.path + [leaf] && Known(F, c.all[d]) && Distinct(c.all[d]) && Hangs(c.parents, c.all)
    ensures Changed(d, S, {x}, F, F, c)
  {
    assert HangsAt(c.parents, c.all, d);
    assert d.Entitled(d.items, {x}, F, F, true);
  }

  lemma {:induction false} ListingFile(d: Dir, leaf: string, f: File, S: set<Dir>, F: set<File>, c: Cache)
    requires Spans(S, F, c) && d in S && StandsBut(d, S, F, c) && d.items == c.all[d][leaf := FileNode(f)]
    requires f !in F && f.d == d && f.leaf == leaf && f.dPath == d.path && Known(F, c.all[d]) && Distinct(c.all[d])
    ensures Changed(d, S, {}, F, F + {f}, c)
  {
    assert d.Entitled(d.items, {}, F, F + {f}, true);
  }

  /** Everything still holds when nothing new is listed but files. */
  lemma {:induction false} KeepsAfterEdit(root: Dir, d: Dir, S: set<Dir>, F: set<File>, F': set<File>, c: Cache) returns (c': Cache)
    requires Counted(S) && Spans(S, F, c) && d in S && F <= F' && Changed(d, S, {}, F, F', c) && Sound(root, c)
    ensures Keeps(root, S, F', c') && Edited(c, c', d) && NotedNew(c, c', d) && StaysNoted(c, c')
    ensures MarksBut(c, c', d) && d in c'.marks && c'.all[d] == d.items && c'.marks[d] == d.virtual
  {
    c' := KeepsAfter(root, d, S, {}, F, F', c);
    assert S + {} == S;
  }

  method AddDir(d: Dir, leaf: string, root: Dir, ghost S: set<Dir>, ghost F: set<File>, ghost c: Cache) returns (x: Dir, ghost c': Cache)
    requires d in S && Keeps(root, S, F, c)
    modifies d`items, d`virtual, S`virtuals
    ensures fresh(x) && Dir.Blank(x, d) && Keeps(root, S + {x}, F, c') && StaysNoted(c, c')
    ensures NodeAdded(c, c', d, leaf, true) && c'.all[d] == c.all[d][leaf := DirNode(x)]
  {
    assert Known(F, c.all[d]) && Distinct(c.all[d]);
    x := new Dir(d.canHaveEmptyDirectories, Some(d), d.path + [leaf]);
    ListHere(d, DirNode(x), S, F, c);
    ListingDir(d, leaf, x, S, F, c);
    c' := KeepsAfter(root, d, S, {x}, F, F, c);
  }

  lemma {:induction false} FileIsAdded(root: Dir, d: Dir, leaf: string, f: File, S: set<Dir>, F: set<File>, c: Cache) returns (c': Cache)
    requires Counted(S) && Spans(S, F, c) && Sound(root, c) && d in S && StandsBut(d, S, F, c)
    requires d.items == c.all[d][leaf := FileNode(f)] && d.virtual == c.marks[d][leaf := AddMark(FileNode(f))]
    requires f !in F && f.d == d && f.leaf == leaf && f.dPath == d.path && Known(F, c.all[d]) && Distinct(c.all[d])
    ensures Keeps(root, S, F + {f}, c') && StaysNoted(c, c') && NodeAdded(c, c', d, leaf, false) && c'.all[d] == c.all[d][leaf := FileNode(f)]
  {
    ListingFile(d, leaf, f, S, F, c);
    c' := KeepsAfterEdit(root, d, S, F, F + {f}, c);
  }

  method OneFile(d: Dir, leaf: string, ghost S: set<Dir>, ghost F: set<File>, ghost c: Cache) returns (f: File)
    requires Counted(S) && Stands(S, F, c)
    ensures fresh(f) && Counted(S) && Stands(S, F, c) && f.d == d && f.leaf == leaf && f.dPath == d.path
  {
    f := new File(d, d.path, None, leaf);
  }

  method NewFile(d: Dir, leaf: string, ghost S: set<Dir>, ghost F: set<File>, ghost c: Cache) returns (f: File)
    requires d in S && Counted(S) && Stands(S, F, c)
    modifies d`items, d`virtual, S`virtuals
    ensures fresh(f) && Counted(S) && StandsBut(d, S, F, c) && f.d == d && f.leaf == leaf && f.dPath == d.path
    ensures d.items == c.all[d][leaf := FileNode(f)] && d.virtual == c.marks[d][leaf := AddMark(FileNode(f))]
  {
    f := OneFile(d, leaf, S, F, c);
    ListHere(d, FileNode(f), S, F, c);
  }

  method AddFile(d: Dir, leaf: string, root: Dir, ghost S: set<Dir>, ghost F: set<File>, ghost c: Cache) returns (f: File, ghost c': Cache)
    requires d in S && Keeps(root, S, F, c)
    modifies d`items, d`virtual, S`virtuals
    ensures fresh(f) && Keeps(root, S, F + {f}, c') && StaysNoted(c, c')
    ensures NodeAdded(c, c', d, leaf, false) && c'.all[d] == c.all[d][leaf := FileNode(f)]
  {
    assert Known(F, c.all[d]) && Distinct(c.all[d]);
    f := NewFile(d, leaf, S, F, c);
    c' := FileIsAdded(root, d, leaf, f, S, F, c);
  }

  /**
   * addObject of a file to the directory it belongs to, listed there or not, as
   * opening for writing, the first write and the end of an upload do: the files'
   * paths stay right if and only if the file notes the path of its directory.
   */
  method AddKnown(f: File, root: Dir, ghost S: set<Dir>, ghost F: set<File>, ghost c: Cache) returns (ghost c': Cache)
    requires f in F && Keeps(root, S, F, c)
    modifies f.d`items, f.d`virtual, S`virtuals
    ensures Keeps(root, S, F, c') && c' == Listing(c, c.home[f].dir, c.home[f].leaf, FileNode(f))
    ensures Noted(c) ==> (Noted(c') <==> c.dpaths[f] == c.paths[c.home[f].dir])
  {
    var d := f.d;
    assert c.home[f] == Seat(d, f.leaf);
    c' := ListKnown(d, FileNode(f), S, F, c);
    SoundAfterAddWhen(root, c, f, d, c'.marks[d]);
  }

  lemma {:induction false} UnlistingDrops(c: Cache, d: Dir, leaf: string)
    requires d in c.all && d in c.marks
    ensures Dropped(c, Unlisting(c, d, leaf))
  {
  }

  /** DelVirtual. */
  method Remove(d: Dir, leaf: string, root: Dir, ghost S: set<Dir>, ghost F: set<File>, ghost c: Cache) returns (ghost c': Cache)
    requires d in S && Keeps(root, S, F, c)
    modifies d`items, d`virtual, S`virtuals
    ensures Keeps(root, S, F, c') && StaysNoted(c, c') && c' == Unlisting(c, d, leaf)
  {
    RemoveHere(d, leaf, S, F, c);
    StandsNow(d, S, F, c, d.items, d.virtual);
    c' := WithNodes(c, d, d.items, d.virtual);
    UnlistingDrops(c, d, leaf);
    SoundAfterDrop(root, c, c');
    if Noted(c) {
      NotedAfterDrop(c, c');
    }
  }

  // ---------- forgetting ----------

  ghost predicate NodesAre(S: set<Dir>, all: map<Dir, map<string, Node>>, marks: map<Dir, map<string, VState>>)
    reads S`items, S`virtual
  {
    all.Keys == marks.Keys == S && forall x {:trigger x.items} {:trigger x.virtual} :: x in S ==> x.items == all[x] && x.virtual == marks[x]
  }

  /** All unfinished work. */
  ghost function AllPins(s: VfsForget.Shot, busy: set<File>): (pins: set<VfsForget.Pin>)
    requires s.all.Keys == s.marks.Keys
    ensures VfsForget.Pinned(pins, s, busy)
    ensures forall x, n {:trigger VfsForget.Pin(x, n)} :: x in s.marks && n in s.marks[x] && VfsForget.Lasting(x, s.all[x], busy, n, s.marks[x][n]) ==>
              VfsForget.Pin(x, n) in pins
  {
    set x, n | x in s.marks && n in s.marks[x] && VfsForget.Lasting(x, s.all[x], busy, n, s.marks[x][n]) :: VfsForget.Pin(x, n)
  }

  lemma {:induction false} ShotOf(S: set<Dir>, F: set<File>, parents: map<Dir, Option<Dir>>, busy: set<File>, s: VfsForget.Shot, c: Cache)
    requires VfsForget.Now(S, F, parents, busy, s) && Counted(S) && NodesAre(S, c.all, c.marks) && Hangs(parents, c.all) && VfsForget.Filed(F, c.all)
    ensures s.all == c.all && s.marks == c.marks && VfsForget.Whole(parents, s) && VfsForget.Filed(F, s.all)
  {
    assert s.all == c.all && s.marks == c.marks;
    VfsForget.WholeIsCounted(S, F, parents, busy, s);
  }

  lemma {:induction false} ShotIs(S: set<Dir>, F: set<File>, parents: map<Dir, Option<Dir>>, busy: set<File>, s: VfsForget.Shot)
    requires VfsForget.Now(S, F, parents, busy, s) && VfsForget.Whole(parents, s)
    ensures Counted(S) && NodesAre(S, s.all, s.marks) && parents == Parents(S)
  {
    VfsForget.WholeIsCounted(S, F, parents, busy, s);
  }

  /** ForgetAll, with all unfinished work pinned. */
  method ForgetPinned(d: Dir, ghost S: set<Dir>, ghost F: set<File>, ghost c: Cache, ghost busy: set<File>)
    returns (hasVirtual: bool, ghost s: VfsForget.Shot, ghost s': VfsForget.Shot)
    requires d in S && Counted(S) && NodesAre(S, c.all, c.marks) && c.parents == Parents(S) && busy == VfsForget.Busy(F)
    requires Hangs(c.parents, c.all) && VfsForget.Filed(F, c.all)
    modifies S`items, S`virtual, S`hasRead, S`virtuals
    ensures Counted(S) && NodesAre(S, s'.all, s'.marks) && c.parents == Parents(S) && busy == VfsForget.Busy(F) && hasVirtual == (d.virtuals != 0)
    ensures ForgetsTo(c.parents, busy, d, c, s, s') && d in s'.counts && s'.counts[d] == d.virtuals
  {
    s := VfsForget.Shot(Items(S), VfsForget.Marks(S), Counts(S), VfsForget.HaveRead(S));
    ShotOf(S, F, c.parents, busy, s, c);
    hasVirtual, s' := VfsForget.ForgetAll(d, S, F, c.parents, busy, AllPins(s, busy), s);
    ShotIs(S, F, c.parents, busy, s');
  }

  /** The same in terms of the cache. */
  method ForgetHere(d: Dir, ghost S: set<Dir>, ghost F: set<File>, ghost c: Cache, ghost busy: set<File>)
    returns (hasVirtual: bool, ghost c': Cache)
    requires d in S && Counted(S) && NodesAre(S, c.all, c.marks) && c.parents == Parents(S) && busy == VfsForget.Busy(F)
    requires Hangs(c.parents, c.all) && VfsForget.Filed(F, c.all)
    modifies S`items, S`virtual, S`hasRead, S`virtuals
    ensures Counted(S) && NodesAre(S, c'.all, c'.marks) && c.parents == Parents(S) && busy == VfsForget.Busy(F)
    ensures ForgotIn(c, c', d, busy) && hasVirtual == (d.virtuals != 0) && (hasVirtual <==> !Unmarked(c.parents, c'.marks, d))
  {
    ghost var s, s';
    hasVirtual, s, s' := ForgetPinned(d, S, F, c, busy);
    c' := c.(all := s'.all, marks := s'.marks);
    ForgotNow(c, busy, d, s, s');
    CountIsZeroWhen(c.parents, s', d);
  }

  /** What forgetting with all unfinished work pinned does. */
  ghost predicate ForgetsTo(parents: map<Dir, Option<Dir>>, busy: set<File>, d: Dir, c: Cache, s: VfsForget.Shot, s': VfsForget.Shot) {
    && s.all == c.all && s.marks == c.marks && VfsForget.Whole(parents, s) && VfsForget.Whole(parents, s')
    && VfsForget.Forgot(parents, d, AllPins(s, busy), s, s') && VfsForget.Pinned(AllPins(s, busy), s', busy) && VfsForget.Swept(s', busy, d)
  }

  /** That, in terms of the cache. */
  lemma {:induction false} ForgotNow(c: Cache, busy: set<File>, d: Dir, s: VfsForget.Shot, s': VfsForget.Shot)
    requires ForgetsTo(c.parents, busy, d, c, s, s')
    ensures ForgotIn(c, c.(all := s'.all, marks := s'.marks), d, busy)
  {
    var c' := c.(all := s'.all, marks := s'.marks);
    ThinnedNow(c, s, s');
    forall x, n | x in c.marks && n in c.marks[x]
      ensures KeptAt(c, c', busy, x, n)
    {
      KeptNow(c, c', busy, d, s, s', x, n);
    }
    forall ks | Walk(c'.all, d, ks).Some?
      ensures SweptIn(c', busy, Walk(c'.all, d, ks).value)
    {
      assert VfsForget.SweptAt(s', busy, Walk(s'.all, d, ks).value);
      CountIsZeroWhen(c.parents, s', Walk(s'.all, d, ks).value);
    }
  }

  lemma {:induction false} ThinnedNow(c: Cache, s: VfsForget.Shot, s': VfsForget.Shot)
    requires s.all == c.all && s.marks == c.marks && VfsForget.Whole(c.parents, s) && VfsForget.Whole(c.parents, s') && VfsForget.Trimmed(s, s')
    ensures Thinned(c, c.(all := s'.all, marks := s'.marks))
  {
  }

  lemma {:induction false} KeptNow(c: Cache, c': Cache, busy: set<File>, d: Dir, s: VfsForget.Shot, s': VfsForget.Shot, x: Dir, n: string)
    requires ForgetsTo(c.parents, busy, d, c, s, s') && x in c.marks && n in c.marks[x] && c' == c.(all := s'.all, marks := s'.marks)
    ensures KeptAt(c, c', busy, x, n)
  {
    if VfsForget.Lasting(x, c.all[x], busy, n, c.marks[x][n]) {
      assert VfsForget.Pin(x, n) in AllPins(s, busy);
      assert VfsForget.PinHolds(VfsForget.Pin(x, n), s', busy);
      UpInside<Dir>(c.parents, x);
    }
  }

  lemma {:induction false} UnmarkedIs(parents: map<Dir, Option<Dir>>, marks: map<Dir, map<string, VState>>, virt: map<Dir, set<string>>, x: Dir)
    requires virt.Keys == marks.Keys == parents.Keys && forall z :: z in marks ==> virt[z] == marks[z].Keys
    ensures Unmarked(parents, marks, x) <==> forall z :: z in virt && x in Up<Dir>(parents, z) ==> virt[z] == {}
  {
    forall z | z in marks
      ensures virt[z] == {} <==> marks[z] == map[]
    {
    }
    if Unmarked(parents, marks, x) {
      forall z | z in virt && x in Up<Dir>(parents, z)
        ensures virt[z] == {}
      {
        assert Inside(parents, x, z);
      }
    }
  }

  lemma {:induction false} CountIsZeroWhen(parents: map<Dir, Option<Dir>>, s: VfsForget.Shot, x: Dir)
    requires VfsForget.Whole(parents, s) && x in parents
    ensures s.counts[x] == 0 <==> Unmarked(parents, s.marks, x)
  {
    var virt := VfsForget.MarkNames(s.marks);
    ZeroCount<Dir>(parents, virt, s.counts, x);
    UnmarkedIs(parents, s.marks, virt, x);
  }

  /** Forgetting leaves the directories where they are. */
  method ForgetDirs(d: Dir, ghost S: set<Dir>, ghost F: set<File>, ghost c: Cache, ghost busy: set<File>)
    returns (hasVirtual: bool, ghost c': Cache)
    requires d in S && Counted(S) && NodesAre(S, c.all, c.marks) && c.parents == Parents(S) && busy == VfsForget.Busy(F)
    requires Hangs(c.parents, c.all) && VfsForget.Filed(F, c.all) && PathsAre(S, c.paths)
    modifies S`items, S`virtual, S`hasRead, S`virtuals
    ensures Counted(S) && NodesAre(S, c'.all, c'.marks) && PathsAre(S, c.paths) && c.parents == Parents(S) && busy == VfsForget.Busy(F)
    ensures ForgotIn(c, c', d, busy) && hasVirtual == (d.virtuals != 0) && (hasVirtual <==> !Unmarked(c.parents, c'.marks, d))
  {
    hasVirtual, c' := ForgetHere(d, S, F, c, busy);
  }

  /** And the files where they belong. */
  method ForgetApart(d: Dir, ghost S: set<Dir>, ghost F: set<File>, ghost c: Cache, ghost busy: set<File>)
    returns (hasVirtual: bool, ghost c': Cache)
    requires d in S && Counted(S) && NodesAre(S, c.all, c.marks) && c.parents == Parents(S) && busy == VfsForget.Busy(F)
    requires Hangs(c.parents, c.all) && VfsForget.Filed(F, c.all) && PathsAre(S, c.paths) && Spans(S, F, c) && FilesStand(S, F, c)
    modifies S`items, S`virtual, S`hasRead, S`virtuals
    ensures Counted(S) && NodesAre(S, c'.all, c'.marks) && PathsAre(S, c.paths) && c.parents == Parents(S) && FilesStand(S, F, c) && busy == VfsForget.Busy(F)
    ensures ForgotIn(c, c', d, busy) && hasVirtual == (d.virtuals != 0) && (hasVirtual <==> !Unmarked(c.parents, c'.marks, d))
  {
    hasVirtual, c' := ForgetDirs(d, S, F, c, busy);
  }

  lemma {:induction false} ThinnedIsDropped(c: Cache, c': Cache)
    requires Thinned(c, c')
    ensures Dropped(c, c')
  {
  }

  lemma {:induction false} StandsAfterForget(S: set<Dir>, F: set<File>, c: Cache, c': Cache)
    requires Spans(S, F, c) && NodesAre(S, c'.all, c'.marks) && Dropped(c, c') && StandsWithoutItems(S, F, c)
    ensures Stands(S, F, c')
  {
  }

  lemma {:induction false} KeepsAfterForget(root: Dir, S: set<Dir>, F: set<File>, c: Cache, c': Cache)
    requires Counted(S) && Spans(S, F, c) && Sound(root, c) && NodesAre(S, c'.all, c'.marks) && Thinned(c, c') && StandsWithoutItems(S, F, c)
    ensures Keeps(root, S, F, c') && StaysNoted(c, c')
  {
    ThinnedIsDropped(c, c');
    StandsAfterForget(S, F, c, c');
    SoundAfterDrop(root, c, c');
    if Noted(c) {
      NotedAfterDrop(c, c');
    }
  }

  lemma {:induction false} ValuesNow(S: set<Dir>, F: set<File>, c: Cache)
    requires Stands(S, F, c)
    ensures Parents(S) == c.parents && Items(S) == c.all
  {
  }

  lemma {:induction false} FitToForget(root: Dir, S: set<Dir>, F: set<File>, c: Cache)
    requires Stands(S, F, c) && Sound(root, c)
    ensures NodesAre(S, c.all, c.marks) && Parents(S) == c.parents && Hangs(Parents(S), c.all) && VfsForget.Filed(F, c.all)
  {
    ValuesNow(S, F, c);
  }

  lemma {:induction false} DirsStandStill(S: set<Dir>, F: set<File>, c: Cache)
    requires Spans(S, F, c) && PathsAre(S, c.paths) && c.parents == Parents(S)
    ensures DirsStand(S, F, c)
  {
    assert forall x :: x in S ==> Parents(S)[x] == x.parent;
  }

  method Forget(d: Dir, root: Dir, ghost S: set<Dir>, ghost F: set<File>, ghost c: Cache, ghost busy: set<File>) returns (hasVirtual: bool, ghost c': Cache)
    requires d in S && Keeps(root, S, F, c) && busy == VfsForget.Busy(F)
    modifies S`items, S`virtual, S`hasRead, S`virtuals
    ensures Keeps(root, S, F, c') && StaysNoted(c, c') && busy == VfsForget.Busy(F) && ForgotIn(c, c', d, busy)
    ensures hasVirtual == (d.virtuals != 0) && (hasVirtual <==> !Unmarked(c.parents, c'.marks, d))
  {
    FitToForget(root, S, F, c);
    hasVirtual, c' := ForgetApart(d, S, F, c, busy);
    DirsStandStill(S, F, c);
    KeepsAfterForget(root, S, F, c, c');
  }

  // ---------- renaming ----------

  /** Whether x is top or below it, found by going up from x. */
  method IsBelow(top: Dir, x: Dir, ghost S: set<Dir>) returns (below: bool)
    requires x in S && Forest<Dir>(Parents(S))
    ensures below == Inside(Parents(S), top, x)
  {
    ghost var parents := Parents(S);
    ghost var seen: set<Dir> := {};
    var cur := Some(x);
    below := false;
    while cur.Some? && !below
      invariant cur.Some? ==> cur.value in S
      invariant below ==> top in Up<Dir>(parents, x)
      invariant !below ==> top !in seen && Up<Dir>(parents, x) == seen + (if cur.None? then {} else Up<Dir>(parents, cur.value))
      decreases if cur.None? then {} else Up<Dir>(parents, cur.value), !below
    {
      UpUnfold<Dir>(parents, cur.value);
      if cur.value == top {
        below := true;
      } else {
        seen := seen + {cur.value};
        cur := cur.value.parent;
      }
    }
  }

  /** With nothing virtual at or below x before, forgetting leaves nothing. */
  lemma {:induction false} StaysZero(parents: map<Dir, Option<Dir>>, s: VfsForget.Shot, s': VfsForget.Shot, x: Dir)
    requires VfsForget.Whole(parents, s) && VfsForget.Whole(parents, s') && VfsForget.Trimmed(s, s') && x in parents && s.counts[x] == 0
    ensures s'.counts[x] == 0
  {
    var virt, virt' := VfsForget.MarkNames(s.marks), VfsForget.MarkNames(s'.marks);
    ZeroCount<Dir>(parents, virt, s.counts, x);
    ZeroCount<Dir>(parents, virt', s'.counts, x);
    forall y | y in parents && x in Up<Dir>(parents, y)
      ensures virt'[y] == {}
    {
      assert virt[y] == {};
      assert forall n :: n in s'.marks[y] ==> n in s.marks[y];
    }
  }

  /**
   * What renaming x has done to the values: mid is the cache with x forgotten,
   * then its parent, the paths in its tree t and the items of the new parent
   * are new.
   */
  ghost predicate RenamedIn(c: Cache, mid: Cache, c': Cache, x: Dir, dest: Dir, newPath: Path, t: Shape) {
    && DirRehung(c, c', x, dest, newPath) && TreeMoved(c, c', x, newPath, t) && t.parents.Keys == Cut<Dir>(c.parents, x).Keys
    && mid.all.Keys == mid.marks.Keys == c.all.Keys && c'.all == mid.all[dest := c'.all[dest]] && c'.marks == mid.marks
  }

  /** The new parent, the new path, and what the new parent lists. */
  ghost predicate DirRehung(c: Cache, c': Cache, x: Dir, dest: Dir, newPath: Path) {
    && x in c.paths && dest in c.all && dest in c'.all && x in c'.paths
    && c'.parents.Keys == c.parents.Keys && c'.all.Keys == c.all.Keys && c'.paths.Keys == c.paths.Keys
    && c'.home == c.home && c'.dpaths.Keys == c.dpaths.Keys
    && NodesMoved(c, c', x, dest) && PathsMoved(c, c', x, newPath)
    && c'.all[dest] == Relisted(c.all[dest], NameOf(c.paths[x]), NameOf(newPath), x)
  }

  /** Rename, in terms of the values. */
  method RenameHere(x: Dir, dest: Dir, newPath: Path, ghost S: set<Dir>, ghost F: set<File>, ghost c: Cache, ghost parents: map<Dir, Option<Dir>>,
                    ghost busy: set<File>, ghost s: VfsForget.Shot, ghost dpaths: map<File, Path>)
    returns (ghost T: set<Dir>, ghost s': VfsForget.Shot, ghost v': Names)
    requires x in S && dest in S && VfsForget.Now(S, F, parents, busy, s) && VfsForget.Good(parents, F, busy, AllPins(s, busy), s)
    requires HomesAre(F, c.home) && PathsAre(S, c.paths) && DirPathsAre(F, dpaths) && AtHome(s.all, c.home) && Named(Shape(parents, s.all, c.home), c.paths)
    requires !Inside(parents, x, dest) && parents[x].Some? && (parents[x] == Some(dest) || s.counts[x] == 0)
    modifies S`items, S`virtual, S`hasRead, S`virtuals, S`path, x`parent, F`dPath
    ensures T == Cut<Dir>(parents, x).Keys && VfsForget.Forgot(parents, x, AllPins(s, busy), s, s') && VfsForget.Whole(parents, s')
    ensures VfsForget.Pinned(AllPins(s, busy), s', busy) && VfsForget.Swept(s', busy, x)
    ensures NamesAre(T, F, v') && HomesAre(F, c.home)
    ensures Settled(CutShape(Shape(parents, s'.all, c.home), x), v', x, newPath) && NamesStay(T, x, newPath, c.paths, v'.paths)
    ensures Carried(CutShape(Shape(parents, s'.all, c.home), x), x, Names(c.paths, dpaths), v')
    ensures Apart(S, T, F, CutShape(Shape(parents, s'.all, c.home), x), c.paths, dpaths) && SpansAll(S, parents, s') && MarksAt(S, s') && MovedAt(S, parents, s', x, dest)
    ensures dest.items == Relisted(s.all[dest], NameOf(c.paths[x]), NameOf(newPath), x)
    ensures Counted(S)
  {
    T, s', v' := Rename(x, dest, newPath, S, F, parents, busy, AllPins(s, busy), s, c.home, c.paths, dpaths);
    if s.counts[x] == 0 {
      StaysZero(parents, s, s', x);
    }
  }

  /** The paths after a rename. */
  ghost predicate PathsMoved(c: Cache, c': Cache, x: Dir, newPath: Path) {
    forall y {:trigger c'.paths[y]} :: y in c.paths ==> y in c'.paths && if y == x then c'.paths[y] == newPath else NameOf(c'.paths[y]) == NameOf(c.paths[y])
  }

  lemma {:induction false} PathsAfter(S: set<Dir>, F: set<File>, c: Cache, c': Cache, t: Shape, T: set<Dir>, v': Names, x: Dir, newPath: Path, dpaths: map<File, Path>)
    requires Spans(S, F, c) && NamesAre(T, F, v') && x in t.all && Settled(t, v', x, newPath) && NamesStay(T, x, newPath, c.paths, v'.paths)
    requires Apart(S, T, F, t, c.paths, dpaths) && x in T && T <= S && PathsAre(S, c'.paths)
    ensures PathsMoved(c, c', x, newPath)
  {
    assert Walk(t.all, x, []) == Some(x);
    assert SettledAt(t, v', x, newPath + []);
    assert newPath + [] == newPath;
    forall y | y in S
      ensures y in c'.paths && if y == x then c'.paths[y] == newPath else NameOf(c'.paths[y]) == NameOf(c.paths[y])
    {
      assert c'.paths[y] == y.path;
      if y in T {
        assert v'.paths[y] == y.path;
      }
    }
  }

  /** Parents and items after a rename. */
  ghost predicate NodesMoved(c: Cache, c': Cache, x: Dir, dest: Dir) {
    && (forall y {:trigger c'.parents[y]} :: y in c.parents ==> y in c'.parents && c'.parents[y] == if y == x then Some(dest) else c.parents[y])
    && (forall y {:trigger c'.all[y]} :: y in c.all && y != dest ==> y in c'.all && (c'.all[y] == c.all[y] || c'.all[y] == map[]))
  }

  lemma {:induction false} NodesAfter(S: set<Dir>, F: set<File>, c: Cache, c': Cache, s: VfsForget.Shot, s': VfsForget.Shot, x: Dir, dest: Dir)
    requires Spans(S, F, c) && s.all == c.all && s'.all.Keys == S && VfsForget.Trimmed(s, s') && SpansAll(S, c.parents, s') && MovedAt(S, c.parents, s', x, dest)
    requires Stands(S, F, c')
    ensures NodesMoved(c, c', x, dest)
  {
    forall y | y in S
      ensures c'.parents[y] == if y == x then Some(dest) else c.parents[y]
    {
      assert y.parent == c'.parents[y];
    }
    forall y | y in S && y != dest
      ensures c'.all[y] == c.all[y] || c'.all[y] == map[]
    {
      assert c'.all[y] == y.items == s'.all[y] && y in s'.all;
    }
  }

  lemma {:induction false} FitToRename(root: Dir, S: set<Dir>, F: set<File>, c: Cache, busy: set<File>, s: VfsForget.Shot)
    requires Keeps(root, S, F, c) && VfsForget.Now(S, F, Parents(S), busy, s)
    ensures DirPathsAre(F, c.dpaths) && Parents(S) == c.parents && s.all == c.all && s.marks == c.marks
    ensures VfsForget.Whole(c.parents, s) && VfsForget.Good(c.parents, F, busy, AllPins(s, busy), s)
    ensures HomesAre(F, c.home) && PathsAre(S, c.paths) && AtHome(s.all, c.home) && Named(Shape(c.parents, s.all, c.home), c.paths)
  {
    FitToForget(root, S, F, c);
    assert Parents(S) == c.parents;
    ShotOf(S, F, c.parents, busy, s, c);
  }

  lemma {:induction false} ValuesOf(S: set<Dir>, F: set<File>) returns (c: Cache)
    ensures Stands(S, F, c)
  {
    c := Snap(S, F);
  }

  lemma {:induction false} SameHomes(S: set<Dir>, F: set<File>, c: Cache, c': Cache)
    requires Stands(S, F, c') && HomesAre(F, c.home)
    ensures c'.home == c.home && PathsAre(S, c'.paths) && DirPathsAre(F, c'.dpaths)
  {
    forall f | f in F
      ensures c'.home[f] == c.home[f]
    {
      assert Seat(f.d, f.leaf) == c'.home[f];
    }
  }

  /** The tree is settled in the new values as it is in the heap. */
  lemma {:induction false} SettledNow(S: set<Dir>, F: set<File>, c': Cache, T: set<Dir>, t: Shape, v': Names, x: Dir, newPath: Path)
    requires NamesAre(T, F, v') && Settled(t, v', x, newPath) && T <= S && PathsAre(S, c'.paths) && DirPathsAre(F, c'.dpaths)
    ensures Settled(t, NamesOf(c'), x, newPath)
  {
    forall ks | Walk(t.all, x, ks).Some?
      ensures SettledAt(t, NamesOf(c'), Walk(t.all, x, ks).value, newPath + ks)
    {
      var y := Walk(t.all, x, ks).value;
      assert SettledAt(t, v', y, newPath + ks);
      assert c'.paths[y] == y.path;
      forall n | n in t.all[y] && t.all[y][n].FileNode?
        ensures t.all[y][n].file in c'.dpaths && c'.dpaths[t.all[y][n].file] == newPath + ks && t.home[t.all[y][n].file] == Seat(y, n)
      {
        var f := t.all[y][n].file;
        assert v'.dpaths[f] == f.dPath;
        assert c'.dpaths[f] == f.dPath;
      }
    }
  }

  lemma {:induction false} OutsideNow(S: set<Dir>, F: set<File>, c: Cache, c': Cache, T: set<Dir>, t: Shape, x: Dir)
    requires Spans(S, F, c) && t.home == c.home && Apart(S, T, F, t, c.paths, c.dpaths) && T == Cut<Dir>(c.parents, x).Keys
    requires PathsAre(S, c'.paths) && DirPathsAre(F, c'.dpaths)
    ensures PathsOutside(c, c', x) && DirPathsOutside(c, c', t)
  {
    forall y | y in c.paths && !Inside(c.parents, x, y)
      ensures y in c'.paths && c'.paths[y] == c.paths[y]
    {
      assert y !in T && c'.paths[y] == y.path;
    }
    forall f | f in t.home && f in c.dpaths && !Shows(t, f)
      ensures f in c'.dpaths && c'.dpaths[f] == c.dpaths[f]
    {
      assert c'.dpaths[f] == f.dPath;
    }
  }

  /** Where files of the tree noted the path of their directory they do so in the new values. */
  lemma {:induction false} CarriedNow(S: set<Dir>, F: set<File>, c: Cache, c': Cache, T: set<Dir>, t: Shape, v': Names, x: Dir)
    requires NamesAre(T, F, v') && Carried(t, x, NamesOf(c), v') && T <= S && t.all.Keys <= T && PathsAre(S, c'.paths) && DirPathsAre(F, c'.dpaths)
    ensures Carried(t, x, NamesOf(c), NamesOf(c'))
  {
    forall y | y in t.all && y != x && NotedAt(t, NamesOf(c), y)
      ensures NotedAt(t, NamesOf(c'), y)
    {
      assert NotedAt(t, v', y);
      assert v'.paths[y] == y.path == c'.paths[y];
      forall n | n in t.all[y] && t.all[y][n].FileNode?
        ensures t.all[y][n].file in c'.dpaths && c'.dpaths[t.all[y][n].file] == c'.paths[y]
      {
        var f := t.all[y][n].file;
        assert v'.dpaths[f] == f.dPath == c'.dpaths[f];
      }
    }
  }

  /** The items of the tree are those of its shape. */
  lemma {:induction false} ItemsNow(S: set<Dir>, F: set<File>, c: Cache, c': Cache, s': VfsForget.Shot, t: Shape, x: Dir, dest: Dir)
    requires Stands(S, F, c') && SpansAll(S, c.parents, s') && MovedAt(S, c.parents, s', x, dest) && dest !in t.parents
    requires t == CutShape(Shape(c.parents, s'.all, c.home), x)
    ensures ItemsOf(c', t)
  {
    forall y | y in t.parents
      ensures y in t.all && y in c'.all && c'.all[y] == t.all[y]
    {
      assert y in S && c'.all[y] == y.items == s'.all[y];
    }
  }

  lemma {:induction false} RelistedNow(S: set<Dir>, F: set<File>, c: Cache, c': Cache, x: Dir, dest: Dir, newPath: Path)
    requires Spans(S, F, c) && Stands(S, F, c') && dest in S && x in S && dest.items == Relisted(c.all[dest], NameOf(c.paths[x]), NameOf(newPath), x)
    ensures c'.all[dest] == Relisted(c.all[dest], NameOf(c.paths[x]), NameOf(newPath), x)
    ensures c'.parents.Keys == c.parents.Keys && c'.all.Keys == c.all.Keys && c'.paths.Keys == c.paths.Keys && c'.dpaths.Keys == c.dpaths.Keys
  {
  }

  lemma {:induction false} TreeMovedNow(S: set<Dir>, F: set<File>, c: Cache, c': Cache, s': VfsForget.Shot, T: set<Dir>, t: Shape, v': Names,
                                        x: Dir, dest: Dir, newPath: Path)
    requires Spans(S, F, c) && Stands(S, F, c') && x in T && T <= S && T == Cut<Dir>(c.parents, x).Keys && Proper(t)
    requires NamesAre(T, F, v') && Settled(t, v', x, newPath) && Carried(t, x, NamesOf(c), v') && Apart(S, T, F, t, c.paths, c.dpaths)
    requires PathsAre(S, c'.paths) && DirPathsAre(F, c'.dpaths)
    requires SpansAll(S, c.parents, s') && MovedAt(S, c.parents, s', x, dest) && dest !in T && t == CutShape(Shape(c.parents, s'.all, c.home), x)
    ensures TreeMoved(c, c', x, newPath, t) && t.parents.Keys == T
  {
    SettledNow(S, F, c', T, t, v', x, newPath);
    OutsideNow(S, F, c, c', T, t, x);
    CarriedNow(S, F, c, c', T, t, v', x);
    ItemsNow(S, F, c, c', s', t, x, dest);
  }

  ghost predicate MarksOf(S: set<Dir>, s: VfsForget.Shot)
    reads S`virtual, S`virtuals
  {
    s.marks.Keys == s.counts.Keys == S && MarksAt(S, s)
  }

  /** Items and marks are those after forgetting, but for the items of the new parent. */
  lemma {:induction false} NodesNow(S: set<Dir>, F: set<File>, c: Cache, c': Cache, s': VfsForget.Shot, x: Dir, dest: Dir)
    requires Stands(S, F, c') && MarksOf(S, s') && SpansAll(S, c.parents, s') && MovedAt(S, c.parents, s', x, dest) && dest in S
    ensures c'.all == s'.all[dest := c'.all[dest]] && c'.marks == s'.marks
  {
    forall y | y in S
      ensures c'.marks[y] == s'.marks[y] && (y != dest ==> c'.all[y] == s'.all[y])
    {
      assert y.virtual == c'.marks[y];
      assert y.items == c'.all[y];
    }
    assert s'.all[dest := c'.all[dest]].Keys == S;
  }

  /** What RenameHere leaves, in terms of the values. */
  lemma {:induction false} RenamedNow(S: set<Dir>, F: set<File>, c: Cache, s: VfsForget.Shot, s': VfsForget.Shot, T: set<Dir>, t: Shape, v': Names,
                                      x: Dir, dest: Dir, newPath: Path) returns (c': Cache)
    requires MarksOf(S, s') && Spans(S, F, c) && s.all == c.all && x in T && T <= S && dest in S && VfsForget.Trimmed(s, s') && s'.all.Keys == S
    requires T == Cut<Dir>(c.parents, x).Keys && Proper(t) && dest !in T && t == CutShape(Shape(c.parents, s'.all, c.home), x)
    requires NamesAre(T, F, v') && Settled(t, v', x, newPath) && NamesStay(T, x, newPath, c.paths, v'.paths) && HomesAre(F, c.home)
    requires Apart(S, T, F, t, c.paths, c.dpaths) && SpansAll(S, c.parents, s') && MovedAt(S, c.parents, s', x, dest)
    requires Carried(t, x, NamesOf(c), v')
    requires dest.items == Relisted(c.all[dest], NameOf(c.paths[x]), NameOf(newPath), x)
    ensures Stands(S, F, c') && RenamedIn(c, c.(all := s'.all, marks := s'.marks), c', x, dest, newPath, t)
  {
    c' := ValuesOf(S, F);
    NodesNow(S, F, c, c', s', x, dest);
    SameHomes(S, F, c, c');
    PathsAfter(S, F, c, c', t, T, v', x, newPath, c.dpaths);
    NodesAfter(S, F, c, c', s, s', x, dest);
    TreeMovedNow(S, F, c, c', s', T, t, v', x, dest, newPath);
    RelistedNow(S, F, c, c', x, dest, newPath);
  }

  /** The tree of x is in order after forgetting. */
  lemma {:induction false} CutProper(parents: map<Dir, Option<Dir>>, s: VfsForget.Shot, s': VfsForget.Shot, home: map<File, Seat>, paths: map<Dir, Path>, x: Dir)
    returns (t: Shape)
    requires VfsForget.Whole(parents, s') && VfsForget.Trimmed(s, s') && x in parents
    requires AtHome(s.all, home) && Named(Shape(parents, s.all, home), paths)
    ensures t == CutShape(Shape(parents, s'.all, home), x) && Proper(t) && x in Cut<Dir>(parents, x)
  {
    t := CutShape(Shape(parents, s'.all, home), x);
    UpUnfold<Dir>(parents, x);
    ProperAfterForget(parents, s, s', home, paths);
    CutIsProper(Shape(parents, s'.all, home), x);
  }

  /** The rename proper: what x lists and its tree move along, and the counts stay exact. */
  method RenameOnly(x: Dir, dest: Dir, newPath: Path, root: Dir, ghost S: set<Dir>, ghost F: set<File>, ghost c: Cache, ghost busy: set<File>)
    returns (ghost mid: Cache, ghost c': Cache, ghost t: Shape)
    requires x in S && dest in S && Keeps(root, S, F, c) && busy == VfsForget.Busy(F)
    requires !Inside(c.parents, x, dest) && c.parents[x].Some? && (c.parents[x] == Some(dest) || x.virtuals == 0)
    modifies S`items, S`virtual, S`hasRead, S`virtuals, S`path, x`parent, F`dPath
    ensures Counted(S) && Stands(S, F, c') && ForgotIn(c, mid, x, busy) && RenamedIn(c, mid, c', x, dest, newPath, t)
  {
    ghost var s := VfsForget.Shot(Items(S), VfsForget.Marks(S), Counts(S), VfsForget.HaveRead(S));
    FitToRename(root, S, F, c, busy, s);
    ghost var T, s', v';
    T, s', v' := RenameHere(x, dest, newPath, S, F, c, c.parents, busy, s, c.dpaths);
    t := CutProper(c.parents, s, s', c.home, c.paths, x);
    mid := c.(all := s'.all, marks := s'.marks);
    ForgotNow(c, busy, x, s, s');
    c' := RenamedNow(S, F, c, s, s', T, t, v', x, dest, newPath);
  }

  lemma {:induction false} StandsNow(d: Dir, S: set<Dir>, F: set<File>, c: Cache, items: map<string, Node>, marks: map<string, VState>)
    requires Spans(S, F, c) && d in S && StandsBut(d, S, F, c) && d.items == items && d.virtual == marks
    ensures Stands(S, F, WithNodes(c, d, items, marks))
  {
    assert c.all[d := items].Keys == S && c.marks[d := marks].Keys == S;
  }

  /** The end of Dir.Rename: delObject of the old name, addObject under the new one. */
  method Relist(p: Dir, leaf: string, dest: Dir, newLeaf: string, node: Node, ghost S: set<Dir>, ghost F: set<File>, ghost c: Cache) returns (ghost c': Cache)
    requires p in S && dest in S && Counted(S) && Stands(S, F, c)
    requires (if node.FileNode? then node.file in F else node.dir in S) && TitleIn(c, node) == newLeaf
    modifies S`items, S`virtual, S`virtuals
    ensures c' == Rehung(c, p, leaf, dest, newLeaf, node)
    ensures Counted(S) && Stands(S, F, c')
  {
    RemoveHere(p, leaf, S, F, c);
    StandsNow(p, S, F, c, p.items, p.virtual);
    c' := ListKnown(dest, node, S, F, WithNodes(c, p, p.items, p.virtual));
  }

  /** After the rename and the relisting x is listed under its new name by its new parent, and only there. */
  lemma {:induction false} DirMovedIn(root: Dir, c: Cache, c1: Cache, x: Dir, p: Dir, leaf: string, dest: Dir, newLeaf: string)
    requires Sound(root, c) && p in c.all && leaf in c.all[p] && c.all[p][leaf] == DirNode(x) && dest in c.all
    requires DirRehung(c, c1, x, dest, c.paths[dest] + [newLeaf]) && c1.marks.Keys == c.all.Keys
    ensures DirMoved(c, Rehung(c1, p, leaf, dest, newLeaf, DirNode(x)), x, dest, newLeaf)
  {
    var c' := Rehung(c1, p, leaf, dest, newLeaf, DirNode(x));
    DirListedOnce(root, c, x, p, leaf);
    RehungItems(c1, p, leaf, dest, newLeaf, DirNode(x));
    forall y, n | y in c'.all && n in c'.all[y]
      ensures (y == dest && n == newLeaf && c'.all[y][n] == DirNode(x)) || Unmoved(c, c', x, y, n)
    {
      EntryAfter(c, c1, c', x, p, leaf, dest, newLeaf, y, n);
    }
  }

  /** What y lists under n it listed before, and it is not x. */
  ghost predicate Unmoved(c: Cache, c': Cache, x: Dir, y: Dir, n: string)
    requires y in c'.all && n in c'.all[y]
  {
    y in c.all && n in c.all[y] && c'.all[y][n] == c.all[y][n] && c.all[y][n] != DirNode(x)
  }

  lemma {:induction false} EntryAfter(c: Cache, c1: Cache, c': Cache, x: Dir, p: Dir, leaf: string, dest: Dir, newLeaf: string, y: Dir, n: string)
    requires p in c.all && dest in c.all && dest in c.paths && DirRehung(c, c1, x, dest, c.paths[dest] + [newLeaf]) && NameOf(c.paths[x]) == leaf
    requires c'.all.Keys == c.all.Keys && y in c'.all && n in c'.all[y] && RehungAt(c1, c', p, leaf, dest, newLeaf, DirNode(x), y, n)
    requires y in c.all && n in c.all[y] && c.all[y][n] == DirNode(x) ==> y == p && n == leaf
    ensures (y == dest && n == newLeaf && c'.all[y][n] == DirNode(x)) || Unmoved(c, c', x, y, n)
  {
    if y != dest {
      assert n in c1.all[y];
      assert c1.all[y] == c.all[y];
    }
  }

  /** What y lists under n after the relisting. */
  ghost predicate RehungAt(c: Cache, c': Cache, p: Dir, leaf: string, dest: Dir, newLeaf: string, node: Node, y: Dir, n: string)
    requires y in c'.all && n in c'.all[y]
  {
    if y == dest && n == newLeaf then c'.all[y][n] == node
    else y in c.all && n in c.all[y] && c'.all[y][n] == c.all[y][n] && (y == p ==> n != leaf)
  }

  lemma {:induction false} RehungItems(c: Cache, p: Dir, leaf: string, dest: Dir, newLeaf: string, node: Node)
    requires p in c.all && dest in c.all && p in c.marks && dest in c.marks
    ensures var c' := Rehung(c, p, leaf, dest, newLeaf, node);
            && c'.all.Keys == c.all.Keys
            && forall y, n {:trigger c'.all[y][n]} :: y in c'.all && n in c'.all[y] ==> RehungAt(c, c', p, leaf, dest, newLeaf, node, y, n)
  {
    var c' := Rehung(c, p, leaf, dest, newLeaf, node);
    assert c'.all.Keys == c.all.Keys;
    forall y, n | y in c'.all && n in c'.all[y]
      ensures RehungAt(c, c', p, leaf, dest, newLeaf, node, y, n)
    {
    }
  }

  lemma {:induction false} DirListedOnce(root: Dir, c: Cache, x: Dir, p: Dir, leaf: string)
    requires Sound(root, c) && p in c.all && leaf in c.all[p] && c.all[p][leaf] == DirNode(x)
    ensures NameOf(c.paths[x]) == leaf
    ensures forall y, n {:trigger c.all[y][n]} :: y in c.all && n in c.all[y] && c.all[y][n] == DirNode(x) ==> y == p && n == leaf
  {
    assert HangsAt(c.parents, c.all, p);
    forall y, n | y in c.all && n in c.all[y] && c.all[y][n] == DirNode(x)
      ensures y == p && n == leaf
    {
      assert HangsAt(c.parents, c.all, y);
      assert HangsUnder(c.parents, x, y);
    }
  }

  lemma {:induction false} FileListedOnce(root: Dir, c: Cache, f: File, p: Dir, leaf: string)
    requires Sound(root, c) && p in c.all && leaf in c.all[p] && c.all[p][leaf] == FileNode(f)
    ensures f in c.home && c.home[f] == Seat(p, leaf)
    ensures forall y, n {:trigger c.all[y][n]} :: y in c.all && n in c.all[y] && c.all[y][n] == FileNode(f) ==> y == p && n == leaf
  {
    assert Distinct(c.all[p]);
    forall y, n | y in c.all && n in c.all[y] && c.all[y][n] == FileNode(f)
      ensures y == p && n == leaf
    {
      assert c.home[f] == Seat(y, n);
    }
  }

  /** Which of the other entries are left when the new parent has relisted x. */
  lemma {:induction false} OthersLeft(items: map<string, Node>, leaf: string, newLeaf: string, x: Dir, gone: set<string>, n: string)
    requires n in items && items[n] != DirNode(x) && gone <= {leaf}
    ensures var now := (Relisted(items, leaf, newLeaf, x) - gone)[newLeaf := DirNode(x)];
            (n in now && now[n] == items[n]) <==> n != newLeaf && n != leaf
  {
  }

  lemma {:induction false} RehungDest(c: Cache, p: Dir, leaf: string, dest: Dir, newLeaf: string, node: Node)
    requires p in c.all && dest in c.all && p in c.marks && dest in c.marks
    ensures Rehung(c, p, leaf, dest, newLeaf, node).all[dest] == (c.all[dest] - (if p == dest then {leaf} else {}))[newLeaf := node]
  {
    assert c.all[dest] - {} == c.all[dest];
  }

  /**
   * Moving x, listed by p under leaf, makes its new parent lose another entry if
   * and only if that has the new name, or the old name of x and the parent is
   * another one than before.
   */
  lemma {:induction false} NamesakeIsLostWhen(root: Dir, c: Cache, c1: Cache, x: Dir, p: Dir, leaf: string, dest: Dir, newLeaf: string, n: string)
    requires Sound(root, c) && p in c.all && leaf in c.all[p] && c.all[p][leaf] == DirNode(x)
    requires dest in c.all && n in c.all[dest] && c.all[dest][n] != DirNode(x)
    requires c1.all.Keys == c1.marks.Keys == c.all.Keys && c1.all[dest] == Relisted(c.all[dest], leaf, newLeaf, x)
    ensures var now := Rehung(c1, p, leaf, dest, newLeaf, DirNode(x)).all[dest];
            (n in now && now[n] == c.all[dest][n]) <==> n != newLeaf && (n != leaf || p == dest)
  {
    DirListedOnce(root, c, x, p, leaf);
    RehungDest(c1, p, leaf, dest, newLeaf, DirNode(x));
    OthersLeft(c.all[dest], leaf, newLeaf, x, if p == dest then {leaf} else {}, n);
    assert p == dest ==> n != leaf;
  }

  lemma {:induction false} ForestNow(S: set<Dir>, F: set<File>, c: Cache)
    requires Counted(S) && Stands(S, F, c)
    ensures Forest<Dir>(c.parents)
  {
    ValuesNow(S, F, c);
  }

  /** A file the tree lists was listed before. */
  lemma {:induction false} ShownBefore(c: Cache, c': Cache, x: Dir, dest: Dir, newLeaf: string, newPath: Path, t: Shape, f: File)
    requires DirMoved(c, c', x, dest, newLeaf) && TreeMoved(c, c', x, newPath, t) && f in t.home && Shows(t, f)
    ensures Shows(ShapeOf(c), f)
  {
    assert t.all[t.home[f].dir] == c'.all[t.home[f].dir];
    assert c'.all[t.home[f].dir][t.home[f].leaf] == FileNode(f);
  }

  lemma {:induction false} PathsChanged(c: Cache, c': Cache, x: Dir, dest: Dir, newLeaf: string, newPath: Path, t: Shape)
    requires DirMoved(c, c', x, dest, newLeaf) && TreeMoved(c, c', x, newPath, t)
    ensures PathsChange(c, c', x, newPath)
  {
    assert Walk(t.all, x, []) == Some(x);
    assert SettledAt(t, NamesOf(c'), x, newPath + []);
    forall f | f in c.home && f in c.dpaths && !Shows(ShapeOf(c), f)
      ensures f in c'.dpaths && c'.dpaths[f] == c.dpaths[f]
    {
      if Shows(t, f) {
        ShownBefore(c, c', x, dest, newLeaf, newPath, t, f);
      }
    }
  }

  /** The relisting is outside the tree. */
  lemma {:induction false} TreeMovedIn(c: Cache, c1: Cache, x: Dir, p: Dir, leaf: string, dest: Dir, newLeaf: string, newPath: Path, t: Shape)
    requires p in c.parents && dest in c.parents && !Inside(c.parents, x, p) && !Inside(c.parents, x, dest)
    requires TreeMoved(c, c1, x, newPath, t) && t.parents.Keys == Cut<Dir>(c.parents, x).Keys
    requires p in c1.all && dest in c1.all && p in c1.marks && dest in c1.marks
    ensures TreeMoved(c, Rehung(c1, p, leaf, dest, newLeaf, DirNode(x)), x, newPath, t)
  {
    var c' := Rehung(c1, p, leaf, dest, newLeaf, DirNode(x));
    assert p !in t.parents && dest !in t.parents;
    assert NamesOf(c') == NamesOf(c1);
  }

  lemma {:induction false} RenamedTitle(c: Cache, c1: Cache, x: Dir, dest: Dir, newLeaf: string)
    requires dest in c.paths && DirRehung(c, c1, x, dest, c.paths[dest] + [newLeaf])
    ensures x in c1.paths && TitleIn(c1, DirNode(x)) == newLeaf
  {
    assert c1.paths[x] == c.paths[dest] + [newLeaf];
  }

  /** With nothing marked at or below x before, nothing is afterwards. */
  lemma {:induction false} StaysUnmarked(c: Cache, c': Cache, x: Dir)
    requires Thinned(c, c') && Unmarked(c.parents, c.marks, x)
    ensures Unmarked(c.parents, c'.marks, x)
  {
    forall z | z in c'.marks && Inside(c.parents, x, z)
      ensures c'.marks[z] == map[]
    {
      assert VfsForget.Fewer(c'.marks[z], c.marks[z]);
    }
  }

  lemma {:induction false} UnmarkedNow(S: set<Dir>, F: set<File>, c: Cache, x: Dir)
    requires Counted(S) && Stands(S, F, c) && x in S
    ensures x.virtuals == 0 <==> Unmarked(c.parents, c.marks, x)
  {
    assert Parents(S) == c.parents;
    ZeroCount<Dir>(Parents(S), Virtuals(S), Counts(S), x);
    forall z | z in S
      ensures Virtuals(S)[z] == c.marks[z].Keys
    {
      assert z.virtual == c.marks[z];
    }
    UnmarkedIs(c.parents, c.marks, Virtuals(S), x);
  }

  lemma {:induction false} GraftIs<T>(parents: map<Dir, Option<Dir>>, base: map<Dir, T>, tree: map<Dir, T>, want: map<Dir, T>, x: Dir)
    requires want.Keys == base.Keys && SameBeyond(parents, base, want, x)
    requires forall y {:trigger tree[y]} {:trigger want[y]} :: y in base && Inside(parents, x, y) ==> y in tree && tree[y] == want[y]
    ensures Graft(parents, base, tree, x) == want
  {
    forall y | y in base
      ensures Graft(parents, base, tree, x)[y] == want[y]
    {
      if Inside(parents, x, y) {
        assert tree[y] == want[y];
      } else {
        assert want[y] == base[y];
      }
    }
  }

  /** The directories outside the tree make no difference to the grafted ones. */
  lemma {:induction false} SameGraft<T>(parents: map<Dir, Option<Dir>>, base: map<Dir, T>, base': map<Dir, T>, tree: map<Dir, T>, x: Dir)
    requires base.Keys == base'.Keys <= tree.Keys && SameBeyond(parents, base, base', x)
    ensures Graft(parents, base, tree, x) == Graft(parents, base', tree, x)
  {
  }

  lemma {:induction false} RehungNodes(c1: Cache, mid: Cache, p: Dir, leaf: string, dest: Dir, newLeaf: string, node: Node)
    requires c1.all.Keys == c1.marks.Keys && p in c1.all && dest in c1.all && mid.all == c1.all && mid.marks == c1.marks
    ensures Rehung(c1, p, leaf, dest, newLeaf, node).all == Rehung(mid, p, leaf, dest, newLeaf, node).all
    ensures Rehung(c1, p, leaf, dest, newLeaf, node).marks == Rehung(mid, p, leaf, dest, newLeaf, node).marks
  {
  }

  /** The tree of x in the cache after the relisting is that after forgetting. */
  lemma {:induction false} GraftedAgain(c: Cache, mid: Cache, c1: Cache, x: Dir, p: Dir, leaf: string, dest: Dir, newLeaf: string)
    requires Thinned(c, mid) && SameBeyond(c.parents, c.all, mid.all, x) && SameBeyond(c.parents, c.marks, mid.marks, x)
    requires p in c.all && dest in c.all && !Inside(c.parents, x, p) && !Inside(c.parents, x, dest)
    requires dest in c1.all && c1.all == mid.all[dest := c1.all[dest]] && c1.marks == mid.marks
    ensures Grafted(c, Rehung(c1, p, leaf, dest, newLeaf, DirNode(x)), x) == mid
  {
    var c' := Rehung(c1, p, leaf, dest, newLeaf, DirNode(x));
    GraftIs(c.parents, c.all, c'.all, mid.all, x);
    GraftIs(c.parents, c.marks, c'.marks, mid.marks, x);
  }

  lemma {:induction false} DirIsRenamed(c: Cache, mid: Cache, c1: Cache, x: Dir, p: Dir, leaf: string, dest: Dir, newLeaf: string, busy: set<File>)
    requires p in c.all && dest in c.all && dest in c.paths && ForgotIn(c, mid, x, busy) && !Inside(c.parents, x, p) && !Inside(c.parents, x, dest)
    requires dest in c1.all && c1.all == mid.all[dest := c1.all[dest]] && c1.marks == mid.marks && c1.all[dest] == Relisted(c.all[dest], leaf, newLeaf, x)
    requires var c' := Rehung(c1, p, leaf, dest, newLeaf, DirNode(x));
             DirMoved(c, c', x, dest, newLeaf) && PathsChange(c, c', x, c.paths[dest] + [newLeaf])
    ensures DirRenamed(c, Rehung(c1, p, leaf, dest, newLeaf, DirNode(x)), x, p, leaf, dest, newLeaf, busy)
  {
    GraftedAgain(c, mid, c1, x, p, leaf, dest, newLeaf);
    assert mid.all[dest] == c.all[dest];
    RehungNodes(c1, mid.(all := mid.all[dest := Relisted(mid.all[dest], leaf, newLeaf, x)]), p, leaf, dest, newLeaf, DirNode(x));
  }

  /** The rename and the relisting. */
  method MoveDirHere(x: Dir, p: Dir, leaf: string, dest: Dir, newLeaf: string, root: Dir, ghost S: set<Dir>, ghost F: set<File>, ghost c: Cache, ghost busy: set<File>)
    returns (ghost mid: Cache, ghost c1: Cache, ghost c': Cache, ghost t: Shape)
    requires x in S && p in S && dest in S && Keeps(root, S, F, c) && busy == VfsForget.Busy(F)
    requires !Inside(c.parents, x, dest) && c.parents[x].Some? && (c.parents[x] == Some(dest) || x.virtuals == 0)
    modifies S`items, S`virtual, S`hasRead, S`virtuals, S`path, S`parent, F`dPath
    ensures Counted(S) && Stands(S, F, c') && ForgotIn(c, mid, x, busy) && RenamedIn(c, mid, c1, x, dest, c.paths[dest] + [newLeaf], t)
    ensures c' == Rehung(c1, p, leaf, dest, newLeaf, DirNode(x))
  {
    assert dest.path == c.paths[dest];
    mid, c1, t := RenameOnly(x, dest, dest.path + [newLeaf], root, S, F, c, busy);
    RenamedTitle(c, c1, x, dest, newLeaf);
    c' := Relist(p, leaf, dest, newLeaf, DirNode(x), S, F, c1);
  }

  /** Dir.Rename of a directory: within its parent, or to another one with nothing virtual in its tree. */
  method MoveDir(p: Dir, leaf: string, dest: Dir, newLeaf: string, root: Dir, ghost S: set<Dir>, ghost F: set<File>, ghost c: Cache, ghost busy: set<File>)
    returns (ghost c1: Cache, ghost c': Cache)
    requires p in S && dest in S && Keeps(root, S, F, c) && leaf in p.items && p.items[leaf].DirNode? && busy == VfsForget.Busy(F)
    requires !Inside(c.parents, p.items[leaf].dir, dest) && p.items[leaf].dir in S && (p == dest || p.items[leaf].dir.virtuals == 0)
    modifies S`items, S`virtual, S`hasRead, S`virtuals, S`path, S`parent, F`dPath
    ensures Keeps(root, S, F, c') && c1.all.Keys == c1.marks.Keys == c.all.Keys && c' == Rehung(c1, p, leaf, dest, newLeaf, c.all[p][leaf])
    ensures c1.all[dest] == Relisted(c.all[dest], leaf, newLeaf, c.all[p][leaf].dir) && StaysNoted(c, c')
    ensures DirRenamed(c, c', c.all[p][leaf].dir, p, leaf, dest, newLeaf, busy)
  {
    var x := p.items[leaf].dir;
    assert c.all[p][leaf] == DirNode(x);
    ParentIs(root, c, x, p, leaf);
    ForestNow(S, F, c);
    ghost var mid, t;
    mid, c1, c', t := MoveDirHere(x, p, leaf, dest, newLeaf, root, S, F, c, busy);
    DirMoves(root, c, mid, c1, x, p, leaf, dest, newLeaf, t, busy);
  }

  lemma {:induction false} ParentIs(root: Dir, c: Cache, x: Dir, p: Dir, leaf: string)
    requires Sound(root, c) && p in c.all && leaf in c.all[p] && c.all[p][leaf] == DirNode(x)
    ensures x in c.parents && c.parents[x] == Some(p)
  {
    assert HangsAt(c.parents, c.all, p);
  }

  /** What the rename and the relisting have done together. */
  lemma {:induction false} DirMoves(root: Dir, c: Cache, mid: Cache, c1: Cache, x: Dir, p: Dir, leaf: string, dest: Dir, newLeaf: string, t: Shape, busy: set<File>)
    requires Sound(root, c) && Forest<Dir>(c.parents) && p in c.all && leaf in c.all[p] && c.all[p][leaf] == DirNode(x) && dest in c.all
    requires !Inside(c.parents, x, dest) && ForgotIn(c, mid, x, busy) && RenamedIn(c, mid, c1, x, dest, c.paths[dest] + [newLeaf], t)
    ensures var c' := Rehung(c1, p, leaf, dest, newLeaf, DirNode(x));
            Sound(root, c') && DirRenamed(c, c', x, p, leaf, dest, newLeaf, busy) && StaysNoted(c, c')
    ensures c1.all[dest] == Relisted(c.all[dest], leaf, newLeaf, x)
  {
    NotBelow(root, c, x, p, leaf);
    DirListedOnce(root, c, x, p, leaf);
    DirSettles(root, c, c1, x, p, leaf, dest, newLeaf, t);
    DirIsRenamed(c, mid, c1, x, p, leaf, dest, newLeaf, busy);
  }

  lemma {:induction false} DirSettles(root: Dir, c: Cache, c1: Cache, x: Dir, p: Dir, leaf: string, dest: Dir, newLeaf: string, t: Shape)
    requires Sound(root, c) && p in c.all && leaf in c.all[p] && c.all[p][leaf] == DirNode(x) && dest in c.all && !Inside(c.parents, x, p) && !Inside(c.parents, x, dest)
    requires Forest<Dir>(c.parents) && DirRehung(c, c1, x, dest, c.paths[dest] + [newLeaf]) && TreeMoved(c, c1, x, c.paths[dest] + [newLeaf], t)
    requires t.parents.Keys == Cut<Dir>(c.parents, x).Keys && c1.marks.Keys == c.all.Keys
    ensures var c' := Rehung(c1, p, leaf, dest, newLeaf, DirNode(x));
            Sound(root, c') && StaysNoted(c, c') && DirMoved(c, c', x, dest, newLeaf) && PathsChange(c, c', x, c.paths[dest] + [newLeaf])
  {
    var c' := Rehung(c1, p, leaf, dest, newLeaf, DirNode(x));
    ParentIs(root, c, x, p, leaf);
    DirMovedIn(root, c, c1, x, p, leaf, dest, newLeaf);
    TreeMovedIn(c, c1, x, p, leaf, dest, newLeaf, c.paths[dest] + [newLeaf], t);
    SoundAfterMove(root, c, c', x, dest, newLeaf, t);
    PathsChanged(c, c', x, dest, newLeaf, c.paths[dest] + [newLeaf], t);
    if Noted(c) {
      NotedAfterMove(c, c', x, dest, newLeaf, c.paths[dest] + [newLeaf], t);
    }
  }

  lemma {:induction false} FileMovedIn(root: Dir, c: Cache, f: File, p: Dir, leaf: string, dest: Dir, newLeaf: string)
    requires Sound(root, c) && p in c.all && leaf in c.all[p] && c.all[p][leaf] == FileNode(f) && dest in c.all && p in c.marks && dest in c.marks
    ensures f in c.home && FileMoved(c, Rehung(AtDest(c, f, dest, newLeaf), p, leaf, dest, newLeaf, FileNode(f)), f, dest, newLeaf)
  {
    var c' := Rehung(AtDest(c, f, dest, newLeaf), p, leaf, dest, newLeaf, FileNode(f));
    FileListedOnce(root, c, f, p, leaf);
    assert c'.all.Keys == c.all.Keys;
  }

  /** File.rename, the move of the object having worked or waiting. */
  method Rehome(f: File, dest: Dir, newLeaf: string, o: Option<Path>, ghost S: set<Dir>, ghost F: set<File>, ghost c: Cache)
    requires f in F && Stands(S, F, c) && dest in S
    modifies f`d, f`dPath, f`leaf, f`o
    ensures Stands(S, F, AtDest(c, f, dest, newLeaf))
  {
    f.d, f.dPath, f.leaf, f.o := dest, dest.path, newLeaf, o;
    assert c.home[f := Seat(dest, newLeaf)].Keys == F && c.dpaths[f := dest.path].Keys == F;
  }

  method RehomeFile(f: File, dest: Dir, newLeaf: string, o: Option<Path>, ghost S: set<Dir>, ghost F: set<File>, ghost c: Cache)
    requires f in F && Counted(S) && Stands(S, F, c) && dest in S
    modifies f`d, f`dPath, f`leaf, f`o
    ensures Counted(S) && Stands(S, F, AtDest(c, f, dest, newLeaf))
  {
    Rehome(f, dest, newLeaf, o, S, F, c);
  }

  method MoveFileHere(f: File, p: Dir, leaf: string, dest: Dir, newLeaf: string, o: Option<Path>, ghost S: set<Dir>, ghost F: set<File>, ghost c: Cache)
    returns (ghost c': Cache)
    requires p in S && dest in S && f in F && Counted(S) && Stands(S, F, c)
    modifies S`items, S`virtual, S`virtuals, f`d, f`dPath, f`leaf, f`o
    ensures c' == Rehung(AtDest(c, f, dest, newLeaf), p, leaf, dest, newLeaf, FileNode(f))
    ensures Counted(S) && Stands(S, F, c')
  {
    RehomeFile(f, dest, newLeaf, o, S, F, c);
    c' := Relist(p, leaf, dest, newLeaf, FileNode(f), S, F, AtDest(c, f, dest, newLeaf));
  }

  /** Dir.Rename of a file. */
  method MoveFile(p: Dir, leaf: string, dest: Dir, newLeaf: string, o: Option<Path>, root: Dir, ghost S: set<Dir>, ghost F: set<File>, ghost c: Cache)
    returns (ghost c': Cache)
    requires p in S && dest in S && Keeps(root, S, F, c) && leaf in p.items && p.items[leaf].FileNode?
    modifies S`items, S`virtual, S`virtuals, F`d, F`dPath, F`leaf, F`o
    ensures Keeps(root, S, F, c') && StaysNoted(c, c')
    ensures c' == Rehung(AtDest(c, c.all[p][leaf].file, dest, newLeaf), p, leaf, dest, newLeaf, c.all[p][leaf])
  {
    var f := p.items[leaf].file;
    assert Known(F, c.all[p]) && c.all[p][leaf] == FileNode(f);
    c' := MoveFileHere(f, p, leaf, dest, newLeaf, o, S, F, c);
    FileMovedIn(root, c, f, p, leaf, dest, newLeaf);
    SoundAfterFileMove(root, c, c', f, dest, newLeaf);
    if Noted(c) {
      NotedAfterFileMove(c, c', f, dest, newLeaf);
    }
  }

  // ---------- whole runs ----------

  method SetFile(f: File, o: Option<Path>, writers: nat, inCache: bool, ghost F: set<File>)
    requires f in F
    modifies f`o, f`writers, f`inCache
    ensures f.o == o && f.writers == writers && f.inCache == inCache
    ensures VfsForget.Busy(F) == BusyWith(old(VfsForget.Busy(F)), f, o, writers, inCache)
  {
    f.o, f.writers, f.inCache := o, writers, inCache;
  }

  /** That changes nothing of what the directories list. */
  method ChangeApart(f: File, o: Option<Path>, writers: nat, inCache: bool, ghost S: set<Dir>, ghost F: set<File>, ghost c: Cache)
    requires f in F && Counted(S) && NodesAre(S, c.all, c.marks)
    modifies f`o, f`writers, f`inCache
    ensures Counted(S) && NodesAre(S, c.all, c.marks)
    ensures VfsForget.Busy(F) == BusyWith(old(VfsForget.Busy(F)), f, o, writers, inCache)
  {
    SetFile(f, o, writers, inCache, F);
  }

  /** Nor where they are. */
  method ChangeDirs(f: File, o: Option<Path>, writers: nat, inCache: bool, ghost S: set<Dir>, ghost F: set<File>, ghost c: Cache)
    requires f in F && Counted(S) && Spans(S, F, c) && NodesAre(S, c.all, c.marks) && DirsStand(S, F, c)
    modifies f`o, f`writers, f`inCache
    ensures Counted(S) && NodesAre(S, c.all, c.marks) && DirsStand(S, F, c)
    ensures VfsForget.Busy(F) == BusyWith(old(VfsForget.Busy(F)), f, o, writers, inCache)
  {
    ChangeApart(f, o, writers, inCache, S, F, c);
  }

  /** A file gets an object, writers come and go, or it enters or leaves the on-disk cache. */
  method ChangeFile(f: File, o: Option<Path>, writers: nat, inCache: bool, ghost S: set<Dir>, ghost F: set<File>, ghost c: Cache)
    requires f in F && Counted(S) && Stands(S, F, c)
    modifies f`o, f`writers, f`inCache
    ensures Counted(S) && Stands(S, F, c)
    ensures VfsForget.Busy(F) == BusyWith(old(VfsForget.Busy(F)), f, o, writers, inCache)
  {
    ChangeDirs(f, o, writers, inCache, S, F, c);
  }

  /**
   * Dir.Rename of whatever is listed, to a directory that does not lie below it.
   * A directory that would take something virtual to another parent stays where
   * it is here, with what can be forgotten below it forgotten.
   */
  method MoveNode(p: Dir, leaf: string, dest: Dir, newLeaf: string, o: Option<Path>, root: Dir, ghost S: set<Dir>, ghost F: set<File>, ghost c: Cache, ghost busy: set<File>)
    returns (ghost c': Cache)
    requires p in S && dest in S && Keeps(root, S, F, c) && leaf in p.items && busy == VfsForget.Busy(F)
    modifies S`items, S`virtual, S`hasRead, S`virtuals, S`path, S`parent, F`d, F`dPath, F`leaf, F`o
    ensures Keeps(root, S, F, c') && StaysNoted(c, c') && leaf in c.all[p] && NodeRenamed(c, c', p, leaf, dest, newLeaf, busy)
  {
    assert p.items == c.all[p];
    if p.items[leaf].FileNode? {
      c' := MoveFile(p, leaf, dest, newLeaf, o, root, S, F, c);
    } else {
      c' := MoveListedDir(p, leaf, dest, newLeaf, root, S, F, c, busy);
    }
  }

  method MoveListedDir(p: Dir, leaf: string, dest: Dir, newLeaf: string, root: Dir, ghost S: set<Dir>, ghost F: set<File>, ghost c: Cache, ghost busy: set<File>)
    returns (ghost c': Cache)
    requires p in S && dest in S && Keeps(root, S, F, c) && leaf in p.items && p.items[leaf].DirNode? && busy == VfsForget.Busy(F)
    modifies S`items, S`virtual, S`hasRead, S`virtuals, S`path, S`parent, F`dPath
    ensures Keeps(root, S, F, c') && StaysNoted(c, c') && leaf in c.all[p] && NodeRenamed(c, c', p, leaf, dest, newLeaf, busy)
  {
    c' := c;
    var x := p.items[leaf].dir;
    assert HangsAt(c.parents, c.all, p) && c.all[p][leaf] == DirNode(x);
    var below := BelowNow(x, dest, root, S, F, c, busy);
    if !below {
      if p == dest {
        ghost var c1;
        c1, c' := MoveDir(p, leaf, dest, newLeaf, root, S, F, c, busy);
      } else {
        c' := MoveAcross(p, leaf, dest, newLeaf, root, S, F, c, busy);
      }
    }
  }

  method BelowNow(x: Dir, dest: Dir, ghost root: Dir, ghost S: set<Dir>, ghost F: set<File>, ghost c: Cache, ghost busy: set<File>) returns (below: bool)
    requires dest in S && Keeps(root, S, F, c) && busy == VfsForget.Busy(F)
    ensures below == Inside(c.parents, x, dest) && Keeps(root, S, F, c) && busy == VfsForget.Busy(F)
  {
    ValuesNow(S, F, c);
    below := IsBelow(x, dest, S);
  }

  /** Unfinished work that is kept twice is kept. */
  lemma {:induction false} KeptTwice(c: Cache, c1: Cache, c2: Cache, x: Dir, busy: set<File>, y: Dir, n: string)
    requires ForgotIn(c, c1, x, busy) && ForgotIn(c1, c2, x, busy) && y in c.marks && n in c.marks[y] && Forest<Dir>(c.parents) && c.parents.Keys == c.all.Keys
    ensures KeptAt(c, c2, busy, y, n)
  {
    if VfsForget.Lasting(y, c.all[y], busy, n, c.marks[y][n]) {
      assert KeptAt(c, c1, busy, y, n);
      UpUnfold<Dir>(c.parents, y);
      assert c1.marks[y][n] == c.marks[y][n] && c1.all[y] == c.all[y];
      assert KeptAt(c1, c2, busy, y, n);
    }
  }

  lemma {:induction false} ThinnedTwice(c: Cache, c1: Cache, c2: Cache)
    requires Thinned(c, c1) && Thinned(c1, c2)
    ensures Thinned(c, c2)
  {
    forall x | x in c.marks
      ensures VfsForget.Fewer(c2.marks[x], c.marks[x]) && (c2.all[x] == c.all[x] || c2.all[x] == map[])
    {
      assert VfsForget.Fewer(c1.marks[x], c.marks[x]) && VfsForget.Fewer(c2.marks[x], c1.marks[x]);
      assert c1.all[x] == c.all[x] || c1.all[x] == map[];
    }
  }

  /** Forgetting again is forgetting. */
  lemma {:induction false} ForgotTwice(c: Cache, c1: Cache, c2: Cache, x: Dir, busy: set<File>)
    requires ForgotIn(c, c1, x, busy) && ForgotIn(c1, c2, x, busy) && Forest<Dir>(c.parents) && c.parents.Keys == c.all.Keys
    ensures ForgotIn(c, c2, x, busy)
  {
    ThinnedTwice(c, c1, c2);
    forall y, n | y in c.marks && n in c.marks[y]
      ensures KeptAt(c, c2, busy, y, n)
    {
      KeptTwice(c, c1, c2, x, busy, y, n);
    }
  }

  /** A rename after forgetting is one from the start. */
  lemma {:induction false} RenamedAfterForget(c: Cache, c1: Cache, c': Cache, x: Dir, p: Dir, leaf: string, dest: Dir, newLeaf: string, busy: set<File>)
    requires ForgotIn(c, c1, x, busy) && DirRenamed(c1, c', x, p, leaf, dest, newLeaf, busy) && Forest<Dir>(c.parents) && c.parents.Keys == c.all.Keys
    requires c'.marks.Keys == c.all.Keys
    ensures DirRenamed(c, c', x, p, leaf, dest, newLeaf, busy)
  {
    SameGraft(c.parents, c.all, c1.all, c'.all, x);
    SameGraft(c.parents, c.marks, c1.marks, c'.marks, x);
    assert Grafted(c, c', x) == Grafted(c1, c', x);
    ForgotTwice(c, c1, Grafted(c1, c', x), x, busy);
    MovedAfterThinning(c, c1, c', x, dest, newLeaf);
  }

  /** A file that is not listed is not after thinning. */
  lemma {:induction false} UnlistedStays(c: Cache, c1: Cache, f: File)
    requires Thinned(c, c1) && f in c.home && Shows(ShapeOf(c1), f)
    ensures Shows(ShapeOf(c), f)
  {
    assert c1.all[c.home[f].dir] == c.all[c.home[f].dir];
  }

  lemma {:induction false} MovedAfterThinning(c: Cache, c1: Cache, c': Cache, x: Dir, dest: Dir, newLeaf: string)
    requires Thinned(c, c1) && DirMoved(c1, c', x, dest, newLeaf) && dest in c.paths && PathsChange(c1, c', x, c.paths[dest] + [newLeaf])
    ensures DirMoved(c, c', x, dest, newLeaf) && PathsChange(c, c', x, c.paths[dest] + [newLeaf])
  {
    forall y, n | y in c'.all && n in c'.all[y]
      ensures (y == dest && n == newLeaf && c'.all[y][n] == DirNode(x)) || Unmoved(c, c', x, y, n)
    {
      assert c1.all[y] == c.all[y] || c1.all[y] == map[];
    }
    forall f | f in c.home && f in c.dpaths && !Shows(ShapeOf(c), f)
      ensures f in c'.dpaths && c'.dpaths[f] == c.dpaths[f]
    {
      if Shows(ShapeOf(c1), f) {
        UnlistedStays(c, c1, f);
      }
    }
  }

  /** What x lists after forgetting is marked as it is in the end. */
  lemma {:induction false} UnmarkedAfterMove(c: Cache, c': Cache, x: Dir, p: Dir, leaf: string, dest: Dir, newLeaf: string, busy: set<File>)
    requires DirRenamed(c, c', x, p, leaf, dest, newLeaf, busy) && Unmarked(c.parents, c.marks, x) && !Inside(c.parents, x, p) && !Inside(c.parents, x, dest)
    ensures Unmarked(c.parents, c'.marks, x)
  {
    var mid := Grafted(c, c', x);
    StaysUnmarked(c, mid, x);
    forall z | z in c'.marks && Inside(c.parents, x, z)
      ensures c'.marks[z] == map[]
    {
      assert z != p && z != dest && c'.marks[z] == mid.marks[z];
    }
  }

  /** The move of a directory that has been forgotten and has nothing virtual left. */
  method MoveForgotten(x: Dir, p: Dir, leaf: string, dest: Dir, newLeaf: string, root: Dir, ghost S: set<Dir>, ghost F: set<File>, ghost c: Cache, ghost c1: Cache, ghost busy: set<File>)
    returns (ghost c': Cache)
    requires p in S && dest in S && x in S && Keeps(root, S, F, c1) && busy == VfsForget.Busy(F) && ForgotIn(c, c1, x, busy) && x.virtuals == 0
    requires Sound(root, c) && leaf in c.all[p] && c.all[p][leaf] == DirNode(x) && !Inside(c.parents, x, dest) && !Inside(c.parents, x, p)
    modifies S`items, S`virtual, S`hasRead, S`virtuals, S`path, S`parent, F`dPath
    ensures Keeps(root, S, F, c') && StaysNoted(c1, c') && DirRenamed(c, c', x, p, leaf, dest, newLeaf, busy) && Unmarked(c.parents, c'.marks, x)
  {
    ForestNow(S, F, c1);
    UnmarkedNow(S, F, c1, x);
    assert c1.all[p] == c.all[p] && p.items == c1.all[p];
    ghost var c2;
    c2, c' := MoveDir(p, leaf, dest, newLeaf, root, S, F, c1, busy);
    UnmarkedAfterMove(c1, c', x, p, leaf, dest, newLeaf, busy);
    RenamedAfterForget(c, c1, c', x, p, leaf, dest, newLeaf, busy);
  }

  /** What becomes of a directory on its way to another parent. */
  lemma {:induction false} AcrossIs(c: Cache, c': Cache, x: Dir, p: Dir, leaf: string, dest: Dir, newLeaf: string, busy: set<File>)
    requires p in c.all && p in c.marks && leaf in c.all[p] && c.all[p][leaf] == DirNode(x) && p != dest && !Inside(c.parents, x, dest)
    requires dest in c.all && dest in c.marks && dest in c.paths
    requires if Unmarked(c.parents, c'.marks, x) then DirRenamed(c, c', x, p, leaf, dest, newLeaf, busy) else ForgotIn(c, c', x, busy)
    ensures NodeRenamed(c, c', p, leaf, dest, newLeaf, busy)
  {
  }

  /** To another parent: first what can be forgotten is, and the move is made if nothing virtual is left. */
  method MoveAcross(p: Dir, leaf: string, dest: Dir, newLeaf: string, root: Dir, ghost S: set<Dir>, ghost F: set<File>, ghost c: Cache, ghost busy: set<File>)
    returns (ghost c': Cache)
    requires p in S && dest in S && p != dest && Keeps(root, S, F, c) && leaf in p.items && p.items[leaf].DirNode? && p.items[leaf].dir in S
    requires !Inside(c.parents, p.items[leaf].dir, dest) && busy == VfsForget.Busy(F)
    modifies S`items, S`virtual, S`hasRead, S`virtuals, S`path, S`parent, F`dPath
    ensures Keeps(root, S, F, c') && StaysNoted(c, c') && leaf in c.all[p] && NodeRenamed(c, c', p, leaf, dest, newLeaf, busy)
  {
    var x := p.items[leaf].dir;
    assert c.all[p][leaf] == DirNode(x);
    ForestNow(S, F, c);
    NotBelow(root, c, x, p, leaf);
    var hasVirtual;
    ghost var c1;
    hasVirtual, c1 := Forget(x, root, S, F, c, busy);
    c' := c1;
    if !hasVirtual {
      c' := MoveForgotten(x, p, leaf, dest, newLeaf, root, S, F, c, c1, busy);
    }
    AcrossIs(c, c', x, p, leaf, dest, newLeaf, busy);
  }

  /** A directory does not lie below what it lists. */
  lemma {:induction false} NotBelow(root: Dir, c: Cache, x: Dir, p: Dir, leaf: string)
    requires Sound(root, c) && Forest<Dir>(c.parents) && p in c.all && leaf in c.all[p] && c.all[p][leaf] == DirNode(x)
    ensures !Inside(c.parents, x, p)
  {
    assert HangsAt(c.parents, c.all, p);
    if Inside(c.parents, x, p) {
      InsideChild(c.parents, p, x, p);
    }
  }

  method LookupNow(d: Dir, names: seq<string>, root: Dir, ghost S: set<Dir>, ghost F: set<File>, ghost c: Cache) returns (r: Option<Dir>)
    requires d in S && Keeps(root, S, F, c)
    ensures r == Walk(c.all, d, names) && (r.Some? ==> r.value in S) && Keeps(root, S, F, c)
  {
    ValuesNow(S, F, c);
    r := Lookup(d, names, S);
  }

  method Find(spot: Spot, root: Dir, held: seq<Node>, ghost S: set<Dir>, ghost F: set<File>, ghost c: Cache) returns (r: Option<Dir>)
    requires Keeps(root, S, F, c) && AllHeld(held, S, F)
    ensures r == DirAt(c.all, root, held, spot) && (r.Some? ==> r.value in S) && Keeps(root, S, F, c)
  {
    if spot.base.None? {
      r := LookupNow(root, spot.names, root, S, F, c);
    } else if spot.base.value < |held| && held[spot.base.value].DirNode? {
      r := LookupNow(held[spot.base.value].dir, spot.names, root, S, F, c);
    } else {
      r := None;
    }
  }

  /** A new directory, or a new file. */
  method AddNode(d: Dir, leaf: string, isDir: bool, root: Dir, ghost S: set<Dir>, ghost F: set<File>, ghost c: Cache)
    returns (ghost S': set<Dir>, ghost F': set<File>, ghost c': Cache)
    requires d in S && Keeps(root, S, F, c)
    modifies d`items, d`virtual, S`virtuals
    ensures Keeps(root, S', F', c') && S <= S' && F <= F' && StaysNoted(c, c') && NodeAdded(c, c', d, leaf, isDir)
    ensures (forall y {:trigger y in S'} :: y in S' ==> y in S || fresh(y)) && (forall g {:trigger g in F'} :: g in F' ==> g in F || fresh(g))
  {
    if isDir {
      var x;
      x, c' := AddDir(d, leaf, root, S, F, c);
      OneMore(S, x);
      S', F' := S + {x}, F;
    } else {
      var f;
      f, c' := AddFile(d, leaf, root, S, F, c);
      OneMore(F, f);
      S', F' := S, F + {f};
    }
  }

  /** AddVirtual: only where the name is not listed yet. */
  method Add(d: Dir, leaf: string, isDir: bool, root: Dir, ghost S: set<Dir>, ghost F: set<File>, ghost c: Cache)
    returns (ghost S': set<Dir>, ghost F': set<File>, ghost c': Cache)
    requires d in S && Keeps(root, S, F, c)
    modifies d`items, d`virtual, S`virtuals
    ensures Keeps(root, S', F', c') && S <= S' && F <= F' && StaysNoted(c, c') && (if leaf in c.all[d] then c' == c else NodeAdded(c, c', d, leaf, isDir))
    ensures (forall y {:trigger y in S'} :: y in S' ==> y in S || fresh(y)) && (forall g {:trigger g in F'} :: g in F' ==> g in F || fresh(g))
  {
    S', F', c' := S, F, c;
    assert d.items == c.all[d];
    if leaf !in d.items {
      S', F', c' := AddNode(d, leaf, isDir, root, S, F, c);
    }
  }

  method StepRename(op: Op, d: Dir, root: Dir, held: seq<Node>, ghost S: set<Dir>, ghost F: set<File>, ghost c: Cache) returns (ghost c': Cache)
    requires d in S && Keeps(root, S, F, c) && AllHeld(held, S, F) && op.RenameTo?
    modifies S, F
    ensures Keeps(root, S, F, c') && StaysNoted(c, c') && DoesAt(op, d, root, held, old(VfsForget.Busy(F)), c, held, c')
  {
    c' := c;
    ghost var busy := VfsForget.Busy(F);
    var dest := FindStill(op.to, root, held, S, F, c, busy);
    assert d.items == c.all[d];
    if dest.Some? && op.leaf in d.items {
      c' := MoveNode(d, op.leaf, dest.value, op.newLeaf, op.o, root, S, F, c, busy);
    }
  }

  method FindStill(spot: Spot, root: Dir, held: seq<Node>, ghost S: set<Dir>, ghost F: set<File>, ghost c: Cache, ghost busy: set<File>) returns (r: Option<Dir>)
    requires Keeps(root, S, F, c) && AllHeld(held, S, F) && busy == VfsForget.Busy(F)
    ensures r == DirAt(c.all, root, held, spot) && (r.Some? ==> r.value in S) && Keeps(root, S, F, c) && busy == VfsForget.Busy(F)
  {
    r := Find(spot, root, held, S, F, c);
  }

  method StepDelete(op: Op, d: Dir, root: Dir, held: seq<Node>, ghost S: set<Dir>, ghost F: set<File>, ghost c: Cache) returns (ghost c': Cache)
    requires d in S && Keeps(root, S, F, c) && op.VirtualDelete?
    modifies S, F
    ensures Keeps(root, S, F, c') && StaysNoted(c, c') && DoesAt(op, d, root, held, old(VfsForget.Busy(F)), c, held, c')
  {
    c' := Remove(d, op.leaf, root, S, F, c);
  }

  method StepForget(op: Op, d: Dir, root: Dir, held: seq<Node>, ghost S: set<Dir>, ghost F: set<File>, ghost c: Cache) returns (ghost c': Cache)
    requires d in S && Keeps(root, S, F, c) && op.ForgetTree?
    modifies S, F
    ensures Keeps(root, S, F, c') && StaysNoted(c, c') && DoesAt(op, d, root, held, old(VfsForget.Busy(F)), c, held, c')
  {
    var hasVirtual;
    hasVirtual, c' := Forget(d, root, S, F, c, VfsForget.Busy(F));
  }

  /** The steps at directory d that bring in no new directories or files. */
  method StepWithin(op: Op, d: Dir, root: Dir, held: seq<Node>, ghost S: set<Dir>, ghost F: set<File>, ghost c: Cache) returns (ghost c': Cache)
    requires d in S && Keeps(root, S, F, c) && AllHeld(held, S, F) && (op.VirtualDelete? || op.ForgetTree? || op.RenameTo?)
    modifies S, F
    ensures Keeps(root, S, F, c') && StaysNoted(c, c') && DoesAt(op, d, root, held, old(VfsForget.Busy(F)), c, held, c')
  {
    if op.VirtualDelete? {
      c' := StepDelete(op, d, root, held, S, F, c);
    } else if op.ForgetTree? {
      c' := StepForget(op, d, root, held, S, F, c);
    } else {
      c' := StepRename(op, d, root, held, S, F, c);
    }
  }

  /** A step with file f, wherever that is now. */
  method StepFile(op: Op, f: File, root: Dir, ghost S: set<Dir>, ghost F: set<File>, ghost c: Cache) returns (ghost c': Cache)
    requires f in F && Keeps(root, S, F, c) && WithFile(op)
    modifies S, F
    ensures Keeps(root, S, F, c') && DoesWith(op, f, c, c')
    ensures NotedWith(op, f, c, c')
    ensures op.FileChanged? ==> VfsForget.Busy(F) == BusyWith(old(VfsForget.Busy(F)), f, op.o, op.writers, op.inCache)
  {
    assert c.home[f] == Seat(f.d, f.leaf);
    if op.FileAdded? {
      c' := AddKnown(f, root, S, F, c);
    } else if op.FileRemoved? {
      c' := Remove(f.d, f.leaf, root, S, F, c);
    } else {
      c' := c;
      ChangeFile(f, op.o, op.writers, op.inCache, S, F, c);
    }
  }

  /** Whatever d lists can be held. */
  method Keep(d: Dir, leaf: string, root: Dir, held: seq<Node>, ghost S: set<Dir>, ghost F: set<File>, ghost c: Cache) returns (held': seq<Node>)
    requires d in S && Keeps(root, S, F, c) && AllHeld(held, S, F)
    ensures AllHeld(held', S, F) && Keeps(root, S, F, c) && held' == if leaf in c.all[d] then held + [c.all[d][leaf]] else held
  {
    held' := held;
    assert d.items == c.all[d];
    if leaf in d.items {
      assert HangsAt(c.parents, c.all, d) && Known(F, c.all[d]) && c.all[d][leaf] == d.items[leaf];
      held' := held + [d.items[leaf]];
    }
  }

  /** The steps at directory d that bring in nothing new. */
  method StepStay(op: Op, d: Dir, root: Dir, held: seq<Node>, ghost S: set<Dir>, ghost F: set<File>, ghost c: Cache)
    returns (held': seq<Node>, ghost c': Cache)
    requires d in S && Keeps(root, S, F, c) && AllHeld(held, S, F) && (op.Hold? || op.VirtualDelete? || op.ForgetTree? || op.RenameTo?)
    modifies S, F
    ensures Keeps(root, S, F, c') && AllHeld(held', S, F) && StaysNoted(c, c') && DoesAt(op, d, root, held, old(VfsForget.Busy(F)), c, held', c')
  {
    held', c' := held, c;
    if op.Hold? {
      held' := Keep(d, op.leaf, root, held, S, F, c);
    } else {
      c' := StepWithin(op, d, root, held, S, F, c);
    }
  }

  method StepAdd(op: Op, d: Dir, root: Dir, held: seq<Node>, ghost S: set<Dir>, ghost F: set<File>, ghost c: Cache)
    returns (ghost S': set<Dir>, ghost F': set<File>, ghost c': Cache)
    requires d in S && Keeps(root, S, F, c) && op.VirtualAdd?
    modifies S, F
    ensures Keeps(root, S', F', c') && S <= S' && F <= F' && StaysNoted(c, c') && DoesAt(op, d, root, held, old(VfsForget.Busy(F)), c, held, c')
    ensures (forall y {:trigger y in S'} :: y in S' ==> y in S || fresh(y)) && (forall g {:trigger g in F'} :: g in F' ==> g in F || fresh(g))
  {
    S', F', c' := Add(d, op.leaf, op.isDir, root, S, F, c);
  }

  method StepRead(op: Op, d: Dir, root: Dir, held: seq<Node>, ghost S: set<Dir>, ghost F: set<File>, ghost c: Cache)
    returns (ghost S': set<Dir>, ghost F': set<File>, ghost c': Cache)
    requires d in S && Keeps(root, S, F, c) && op.ListingRead?
    modifies S, F
    ensures Keeps(root, S', F', c') && S <= S' && F <= F' && StaysNoted(c, c') && DoesAt(op, d, root, held, old(VfsForget.Busy(F)), c, held, c')
    ensures (forall y {:trigger y in S'} :: y in S' ==> y in S || fresh(y)) && (forall g {:trigger g in F'} :: g in F' ==> g in F || fresh(g))
  {
    assert d.path == c.paths[d];
    S', F', c' := Reread(d, EntriesAt(d.path, op.listing), root, S, F, c);
  }

  /** The others. */
  method StepNew(op: Op, d: Dir, root: Dir, held: seq<Node>, ghost S: set<Dir>, ghost F: set<File>, ghost c: Cache)
    returns (ghost S': set<Dir>, ghost F': set<File>, ghost c': Cache)
    requires d in S && Keeps(root, S, F, c) && (op.VirtualAdd? || op.ListingRead?)
    modifies S, F
    ensures Keeps(root, S', F', c') && S <= S' && F <= F' && StaysNoted(c, c') && DoesAt(op, d, root, held, old(VfsForget.Busy(F)), c, held, c')
    ensures (forall y {:trigger y in S'} :: y in S' ==> y in S || fresh(y)) && (forall g {:trigger g in F'} :: g in F' ==> g in F || fresh(g))
  {
    if op.VirtualAdd? {
      S', F', c' := StepAdd(op, d, root, held, S, F, c);
    } else {
      S', F', c' := StepRead(op, d, root, held, S, F, c);
    }
  }

  /** A step at directory d. */
  method StepAt(op: Op, d: Dir, root: Dir, held: seq<Node>, ghost S: set<Dir>, ghost F: set<File>, ghost c: Cache)
    returns (held': seq<Node>, ghost S': set<Dir>, ghost F': set<File>, ghost c': Cache)
    requires d in S && Keeps(root, S, F, c) && AllHeld(held, S, F) && !WithFile(op)
    modifies S, F
    ensures Keeps(root, S', F', c') && AllHeld(held', S', F') && S <= S' && F <= F' && StaysNoted(c, c')
    ensures DoesAt(op, d, root, held, old(VfsForget.Busy(F)), c, held', c')
    ensures (forall y {:trigger y in S'} :: y in S' ==> y in S || fresh(y)) && (forall g {:trigger g in F'} :: g in F' ==> g in F || fresh(g))
  {
    if op.VirtualAdd? || op.ListingRead? {
      held' := held;
      S', F', c' := StepNew(op, d, root, held, S, F, c);
    } else {
      S', F' := S, F;
      held', c' := StepStay(op, d, root, held, S, F, c);
    }
  }

  lemma {:induction false} HeldDoes(op: Op, root: Dir, held: seq<Node>, c: Cache, c': Cache, f: File)
    requires WithFile(op) && HeldFile(held, op.handle) == Some(f) && NotedWith(op, f, c, c') && DoesWith(op, f, c, c')
    ensures NotedUnless(op, held, c, c') && StepDoes(op, root, held, {}, c, held, c')
  {
  }

  /** A step with a held file. */
  method StepHeld(op: Op, root: Dir, held: seq<Node>, ghost S: set<Dir>, ghost F: set<File>, ghost c: Cache) returns (ghost c': Cache)
    requires Keeps(root, S, F, c) && AllHeld(held, S, F) && WithFile(op)
    modifies S, F
    ensures Keeps(root, S, F, c') && NotedUnless(op, held, c, c')
    ensures StepDoes(op, root, held, {}, c, held, c') && BusyAfter(op, held, old(VfsForget.Busy(F)), VfsForget.Busy(F))
  {
    c' := c;
    var f := HeldFile(held, op.handle);
    if f.Some? {
      c' := StepFile(op, f.value, root, S, F, c);
      HeldDoes(op, root, held, c, c', f.value);
    }
  }

  /** A step at some directory. */
  method StepSomewhere(op: Op, root: Dir, held: seq<Node>, ghost S: set<Dir>, ghost F: set<File>, ghost c: Cache)
    returns (held': seq<Node>, ghost S': set<Dir>, ghost F': set<File>, ghost c': Cache)
    requires Keeps(root, S, F, c) && AllHeld(held, S, F) && !WithFile(op)
    modifies S, F
    ensures Keeps(root, S', F', c') && AllHeld(held', S', F') && S <= S' && F <= F' && StaysNoted(c, c')
    ensures StepDoes(op, root, held, old(VfsForget.Busy(F)), c, held', c')
    ensures (forall y {:trigger y in S'} :: y in S' ==> y in S || fresh(y)) && (forall g {:trigger g in F'} :: g in F' ==> g in F || fresh(g))
  {
    held', S', F', c' := held, S, F, c;
    ghost var busy := VfsForget.Busy(F);
    var at := FindStill(op.at, root, held, S, F, c, busy);
    if at.Some? {
      held', S', F', c' := StepAt(op, at.value, root, held, S, F, c);
    }
  }

  /**
   * A step: what it does to the cache, and that the files' paths stay right
   * unless it lists a file that does not note the path of its directory.
   */
  method Step(op: Op, root: Dir, held: seq<Node>, ghost S: set<Dir>, ghost F: set<File>, ghost c: Cache)
    returns (held': seq<Node>, ghost S': set<Dir>, ghost F': set<File>, ghost c': Cache)
    requires Keeps(root, S, F, c) && AllHeld(held, S, F)
    modifies S, F
    ensures Keeps(root, S', F', c') && AllHeld(held', S', F') && S <= S' && F <= F'
    ensures StepDoes(op, root, held, old(VfsForget.Busy(F)), c, held', c') && BusyAfter(op, held, old(VfsForget.Busy(F)), VfsForget.Busy(F'))
    ensures NotedUnless(op, held, c, c')
    ensures (forall y {:trigger y in S'} :: y in S' ==> y in S || fresh(y)) && (forall g {:trigger g in F'} :: g in F' ==> g in F || fresh(g))
  {
    if WithFile(op) {
      held', S', F' := held, S, F;
      c' := StepHeld(op, root, held, S, F, c);
    } else {
      held', S', F', c' := StepSomewhere(op, root, held, S, F, c);
    }
  }

  /** What holds at every point of a run: exact counts, and a sound cache. */
  ghost predicate Valid(root: Dir, S: set<Dir>, F: set<File>)
    reads S, F
  {
    Counted(S) && Sound(root, Snap(S, F))
  }

  /**
   * What names lead to from the root has the path of the root and these names.
   * Its files belong to it under the names that list them, and their full paths
   * are right if all files note the paths of their directories.
   */
  lemma {:induction false} PathIsWalk(root: Dir, S: set<Dir>, F: set<File>, ks: seq<string>, d: Dir)
    requires Valid(root, S, F) && Walk(Items(S), root, ks) == Some(d)
    ensures d in S && d.path == root.path + ks
    ensures forall n :: n in d.items && d.items[n].FileNode? ==> d.items[n].file in F && d.items[n].file.d == d && d.items[n].file.leaf == n
    ensures Noted(Snap(S, F)) ==> forall n :: n in d.items && d.items[n].FileNode? ==>
              d.items[n].file.dPath + [d.items[n].file.leaf] == root.path + ks + [n]
    ensures forall n :: n in d.items && d.items[n].DirNode? ==> d.items[n].dir in S && d.items[n].dir.parent == Some(d)
  {
    var c := Snap(S, F);
    SnapStands(S, F, c);
    assert Walk(c.all, root, ks) == Some(d);
    assert HangsAt(c.parents, c.all, d);
    assert Known(F, c.all[d]) && c.all[d] == d.items;
    if Noted(c) {
      assert NotedAt(ShapeOf(c), NamesOf(c), d);
    }
  }

  /** The files' paths are right at every point. */
  ghost predicate AllNoted(trace: seq<Cache>) {
    forall i {:trigger trace[i]} :: 0 <= i < |trace| ==> Noted(trace[i])
  }

  ghost predicate AllSound(root: Dir, trace: seq<Cache>) {
    forall i {:trigger trace[i]} :: 0 <= i < |trace| ==> Sound(root, trace[i])
  }

  /** None of the first steps, one for each of these points, lists a file that does not note the path of its directory. */
  ghost predicate NoneMisses(ops: seq<Op>, helds: seq<seq<Node>>, trace: seq<Cache>)
    requires |helds| == |trace| <= |ops|
  {
    forall i {:trigger helds[i]} {:trigger trace[i]} :: 0 <= i < |trace| ==> !Misses(ops[i], helds[i], trace[i])
  }

  /** Each of these steps has done what it does. */
  ghost predicate AllDone(root: Dir, ops: seq<Op>, k: nat, helds: seq<seq<Node>>, busys: seq<set<File>>, trace: seq<Cache>)
    requires k <= |ops| && |helds| == |busys| == |trace| == k + 1
  {
    forall i {:trigger ops[i]} :: 0 <= i < k ==>
      && StepDoes(ops[i], root, helds[i], busys[i], trace[i], helds[i + 1], trace[i + 1])
      && BusyAfter(ops[i], helds[i], busys[i], busys[i + 1])
  }

  /**
   * k steps from c0 to c, with who was held, the files with unfinished work and
   * what the cache was before each and after the last.  Each step has done what
   * it does, the cache was sound throughout, and the files' paths were right
   * throughout if and only if they were at the start and no step listed a file
   * that did not note the path of its directory.
   */
  ghost predicate Traced(root: Dir, ops: seq<Op>, k: nat, helds: seq<seq<Node>>, busys: seq<set<File>>, trace: seq<Cache>, c0: Cache, c: Cache, held: seq<Node>, busy: set<File>)
    requires k <= |ops|
  {
    && |helds| == |busys| == |trace| == k + 1 && trace[0] == c0 && trace[k] == c && helds[0] == [] && helds[k] == held && busys[k] == busy
    && AllSound(root, trace) && AllDone(root, ops, k, helds, busys, trace)
    && (AllNoted(trace) <==> Noted(c0) && NoneMisses(ops, helds[..k], trace[..k]))
  }

  lemma {:induction false} TracedFirst(root: Dir, ops: seq<Op>, c: Cache, busy: set<File>)
    requires Sound(root, c)
    ensures Traced(root, ops, 0, [[]], [busy], [c], c, c, [], busy)
  {
  }

  lemma {:induction false} DoneMore(root: Dir, ops: seq<Op>, k: nat, helds: seq<seq<Node>>, busys: seq<set<File>>, trace: seq<Cache>,
                                    held: seq<Node>, busy: set<File>, c: Cache)
    requires k < |ops| && |helds| == |busys| == |trace| == k + 1 && AllDone(root, ops, k, helds, busys, trace)
    requires StepDoes(ops[k], root, helds[k], busys[k], trace[k], held, c) && BusyAfter(ops[k], helds[k], busys[k], busy)
    ensures AllDone(root, ops, k + 1, helds + [held], busys + [busy], trace + [c])
  {
    var h, b, s := helds + [held], busys + [busy], trace + [c];
    forall i | 0 <= i < k + 1
      ensures StepDoes(ops[i], root, h[i], b[i], s[i], h[i + 1], s[i + 1]) && BusyAfter(ops[i], h[i], b[i], b[i + 1])
    {
      assert h[i] == helds[i] && b[i] == busys[i] && s[i] == trace[i];
      if i < k {
        assert h[i + 1] == helds[i + 1] && b[i + 1] == busys[i + 1] && s[i + 1] == trace[i + 1];
        assert StepDoes(ops[i], root, helds[i], busys[i], trace[i], helds[i + 1], trace[i + 1]);
      }
    }
  }

  lemma {:induction false} NotedMore(trace: seq<Cache>, c: Cache)
    ensures AllNoted(trace + [c]) <==> AllNoted(trace) && Noted(c)
  {
    var trace' := trace + [c];
    assert trace'[|trace|] == c;
    assert forall i :: 0 <= i < |trace| ==> trace'[i] == trace[i];
  }

  lemma {:induction false} SoundMore(root: Dir, trace: seq<Cache>, c: Cache)
    requires AllSound(root, trace) && Sound(root, c)
    ensures AllSound(root, trace + [c])
  {
  }

  lemma {:induction false} MissesMore(ops: seq<Op>, helds: seq<seq<Node>>, trace: seq<Cache>, k: nat)
    requires k < |helds| == |trace| && k < |ops|
    ensures NoneMisses(ops, helds[..k + 1], trace[..k + 1]) <==> NoneMisses(ops, helds[..k], trace[..k]) && !Misses(ops[k], helds[k], trace[k])
  {
    var h, s := helds[..k + 1], trace[..k + 1];
    assert h[k] == helds[k] && s[k] == trace[k];
    assert forall i :: 0 <= i < k ==> h[i] == helds[..k][i] && s[i] == trace[..k][i];
  }

  lemma {:induction false} Extended<T>(s: seq<T>, x: T, k: nat)
    requires k == |s|
    ensures (s + [x])[..k] == s[..k] && (s + [x])[k] == x && (k > 0 ==> (s + [x])[0] == s[0])
  {
  }

  lemma {:induction false} LastNoted(trace: seq<Cache>, k: nat)
    requires k < |trace|
    ensures AllNoted(trace) ==> Noted(trace[k])
  {
  }

  lemma {:induction false} TracedMore(root: Dir, ops: seq<Op>, k: nat, helds: seq<seq<Node>>, busys: seq<set<File>>, trace: seq<Cache>, c0: Cache, c: Cache,
                                      held: seq<Node>, busy: set<File>, c': Cache, held': seq<Node>, busy': set<File>)
    returns (helds': seq<seq<Node>>, busys': seq<set<File>>, trace': seq<Cache>)
    requires k < |ops| && Traced(root, ops, k, helds, busys, trace, c0, c, held, busy) && Sound(root, c')
    requires StepDoes(ops[k], root, held, busy, c, held', c') && BusyAfter(ops[k], held, busy, busy')
    requires NotedUnless(ops[k], held, c, c')
    ensures Traced(root, ops, k + 1, helds', busys', trace', c0, c', held', busy')
  {
    helds', busys', trace' := helds + [held'], busys + [busy'], trace + [c'];
    Extended(helds, held', k + 1);
    Extended(busys, busy', k + 1);
    Extended(trace, c', k + 1);
    SoundMore(root, trace, c');
    NotedMore(trace, c');
    MissesMore(ops, helds, trace, k);
    LastNoted(trace, k);
    DoneMore(root, ops, k, helds, busys, trace, held', busy', c');
  }

  /** Step k of a run. */
  method StepOn(ops: seq<Op>, k: nat, root: Dir, held: seq<Node>, ghost S: set<Dir>, ghost F: set<File>, ghost c0: Cache, ghost c: Cache,
                ghost helds: seq<seq<Node>>, ghost busys: seq<set<File>>, ghost trace: seq<Cache>)
    returns (held': seq<Node>, ghost S': set<Dir>, ghost F': set<File>, ghost c': Cache,
             ghost helds': seq<seq<Node>>, ghost busys': seq<set<File>>, ghost trace': seq<Cache>)
    requires k < |ops| && Keeps(root, S, F, c) && AllHeld(held, S, F) && Traced(root, ops, k, helds, busys, trace, c0, c, held, VfsForget.Busy(F))
    modifies S, F
    ensures Keeps(root, S', F', c') && AllHeld(held', S', F') && S <= S' && F <= F'
    ensures Traced(root, ops, k + 1, helds', busys', trace', c0, c', held', VfsForget.Busy(F'))
    ensures (forall y {:trigger y in S'} :: y in S' ==> y in S || fresh(y)) && (forall g {:trigger g in F'} :: g in F' ==> g in F || fresh(g))
  {
    ghost var busy := VfsForget.Busy(F);
    held', S', F', c' := Step(ops[k], root, held, S, F, c);
    helds', busys', trace' := TracedMore(root, ops, k, helds, busys, trace, c0, c, held, busy, c', held', VfsForget.Busy(F'));
  }

  /** The steps from k on, one after the other. */
  method RunFrom(ops: seq<Op>, k: nat, root: Dir, held: seq<Node>, ghost S: set<Dir>, ghost F: set<File>, ghost c0: Cache, ghost c: Cache,
                 ghost helds: seq<seq<Node>>, ghost busys: seq<set<File>>, ghost trace: seq<Cache>)
    returns (held': seq<Node>, ghost S': set<Dir>, ghost F': set<File>, ghost c': Cache,
             ghost helds': seq<seq<Node>>, ghost busys': seq<set<File>>, ghost trace': seq<Cache>)
    requires k <= |ops| && Keeps(root, S, F, c) && AllHeld(held, S, F) && Traced(root, ops, k, helds, busys, trace, c0, c, held, VfsForget.Busy(F))
    modifies S, F
    ensures Keeps(root, S', F', c') && AllHeld(held', S', F') && S <= S' && F <= F'
    ensures Traced(root, ops, |ops|, helds', busys', trace', c0, c', held', VfsForget.Busy(F'))
    decreases |ops| - k
  {
    if k == |ops| {
      held', S', F', c', helds', busys', trace' := held, S, F, c, helds, busys, trace;
    } else {
      held', S', F', c', helds', busys', trace' := StepOn(ops, k, root, held, S, F, c0, c, helds, busys, trace);
      held', S', F', c', helds', busys', trace' := RunFrom(ops, k + 1, root, held', S', F', c0, c', helds', busys', trace');
    }
  }

  /**
   * In every run each step does what it does to the cache; each directory's
   * count is the number of virtual entries at and below it, and what is cached
   * has the right parent, place and name, the directories also the right path.
   * The files note the right paths at every point if and only if no step listed
   * one that did not note the path of its directory.
   */
  method Run(ops: seq<Op>, root: Dir, ghost S: set<Dir>, ghost F: set<File>)
    returns (held: seq<Node>, ghost S': set<Dir>, ghost F': set<File>, ghost helds: seq<seq<Node>>, ghost busys: seq<set<File>>, ghost trace: seq<Cache>)
    requires Valid(root, S, F)
    modifies S, F
    ensures Valid(root, S', F') && S <= S' && F <= F' && AllHeld(held, S', F')
    ensures Traced(root, ops, |ops|, helds, busys, trace, old(Snap(S, F)), Snap(S', F'), held, VfsForget.Busy(F'))
  {
    ghost var c0, c := Snap(S, F), *;
    SnapStands(S, F, c0);
    TracedFirst(root, ops, c0, VfsForget.Busy(F));
    held, S', F', c, helds, busys, trace := RunFrom(ops, 0, root, [], S, F, c0, c0, [[]], [VfsForget.Busy(F)], [c0]);
    SnapStands(S', F', c);
  }

  // ---------- what renames come to ----------

  /** The node is listed there and nowhere else. */
  ghost predicate OnlyAt(c: Cache, node: Node, d: Dir, leaf: string) {
    && d in c.all && leaf in c.all[d]
    && forall y, n {:trigger c.all[y][n]} :: y in c.all && n in c.all[y] ==> (c.all[y][n] == node <==> y == d && n == leaf)
  }

  /**
   * A renamed file belongs to its new directory under its new name, notes its
   * path, and is listed there and nowhere else; the new name is marked as added
   * and the old one, if it is another, as deleted.
   */
  lemma {:induction false} RenamedFileIs(root: Dir, c: Cache, c': Cache, d: Dir, leaf: string, dest: Dir, newLeaf: string, busy: set<File>, f: File)
    requires Sound(root, c) && d in c.all && d in c.marks && leaf in c.all[d] && c.all[d][leaf] == FileNode(f)
    requires NodeRenamed(c, c', d, leaf, dest, newLeaf, busy)
    ensures f in c'.home && f in c'.dpaths && c'.home[f] == Seat(dest, newLeaf) && c'.dpaths[f] == c.paths[dest] && OnlyAt(c', FileNode(f), dest, newLeaf)
    ensures dest in c'.marks && newLeaf in c'.marks[dest] && c'.marks[dest][newLeaf] == VState.AddFile
    ensures d in c'.marks && (d != dest || leaf != newLeaf ==> leaf in c'.marks[d] && c'.marks[d][leaf] == Del)
  {
    FileMovedIn(root, c, f, d, leaf, dest, newLeaf);
  }

  /** A directory that has been moved has its new path and parent, and is listed there under its new name and nowhere else. */
  lemma {:induction false} RenamedDirIs(c: Cache, c': Cache, x: Dir, d: Dir, leaf: string, dest: Dir, newLeaf: string, busy: set<File>)
    requires DirRenamed(c, c', x, d, leaf, dest, newLeaf, busy)
    ensures x in c'.parents && c'.parents[x] == Some(dest) && x in c'.paths && c'.paths[x] == c.paths[dest] + [newLeaf]
    ensures OnlyAt(c', DirNode(x), dest, newLeaf)
  {
  }

  /** Step i of a run renames what d lists under leaf. */
  ghost predicate RenamesAt(root: Dir, op: Op, held: seq<Node>, c: Cache, d: Dir, leaf: string, dest: Dir, newLeaf: string) {
    && op.RenameTo? && op.leaf == leaf && op.newLeaf == newLeaf && d in c.all && leaf in c.all[d]
    && DirAt(c.all, root, held, op.at) == Some(d) && DirAt(c.all, root, held, op.to) == Some(dest)
  }

  /**
   * Wherever a run renames a file, it is next at its new place and only there.
   * Where it renames a directory, that is moved if and only if it would not come
   * to lie below itself, and stays with its parent or has nothing virtual left
   * when forgotten as far as can be.
   */
  lemma {:induction false} RunRenames(root: Dir, ops: seq<Op>, k: nat, helds: seq<seq<Node>>, busys: seq<set<File>>, trace: seq<Cache>, c0: Cache, c: Cache,
                                      held: seq<Node>, busy: set<File>, i: nat, d: Dir, leaf: string, dest: Dir, newLeaf: string)
    requires k <= |ops| && Traced(root, ops, k, helds, busys, trace, c0, c, held, busy) && i < k
    requires RenamesAt(root, ops[i], helds[i], trace[i], d, leaf, dest, newLeaf)
    ensures match trace[i].all[d][leaf]
            case FileNode(f) =>
              && f in trace[i + 1].home && trace[i + 1].home[f] == Seat(dest, newLeaf) && OnlyAt(trace[i + 1], FileNode(f), dest, newLeaf)
            case DirNode(x) =>
              if Inside(trace[i].parents, x, dest) then trace[i + 1] == trace[i]
              else if d == dest || Unmarked(trace[i].parents, trace[i + 1].marks, x) then
                && x in trace[i + 1].parents && trace[i + 1].parents[x] == Some(dest) && OnlyAt(trace[i + 1], DirNode(x), dest, newLeaf)
                && dest in trace[i].paths && x in trace[i + 1].paths && trace[i + 1].paths[x] == trace[i].paths[dest] + [newLeaf]
              else ForgotIn(trace[i], trace[i + 1], x, busys[i])
  {
    var a, b := trace[i], trace[i + 1];
    assert StepDoes(ops[i], root, helds[i], busys[i], a, helds[i + 1], b);
    assert NodeRenamed(a, b, d, leaf, dest, newLeaf, busys[i]);
    match a.all[d][leaf]
    case FileNode(f) =>
      RenamedFileIs(root, a, b, d, leaf, dest, newLeaf, busys[i], f);
    case DirNode(x) =>
      if !Inside(a.parents, x, dest) && (d == dest || Unmarked(a.parents, b.marks, x)) {
        RenamedDirIs(a, b, x, d, leaf, dest, newLeaf, busys[i]);
      }
  }

  /** A new root on its own. */
  method NewRoot(canHaveEmptyDirectories: bool) returns (root: Dir)
    ensures fresh(root) && root.path == [] && root.items == map[] && Valid(root, {root}, {}) && Noted(Snap({root}, {}))
  {
    root := new Dir(canHaveEmptyDirectories, None, []);
    RootIsValid(root);
  }

  lemma {:induction false} LoneIsSound(root: Dir, c: Cache)
    requires c.parents == map[root := None] && c.all == map[root := map[]] && c.paths == map[root := []] && c.home == map[] && c.dpaths == map[]
    ensures Sound(root, c) && Noted(c)
  {
    forall ks | Walk(c.all, root, ks).Some?
      ensures Walk(c.all, root, ks).value in c.paths && c.paths[Walk(c.all, root, ks).value] == [] + ks
    {
      assert ks == [];
    }
  }

  lemma {:induction false} RootIsValid(root: Dir)
    requires root.parent == None && root.virtual == map[] && root.virtuals == 0 && root.items == map[] && root.path == []
    ensures Valid(root, {root}, {}) && Noted(Snap({root}, {}))
  {
    RootIsExact(root);
    var c := Cache(map[root := None], map[root := map[]], map[root := map[]], map[root := []], map[], map[]);
    LoneIsSound(root, c);
    assert Stands({root}, {}, c);
    SnapStands({root}, {}, c);
  }

  lemma {:induction false} RootIsExact(root: Dir)
    requires root.parent == None && root.virtual == map[] && root.virtuals == 0
    ensures Counted({root})
  {
    var parents, virt, counts := Parents({root}), Virtuals({root}), Counts({root});
    assert parents[root] == None && virt[root] == {};
    assert Rooted<Dir>(parents, root, parents.Keys);
    assert Under<Dir>(parents, virt, root) == {};
    assert Tallied<Dir>(parents, virt, counts, root);
  }

  /** hasVirtual tells exactly whether there is a virtual entry in the directory or below. */
  lemma {:induction false} HasVirtualIsExact(root: Dir, S: set<Dir>, F: set<File>, d: Dir)
    requires Valid(root, S, F) && d in S
    ensures d.HasVirtual() <==> exists x :: x in S && d in Up<Dir>(Parents(S), x) && x.virtual != map[]
  {
    ZeroCount<Dir>(Parents(S), Virtuals(S), Counts(S), d);
    forall x | x in S
      ensures Virtuals(S)[x] == {} <==> x.virtual == map[]
    {
    }
  }
}
