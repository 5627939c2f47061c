/**
 * The directory cache of the VFS: listings overlaid with virtual entries, a
 * per-directory count of virtual entries kept up the parent chain, merging of
 * fresh listings, forgetting and renaming.
 */
module VfsDir {
  import opened Wrappers
  import opened VfsChains

  /** A remote path as its components; the root is the empty list. */
  type Path = seq<string>

  datatype VState = AddFile | AddDir | Del

  datatype Node = FileNode(file: File) | DirNode(dir: Dir)

  /** A listing entry: an object, a directory or something of another type. */
  datatype Entry = ObjectEntry(remote: Path) | DirectoryEntry(remote: Path) | UnknownEntry(remote: Path)

  /** path.Base of the entry's remote. */
  function Name(e: Entry): string {
    if e.remote == [] then "." else e.remote[|e.remote| - 1]
  }

  /** name(p): the last component, "/" for the root. */
  function NameOf(p: Path): string {
    if p == [] then "/" else p[|p| - 1]
  }

  predicate Shown(e: Entry) {
    Name(e) != "." && Name(e) != ".."
  }

  /** The names a listing shows. */
  function Listed(entries: seq<Entry>): set<string> {
    set e | e in entries && Shown(e) :: Name(e)
  }

  /** The last entry of a given name. */
  function Last(entries: seq<Entry>, name: string): Option<Entry> {
    if entries == [] then None
    else if Name(entries[|entries| - 1]) == name then Some(entries[|entries| - 1])
    else Last(entries[..|entries| - 1], name)
  }

  /** Every listed entry is an object or a directory. */
  ghost predicate AllKnown(entries: seq<Entry>) {
    forall e :: e in entries && Shown(e) ==> !e.UnknownEntry?
  }

  lemma {:induction false} PrefixGrows(entries: seq<Entry>, k: nat)
    requires k < |entries|
    ensures entries[..k] + [entries[k]] == entries[..k + 1]
    ensures Listed(entries[..k + 1]) == Listed(entries[..k]) + (if Shown(entries[k]) then {Name(entries[k])} else {})
    ensures AllKnown(entries[..k]) && !(Shown(entries[k]) && entries[k].UnknownEntry?) ==> AllKnown(entries[..k + 1])
    ensures Shown(entries[k]) && entries[k].UnknownEntry? ==> !AllKnown(entries)
  {
    ListedAfter(entries[..k], entries[k]);
    assert entries[..k] + [entries[k]] == entries[..k + 1];
    assert forall e :: e in entries[..k + 1] ==> e in entries[..k] || e == entries[k];
    assert entries[k] in entries;
  }

  lemma {:induction false} WholePrefix(entries: seq<Entry>)
    ensures entries[..|entries|] == entries
  {
  }

  /** Every entry of that name is an object (a directory). */
  ghost predicate OnlyObjects(entries: seq<Entry>, name: string) {
    forall e :: e in entries && Name(e) == name ==> e.ObjectEntry?
  }

  ghost predicate OnlyDirectories(entries: seq<Entry>, name: string) {
    forall e :: e in entries && Name(e) == name ==> e.DirectoryEntry?
  }

  function Only<V>(m: map<string, V>, names: set<string>): map<string, V> {
    map n | n in m && n in names :: m[n]
  }

  lemma {:induction false} OnlyLess<V>(m: map<string, V>, todo: set<string>, keep: set<string>, n: string)
    requires n in todo
    ensures Only(m, (todo - {n}) + keep) == if n in keep then Only(m, todo + keep) else Only(m, todo + keep) - {n}
  {
    assert n in keep ==> (todo - {n}) + keep == todo + keep;
  }

  /** The names marked as added. */
  function Added(virtual: map<string, VState>): set<string> {
    set n | n in virtual && !virtual[n].Del?
  }

  /** The names marked as deleted. */
  function Deleted(virtual: map<string, VState>): set<string> {
    set n | n in virtual && virtual[n].Del?
  }

  // ---------- what merging a listing does to the items, as values ----------

  predicate SameKind(e: Entry, node: Node) {
    e.ObjectEntry? == node.FileNode?
  }

  /** What merging the entries has done about one name. */
  ghost predicate EffectAt(before: map<string, Node>, virtual0: map<string, VState>, entries: seq<Entry>,
                           now: map<string, Node>, virtual: map<string, VState>, n: string) {
    && (n in now <==> n in before || n in Listed(entries))
    && (n in before && n !in Listed(entries) ==> now[n] == before[n])
    && (n in before && before[n].FileNode? && OnlyObjects(entries, n) ==> now[n] == before[n])
    && (n in before && before[n].DirNode? && OnlyDirectories(entries, n) ==> now[n] == before[n])
    && (n in Listed(entries) ==> Last(entries, n).Some? && SameKind(Last(entries, n).value, now[n]))
    && (n in virtual <==> n in virtual0 && n !in Listed(entries))
    && (n in virtual ==> virtual[n] == virtual0[n])
  }

  /** The effect of merging the entries on the items and the marks. */
  ghost predicate Effect(before: map<string, Node>, virtual0: map<string, VState>, entries: seq<Entry>,
                         now: map<string, Node>, virtual: map<string, VState>) {
    forall n {:trigger EffectAt(before, virtual0, entries, now, virtual, n)} ::
      EffectAt(before, virtual0, entries, now, virtual, n)
  }

  lemma {:induction false} ListedAfter(entries: seq<Entry>, e: Entry)
    ensures Listed(entries + [e]) == Listed(entries) + (if Shown(e) then {Name(e)} else {})
  {
    assert forall x :: x in entries + [e] ==> x in entries || x == e;
    assert forall x :: x in entries ==> x in entries + [e];
    assert e in entries + [e];
  }

  lemma {:induction false} LastAfter(entries: seq<Entry>, e: Entry, n: string)
    ensures Last(entries + [e], n) == if Name(e) == n then Some(e) else Last(entries, n)
  {
    assert (entries + [e])[..|entries|] == entries;
  }

  lemma {:induction false} OnlyBefore(entries: seq<Entry>, e: Entry, n: string)
    ensures OnlyObjects(entries + [e], n) ==> OnlyObjects(entries, n) && (Name(e) == n ==> e.ObjectEntry?)
    ensures OnlyDirectories(entries + [e], n) ==> OnlyDirectories(entries, n) && (Name(e) == n ==> e.DirectoryEntry?)
  {
    assert forall x :: x in entries ==> x in entries + [e];
    assert e in entries + [e];
  }

  lemma {:induction false} EffectAfter(before: map<string, Node>, virtual0: map<string, VState>, entries: seq<Entry>,
                                       now: map<string, Node>, virtual: map<string, VState>, e: Entry, node: Node)
    requires Effect(before, virtual0, entries, now, virtual) && Shown(e) && !e.UnknownEntry?
    requires SameKind(e, node) && (Name(e) in now && SameKind(e, now[Name(e)]) ==> node == now[Name(e)])
    ensures Effect(before, virtual0, entries + [e], now[Name(e) := node], virtual - {Name(e)})
  {
    ListedAfter(entries, e);
    var now', virtual' := now[Name(e) := node], virtual - {Name(e)};
    forall n
      ensures EffectAt(before, virtual0, entries + [e], now', virtual', n)
    {
      assert EffectAt(before, virtual0, entries, now, virtual, n);
      OnlyBefore(entries, e, n);
      LastAfter(entries, e, n);
    }
  }

  lemma {:induction false} EffectAfterHidden(before: map<string, Node>, virtual0: map<string, VState>, entries: seq<Entry>,
                                             now: map<string, Node>, virtual: map<string, VState>, e: Entry)
    requires Effect(before, virtual0, entries, now, virtual) && !Shown(e)
    ensures Effect(before, virtual0, entries + [e], now, virtual)
  {
    ListedAfter(entries, e);
    forall n
      ensures EffectAt(before, virtual0, entries + [e], now, virtual, n)
    {
      assert EffectAt(before, virtual0, entries, now, virtual, n);
      OnlyBefore(entries, e, n);
      LastAfter(entries, e, n);
    }
  }

  lemma {:induction false} EffectOfNothing(items: map<string, Node>, virtual: map<string, VState>)
    ensures Effect(items, virtual, [], items, virtual)
  {
    assert Listed([]) == {};
  }

  /** Merging leaves no deletion mark where there was none. */
  lemma {:induction false} EffectUnmarks(before: map<string, Node>, virtual0: map<string, VState>, entries: seq<Entry>,
                                         now: map<string, Node>, virtual: map<string, VState>, n: string)
    requires Effect(before, virtual0, entries, now, virtual) && Deleted(virtual0) == {}
    ensures n !in Deleted(virtual)
  {
    assert EffectAt(before, virtual0, entries, now, virtual, n);
    assert n !in Deleted(virtual0);
  }

  /**
   * What re-reading a directory leaves at one name: it is listed, or it was
   * there and is still virtually added; marks stay only on unlisted names.
   */
  ghost predicate RereadAt(before: map<string, Node>, left: map<string, VState>, entries: seq<Entry>,
                           now: map<string, Node>, virtual: map<string, VState>, n: string) {
    && (n in now <==> n in Listed(entries) || (n in before && n in left))
    && (n in virtual <==> n in left && n !in Listed(entries))
    && (n in virtual ==> virtual[n] == left[n] && !virtual[n].Del?)
    && (n in now && n !in Listed(entries) ==> now[n] == before[n])
    && (n in now && n in before && before[n].FileNode? && OnlyObjects(entries, n) ==> now[n] == before[n])
    && (n in now && n in before && before[n].DirNode? && OnlyDirectories(entries, n) ==> now[n] == before[n])
    && (n in Listed(entries) ==> Last(entries, n).Some? && SameKind(Last(entries, n).value, now[n]))
  }

  /** The closed form of a re-read, from the old items and the virtual entries left by the purge. */
  ghost predicate Reread(before: map<string, Node>, left: map<string, VState>, entries: seq<Entry>,
                         now: map<string, Node>, virtual: map<string, VState>) {
    forall n {:trigger RereadAt(before, left, entries, now, virtual, n)} :: RereadAt(before, left, entries, now, virtual, n)
  }

  lemma {:induction false} RereadAfter(before: map<string, Node>, left: map<string, VState>, entries: seq<Entry>,
                                       mid: map<string, Node>, marks: map<string, VState>)
    requires Effect(before, left, entries, mid, marks) && Deleted(left) == {}
    ensures Reread(before, left, entries, Only(mid, Listed(entries) + Added(marks)), marks - (Deleted(marks) - Listed(entries)))
  {
    var now, virtual := Only(mid, Listed(entries) + Added(marks)), marks - (Deleted(marks) - Listed(entries));
    forall n
      ensures RereadAt(before, left, entries, now, virtual, n)
    {
      assert EffectAt(before, left, entries, mid, marks, n);
      assert n !in Deleted(left);
    }
  }

  /** No file is listed under two names. */
  ghost predicate Distinct(items: map<string, Node>) {
    forall m, n :: m in items && n in items && items[m].FileNode? && items[m] == items[n] ==> m == n
  }

  /** Whatever is listed now was listed there before, or it is a directory in N or a file not in F. */
  ghost predicate NewOnly(before: map<string, Node>, now: map<string, Node>, N: set<Dir>, F: set<File>) {
    forall n :: n in now ==>
      (n in before && before[n] == now[n]) || (if now[n].DirNode? then now[n].dir in N else now[n].file !in F)
  }

  lemma {:induction false} NewOnlyThen(before: map<string, Node>, mid: map<string, Node>, now: map<string, Node>,
                                       N: set<Dir>, N': set<Dir>, F: set<File>, G: set<File>)
    requires NewOnly(before, mid, N, F) && NewOnly(mid, now, N', G) && F <= G
    ensures NewOnly(before, now, N + N', F)
  {
  }

  /** The files listed are among F. */
  ghost predicate Known(F: set<File>, items: map<string, Node>) {
    forall n :: n in items && items[n].FileNode? ==> items[n].file in F
  }

  lemma {:induction false} FewerItems(before: map<string, Node>, mid: map<string, Node>, names: set<string>, G: set<File>, N: set<Dir>, F: set<File>)
    requires Known(G, mid) && Distinct(mid) && NewOnly(before, mid, N, F)
    ensures Known(G, Only(mid, names)) && Distinct(Only(mid, names)) && NewOnly(before, Only(mid, names), N, F)
  {
  }

  /** A file put under name is listed nowhere else. */
  ghost predicate Placeable(items: map<string, Node>, name: string, node: Node) {
    node.FileNode? ==> forall m :: m in items && items[m] == node ==> m == name
  }

  /** A file whose name was last listed as an object has that object. */
  ghost predicate ObjectAt(entries: seq<Entry>, items: map<string, Node>, objs: map<File, Option<Path>>, n: string) {
    n in items && items[n].FileNode? && n != "." && n != ".." && Last(entries, n).Some? && Last(entries, n).value.ObjectEntry?
    ==> items[n].file in objs && objs[items[n].file] == Some(Last(entries, n).value.remote)
  }

  ghost predicate Objects(entries: seq<Entry>, items: map<string, Node>, objs: map<File, Option<Path>>) {
    forall n {:trigger ObjectAt(entries, items, objs, n)} :: ObjectAt(entries, items, objs, n)
  }

  /** The objects after a file has got its listed one. */
  ghost function WithObject(objs: map<File, Option<Path>>, e: Entry, node: Node): map<File, Option<Path>> {
    if node.FileNode? then objs[node.file := Some(e.remote)] else objs
  }

  lemma {:induction false} ObjectsAfter(entries: seq<Entry>, items: map<string, Node>, objs: map<File, Option<Path>>, e: Entry, node: Node)
    requires Objects(entries, items, objs) && Placeable(items, Name(e), node) && SameKind(e, node)
    ensures Objects(entries + [e], items[Name(e) := node], WithObject(objs, e, node))
  {
    var items', objs' := items[Name(e) := node], WithObject(objs, e, node);
    forall n
      ensures ObjectAt(entries + [e], items', objs', n)
    {
      LastAfter(entries, e, n);
      assert ObjectAt(entries, items, objs, n);
    }
  }

  lemma {:induction false} ObjectsAfterHidden(entries: seq<Entry>, items: map<string, Node>, objs: map<File, Option<Path>>, e: Entry)
    requires Objects(entries, items, objs) && !Shown(e)
    ensures Objects(entries + [e], items, objs)
  {
    forall n
      ensures ObjectAt(entries + [e], items, objs, n)
    {
      LastAfter(entries, e, n);
      assert ObjectAt(entries, items, objs, n);
    }
  }

  lemma {:induction false} ObjectsOfFewer(entries: seq<Entry>, items: map<string, Node>, objs: map<File, Option<Path>>, names: set<string>)
    requires Objects(entries, items, objs)
    ensures Objects(entries, Only(items, names), objs)
  {
    forall n
      ensures ObjectAt(entries, Only(items, names), objs, n)
    {
      assert ObjectAt(entries, items, objs, n);
    }
  }

  /** The part of a File that the directory cache reads and writes. */
  class File {
    var d: Dir
    var dPath: Path
    var leaf: string
    var o: Option<Path>  // the remote object, None while first being written
    var writers: nat
    var inCache: bool    // in use or dirty in the on-disk cache

    constructor (d: Dir, dPath: Path, o: Option<Path>, leaf: string)
      ensures this.d == d && this.dPath == dPath && this.o == o && this.leaf == leaf
      ensures writers == 0 && !inCache
    {
      this.d, this.dPath, this.o, this.leaf := d, dPath, o, leaf;
      writers, inCache := 0, false;
    }

    predicate WritingInProgress()
      reads this
    {
      o.None? || writers != 0
    }
  }

  /** Name() of a node: the leaf of a file, the last part of a directory's path. */
  function Title(node: Node): string
    reads match node case FileNode(f) => {f as object} case DirNode(d) => {d as object}
  {
    match node
    case FileNode(f) => f.leaf
    case DirNode(d) => NameOf(d.path)
  }

  ghost function Objs(G: set<File>): (m: map<File, Option<Path>>)
    reads G`o
    ensures m.Keys == G
  {
    map f | f in G :: f.o
  }

  // Snapshots of the directories in S as plain values.

  ghost function Parents(S: set<Dir>): (m: map<Dir, Option<Dir>>)
    reads S`parent
    ensures m.Keys == S
  {
    map d | d in S :: d.parent
  }

  ghost function Virtuals(S: set<Dir>): (m: map<Dir, set<string>>)
    reads S`virtual
    ensures m.Keys == S
  {
    map d | d in S :: d.virtual.Keys
  }

  ghost function Counts(S: set<Dir>): (m: map<Dir, int>)
    reads S`virtuals
    ensures m.Keys == S
  {
    map d | d in S :: d.virtuals
  }

  /** The parents form a forest and every count is exact. */
  ghost predicate Counted(S: set<Dir>)
    reads S`parent, S`virtual, S`virtuals
  {
    Exact<Dir>(Parents(S), Virtuals(S), Counts(S))
  }

  ghost function Items(S: set<Dir>): (m: map<Dir, map<string, Node>>)
    reads S`items
    ensures m.Keys == S
  {
    map d | d in S :: d.items
  }

  ghost function PutItems(all: map<Dir, map<string, Node>>, d: Dir, items: map<string, Node>): map<Dir, map<string, Node>> {
    all[d := items]
  }

  /** Cached directories are known and hang under the directory that lists them. */
  ghost predicate Linked(S: set<Dir>)
    reads S`parent, S`items
  {
    Hangs(Parents(S), Items(S))
  }

  ghost predicate Hangs(parents: map<Dir, Option<Dir>>, all: map<Dir, map<string, Node>>) {
    forall d {:trigger HangsAt(parents, all, d)} :: d in all ==> HangsAt(parents, all, d)
  }

  ghost predicate HangsAt(parents: map<Dir, Option<Dir>>, all: map<Dir, map<string, Node>>, d: Dir) {
    d in all && forall n {:trigger all[d][n]} :: n in all[d] && all[d][n].DirNode? ==> HangsUnder(parents, all[d][n].dir, d)
  }

  ghost predicate HangsUnder(parents: map<Dir, Option<Dir>>, c: Dir, d: Dir) {
    c in parents && parents[c] == Some(d)
  }

  /** Replacing the items of d by ones that hang under it. */
  lemma {:induction false} HangsAfterPut(parents: map<Dir, Option<Dir>>, all: map<Dir, map<string, Node>>, d: Dir, items: map<string, Node>)
    requires Hangs(parents, all)
    requires forall n :: n in items && items[n].DirNode? ==> HangsUnder(parents, items[n].dir, d)
    ensures Hangs(parents, PutItems(all, d, items))
  {
    forall x | x in PutItems(all, d, items)
      ensures HangsAt(parents, PutItems(all, d, items), x)
    {
      assert x != d ==> HangsAt(parents, all, x);
    }
  }

  class Dir {
    const canHaveEmptyDirectories: bool
    var parent: Option<Dir>
    var path: Path
    var items: map<string, Node>
    var virtual: map<string, VState>
    var virtuals: int  // number of virtual entries in this directory and below
    var hasRead: bool   // the listing has been read and not been invalidated

    /** newDir: no items, no virtual entries. */
    constructor (canHaveEmptyDirectories: bool, parent: Option<Dir>, path: Path)
      ensures this.canHaveEmptyDirectories == canHaveEmptyDirectories
      ensures this.parent == parent && this.path == path
      ensures items == map[] && virtual == map[] && virtuals == 0 && !hasRead
    {
      this.canHaveEmptyDirectories := canHaveEmptyDirectories;
      this.parent, this.path := parent, path;
      items, virtual, virtuals, hasRead := map[], map[], 0, false;
    }

    predicate HasVirtual()
      reads this
    {
      virtuals != 0
    }

    /** addVirtual: the count of this directory and of every ancestor moves by n. */
    method AddVirtual(n: int, ghost S: set<Dir>)
      requires this in S && Forest<Dir>(Parents(S))
      modifies S`virtuals
      ensures Counts(S) == Bumped<Dir>(old(Counts(S)), Up<Dir>(Parents(S), this), n)
    {
      ghost var parents := Parents(S);
      ghost var seen: set<Dir> := {};
      var cur := Some(this);
      while cur.Some?
        invariant cur.Some? ==> cur.value in S && seen !! Up<Dir>(parents, cur.value)
        invariant Up<Dir>(parents, this) == seen + (if cur.None? then {} else Up<Dir>(parents, cur.value))
        invariant forall x :: x in S ==> x.virtuals == old(x.virtuals) + (if x in seen then n else 0)
        decreases if cur.None? then {} else Up<Dir>(parents, cur.value)
      {
        UpUnfold<Dir>(parents, cur.value);
        cur.value.virtuals := cur.value.virtuals + n;
        seen := seen + {cur.value};
        cur := cur.value.parent;
      }
    }

    method SetVirtual(v: map<string, VState>, ghost S: set<Dir>)
      requires this in S
      modifies this`virtual
      ensures virtual == v
      ensures Virtuals(S) == Put<Dir>(old(Virtuals(S)), this, v.Keys)
    {
      virtual := v;
    }

    /** The common part of addObject and delObject. */
    method Mark(leaf: string, state: VState, ghost S: set<Dir>)
      requires this in S && Counted(S)
      modifies S`virtuals, this`virtual
      ensures Counted(S)
      ensures virtual == old(virtual)[leaf := state]
    {
      ghost var names := virtual.Keys;
      ghost var virt: map<Dir, set<string>> := Virtuals(S);
      assert Put<Dir>(virt, this, names) == virt;
      if leaf !in virtual {
        ExactAfterAdd<Dir>(Parents(S), Virtuals(S), Counts(S), this, leaf);
        AddVirtual(1, S);
      }
      SetVirtual(virtual[leaf := state], S);
      assert virtual.Keys == names + {leaf};
      assert leaf in names ==> names + {leaf} == names;
    }

    /** addObject: under the node's own name. */
    method AddObject(node: Node, ghost S: set<Dir>)
      requires this in S && Counted(S)
      modifies S`virtuals, this`virtual, this`items
      ensures Counted(S)
      ensures items == old(items)[Title(node) := node]
      ensures virtual == old(virtual)[Title(node) := if node.DirNode? then AddDir else AddFile]
    {
      var leaf := Title(node);
      items := items[leaf := node];
      Mark(leaf, if node.DirNode? then AddDir else AddFile, S);
    }

    /** delObject. */
    method DelObject(leaf: string, ghost S: set<Dir>)
      requires this in S && Counted(S)
      modifies S`virtuals, this`virtual, this`items
      ensures Counted(S)
      ensures items == old(items) - {leaf}
      ensures virtual == old(virtual)[leaf := Del]
    {
      items := items - {leaf};
      Mark(leaf, Del, S);
    }

    /** _deleteVirtual. */
    method DeleteVirtual(name: string, ghost S: set<Dir>)
      requires this in S && Counted(S)
      modifies S`virtuals, this`virtual
      ensures Counted(S)
      ensures virtual == old(virtual) - {name}
    {
      ghost var names := virtual.Keys;
      if name !in virtual {
        assert virtual - {name} == virtual;
        return;
      }
      ExactAfterRemove<Dir>(Parents(S), Virtuals(S), Counts(S), this, name);
      SetVirtual(virtual - {name}, S);
      AddVirtual(-1, S);
      assert virtual.Keys == names - {name};
    }

    /** Whether a purge leaves the virtual entry: an empty directory the remote cannot store, or unfinished work. */
    predicate Survives(name: string, state: VState)
      reads this`items, if name in items && items[name].FileNode? then {items[name].file} else {}
    {
      match state
      case AddDir => !canHaveEmptyDirectories
      case AddFile =>
        name in items && items[name].FileNode?
        && (items[name].file.WritingInProgress() || items[name].file.inCache)
      case Del => false
    }

    ghost function SurvivingNames(F: set<File>, v: map<string, VState>): set<string>
      requires Known(F, items)
      reads this`items, F
    {
      set n | n in v && Survives(n, v[n])
    }

    ghost function Survivors(F: set<File>): map<string, VState>
      requires Known(F, items)
      reads this`items, this`virtual, F
    {
      Only(virtual, SurvivingNames(F, virtual))
    }

    /** The body of the purge loop. */
    method PurgeOne(name: string, ghost S: set<Dir>)
      requires this in S && Counted(S) && name in virtual
      modifies S`virtuals, this`virtual
      ensures Counted(S)
      ensures virtual == if old(Survives(name, virtual[name])) then old(virtual) else old(virtual) - {name}
    {
      match virtual[name] {
        case AddDir =>
          if canHaveEmptyDirectories {
            DeleteVirtual(name, S);
          }
        case AddFile =>
          if name !in items || items[name].DirNode? {
            DeleteVirtual(name, S);
          } else {
            var f := items[name].file;
            if !f.WritingInProgress() && !f.inCache {
              DeleteVirtual(name, S);
            }
          }
        case Del =>
          DeleteVirtual(name, S);
      }
    }

    /** _purgeVirtual. */
    method PurgeVirtual(ghost S: set<Dir>, ghost F: set<File>)
      requires this in S && Counted(S) && Known(F, items)
      modifies S`virtuals, this`virtual
      ensures Counted(S)
      ensures virtual == old(Survivors(F))
    {
      ghost var start := virtual;
      ghost var keep := SurvivingNames(F, start);
      var todo := virtual.Keys;
      assert Only(start, todo + keep) == start;
      while todo != {}
        invariant todo <= start.Keys && Counted(S)
        invariant virtual == Only(start, todo + keep)
        decreases todo
      {
        var name :| name in todo;
        assert name in keep <==> Survives(name, virtual[name]);
        OnlyLess(start, todo, keep, name);
        todo := todo - {name};
        PurgeOne(name, S);
      }
      assert {} + keep == keep;
    }

    /** The node is what the entry says: a file with that object, or a directory. */
    static ghost predicate Fits(e: Entry, node: Node)
      reads if node.FileNode? then {node.file} else {}
    {
      && (e.ObjectEntry? ==> node.FileNode? && node.file.o == Some(e.remote))
      && (e.DirectoryEntry? ==> node.DirNode?)
    }

    /** mv.add: record the name; an added one is virtual no longer, a deleted one is to be skipped. */
    method Note(name: string, ghost S: set<Dir>) returns (skip: bool)
      requires this in S && Counted(S)
      modifies S`virtuals, this`virtual
      ensures Counted(S)
      ensures skip == (name in Deleted(old(virtual)))
      ensures virtual == if skip then old(virtual) else old(virtual) - {name}
    {
      skip := name in virtual && virtual[name].Del?;
      if !skip {
        DeleteVirtual(name, S);
      }
    }

    /** A directory without contents, hung under d. */
    static ghost predicate Blank(c: Dir, d: Dir)
      reads c
    {
      c.parent == Some(d) && c.items == map[] && c.virtual == map[] && c.virtuals == 0
    }

    function FileAt(name: string): set<File>
      reads this`items
    {
      if name in items && items[name].FileNode? then {items[name].file} else {}
    }

    /** The node for a listed entry: the old one where the kind fits, else a new one. */
    method NodeFor(e: Entry) returns (node: Node)
      requires Distinct(items) && !e.UnknownEntry?
      modifies FileAt(Name(e))`o
      ensures Fits(e, node) && Placeable(items, Name(e), node)
      ensures Name(e) in items && SameKind(e, items[Name(e)]) ==> node == items[Name(e)]
      ensures !(Name(e) in items && SameKind(e, items[Name(e)])) ==>
                (node.FileNode? ==> fresh(node.file) && node.file.d == this && node.file.dPath == path && node.file.leaf == Name(e))
                && (node.DirNode? ==> fresh(node.dir) && Blank(node.dir, this) && node.dir.path == e.remote)
      ensures forall f :: f in FileAt(Name(e)) && node != FileNode(f) ==> f.o == old(f.o)
    {
      var name := Name(e);
      if e.ObjectEntry? {
        if name in items && items[name].FileNode? {
          items[name].file.o := Some(e.remote);
          node := items[name];
        } else {
          var f := new File(this, path, Some(e.remote), name);
          node := FileNode(f);
        }
      } else if name in items && items[name].DirNode? {
        node := items[name];
      } else {
        var c := new Dir(canHaveEmptyDirectories, Some(this), e.remote);
        node := DirNode(c);
      }
    }

    /**
     * The directories of N are listed under their names, and files not in F
     * belong here under theirs.  Their paths are right if the entries' are.
     */
    ghost predicate Entitled(nodes: map<string, Node>, N: set<Dir>, F: set<File>, G: set<File>, fits: bool)
      requires Known(G, nodes)
      reads this`path, N`path, G`d, G`dPath, G`leaf
    {
      forall n {:trigger nodes[n]} :: n in nodes ==>
        if nodes[n].DirNode? then (nodes[n].dir in N ==> NameOf(nodes[n].dir.path) == n && (fits ==> nodes[n].dir.path == path + [n]))
        else (nodes[n].file !in F ==> nodes[n].file.d == this && nodes[n].file.dPath == path && nodes[n].file.leaf == n)
    }

    lemma {:induction false} EntitledThen(mid: map<string, Node>, now: map<string, Node>, N: set<Dir>, N': set<Dir>, F: set<File>, G: set<File>, G': set<File>, fits: bool)
      requires Known(G, mid) && Known(G', now) && F <= G <= G' && NewOnly(mid, now, N', G)
      requires Entitled(mid, N, F, G, fits) && Entitled(now, N', G, G', fits) && forall c :: c in N' ==> c !in N
      ensures Entitled(now, N + N', F, G', fits)
    {
    }

    /** The new node goes under its name; it is the old one there or a new one, blank if a directory. */
    method Install(e: Entry, ghost G: set<File>, ghost fits: bool) returns (node: Node, ghost newDirs: set<Dir>, ghost newFiles: set<File>)
      requires Distinct(items) && Shown(e) && !e.UnknownEntry? && Known(G, items) && (fits ==> e.remote == path + [Name(e)])
      modifies this`items, FileAt(Name(e))`o
      ensures items == old(items)[Name(e) := node] && Distinct(items) && Fits(e, node) && Placeable(old(items), Name(e), node)
      ensures Objs(G + newFiles) == WithObject(old(Objs(G)), e, node)
      ensures Name(e) in old(items) && SameKind(e, old(items)[Name(e)]) ==> node == old(items)[Name(e)]
      ensures fresh(newDirs) && NewOnly(old(items), items, newDirs, G) && forall c :: c in newDirs ==> Blank(c, this)
      ensures fresh(newFiles) && Known(G + newFiles, items) && Entitled(items, newDirs, G, G + newFiles, fits)
    {
      node := NodeFor(e);
      newDirs, newFiles := {}, {};
      if !(Name(e) in items && node == items[Name(e)]) {
        if node.DirNode? {
          newDirs := {node.dir};
        } else {
          newFiles := {node.file};
        }
      }
      items := items[Name(e) := node];
    }

    /** The body of the merge loop for a listed entry of known type. */
    method MergeOne(e: Entry, ghost S: set<Dir>, ghost G: set<File>, ghost before: map<string, Node>,
                    ghost virtual0: map<string, VState>, ghost entries: seq<Entry>, ghost fits: bool)
      returns (ghost newDirs: set<Dir>, ghost newFiles: set<File>)
      requires this in S && Counted(S) && Distinct(items) && Known(G, items) && Shown(e) && !e.UnknownEntry? && (fits ==> e.remote == path + [Name(e)])
      requires Objects(entries, items, Objs(G))
      requires Effect(before, virtual0, entries, items, virtual) && Deleted(virtual0) == {}
      modifies this`items, FileAt(Name(e))`o, this`virtual, S`virtuals
      ensures Counted(S) && Distinct(items)
      ensures Effect(before, virtual0, entries + [e], items, virtual)
      ensures fresh(newDirs) && NewOnly(old(items), items, newDirs, G) && forall c :: c in newDirs ==> Blank(c, this)
      ensures fresh(newFiles) && Known(G + newFiles, items) && Objects(entries + [e], items, Objs(G + newFiles))
      ensures Entitled(items, newDirs, G, G + newFiles, fits)
    {
      ghost var now, marks, objs := items, virtual, Objs(G);
      EffectUnmarks(before, virtual0, entries, items, virtual, Name(e));
      var skip := Note(Name(e), S);
      assert !skip;  // no deletion mark outlives the purge that precedes the merge
      var node;
      node, newDirs, newFiles := Install(e, G, fits);
      EffectAfter(before, virtual0, entries, now, marks, e, node);
      ObjectsAfter(entries, now, objs, e, node);
    }

    /** The directories of N are new: outside S and without contents. */
    ghost predicate Newborn(N: set<Dir>, S: set<Dir>)
      reads N
    {
      forall c {:trigger c in N} :: c in N ==> c !in S && Blank(c, this)
    }

    /** The entries lie directly in this directory. */
    ghost predicate Within(entries: seq<Entry>)
      reads this`path
    {
      forall k {:trigger entries[k]} :: 0 <= k < |entries| ==> entries[k].remote == path + [Name(entries[k])]
    }

    /** What the merge loop keeps about the nodes. */
    ghost predicate Merging(S: set<Dir>, F: set<File>, before: map<string, Node>, N: set<Dir>, G: set<File>, fits: bool)
      reads this`items, this`path, S`parent, S`virtual, S`virtuals, N, G`d, G`dPath, G`leaf
    {
      && this in S && Counted(S) && Distinct(items) && F <= G && Known(G, items)
      && NewOnly(before, items, N, F) && Newborn(N, S) && Entitled(items, N, F, G, fits)
    }

    /** What the entries so far have done to the names, and the objects they gave the files. */
    ghost predicate Merged(before: map<string, Node>, virtual0: map<string, VState>, entries: seq<Entry>, G: set<File>)
      reads this`items, this`virtual, G`o
    {
      Deleted(virtual0) == {} && Effect(before, virtual0, entries, items, virtual) && Objects(entries, items, Objs(G))
    }

    /** One round of the merge loop for a shown entry of known type. */
    method MergeShown(e: Entry, ghost S: set<Dir>, ghost F: set<File>, ghost G: set<File>, ghost before: map<string, Node>,
                      ghost virtual0: map<string, VState>, ghost entries: seq<Entry>, ghost N: set<Dir>, ghost fits: bool)
      returns (ghost N': set<Dir>, ghost G': set<File>)
      requires Merging(S, F, before, N, G, fits) && Merged(before, virtual0, entries, G) && Shown(e) && !e.UnknownEntry?
      requires fits ==> e.remote == path + [Name(e)]
      modifies this`items, G`o, this`virtual, S`virtuals
      ensures Merging(S, F, before, N', G', fits) && Merged(before, virtual0, entries + [e], G')
      ensures forall c {:trigger c in N'} :: c in N' ==> c in N || fresh(c)
      ensures G <= G' && forall f {:trigger f in G'} :: f in G' ==> f in G || fresh(f)
    {
      ghost var now, newDirs, newFiles := items, {}, {};
      newDirs, newFiles := MergeOne(e, S, G, before, virtual0, entries, fits);
      NewOnlyThen(before, now, items, N, newDirs, F, G);
      N', G' := N + newDirs, G + newFiles;
      EntitledThen(now, items, N, newDirs, F, G, G', fits);
    }

    /** One round of the merge loop. */
    method MergeNext(e: Entry, ghost S: set<Dir>, ghost F: set<File>, ghost G: set<File>, ghost before: map<string, Node>,
                     ghost virtual0: map<string, VState>, ghost entries: seq<Entry>, ghost N: set<Dir>, ghost fits: bool)
      returns (ok: bool, ghost N': set<Dir>, ghost G': set<File>)
      requires Merging(S, F, before, N, G, fits) && Merged(before, virtual0, entries, G) && (fits ==> e.remote == path + [Name(e)])
      modifies this`items, G`o, this`virtual, S`virtuals
      ensures ok == !(Shown(e) && e.UnknownEntry?)
      ensures Merging(S, F, before, N', G', fits) && (ok ==> Merged(before, virtual0, entries + [e], G'))
      ensures forall c {:trigger c in N'} :: c in N' ==> c in N || fresh(c)
      ensures G <= G' && forall f {:trigger f in G'} :: f in G' ==> f in G || fresh(f)
    {
      ok, N', G' := true, N, G;
      if !Shown(e) {
        EffectAfterHidden(before, virtual0, entries, items, virtual, e);
        ObjectsAfterHidden(entries, items, Objs(G), e);
      } else if e.UnknownEntry? {
        var _ := Note(Name(e), S);
        ok := false;
      } else {
        N', G' := MergeShown(e, S, F, G, before, virtual0, entries, N, fits);
      }
    }

    /** The same with the listing so far, its names being collected. */
    method MergeAt(entries: seq<Entry>, k: nat, names: set<string>, ghost S: set<Dir>, ghost F: set<File>, ghost G: set<File>,
                   ghost before: map<string, Node>, ghost virtual0: map<string, VState>, ghost N: set<Dir>, ghost fits: bool)
      returns (ok: bool, mv: set<string>, ghost N': set<Dir>, ghost G': set<File>)
      requires k < |entries| && Merging(S, F, before, N, G, fits) && Merged(before, virtual0, entries[..k], G)
      requires AllKnown(entries[..k]) && names == Listed(entries[..k]) && (fits ==> Within(entries))
      modifies this`items, G`o, this`virtual, S`virtuals
      ensures Merging(S, F, before, N', G', fits)
      ensures ok ==> AllKnown(entries[..k + 1]) && mv == Listed(entries[..k + 1]) && Merged(before, virtual0, entries[..k + 1], G')
      ensures !ok ==> !AllKnown(entries)
      ensures forall c {:trigger c in N'} :: c in N' ==> c in N || fresh(c)
      ensures forall f {:trigger f in G'} :: f in G' ==> f in G || fresh(f)
    {
      PrefixGrows(entries, k);
      ok, N', G' := MergeNext(entries[k], S, F, G, before, virtual0, entries[..k], N, fits);
      mv := if Shown(entries[k]) then names + {Name(entries[k])} else names;
    }

    /** The loop over the listing. */
    method MergeAll(entries: seq<Entry>, ghost S: set<Dir>, ghost F: set<File>, ghost fits: bool)
      returns (ok: bool, mv: set<string>, ghost N: set<Dir>, ghost G: set<File>)
      requires this in S && Counted(S) && Known(F, items) && Distinct(items) && Deleted(virtual) == {} && (fits ==> Within(entries))
      modifies this`items, F`o, this`virtual, S`virtuals
      ensures ok == AllKnown(entries) && (ok ==> mv == Listed(entries))
      ensures Merging(S, F, old(items), N, G, fits) && (ok ==> Merged(old(items), old(virtual), entries, G))
      ensures forall c {:trigger c in N} :: c in N ==> fresh(c)
      ensures forall f {:trigger f in G} :: f in G ==> f in F || fresh(f)
    {
      ghost var before, marks := items, virtual;
      N, G, ok, mv := {}, F, true, {};
      EffectOfNothing(before, marks);
      WholePrefix(entries);
      var k := 0;
      while ok && k < |entries|
        invariant k <= |entries| && Merging(S, F, before, N, G, fits)
        invariant ok ==> AllKnown(entries[..k]) && mv == Listed(entries[..k]) && Merged(before, marks, entries[..k], G)
        invariant !ok ==> !AllKnown(entries)
        invariant forall c {:trigger c in N} :: c in N ==> fresh(c)
        invariant forall f {:trigger f in G} :: f in G ==> f in F || fresh(f)
      {
        ok, mv, N, G := MergeAt(entries, k, mv, S, F, G, before, marks, N, fits);
        k := k + 1;
      }
    }

    /** mv.end: items neither listed nor virtually added go, and deletion marks of unlisted names. */
    method End(mv: set<string>, ghost S: set<Dir>)
      requires this in S && Counted(S)
      modifies this`items, this`virtual, S`virtuals
      ensures Counted(S)
      ensures items == Only(old(items), mv + Added(old(virtual)))
      ensures virtual == old(virtual) - (Deleted(old(virtual)) - mv)
    {
      ghost var before, marks := items, virtual;
      ghost var keep := mv + Added(marks);
      var todo := items.Keys;
      assert Only(before, todo + keep) == before;
      while todo != {}
        invariant todo <= before.Keys
        invariant items == Only(before, todo + keep)
        modifies this`items
        decreases todo
      {
        var name :| name in todo;
        OnlyLess(before, todo, keep, name);
        if name !in mv && (name !in virtual || virtual[name].Del?) {
          items := items - {name};
        }
        todo := todo - {name};
      }
      assert {} + keep == keep;
      EndVirtuals(mv, S);
    }

    /** The second loop of mv.end. */
    method EndVirtuals(mv: set<string>, ghost S: set<Dir>)
      requires this in S && Counted(S)
      modifies this`virtual, S`virtuals
      ensures Counted(S)
      ensures virtual == old(virtual) - (Deleted(old(virtual)) - mv)
    {
      ghost var marks := virtual;
      ghost var keep := marks.Keys - (Deleted(marks) - mv);
      var todo := virtual.Keys;
      assert Only(marks, todo + keep) == marks;
      while todo != {}
        invariant todo <= marks.Keys && Counted(S)
        invariant virtual == Only(marks, todo + keep)
        decreases todo
      {
        var name :| name in todo;
        OnlyLess(marks, todo, keep, name);
        if name !in mv && virtual[name].Del? {
          DeleteVirtual(name, S);
        }
        todo := todo - {name};
      }
      assert {} + keep == keep;
      assert Only(marks, keep) == marks - (Deleted(marks) - mv);
    }

    /** The merge proper: take in the listing, then drop what it no longer shows. */
    method Merge(entries: seq<Entry>, ghost S: set<Dir>, ghost F: set<File>, ghost fits: bool)
      returns (ok: bool, ghost N: set<Dir>, ghost G: set<File>)
      requires this in S && Counted(S) && Known(F, items) && Distinct(items) && Deleted(virtual) == {} && (fits ==> Within(entries))
      modifies this`items, F`o, this`virtual, S`virtuals
      ensures ok == AllKnown(entries)
      ensures Counted(S)
      ensures ok ==> Reread(old(items), old(virtual), entries, items, virtual) && Objects(entries, items, Objs(G))
      ensures NewOnly(old(items), items, N, F) && Newborn(N, S) && forall c {:trigger c in N} :: c in N ==> fresh(c)
      ensures F <= G && Known(G, items) && Distinct(items) && forall f {:trigger f in G} :: f in G ==> f in F || fresh(f)
      ensures Entitled(items, N, F, G, fits)
    {
      ghost var before, left := items, virtual;
      var mv;
      ok, mv, N, G := MergeAll(entries, S, F, fits);
      if ok {
        RereadAfter(before, left, entries, items, virtual);
        FewerItems(before, items, mv + Added(virtual), G, N, F);
        ObjectsOfFewer(entries, items, Objs(G), mv + Added(virtual));
        Finish(mv, S, N, F, G, fits);
      }
    }

    /** mv.end leaves the new directories and the files' objects alone. */
    method Finish(mv: set<string>, ghost S: set<Dir>, ghost N: set<Dir>, ghost F: set<File>, ghost G: set<File>, ghost fits: bool)
      requires this in S && Counted(S) && Newborn(N, S) && Known(G, items) && Entitled(items, N, F, G, fits)
      modifies this`items, this`virtual, S`virtuals
      ensures Counted(S) && Newborn(N, S) && Objs(G) == old(Objs(G)) && Known(G, items) && Entitled(items, N, F, G, fits)
      ensures items == Only(old(items), mv + Added(old(virtual)))
      ensures virtual == old(virtual) - (Deleted(old(virtual)) - mv)
    {
      End(mv, S);
    }

    /** _readDirFromEntries without a directory tree: purge, then merge. */
    method ReadDirFromEntries(entries: seq<Entry>, ghost S: set<Dir>, ghost F: set<File>)
      returns (ok: bool, ghost N: set<Dir>, ghost G: set<File>)
      requires this in S && Counted(S) && Known(F, items) && Distinct(items)
      modifies this`items, F`o, this`virtual, S`virtuals
      ensures ok == AllKnown(entries)
      ensures Counted(S)
      ensures ok ==> Reread(old(items), old(Survivors(F)), entries, items, virtual) && Objects(entries, items, Objs(G))
      ensures NewOnly(old(items), items, N, F) && Newborn(N, S) && forall c {:trigger c in N} :: c in N ==> fresh(c)
      ensures F <= G && Known(G, items) && Distinct(items) && forall f {:trigger f in G} :: f in G ==> f in F || fresh(f)
      ensures Entitled(items, N, F, G, Within(entries))
    {
      PurgeVirtual(S, F);
      assert Deleted(virtual) == {};
      ok, N, G := Merge(entries, S, F, Within(entries));
    }
  }
}
