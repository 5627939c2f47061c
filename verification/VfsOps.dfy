/**
 * What can happen to the directory cache, step by step, and what each step does
 * to it as a value.
 */
module VfsOps {
  import opened Wrappers
  import opened VfsChains
  import opened VfsDir
  import opened VfsTree
  import opened VfsRename
  import opened VfsCache
  import VfsForget

  // ---------- the steps ----------

  /** An entry of a listing of a directory: its name and type. */
  datatype Item = ObjectItem(name: string) | DirectoryItem(name: string) | UnknownItem(name: string)

  /** The entries of the listing of the directory at that path. */
  function EntriesAt(path: Path, listing: seq<Item>): (entries: seq<Entry>)
    ensures |entries| == |listing| && forall k :: 0 <= k < |listing| ==> entries[k].remote == path + [listing[k].name]
  {
    seq(|listing|, k requires 0 <= k < |listing| =>
      match listing[k]
      case ObjectItem(name) => ObjectEntry(path + [name])
      case DirectoryItem(name) => DirectoryEntry(path + [name])
      case UnknownItem(name) => UnknownEntry(path + [name]))
  }

  /** A directory: by item names from the root, or from a directory that somebody holds. */
  datatype Spot = Spot(base: Option<nat>, names: seq<string>)

  /**
   * A step.  Nodes stay held once looked up, as open handles and the kernel do,
   * whether they are still listed or not.
   */
  datatype Op =
    | Hold(at: Spot, leaf: string)
    | VirtualAdd(at: Spot, leaf: string, isDir: bool)
    | VirtualDelete(at: Spot, leaf: string)
    | ListingRead(at: Spot, listing: seq<Item>)
    | ForgetTree(at: Spot)
    | RenameTo(at: Spot, leaf: string, to: Spot, newLeaf: string, o: Option<Path>)
    | FileAdded(handle: nat)
    | FileRemoved(handle: nat)
    | FileChanged(handle: nat, o: Option<Path>, writers: nat, inCache: bool)

  predicate WithFile(op: Op) {
    op.FileAdded? || op.FileRemoved? || op.FileChanged?
  }

  /** Whoever is held is known. */
  ghost predicate AllHeld(held: seq<Node>, S: set<Dir>, F: set<File>) {
    forall k {:trigger held[k]} :: 0 <= k < |held| ==> match held[k] case FileNode(f) => f in F case DirNode(d) => d in S
  }

  /** The file with that handle. */
  function HeldFile(held: seq<Node>, handle: nat): Option<File> {
    if handle < |held| && held[handle].FileNode? then Some(held[handle].file) else None
  }

  /** The directory at that spot, if it is cached. */
  ghost function DirAt(all: map<Dir, map<string, Node>>, root: Dir, held: seq<Node>, spot: Spot): Option<Dir> {
    if spot.base.None? then Walk(all, root, spot.names)
    else if spot.base.value < |held| && held[spot.base.value].DirNode? then Walk(all, held[spot.base.value].dir, spot.names)
    else None
  }

  /** The file does not note the path of its directory. */
  ghost predicate Outdated(f: File, c: Cache) {
    f in c.home && f in c.dpaths && c.home[f].dir in c.paths && c.dpaths[f] != c.paths[c.home[f].dir]
  }

  /** The step lists a file that does not note the path of its directory. */
  ghost predicate Misses(op: Op, held: seq<Node>, c: Cache) {
    op.FileAdded? && HeldFile(held, op.handle).Some? && Outdated(HeldFile(held, op.handle).value, c)
  }

  /** If the files' paths were right they still are, unless the step lists a file like that. */
  ghost predicate NotedUnless(op: Op, held: seq<Node>, c: Cache, c': Cache) {
    Noted(c) ==> (Noted(c') <==> !Misses(op, held, c))
  }

  ghost predicate NotedWith(op: Op, f: File, c: Cache, c': Cache) {
    Noted(c) ==> (Noted(c') <==> !(op.FileAdded? && Outdated(f, c)))
  }

  // ---------- what they do ----------

  /** If the files' paths were right they still are. */
  ghost predicate StaysNoted(c: Cache, c': Cache) {
    Noted(c) ==> Noted(c')
  }

  /** The marks of the other directories are the same. */
  ghost predicate MarksBut(c: Cache, c': Cache, d: Dir) {
    forall x {:trigger c'.marks[x]} :: x in c.marks && x != d ==> x in c'.marks && c'.marks[x] == c.marks[x]
  }

  function AddMark(node: Node): VState {
    if node.DirNode? then AddDir else AddFile
  }

  /** A new node of that kind is listed and marked. */
  ghost predicate NodeAdded(c: Cache, c': Cache, d: Dir, leaf: string, isDir: bool) {
    && Edited(c, c', d) && NotedNew(c, c', d) && MarksBut(c, c', d) && d in c.marks && d in c'.marks
    && leaf in c'.all[d] && c'.all[d] == c.all[d][leaf := c'.all[d][leaf]]
    && c'.marks[d] == c.marks[d][leaf := AddMark(c'.all[d][leaf])]
    && match c'.all[d][leaf] case DirNode(x) => isDir && x !in c.parents case FileNode(f) => !isDir && f !in c.home
  }

  /** The node is listed and marked under that name. */
  ghost function Listing(c: Cache, d: Dir, leaf: string, node: Node): Cache
    requires d in c.all && d in c.marks
  {
    WithNodes(c, d, c.all[d][leaf := node], c.marks[d][leaf := AddMark(node)])
  }

  /** The name is unlisted and marked so. */
  ghost function Unlisting(c: Cache, d: Dir, leaf: string): Cache
    requires d in c.all && d in c.marks
  {
    WithNodes(c, d, c.all[d] - {leaf}, c.marks[d][leaf := Del])
  }

  /** The closed form of a re-read, if all entries are of known types. */
  ghost predicate Merged(before: map<string, Node>, left: map<string, VState>, entries: seq<Entry>, now: map<string, Node>, virtual: map<string, VState>) {
    AllKnown(entries) ==> VfsDir.Reread(before, left, entries, now, virtual)
  }

  /** The listing is merged into d. */
  ghost predicate ReadIn(c: Cache, c': Cache, d: Dir, busy: set<File>, entries: seq<Entry>) {
    && Edited(c, c', d) && NotedNew(c, c', d) && MarksBut(c, c', d) && d in c.marks && d in c'.marks
    && Merged(c.all[d], VfsForget.Remaining(d, c.all[d], busy, c.marks[d]), entries, c'.all[d], c'.marks[d])
  }

  /** The mark n of x is unfinished work: it stays, and on the whole chain above it the items do. */
  ghost predicate KeptAt(c: Cache, c': Cache, busy: set<File>, x: Dir, n: string)
    requires x in c.all && x in c.marks && n in c.marks[x]
  {
    VfsForget.Lasting(x, c.all[x], busy, n, c.marks[x][n]) ==>
      && x in c'.marks && n in c'.marks[x] && c'.marks[x][n] == c.marks[x][n]
      && forall a {:trigger a in Up<Dir>(c.parents, x)} :: a in Up<Dir>(c.parents, x) ==> a in c.all && a in c'.all && c'.all[a] == c.all[a]
  }

  /** Nothing at or below x is marked. */
  ghost predicate Unmarked(parents: map<Dir, Option<Dir>>, marks: map<Dir, map<string, VState>>, x: Dir) {
    forall z {:trigger Inside(parents, x, z)} :: z in marks && Inside(parents, x, z) ==> marks[z] == map[]
  }

  /** Nothing at x is left to forget. */
  ghost predicate SweptIn(c: Cache, busy: set<File>, x: Dir) {
    && x in c.all && x in c.marks
    && (forall n :: n in c.marks[x] ==> VfsForget.Lasting(x, c.all[x], busy, n, c.marks[x][n]))
    && (Unmarked(c.parents, c.marks, x) ==> c.all[x] == map[])
  }

  /** Items and marks are those there were, or fewer: items go all at once. */
  ghost predicate Thinned(c: Cache, c': Cache) {
    && c'.parents == c.parents && c'.paths == c.paths && c'.home == c.home && c'.dpaths == c.dpaths
    && c'.all.Keys == c.all.Keys && c'.marks.Keys == c.marks.Keys == c.all.Keys
    && (forall x {:trigger c'.all[x]} :: x in c.all ==> c'.all[x] == c.all[x] || c'.all[x] == map[])
    && (forall x {:trigger c'.marks[x]} :: x in c.marks ==> VfsForget.Fewer(c'.marks[x], c.marks[x]))
  }

  /** What the directories outside the tree of d have is the same. */
  ghost predicate SameBeyond<T>(parents: map<Dir, Option<Dir>>, before: map<Dir, T>, now: map<Dir, T>, d: Dir) {
    forall x {:trigger now[x]} {:trigger before[x]} :: x in before && !Inside(parents, d, x) ==> x in now && now[x] == before[x]
  }

  /** The tree of d is forgotten but for unfinished work and what leads there. */
  ghost predicate ForgotIn(c: Cache, c': Cache, d: Dir, busy: set<File>) {
    && Thinned(c, c')
    && SameBeyond(c.parents, c.all, c'.all, d) && SameBeyond(c.parents, c.marks, c'.marks, d)
    && (forall x, n {:trigger c.marks[x][n]} :: x in c.marks && n in c.marks[x] ==> KeptAt(c, c', busy, x, n))
    && (forall ks {:trigger Walk(c'.all, d, ks)} :: Walk(c'.all, d, ks).Some? ==> SweptIn(c', busy, Walk(c'.all, d, ks).value))
  }

  /** File f belongs to dest under its new name and notes its path. */
  function AtDest(c: Cache, f: File, dest: Dir, newLeaf: string): Cache
    requires dest in c.paths
  {
    c.(home := c.home[f := Seat(dest, newLeaf)], dpaths := c.dpaths[f := c.paths[dest]])
  }

  /** The node is unlisted there and listed here. */
  ghost function Rehung(c: Cache, p: Dir, leaf: string, dest: Dir, newLeaf: string, node: Node): Cache
    requires p in c.all && p in c.marks && dest in c.all && dest in c.marks
  {
    Listing(Unlisting(c, p, leaf), dest, newLeaf, node)
  }

  /** What the move of a directory does to the paths: its own is new, and files that are not listed note what they noted. */
  ghost predicate PathsChange(c: Cache, c': Cache, x: Dir, newPath: Path) {
    && x in c'.paths && c'.paths[x] == newPath && c'.home == c.home
    && forall f {:trigger c'.dpaths[f]} :: f in c.home && f in c.dpaths && !Shows(ShapeOf(c), f) ==> f in c'.dpaths && c'.dpaths[f] == c.dpaths[f]
  }

  /** What the directories have, at and below x as in tree. */
  ghost function Graft<T>(parents: map<Dir, Option<Dir>>, base: map<Dir, T>, tree: map<Dir, T>, x: Dir): map<Dir, T> {
    map y | y in base :: if Inside(parents, x, y) && y in tree then tree[y] else base[y]
  }

  /** The cache c with the items and marks at and below x as in c'. */
  ghost function Grafted(c: Cache, c': Cache, x: Dir): Cache {
    c.(all := Graft(c.parents, c.all, c'.all, x), marks := Graft(c.parents, c.marks, c'.marks, x))
  }

  /** Directory x, listed by p, has been forgotten as far as can be and is now listed by dest alone, with a new path and parent. */
  ghost predicate DirRenamed(c: Cache, c': Cache, x: Dir, p: Dir, leaf: string, dest: Dir, newLeaf: string, busy: set<File>) {
    && p in c.all && p in c.marks && dest in c.all && dest in c.marks && dest in c.paths
    && ForgotIn(c, Grafted(c, c', x), x, busy) && DirMoved(c, c', x, dest, newLeaf) && PathsChange(c, c', x, c.paths[dest] + [newLeaf])
    && var mid := Grafted(c, c', x);
       p in mid.all && p in mid.marks && dest in mid.all && dest in mid.marks
       && var now := Rehung(mid.(all := mid.all[dest := Relisted(mid.all[dest], leaf, newLeaf, x)]), p, leaf, dest, newLeaf, DirNode(x));
          c'.all == now.all && c'.marks == now.marks
  }

  /** What a step at directory d does. */
  ghost predicate DoesAt(op: Op, d: Dir, root: Dir, held: seq<Node>, busy: set<File>, c: Cache, held': seq<Node>, c': Cache) {
    && d in c.all && d in c.marks && d in c.paths
    && (!op.Hold? ==> held' == held)
    && match op
       case Hold(_, leaf) => c' == c && held' == if leaf in c.all[d] then held + [c.all[d][leaf]] else held
       case VirtualAdd(_, leaf, isDir) => if leaf in c.all[d] then c' == c else NodeAdded(c, c', d, leaf, isDir)
       case VirtualDelete(_, leaf) => c' == Unlisting(c, d, leaf)
       case ListingRead(_, listing) => ReadIn(c, c', d, busy, EntriesAt(c.paths[d], listing))
       case ForgetTree(_) => ForgotIn(c, c', d, busy)
       case RenameTo(_, leaf, to, newLeaf, _) => RenameDoes(c, c', d, leaf, DirAt(c.all, root, held, to), newLeaf, busy)
       case FileAdded(_) => false
       case FileRemoved(_) => false
       case FileChanged(_, _, _, _) => false
  }

  /** A rename without a listed node or a destination does nothing. */
  ghost predicate RenameDoes(c: Cache, c': Cache, d: Dir, leaf: string, dest: Option<Dir>, newLeaf: string, busy: set<File>)
    requires d in c.all && d in c.marks
  {
    if dest.Some? && leaf in c.all[d] then NodeRenamed(c, c', d, leaf, dest.value, newLeaf, busy) else c' == c
  }

  /**
   * Dir.Rename of what d lists under leaf.  A directory that would take marks to
   * another parent stays, forgotten as far as can be.
   */
  ghost predicate NodeRenamed(c: Cache, c': Cache, d: Dir, leaf: string, dest: Dir, newLeaf: string, busy: set<File>)
    requires d in c.all && leaf in c.all[d] && d in c.marks
  {
    && dest in c.all && dest in c.marks && dest in c.paths
    && match c.all[d][leaf]
       case FileNode(f) => c' == Rehung(AtDest(c, f, dest, newLeaf), d, leaf, dest, newLeaf, FileNode(f))
       case DirNode(x) =>
         if Inside(c.parents, x, dest) then c' == c
         else if d != dest && !Unmarked(c.parents, c'.marks, x) then ForgotIn(c, c', x, busy)
         else DirRenamed(c, c', x, d, leaf, dest, newLeaf, busy)
  }

  /** What a step with file f does, wherever that is now. */
  ghost predicate DoesWith(op: Op, f: File, c: Cache, c': Cache) {
    && f in c.home && c.home[f].dir in c.all && c.home[f].dir in c.marks
    && match op
       case FileAdded(_) => c' == Listing(c, c.home[f].dir, c.home[f].leaf, FileNode(f))
       case FileRemoved(_) => c' == Unlisting(c, c.home[f].dir, c.home[f].leaf)
       case _ => c' == c
  }

  /** A changed file has unfinished work afterwards just if it has no object, a writer, or is in the on-disk cache. */
  ghost function BusyWith(busy: set<File>, f: File, o: Option<Path>, writers: nat, inCache: bool): set<File> {
    if o.None? || writers != 0 || inCache then busy + {f} else busy - {f}
  }

  ghost predicate BusyAfter(op: Op, held: seq<Node>, busy: set<File>, busy': set<File>) {
    op.FileChanged? && HeldFile(held, op.handle).Some? ==>
      busy' == BusyWith(busy, HeldFile(held, op.handle).value, op.o, op.writers, op.inCache)
  }

  /** What a step does. */
  ghost predicate StepDoes(op: Op, root: Dir, held: seq<Node>, busy: set<File>, c: Cache, held': seq<Node>, c': Cache) {
    if WithFile(op) then
      held' == held && match HeldFile(held, op.handle) case None => c' == c case Some(f) => DoesWith(op, f, c, c')
    else
      match DirAt(c.all, root, held, op.at)
      case None => held' == held && c' == c
      case Some(d) => DoesAt(op, d, root, held, busy, c, held', c')
  }
}
