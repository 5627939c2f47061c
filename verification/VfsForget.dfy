/**
 * ForgetAll: dropping the cached entries of a directory tree, except where
 * virtual entries are still needed.
 */
module VfsForget {
  import opened Wrappers
  import opened VfsChains
  import opened VfsDir
  import opened VfsTree

  /** The directories' entries, marks and counts as values, and which of them have been read. */
  datatype Shot = Shot(all: map<Dir, map<string, Node>>, marks: map<Dir, map<string, VState>>, counts: map<Dir, int>, read: set<Dir>)

  /** A virtual entry of directory `at` under `name`. */
  datatype Pin = Pin(at: Dir, name: string)

  ghost function Marks(S: set<Dir>): (m: map<Dir, map<string, VState>>)
    reads S`virtual
    ensures m.Keys == S
  {
    map d | d in S :: d.virtual
  }

  ghost function HaveRead(S: set<Dir>): set<Dir>
    reads S`hasRead
  {
    set d | d in S && d.hasRead
  }

  ghost function MarkNames(marks: map<Dir, map<string, VState>>): map<Dir, set<string>> {
    map d | d in marks :: marks[d].Keys
  }

  /** The files with unfinished work. */
  ghost function Busy(F: set<File>): set<File>
    reads F
  {
    set f | f in F && (f.WritingInProgress() || f.inCache)
  }

  /** The values describe the directories in S and the files in F as they are. */
  ghost predicate Now(S: set<Dir>, F: set<File>, parents: map<Dir, Option<Dir>>, busy: set<File>, s: Shot)
    reads S`parent, S`items, S`virtual, S`virtuals, S`hasRead, F
  {
    parents == Parents(S) && busy == Busy(F) && s == Shot(Items(S), Marks(S), Counts(S), HaveRead(S))
  }

  /** Each directory's files are known. */
  ghost predicate Filed(F: set<File>, all: map<Dir, map<string, Node>>) {
    forall d {:trigger d in all} :: d in all ==> Known(F, all[d])
  }

  /** Cached directories hang where they are listed and every count is exact. */
  ghost predicate Whole(parents: map<Dir, Option<Dir>>, s: Shot) {
    && s.all.Keys == s.marks.Keys == s.counts.Keys == parents.Keys
    && Hangs(parents, s.all)
    && Exact<Dir>(parents, MarkNames(s.marks), s.counts)
  }

  /** A purge leaves this virtual entry of d: unfinished work, or an empty directory the remote cannot store. */
  ghost predicate Lasting(d: Dir, items: map<string, Node>, busy: set<File>, name: string, state: VState) {
    match state
    case AddDir => !d.canHaveEmptyDirectories
    case AddFile => name in items && items[name].FileNode? && items[name].file in busy
    case Del => false
  }

  ghost predicate PinHolds(p: Pin, s: Shot, busy: set<File>) {
    && p.at in s.all && p.at in s.marks && p.name in s.marks[p.at]
    && Lasting(p.at, s.all[p.at], busy, p.name, s.marks[p.at][p.name])
  }

  ghost predicate Pinned(pins: set<Pin>, s: Shot, busy: set<File>) {
    forall p {:trigger PinHolds(p, s, busy)} :: p in pins ==> PinHolds(p, s, busy)
  }

  ghost predicate Good(parents: map<Dir, Option<Dir>>, F: set<File>, busy: set<File>, pins: set<Pin>, s: Shot) {
    Whole(parents, s) && Filed(F, s.all) && Pinned(pins, s, busy)
  }

  /** From every pinned entry up to the root the items are the same. */
  ghost predicate Held(pins: set<Pin>, parents: map<Dir, Option<Dir>>, s: Shot, s': Shot) {
    forall p, a {:trigger p in pins, a in Up<Dir>(parents, p.at)} ::
      p in pins && a in Up<Dir>(parents, p.at) ==> a in s.all && a in s'.all && s'.all[a] == s.all[a]
  }

  /** Entries and marks differ at most inside d. */
  ghost predicate SameOutside(parents: map<Dir, Option<Dir>>, d: Dir, s: Shot, s': Shot) {
    forall x {:trigger Inside(parents, d, x)} :: x in parents && !Inside(parents, d, x) ==>
      x in s.all && x in s'.all && s.all[x] == s'.all[x] && x in s.marks && x in s'.marks && s.marks[x] == s'.marks[x]
  }

  /** Nothing at x is left to forget: its marks are unfinished work, and without any below it has no items. */
  ghost predicate SweptAt(s: Shot, busy: set<File>, x: Dir) {
    && x in s.all && x in s.marks && x in s.counts
    && (s.counts[x] == 0 ==> s.all[x] == map[])
    && forall n :: n in s.marks[x] ==> Lasting(x, s.all[x], busy, n, s.marks[x][n])
  }

  /** Nothing is left to forget at d and in everything cached below it. */
  ghost predicate Swept(s: Shot, busy: set<File>, d: Dir) {
    forall ks {:trigger Walk(s.all, d, ks)} :: Walk(s.all, d, ks).Some? ==> SweptAt(s, busy, Walk(s.all, d, ks).value)
  }

  ghost predicate SweptAll(s: Shot, busy: set<File>, nodes: map<string, Node>, todo: set<string>) {
    forall n {:trigger n in nodes} :: n in nodes && n !in todo && nodes[n].DirNode? ==> Swept(s, busy, nodes[n].dir)
  }

  ghost predicate Fewer(m': map<string, VState>, m: map<string, VState>) {
    forall n :: n in m' ==> n in m && m'[n] == m[n]
  }

  /** Items go all at once or not at all, and then the directory counts as not read; no mark is new. */
  ghost predicate Trimmed(s: Shot, s': Shot) {
    && s'.read <= s.read
    && (forall x {:trigger x in s'.all} :: x in s'.all ==>
          x in s.all && (s'.all[x] == s.all[x] || (s'.all[x] == map[] && x !in s'.read)))
    && (forall x {:trigger x in s'.marks} :: x in s'.marks ==> x in s.marks && Fewer(s'.marks[x], s.marks[x]))
  }

  /** What forgetting inside d may do. */
  ghost predicate Forgot(parents: map<Dir, Option<Dir>>, d: Dir, pins: set<Pin>, s: Shot, s': Shot) {
    Held(pins, parents, s, s') && SameOutside(parents, d, s, s') && Trimmed(s, s')
  }

  // ---------- steps on the values ----------

  lemma {:induction false} ForgotNothing(parents: map<Dir, Option<Dir>>, F: set<File>, busy: set<File>, d: Dir, pins: set<Pin>, s: Shot)
    requires Good(parents, F, busy, pins, s)
    ensures Forgot(parents, d, pins, s, s)
  {
    forall p | p in pins
      ensures Up<Dir>(parents, p.at) <= s.all.Keys
    {
      UpInside<Dir>(parents, p.at);
    }
  }

  /** A change inside a child of d is a change inside d, and not of d itself. */
  lemma {:induction false} ForgotInChild(parents: map<Dir, Option<Dir>>, d: Dir, c: Dir, pins: set<Pin>, s0: Shot, s1: Shot, s2: Shot)
    requires Forest<Dir>(parents) && d in parents && HangsUnder(parents, c, d)
    requires Forgot(parents, d, pins, s0, s1) && Forgot(parents, c, pins, s1, s2)
    ensures Forgot(parents, d, pins, s0, s2) && d in s1.all && d in s2.all && s2.all[d] == s1.all[d]
  {
    forall x | x in parents && Inside(parents, c, x)
      ensures Inside(parents, d, x) && x != d
    {
      InsideChild(parents, d, c, x);
    }
  }

  /** A change that stays out of c leaves c swept. */
  lemma {:induction false} SweptSame(parents: map<Dir, Option<Dir>>, s: Shot, s': Shot, busy: set<File>, c: Dir)
    requires Whole(parents, s) && Whole(parents, s') && c in parents
    requires SameInside(parents, c, s.all, s'.all) && SameInside(parents, c, s.marks, s'.marks)
    requires Swept(s, busy, c)
    ensures Swept(s', busy, c)
  {
    var virt, virt' := MarkNames(s.marks), MarkNames(s'.marks);
    assert SameInside(parents, c, virt, virt');
    CountSame(parents, virt, s.counts, virt', s'.counts, c);
    forall ks | Walk(s'.all, c, ks).Some?
      ensures SweptAt(s', busy, Walk(s'.all, c, ks).value)
    {
      WalkSame(parents, s.all, s'.all, c, ks);
      WalkInside(parents, s.all, c, ks);
      assert Inside(parents, c, Walk(s.all, c, ks).value);
    }
  }

  /** One more child has been swept and the others still are. */
  lemma {:induction false} SweptMore(parents: map<Dir, Option<Dir>>, s: Shot, s': Shot, busy: set<File>, d: Dir,
                                     nodes: map<string, Node>, todo: set<string>, leaf: string)
    requires Whole(parents, s) && Whole(parents, s')
    requires forall n {:trigger nodes[n]} :: n in nodes && nodes[n].DirNode? ==> HangsUnder(parents, nodes[n].dir, d)
    requires leaf in nodes && nodes[leaf].DirNode? && SameOutside(parents, nodes[leaf].dir, s, s')
    requires SweptAll(s, busy, nodes, todo) && Swept(s', busy, nodes[leaf].dir)
    ensures SweptAll(s', busy, nodes, todo - {leaf})
  {
    var c := nodes[leaf].dir;
    forall n | n in nodes && n !in todo && nodes[n].DirNode? && nodes[n].dir != c
      ensures Swept(s', busy, nodes[n].dir)
    {
      var e := nodes[n].dir;
      forall x | Inside(parents, e, x)
        ensures !Inside(parents, c, x)
      {
        InsideApart(parents, d, e, c, x);
      }
      SweptSame(parents, s, s', busy, e);
    }
  }

  /** Entries and marks of d are replaced, all others stay. */
  ghost predicate Replaced(d: Dir, s: Shot, items: map<string, Node>, marks: map<string, VState>, s': Shot) {
    s'.all == s.all[d := items] && s'.marks == s.marks[d := marks]
  }

  /** With its children swept and then itself, the tree of d is swept. */
  lemma {:induction false} SweptWhole(parents: map<Dir, Option<Dir>>, s: Shot, s': Shot, busy: set<File>, d: Dir,
                                      items: map<string, Node>, marks: map<string, VState>)
    requires Whole(parents, s) && Whole(parents, s') && d in parents
    requires SweptAll(s, busy, s.all[d], {}) && SweptAt(s', busy, d)
    requires Replaced(d, s, items, marks, s') && (items == s.all[d] || items == map[])
    ensures Swept(s', busy, d)
  {
    assert HangsAt(parents, s.all, d);
    forall ks | Walk(s'.all, d, ks).Some?
      ensures SweptAt(s', busy, Walk(s'.all, d, ks).value)
    {
      if ks != [] {
        var c := s.all[d][ks[0]].dir;
        forall x | Inside(parents, c, x)
          ensures x != d
        {
          InsideChild(parents, d, c, x);
        }
        SweptSame(parents, s, s', busy, c);
        assert Walk(s'.all, d, ks) == Walk(s'.all, c, ks[1..]);
      }
    }
  }

  /** What a purge of d leaves of its marks. */
  ghost function Remaining(d: Dir, items: map<string, Node>, busy: set<File>, marks: map<string, VState>): map<string, VState> {
    map n | n in marks && Lasting(d, items, busy, n, marks[n]) :: marks[n]
  }

  lemma {:induction false} GoodAfterPurge(parents: map<Dir, Option<Dir>>, F: set<File>, busy: set<File>, pins: set<Pin>,
                                          s: Shot, d: Dir, s': Shot)
    requires Good(parents, F, busy, pins, s) && d in parents && Whole(parents, s')
    requires Replaced(d, s, s.all[d], Remaining(d, s.all[d], busy, s.marks[d]), s')
    ensures Good(parents, F, busy, pins, s') && s'.all == s.all
  {
    assert s'.all == s.all;
    forall p | p in pins
      ensures PinHolds(p, s', busy)
    {
      assert PinHolds(p, s, busy);
    }
  }

  /** With nothing virtual at or below d, its items can go. */
  lemma {:induction false} GoodAfterClear(parents: map<Dir, Option<Dir>>, F: set<File>, busy: set<File>, pins: set<Pin>,
                                          s: Shot, d: Dir, s': Shot)
    requires Good(parents, F, busy, pins, s) && d in parents && s.counts[d] == 0
    requires s' == s.(all := s.all[d := map[]], read := s.read - {d})
    ensures Good(parents, F, busy, pins, s') && s.marks[d] == map[]
    ensures Held(pins, parents, s, s')
  {
    var virt := MarkNames(s.marks);
    UpUnfold<Dir>(parents, d);
    ZeroCount<Dir>(parents, virt, s.counts, d);
    assert virt[d] == {};
    forall p | p in pins
      ensures p.at != d && PinHolds(p, s', busy) && d !in Up<Dir>(parents, p.at) && Up<Dir>(parents, p.at) <= parents.Keys
    {
      assert PinHolds(p, s, busy);
      assert p.name in virt[p.at];
      UpInside<Dir>(parents, p.at);
    }
    HangsAfterPut(parents, s.all, d, map[]);
  }

  lemma {:induction false} TrimmedThen(start: Shot, s: Shot, d: Dir, items: map<string, Node>, marks: map<string, VState>, s': Shot)
    requires Trimmed(start, s) && Replaced(d, s, items, marks, s') && d in s.all && d in s.marks
    requires s'.read <= s.read && (items == s.all[d] || (items == map[] && d !in s'.read)) && Fewer(marks, s.marks[d])
    ensures Trimmed(start, s')
  {
  }

  lemma {:induction false} FinishSweeps(parents: map<Dir, Option<Dir>>, F: set<File>, busy: set<File>, pins: set<Pin>,
                                        start: Shot, s: Shot, d: Dir, s': Shot, items: map<string, Node>)
    requires Good(parents, F, busy, pins, s) && Good(parents, F, busy, pins, s') && d in parents
    requires Forgot(parents, d, pins, start, s) && SweptAll(s, busy, s.all[d], {})
    requires Replaced(d, s, items, Remaining(d, s.all[d], busy, s.marks[d]), s') && Held(pins, parents, s, s')
    requires items == if s'.counts[d] != 0 then s.all[d] else map[]
    requires s'.read == if s'.counts[d] != 0 then s.read else s.read - {d}
    requires items == map[] ==> Remaining(d, s.all[d], busy, s.marks[d]) == map[] || items == s.all[d]
    ensures Forgot(parents, d, pins, start, s') && Swept(s', busy, d)
  {
    UpUnfold<Dir>(parents, d);
    assert Inside(parents, d, d);
    TrimmedThen(start, s, d, items, Remaining(d, s.all[d], busy, s.marks[d]), s');
    SweptWhole(parents, s, s', busy, d, items, Remaining(d, s.all[d], busy, s.marks[d]));
  }

  // ---------- the code ----------

  lemma {:induction false} WholeIsCounted(S: set<Dir>, F: set<File>, parents: map<Dir, Option<Dir>>, busy: set<File>, s: Shot)
    requires Now(S, F, parents, busy, s)
    ensures Exact<Dir>(parents, MarkNames(s.marks), s.counts) <==> Counted(S)
  {
    assert MarkNames(s.marks) == Virtuals(S);
  }

  method PurgeMarks(d: Dir, ghost S: set<Dir>, ghost F: set<File>)
    requires d in S && Counted(S) && Known(F, d.items)
    modifies S`virtuals, d`virtual
    ensures Counted(S)
    ensures Marks(S) == old(Marks(S))[d := Remaining(d, d.items, Busy(F), old(d.virtual))]
  {
    d.PurgeVirtual(S, F);
    assert d.virtual == Remaining(d, d.items, Busy(F), old(d.virtual));
  }

  method PurgeShot(d: Dir, ghost S: set<Dir>, ghost F: set<File>, ghost parents: map<Dir, Option<Dir>>, ghost busy: set<File>,
                   ghost s: Shot) returns (ghost s': Shot)
    requires d in S && Now(S, F, parents, busy, s) && Counted(S) && Known(F, s.all[d])
    modifies S`virtuals, d`virtual
    ensures Now(S, F, parents, busy, s') && Counted(S)
    ensures s' == Shot(s.all, s.marks[d := Remaining(d, s.all[d], busy, s.marks[d])], s'.counts, s.read)
  {
    PurgeMarks(d, S, F);
    s' := Shot(s.all, s.marks[d := Remaining(d, s.all[d], busy, s.marks[d])], Counts(S), s.read);
  }

  method Purge(d: Dir, ghost S: set<Dir>, ghost F: set<File>, ghost parents: map<Dir, Option<Dir>>, ghost busy: set<File>,
               ghost s: Shot) returns (ghost s': Shot)
    requires d in S && Now(S, F, parents, busy, s) && Whole(parents, s) && Filed(F, s.all)
    modifies S`virtuals, d`virtual
    ensures Now(S, F, parents, busy, s') && Whole(parents, s')
    ensures Replaced(d, s, s.all[d], Remaining(d, s.all[d], busy, s.marks[d]), s') && s'.read == s.read
  {
    WholeIsCounted(S, F, parents, busy, s);
    s' := PurgeShot(d, S, F, parents, busy, s);
    WholeIsCounted(S, F, parents, busy, s');
  }

  method Clear(d: Dir, ghost S: set<Dir>, ghost F: set<File>, ghost parents: map<Dir, Option<Dir>>, ghost busy: set<File>,
               ghost s: Shot) returns (ghost s': Shot)
    requires d in S && Now(S, F, parents, busy, s)
    modifies d`items, d`hasRead
    ensures Now(S, F, parents, busy, s') && s' == s.(all := s.all[d := map[]], read := s.read - {d})
  {
    DropItems(d, S);
    s' := s.(all := s.all[d := map[]], read := s.read - {d});
  }

  method DropItems(d: Dir, ghost S: set<Dir>)
    requires d in S
    modifies d`items, d`hasRead
    ensures Items(S) == old(Items(S))[d := map[]] && HaveRead(S) == old(HaveRead(S)) - {d}
  {
    d.hasRead := false;
    d.items := map[];
  }

  /** The second half of ForgetAll: purge, then drop the items unless something virtual remains. */
  method Finish(d: Dir, ghost S: set<Dir>, ghost F: set<File>, ghost parents: map<Dir, Option<Dir>>, ghost busy: set<File>,
                ghost pins: set<Pin>, ghost start: Shot, ghost s: Shot) returns (hasVirtual: bool, ghost s': Shot)
    requires d in S && Now(S, F, parents, busy, s) && Good(parents, F, busy, pins, s)
    requires Forgot(parents, d, pins, start, s) && SweptAll(s, busy, s.all[d], {})
    modifies S`virtuals, d`virtual, d`items, d`hasRead
    ensures Now(S, F, parents, busy, s') && Good(parents, F, busy, pins, s')
    ensures Forgot(parents, d, pins, start, s') && Swept(s', busy, d)
    ensures hasVirtual == (d.virtuals != 0)
  {
    ForgotNothing(parents, F, busy, d, pins, s);
    s' := Purge(d, S, F, parents, busy, s);
    GoodAfterPurge(parents, F, busy, pins, s, d, s');
    hasVirtual := d.HasVirtual();
    ghost var items := s.all[d];
    if !hasVirtual {
      ghost var mid := s';
      s' := Clear(d, S, F, parents, busy, mid);
      GoodAfterClear(parents, F, busy, pins, mid, d, s');
      items := map[];
    }
    FinishSweeps(parents, F, busy, pins, start, s, d, s', items);
  }

  /** The first half: every cached child directory forgets. */
  method ForgetChildren(d: Dir, ghost S: set<Dir>, ghost F: set<File>, ghost parents: map<Dir, Option<Dir>>, ghost busy: set<File>,
                        ghost pins: set<Pin>, ghost s: Shot) returns (ghost s': Shot)
    requires d in S && Now(S, F, parents, busy, s) && Good(parents, F, busy, pins, s)
    modifies S`items, S`virtual, S`hasRead, S`virtuals
    ensures Now(S, F, parents, busy, s') && Good(parents, F, busy, pins, s')
    ensures Forgot(parents, d, pins, s, s') && SweptAll(s', busy, s'.all[d], {})
    decreases parents.Keys - Up<Dir>(parents, d), 1
  {
    var nodes := d.items;
    var todo := nodes.Keys;
    s' := s;
    ForgotNothing(parents, F, busy, d, pins, s);
    assert HangsAt(parents, s.all, d);
    while todo != {}
      invariant Now(S, F, parents, busy, s') && Good(parents, F, busy, pins, s')
      invariant todo <= nodes.Keys && s'.all[d] == nodes
      invariant Forgot(parents, d, pins, s, s') && SweptAll(s', busy, nodes, todo)
      decreases todo
    {
      var leaf :| leaf in todo;
      ghost var mid := s';
      if nodes[leaf].DirNode? {
        var c := nodes[leaf].dir;
        ChildIsSmaller(parents, d, c);
        var childHasVirtual;
        childHasVirtual, s' := ForgetAll(c, S, F, parents, busy, pins, mid);
        ForgotInChild(parents, d, c, pins, s, mid, s');
        SweptMore(parents, mid, s', busy, d, nodes, todo, leaf);
      }
      todo := todo - {leaf};
    }
  }

  /**
   * Directories outside the tree keep their entries.  Whatever was pinned is
   * still pinned, and all the way up from it the items are what they were;
   * everything else that is still cached below has been forgotten.
   */
  method ForgetAll(d: Dir, ghost S: set<Dir>, ghost F: set<File>, ghost parents: map<Dir, Option<Dir>>, ghost busy: set<File>,
                   ghost pins: set<Pin>, ghost s: Shot) returns (hasVirtual: bool, ghost s': Shot)
    requires d in S && Now(S, F, parents, busy, s) && Good(parents, F, busy, pins, s)
    modifies S`items, S`virtual, S`hasRead, S`virtuals
    ensures Now(S, F, parents, busy, s') && Good(parents, F, busy, pins, s')
    ensures Forgot(parents, d, pins, s, s') && Swept(s', busy, d)
    ensures hasVirtual == (d.virtuals != 0)
    decreases parents.Keys - Up<Dir>(parents, d), 2
  {
    ghost var mid := ForgetChildren(d, S, F, parents, busy, pins, s);
    hasVirtual, s' := Finish(d, S, F, parents, busy, pins, s, mid);
  }

  /** A file still being written stays where it is, and is still reached by the same names. */
  lemma {:induction false} UnfinishedFileStays(parents: map<Dir, Option<Dir>>, F: set<File>, busy: set<File>, d: Dir, pins: set<Pin>,
                                               s: Shot, s': Shot, p: Pin, ks: seq<string>)
    requires Good(parents, F, busy, pins, s) && Good(parents, F, busy, pins, s') && Forgot(parents, d, pins, s, s')
    requires p in pins && p.at in parents && p.name in s.marks[p.at] && s.marks[p.at][p.name] == AddFile
    requires d in parents && Walk(s.all, d, ks) == Some(p.at)
    ensures p.name in s.all[p.at] && p.name in s'.all[p.at] && s'.all[p.at][p.name] == s.all[p.at][p.name]
    ensures s.all[p.at][p.name].FileNode? && s.all[p.at][p.name].file in busy
    ensures Walk(s'.all, d, ks) == Some(p.at)
  {
    assert PinHolds(p, s, busy);
    UpUnfold<Dir>(parents, p.at);
    WalkToPinStays(parents, F, busy, d, d, pins, s, s', p, ks);
  }

  lemma {:induction false} WalkToPinStays(parents: map<Dir, Option<Dir>>, F: set<File>, busy: set<File>, top: Dir, d: Dir, pins: set<Pin>,
                                          s: Shot, s': Shot, p: Pin, ks: seq<string>)
    requires Good(parents, F, busy, pins, s) && Forgot(parents, top, pins, s, s') && p in pins
    requires d in parents && Walk(s.all, d, ks) == Some(p.at)
    ensures Walk(s'.all, d, ks) == Some(p.at)
    decreases |ks|
  {
    WalkInside(parents, s.all, d, ks);
    if ks != [] {
      assert HangsAt(parents, s.all, d);
      WalkToPinStays(parents, F, busy, top, s.all[d][ks[0]].dir, pins, s, s', p, ks[1..]);
    }
  }
}
