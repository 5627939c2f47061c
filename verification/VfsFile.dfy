/**
 * Renaming a file while it is being written, with the on-disk cache off: the
 * move of the remote object waits until the last writer has gone, and waiting
 * moves chain.
 */
module VfsFile {
  import opened Wrappers
  import opened VfsDir

  /** An open write handle; it stores its data under the path the file had when it was opened. */
  datatype Handle = Handle(id: nat, remote: Path)

  /** pendingRenameFun: a call that first runs the call it replaced. */
  datatype Calls = NoCall | Call(before: Calls, target: Path)

  /** A file, whether its directory lists it, and the remote as far as it concerns the file. */
  datatype State = State(dPath: Path, leaf: string, o: Option<Path>, writers: seq<Handle>, pending: Calls, store: map<Path, Bytes>, listed: bool)

  function PathOf(s: State): Path {
    s.dPath + [s.leaf]
  }

  /** _writingInProgress. */
  predicate Writing(s: State) {
    s.o.None? || s.writers != []
  }

  /** Moving an object takes its data along and replaces what was there. */
  function MoveData(store: map<Path, Bytes>, from: Path, to: Path): map<Path, Bytes> {
    if from in store then (store - {from})[to := store[from]] else store
  }

  /** Running a chain of calls; the remote refuses to move objects to the refused paths. */
  function Ran(s: State, c: Calls, refused: set<Path>): (State, bool) {
    match c
    case NoCall => (s, true)
    case Call(before, target) =>
      var (s1, ok) := Ran(s, before, refused);
      if !ok then (s1, false)
      else if s1.o.None? then (s1.(pending := NoCall), true)
      else if s1.o.value == target then (s1, true)
      else if target in refused then (s1, false)
      else (s1.(o := Some(target), pending := NoCall, store := MoveData(s1.store, s1.o.value, target)), true)
  }

  function Applied(s: State, refused: set<Path>): State {
    if s.pending.NoCall? || Writing(s) then s else Ran(s, s.pending, refused).0
  }

  /** rename: the file has its new path at once, the object follows now or later. */
  function Renamed(s: State, dPath: Path, leaf: string, refused: set<Path>): (State, bool) {
    var s1 := s.(dPath := dPath, leaf := leaf);
    var call := Call(s.pending, dPath + [leaf]);
    if Writing(s1) then (s1.(pending := call), true) else Ran(s1, call, refused)
  }

  function Opened(s: State, id: nat): State {
    s.(writers := s.writers + [Handle(id, PathOf(s))])
  }

  /** The list without the first occurrence of h. */
  function Less(hs: seq<Handle>, h: Handle): seq<Handle> {
    if hs == [] then [] else if hs[0] == h then hs[1..] else [hs[0]] + Less(hs[1..], h)
  }

  /** setObject: an upload that worked becomes the object, and the directory lists the file. */
  function WithUpload(s: State, h: Handle, uploaded: Option<Bytes>): State {
    if uploaded.Some? then s.(o := Some(h.remote), store := s.store[h.remote := uploaded.value], listed := true) else s
  }

  /** Closing a handle: its upload, if it worked, becomes the object; then the handle goes and a pending rename may run. */
  function Closed(s: State, h: Handle, uploaded: Option<Bytes>, refused: set<Path>): State {
    Applied(WithUpload(s, h, uploaded).(writers := Less(s.writers, h)), refused)
  }

  // ---------- what every step keeps ----------

  /** Every call of the chain leads to p. */
  predicate AllTo(c: Calls, p: Path) {
    c.NoCall? || (c.target == p && AllTo(c.before, p))
  }

  /**
   * Without waiting calls the object and all uploads are at the file's path; a
   * chain ends there; and without writers the object is there and any chain
   * left over does nothing.
   */
  ghost predicate Inv(s: State) {
    && (s.pending.NoCall? ==> (s.o.Some? ==> s.o.value == PathOf(s)) && forall h :: h in s.writers ==> h.remote == PathOf(s))
    && (s.pending.Call? ==> s.pending.target == PathOf(s))
    && (!Writing(s) ==> s.o == Some(PathOf(s)) && AllTo(s.pending, PathOf(s)))
  }

  /** The object holds this data. */
  ghost predicate Holds(s: State, data: Bytes) {
    s.o.Some? ==> s.o.value in s.store && s.store[s.o.value] == data
  }

  /** A chain whose moves all succeed ends with the object at its last target; left over, it would do nothing. */
  lemma {:induction false} RanArrives(s: State, c: Calls)
    requires s.o.Some? && c.Call?
    ensures Ran(s, c, {}).1 && Ran(s, c, {}).0.o == Some(c.target)
    ensures Ran(s, c, {}).0 == s.(o := Some(c.target), pending := Ran(s, c, {}).0.pending, store := Ran(s, c, {}).0.store)
    ensures Ran(s, c, {}).0.pending == NoCall || (Ran(s, c, {}).0.pending == s.pending && AllTo(c, c.target))
  {
    if c.before.Call? {
      RanArrives(s, c.before);
    }
  }

  lemma {:induction false} RanHolds(s: State, c: Calls, refused: set<Path>, data: Bytes)
    requires Holds(s, data)
    ensures Holds(Ran(s, c, refused).0, data)
  {
    if c.Call? {
      RanHolds(s, c.before, refused, data);
    }
  }

  /**
   * Moves take the object along and leave everything else alone: no data stays
   * where it was, unless that is where it ends, and only the targets of the
   * chain are written.
   */
  lemma {:induction false} RanSpares(s: State, c: Calls, refused: set<Path>, p: Path)
    requires s.o.Some? && s.o.value in s.store
    ensures var s' := Ran(s, c, refused).0;
            && s'.o.Some? && s'.o.value in s'.store && s'.store[s'.o.value] == s.store[s.o.value]
            && (s'.o.value != s.o.value ==> s.o.value !in s'.store)
            && (p != s.o.value && !Leads(c, p) ==> (p in s'.store <==> p in s.store) && (p in s.store ==> s'.store[p] == s.store[p]))
  {
    if c.Call? {
      RanSpares(s, c.before, refused, p);
    }
  }

  /** Some call of the chain leads to p. */
  predicate Leads(c: Calls, p: Path) {
    c.Call? && (c.target == p || Leads(c.before, p))
  }

  lemma {:induction false} AppliedKeeps(s: State)
    requires s.pending.NoCall? ==> (s.o.Some? ==> s.o.value == PathOf(s)) && forall h :: h in s.writers ==> h.remote == PathOf(s)
    requires s.pending.Call? ==> s.pending.target == PathOf(s)
    ensures Inv(Applied(s, {}))
  {
    if s.pending.Call? && !Writing(s) {
      RanArrives(s, s.pending);
    }
  }

  lemma {:induction false} LessIsFewer(hs: seq<Handle>, h: Handle)
    ensures forall x :: x in Less(hs, h) ==> x in hs
  {
    if hs != [] && hs[0] != h {
      LessIsFewer(hs[1..], h);
    }
  }

  lemma {:induction false} RenameKeeps(s: State, dPath: Path, leaf: string)
    requires Inv(s)
    ensures Inv(Renamed(s, dPath, leaf, {}).0) && Renamed(s, dPath, leaf, {}).1
  {
    if !Writing(s) {
      RanArrives(s.(dPath := dPath, leaf := leaf), Call(s.pending, dPath + [leaf]));
    }
  }

  lemma {:induction false} CloseKeeps(s: State, h: Handle, uploaded: Option<Bytes>)
    requires Inv(s) && h in s.writers
    ensures Inv(Closed(s, h, uploaded, {}))
  {
    LessIsFewer(s.writers, h);
    var s1 := WithUpload(s, h, uploaded);
    AppliedKeeps(s1.(writers := Less(s1.writers, h)));
  }

  lemma {:induction false} CloseHolds(s: State, h: Handle, uploaded: Option<Bytes>, refused: set<Path>, data: Bytes)
    requires Holds(s, data)
    ensures Holds(Closed(s, h, uploaded, refused), Or(uploaded, data))
  {
    var s1 := WithUpload(s, h, uploaded);
    RanHolds(s1.(writers := Less(s1.writers, h)), s1.pending, refused, Or(uploaded, data));
  }

  // ---------- whole runs ----------

  /** What happens to the file, and which moves the remote refuses then. */
  datatype Op =
    | Open(id: nat)
    | Close(index: nat, uploaded: Option<Bytes>, refused: set<Path>)  // the handle at that place in the writers, if any
    | Rename(dPath: Path, leaf: string, refused: set<Path>)

  function Next(s: State, op: Op): State {
    match op
    case Open(id) => Opened(s, id)
    case Close(k, uploaded, refused) => if k < |s.writers| then Closed(s, s.writers[k], uploaded, refused) else s
    case Rename(dPath, leaf, refused) => Renamed(s, dPath, leaf, refused).0
  }

  function After(s: State, ops: seq<Op>): State
    decreases |ops|
  {
    if ops == [] then s else After(Next(s, ops[0]), ops[1..])
  }

  /** The data of the last upload that took effect. */
  function LastData(s: State, ops: seq<Op>, data: Bytes): Bytes
    decreases |ops|
  {
    if ops == [] then data else LastData(Next(s, ops[0]), ops[1..], DataAfter(s, ops[0], data))
  }

  function DataAfter(s: State, op: Op, data: Bytes): Bytes {
    if op.Close? && op.index < |s.writers| then Or(op.uploaded, data) else data
  }

  lemma {:induction false} StepHolds(s: State, op: Op, data: Bytes)
    requires Holds(s, data)
    ensures Holds(Next(s, op), DataAfter(s, op, data))
  {
    match op {
      case Open(id) => {}
      case Close(k, uploaded, refused) =>
        if k < |s.writers| {
          CloseHolds(s, s.writers[k], uploaded, refused, data);
        }
      case Rename(dPath, leaf, refused) =>
        RanHolds(s.(dPath := dPath, leaf := leaf), Call(s.pending, dPath + [leaf]), refused, data);
    }
  }

  /** Whichever moves the remote refuses and when, the object always holds the data last uploaded. */
  lemma {:induction false} DataSurvivesRefusals(s: State, ops: seq<Op>, data: Bytes)
    requires Holds(s, data)
    ensures Holds(After(s, ops), LastData(s, ops, data))
    decreases |ops|
  {
    if ops != [] {
      StepHolds(s, ops[0], data);
      DataSurvivesRefusals(Next(s, ops[0]), ops[1..], DataAfter(s, ops[0], data));
    }
  }

  predicate NothingRefused(ops: seq<Op>) {
    forall k :: 0 <= k < |ops| ==> (ops[k].Close? || ops[k].Rename?) ==> ops[k].refused == {}
  }

  lemma {:induction false} RunKeeps(s: State, ops: seq<Op>)
    requires Inv(s) && NothingRefused(ops)
    ensures Inv(After(s, ops))
    decreases |ops|
  {
    if ops != [] {
      match ops[0] {
        case Open(id) => {}
        case Close(k, uploaded, refused) =>
          if k < |s.writers| {
            CloseKeeps(s, s.writers[k], uploaded);
          }
        case Rename(dPath, leaf, refused) =>
          RenameKeeps(s, dPath, leaf);
      }
      RunKeeps(Next(s, ops[0]), ops[1..]);
    }
  }

  /**
   * However opens, renames and closes interleave: once the file has an object
   * and no writers, the object is at the file's path and holds the data last
   * uploaded; and a waiting chain always ends at that path.
   */
  lemma {:induction false} ObjectFollowsFile(s: State, ops: seq<Op>, data: Bytes)
    requires Inv(s) && Holds(s, data) && NothingRefused(ops)
    ensures Inv(After(s, ops)) && Holds(After(s, ops), LastData(s, ops, data))
    ensures !Writing(After(s, ops)) ==>
              var s' := After(s, ops);
              PathOf(s') in s'.store && s'.store[PathOf(s')] == LastData(s, ops, data)
  {
    RunKeeps(s, ops);
    DataSurvivesRefusals(s, ops, data);
  }

  /** The last rename decides the path, whatever else happens. */
  lemma {:induction false} PathIsLastRename(s: State, ops: seq<Op>, k: nat)
    requires k < |ops| && ops[k].Rename? && forall j :: k < j < |ops| ==> !ops[j].Rename?
    ensures PathOf(After(s, ops)) == ops[k].dPath + [ops[k].leaf]
    decreases |ops|
  {
    if k == 0 {
      PathStays(Next(s, ops[0]), ops[1..]);
      RanPath(s.(dPath := ops[0].dPath, leaf := ops[0].leaf), Call(s.pending, ops[0].dPath + [ops[0].leaf]), ops[0].refused);
    } else {
      PathIsLastRename(Next(s, ops[0]), ops[1..], k - 1);
    }
  }

  lemma {:induction false} RanPath(s: State, c: Calls, refused: set<Path>)
    ensures PathOf(Ran(s, c, refused).0) == PathOf(s) && Ran(s, c, refused).0.writers == s.writers
  {
    if c.Call? {
      RanPath(s, c.before, refused);
    }
  }

  lemma {:induction false} PathStays(s: State, ops: seq<Op>)
    requires forall j :: 0 <= j < |ops| ==> !ops[j].Rename?
    ensures PathOf(After(s, ops)) == PathOf(s)
    decreases |ops|
  {
    if ops != [] {
      var op := ops[0];
      if op.Close? && op.index < |s.writers| {
        var h := s.writers[op.index];
        var s1 := WithUpload(s, h, op.uploaded);
        RanPath(s1.(writers := Less(s1.writers, h)), s1.pending, op.refused);
      }
      PathStays(Next(s, op), ops[1..]);
    }
  }

  // ---------- refused moves ----------

  lemma {:induction false} LeftoverDoesNothing(s: State, c: Calls, refused: set<Path>)
    requires s.o.Some? && AllTo(c, s.o.value)
    ensures Ran(s, c, refused) == (s, true)
  {
    if c.Call? {
      LeftoverDoesNothing(s, c.before, refused);
    }
  }

  /**
   * An immediate rename reports success, and puts the object at the new path,
   * if and only if the object is there already or the remote takes the move.
   */
  lemma {:induction false} ImmediateRenameWorksWhen(s: State, dPath: Path, leaf: string, refused: set<Path>)
    requires Inv(s) && !Writing(s)
    ensures var (s', ok) := Renamed(s, dPath, leaf, refused);
            && PathOf(s') == dPath + [leaf]
            && (ok <==> s.o == Some(dPath + [leaf]) || dPath + [leaf] !in refused)
            && (Inv(s') <==> ok) && (s'.o == Some(PathOf(s')) <==> ok)
  {
    LeftoverDoesNothing(s.(dPath := dPath, leaf := leaf), s.pending, refused);
    if s.o == Some(dPath + [leaf]) || dPath + [leaf] !in refused {
      RanPath(s.(dPath := dPath, leaf := leaf), Call(s.pending, dPath + [leaf]), refused);
    }
  }

  /** A refused move leaves the file under its new path and the object under the old one. */
  lemma {:induction false} RefusedMoveSplits()
    ensures exists s: State, refused: set<Path> ::
      Inv(s) && !Writing(s) && !Renamed(s, [], "b", refused).1
      && PathOf(Renamed(s, [], "b", refused).0) == ["b"] && Renamed(s, [], "b", refused).0.o == Some(["a"])
  {
    var s := State([], "a", Some(["a"]), [], NoCall, map[["a"] := [7]], true);
    var refused: set<Path> := {["b"]};
    assert PathOf(s) == ["a"];
    assert [] + ["b"] == ["b"];
    ImmediateRenameWorksWhen(s, [], "b", refused);
    assert Renamed(s, [], "b", refused) == (s.(leaf := "b"), false);
  }

  // ---------- refused moves of a queue ----------

  /** Where the calls of a chain lead, in the order they run. */
  function Targets(c: Calls): seq<Path> {
    if c.NoCall? then [] else Targets(c.before) + [c.target]
  }

  /** Where an object that started at `from` is after the first k calls have worked. */
  function Place(from: Path, targets: seq<Path>, k: nat): Path
    requires k <= |targets|
  {
    if k == 0 then from else targets[k - 1]
  }

  /** Call k works: the object is there already or the remote takes the move. */
  predicate Works(from: Path, targets: seq<Path>, refused: set<Path>, k: nat)
    requires k < |targets|
  {
    targets[k] == Place(from, targets, k) || targets[k] !in refused
  }

  /** The first k calls work and the next one, if any, does not. */
  predicate StopsAt(from: Path, targets: seq<Path>, refused: set<Path>, k: nat) {
    && k <= |targets| && (forall j {:trigger Works(from, targets, refused, j)} :: 0 <= j < k ==> Works(from, targets, refused, j))
    && (k < |targets| ==> !Works(from, targets, refused, k))
  }

  /** One of the first k calls has to move the object. */
  predicate Moves(from: Path, targets: seq<Path>, k: nat)
    requires k <= |targets|
  {
    exists j {:trigger targets[j]} :: 0 <= j < k && targets[j] != Place(from, targets, j)
  }

  lemma {:induction false} EarlierCalls(from: Path, targets: seq<Path>, refused: set<Path>, p: Path, j: nat)
    requires j < |targets|
    ensures (targets + [p])[j] == targets[j] && Place(from, targets + [p], j) == Place(from, targets, j)
    ensures Works(from, targets + [p], refused, j) <==> Works(from, targets, refused, j)
  {
  }

  lemma {:induction false} StopsLater(from: Path, targets: seq<Path>, refused: set<Path>, p: Path, k: nat)
    requires StopsAt(from, targets, refused, k)
    ensures k < |targets| ==> StopsAt(from, targets + [p], refused, k)
    ensures k == |targets| ==> StopsAt(from, targets + [p], refused, if Works(from, targets + [p], refused, k) then k + 1 else k)
  {
    forall j | 0 <= j < |targets|
      ensures Works(from, targets + [p], refused, j) <==> Works(from, targets, refused, j)
    {
      EarlierCalls(from, targets, refused, p, j);
    }
  }

  lemma {:induction false} MovesLater(from: Path, targets: seq<Path>, p: Path, k: nat)
    requires k <= |targets|
    ensures Moves(from, targets + [p], k) <==> Moves(from, targets, k)
    ensures k == |targets| ==> (Moves(from, targets + [p], k + 1) <==> Moves(from, targets, k) || p != Place(from, targets, k))
  {
    var more := targets + [p];
    forall j | 0 <= j < |targets|
      ensures more[j] == targets[j] && Place(from, more, j) == Place(from, targets, j)
    {
      EarlierCalls(from, targets, {}, p, j);
    }
    assert more[|targets|] == p;
  }

  /**
   * A chain runs up to the first call the remote refuses, and the object stays
   * where the calls before that have brought it.  The chain is forgotten as
   * soon as one of its calls has moved the object, whatever is refused later.
   */
  lemma {:induction false} ChainStops(s: State, c: Calls, refused: set<Path>) returns (k: nat)
    requires s.o.Some?
    ensures StopsAt(s.o.value, Targets(c), refused, k)
    ensures Ran(s, c, refused).1 <==> k == |Targets(c)|
    ensures Ran(s, c, refused).0.o == Some(Place(s.o.value, Targets(c), k))
    ensures Ran(s, c, refused).0.pending == if Moves(s.o.value, Targets(c), k) then NoCall else s.pending
  {
    if c.NoCall? {
      k := 0;
    } else {
      k := ChainStops(s, c.before, refused);
      var from, targets := s.o.value, Targets(c.before);
      StopsLater(from, targets, refused, c.target, k);
      MovesLater(from, targets, c.target, k);
      if k == |targets| && Works(from, targets + [c.target], refused, k) {
        k := k + 1;
      }
    }
  }

  lemma {:induction false} StopIsUnique(from: Path, targets: seq<Path>, refused: set<Path>, k: nat, m: nat)
    requires StopsAt(from, targets, refused, k) && StopsAt(from, targets, refused, m)
    ensures k == m
  {
  }

  /**
   * When the last writer closes, the object ends at the file's path if and only
   * if every queued target is where the object has got to or is not refused, or
   * the refused one comes when the object is at that path; else it is left at
   * the last target reached.
   */
  lemma {:induction false} QueuedRenamesArriveWhen(s: State, h: Handle, uploaded: Option<Bytes>, refused: set<Path>, k: nat)
    requires Inv(s) && s.writers == [h] && (s.o.Some? || uploaded.Some?)
    requires StopsAt(WithUpload(s, h, uploaded).o.value, Targets(s.pending), refused, k)
    ensures var s', from, targets := Closed(s, h, uploaded, refused), WithUpload(s, h, uploaded).o.value, Targets(s.pending);
            && !Writing(s') && PathOf(s') == PathOf(s) && s'.o == Some(Place(from, targets, k))
            && (k == |targets| ==> s'.o == Some(PathOf(s')))
            && (s'.o == Some(PathOf(s')) <==> k == |targets| || Place(from, targets, k) == targets[|targets| - 1])
            && s'.pending == if Moves(from, targets, k) then NoCall else s.pending
  {
    var s1 := WithUpload(s, h, uploaded).(writers := Less(s.writers, h));
    assert s1.writers == [];
    var m := ChainStops(s1, s1.pending, refused);
    StopIsUnique(s1.o.value, Targets(s1.pending), refused, k, m);
    RanPath(s1, s1.pending, refused);
  }

  /** A file written while it is renamed from a to b and then to c, which the remote refuses: the object stays at b for good. */
  lemma {:induction false} RefusedQueueStopsHalfway()
    ensures exists s: State, h: Handle ::
      var s1 := Renamed(Renamed(s, [], "b", {}).0, [], "c", {}).0;
      var s' := Closed(s1, h, Some([7]), {["c"]});
      Inv(s) && s.writers == [h] && !Writing(s') && PathOf(s') == ["c"] && s'.o == Some(["b"]) && s'.pending == NoCall
  {
    var h := Handle(0, ["a"]);
    var s := State([], "a", None, [h], NoCall, map[], true);
    assert PathOf(s) == ["a"];
    assert [] + ["b"] == ["b"] && [] + ["c"] == ["c"];
    var s1 := Renamed(Renamed(s, [], "b", {}).0, [], "c", {}).0;
    RenameKeeps(s, [], "b");
    RenameKeeps(Renamed(s, [], "b", {}).0, [], "c");
    assert s1.pending == Call(Call(NoCall, ["b"]), ["c"]);
    var refused: set<Path> := {["c"]};
    assert Targets(Call(NoCall, ["b"])) == [["b"]];
    assert Targets(s1.pending) == [["b"], ["c"]];
    assert Works(["a"], [["b"], ["c"]], refused, 0);
    QueuedRenamesArriveWhen(s1, h, Some([7]), refused, 1);
  }

  // ---------- the code ----------

  /** The part of File that renames touch. */
  class OpenFile {
    const canMove: bool  // the remote can move or copy objects
    var dPath: Path
    var leaf: string
    var o: Option<Path>
    var writers: seq<Handle>
    var nwriters: int
    var pendingRenameFun: Calls
    var store: map<Path, Bytes>
    var listed: bool     // its directory lists it

    ghost predicate Valid()
      reads this
    {
      nwriters == |writers|
    }

    function Now(): State
      reads this
    {
      State(dPath, leaf, o, writers, pendingRenameFun, store, listed)
    }

    /** A file as it is listed, or newly created when there is no object. */
    constructor (canMove: bool, dPath: Path, leaf: string, data: Option<Bytes>)
      ensures Valid() && this.canMove == canMove && Inv(Now()) && PathOf(Now()) == dPath + [leaf] && writers == []
      ensures (o.Some? <==> data.Some?) && (listed <==> data.Some?)
      ensures data.Some? ==> Holds(Now(), data.value)
    {
      this.canMove, this.dPath, this.leaf := canMove, dPath, leaf;
      writers, nwriters, pendingRenameFun := [], 0, NoCall;
      listed := data.Some?;
      if data.Some? {
        o, store := Some(dPath + [leaf]), map[dPath + [leaf] := data.value];
      } else {
        o, store := None, map[];
      }
    }

    /** The function made by rename, run with the remote refusing some moves. */
    method Run(c: Calls, refused: set<Path>) returns (ok: bool)
      modifies this`o, this`pendingRenameFun, this`store
      ensures (Now(), ok) == Ran(old(Now()), c, refused)
      decreases c
    {
      if c.NoCall? {
        return true;
      }
      if c.before.Call? {
        ok := Run(c.before, refused);
        if !ok {
          return;
        }
      }
      if o.Some? {
        if o.value == c.target {
          return true;
        }
        if c.target in refused {
          return false;
        }
        store := MoveData(store, o.value, c.target);
        o := Some(c.target);
      }
      pendingRenameFun := NoCall;
      ok := true;
    }

    /** applyPendingRename. */
    method ApplyPendingRename(refused: set<Path>)
      modifies this`o, this`pendingRenameFun, this`store
      ensures Now() == Applied(old(Now()), refused)
    {
      if pendingRenameFun == NoCall || Writing(Now()) {
        return;
      }
      var _ := Run(pendingRenameFun, refused);
    }

    /** rename. */
    method Rename(destPath: Path, newName: string, refused: set<Path>) returns (ok: bool)
      requires Valid()
      modifies this
      ensures Valid()
      ensures (Now(), ok) == if canMove then Renamed(old(Now()), destPath, newName, refused) else (old(Now()), false)
    {
      if !canMove {
        return false;
      }
      var call := Call(pendingRenameFun, destPath + [newName]);
      dPath, leaf := destPath, newName;
      if Writing(Now()) {
        pendingRenameFun := call;
        return true;
      }
      ok := Run(call, refused);
    }

    /** addWriter, as newWriteFileHandle calls it. */
    method AddWriter(id: nat) returns (h: Handle)
      requires Valid()
      modifies this
      ensures Valid() && Now() == Opened(old(Now()), id) && h == Handle(id, PathOf(old(Now())))
    {
      h := Handle(id, dPath + [leaf]);
      writers := writers + [h];
      nwriters := nwriters + 1;
    }

    /** delWriter. */
    method DelWriter(h: Handle, refused: set<Path>)
      requires Valid()
      modifies this
      ensures Valid() && Now() == Applied(old(Now()).(writers := Less(old(writers), h)), refused)
    {
      var found := 0;
      while found < |writers| && writers[found] != h
        invariant found <= |writers| && unchanged(this)
        invariant Less(writers, h) == writers[..found] + Less(writers[found..], h)
      {
        assert writers[..found + 1] == writers[..found] + [writers[found]];
        assert writers[found..][1..] == writers[found + 1..];
        found := found + 1;
      }
      if found < |writers| {
        writers := writers[..found] + writers[found + 1..];
        nwriters := nwriters - 1;
      }
      ApplyPendingRename(refused);
    }

    /** The end of a handle: setObject if the upload worked, then delWriter. */
    method CloseWriter(h: Handle, uploaded: Option<Bytes>, refused: set<Path>)
      requires Valid()
      modifies this
      ensures Valid() && Now() == Closed(old(Now()), h, uploaded, refused)
    {
      if uploaded.Some? {
        store := store[h.remote := uploaded.value];
        o := Some(h.remote);
        listed := true;
      }
      DelWriter(h, refused);
    }

    /** addObject and delObject of the directory, as the file brings them about. */
    method Enlist(now: bool)
      requires Valid()
      modifies this`listed
      ensures Valid() && Now() == old(Now()).(listed := now)
    {
      listed := now;
    }
  }
}
