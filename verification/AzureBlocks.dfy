/**
 * The chunk writer: blocks staged concurrently and out of order, uncommitted
 * blocks cleared at most once, and a commit of the blocks in order.
 */
module AzureBlocks {
  import opened Wrappers

  // ---------- block IDs ----------

  function Pow256(k: nat): nat {
    if k == 0 then 1 else 256 * Pow256(k - 1)
  }

  /** binary.BigEndian with k bytes. */
  function BigEndian(n: nat, k: nat): (b: seq<nat>)
    ensures |b| == k
  {
    if k == 0 then [] else BigEndian(n / 256, k - 1) + [n % 256]
  }

  function Number(b: seq<nat>): nat {
    if b == [] then 0 else 256 * Number(b[..|b| - 1]) + b[|b| - 1]
  }

  lemma {:induction false} NumberOfBigEndian(n: nat, k: nat)
    requires n < Pow256(k)
    ensures Number(BigEndian(n, k)) == n
  {
    if k > 0 {
      NumberOfBigEndian(n / 256, k - 1);
      assert BigEndian(n, k)[..k - 1] == BigEndian(n / 256, k - 1);
    }
  }

  /** An ID before its base64 encoding: eight bytes of number and eight random ones. */
  type Id = seq<nat>

  function NewBlockId(n: nat, random: seq<nat>): Id {
    BigEndian(n, 8) + random
  }

  predicate CheckId(n: nat, id: Id, random: seq<nat>) {
    |id| == 16 && Number(id[..8]) == n && id[8..] == random
  }

  /** An ID carries its number, so different numbers have different IDs. */
  lemma {:induction false} IdIsNumber(n: nat, random: seq<nat>, m: nat)
    requires n < Pow256(8) && |random| == 8
    ensures CheckId(m, NewBlockId(n, random), random) <==> m == n
  {
    NumberOfBigEndian(n, 8);
    var id := NewBlockId(n, random);
    assert id[..8] == BigEndian(n, 8) && id[8..] == random;
  }

  lemma {:induction false} IdsDiffer(m: nat, n: nat, random: seq<nat>)
    requires m < Pow256(8) && n < Pow256(8) && |random| == 8 && m != n
    ensures NewBlockId(m, random) != NewBlockId(n, random)
  {
    IdIsNumber(m, random, m);
    IdIsNumber(n, random, m);
  }

  // ---------- sorting the recorded blocks ----------

  datatype Block = Block(number: nat, id: Id)

  function Insert(b: Block, bs: seq<Block>): (r: seq<Block>)
    ensures |r| == |bs| + 1
  {
    if bs == [] then [b] else if b.number <= bs[0].number then [b] + bs else [bs[0]] + Insert(b, bs[1..])
  }

  /** The blocks by ascending number. */
  function Sorted(bs: seq<Block>): (r: seq<Block>)
    ensures |r| == |bs|
  {
    if bs == [] then [] else Insert(bs[0], Sorted(bs[1..]))
  }

  predicate Ascending(bs: seq<Block>) {
    forall i, j :: 0 <= i < j < |bs| ==> bs[i].number <= bs[j].number
  }

  lemma {:induction false} InsertAdds(b: Block, bs: seq<Block>)
    ensures multiset(Insert(b, bs)) == multiset(bs) + multiset{b}
    ensures forall x :: x in Insert(b, bs) <==> x == b || x in bs
  {
    if bs != [] && b.number > bs[0].number {
      InsertAdds(b, bs[1..]);
      assert bs == [bs[0]] + bs[1..];
    }
  }

  lemma {:induction false} InsertSorts(b: Block, bs: seq<Block>)
    requires Ascending(bs)
    ensures Ascending(Insert(b, bs))
  {
    if bs != [] && b.number > bs[0].number {
      var rest := Insert(b, bs[1..]);
      InsertSorts(b, bs[1..]);
      InsertAdds(b, bs[1..]);
      forall j | 0 <= j < |rest|
        ensures bs[0].number <= rest[j].number
      {
        assert rest[j] in rest;
      }
      FirstIsLeast(bs[0], rest);
    }
  }

  lemma {:induction false} FirstIsLeast(b: Block, rest: seq<Block>)
    requires Ascending(rest) && forall j :: 0 <= j < |rest| ==> b.number <= rest[j].number
    ensures Ascending([b] + rest)
  {
  }

  lemma {:induction false} SortedSorts(bs: seq<Block>)
    ensures multiset(Sorted(bs)) == multiset(bs) && Ascending(Sorted(bs))
  {
    if bs != [] {
      SortedSorts(bs[1..]);
      InsertSorts(bs[0], Sorted(bs[1..]));
      InsertAdds(bs[0], Sorted(bs[1..]));
      assert bs == [bs[0]] + bs[1..];
    }
  }

  /** The numbers are exactly 0, 1, ..., each once and in this order. */
  predicate InSequence(bs: seq<Block>) {
    forall i :: 0 <= i < |bs| ==> bs[i].number == i
  }

  /** Every number below the count is recorded. */
  ghost predicate Covers(bs: seq<Block>) {
    forall n: nat {:trigger HasNumber(bs, n)} :: n < |bs| ==> HasNumber(bs, n)
  }

  predicate HasNumber(bs: seq<Block>, n: nat) {
    exists b :: b in bs && b.number == n
  }

  lemma {:induction false} SameMembers(a: seq<Block>, b: seq<Block>)
    requires multiset(a) == multiset(b)
    ensures forall x :: x in a <==> x in b
  {
    forall x
      ensures x in a <==> x in b
    {
      assert x in multiset(a) <==> x in multiset(b);
    }
  }

  /** The sorted blocks are in sequence exactly when every number below their count is recorded. */
  lemma {:induction false} SortedInSequenceWhen(bs: seq<Block>)
    ensures InSequence(Sorted(bs)) <==> Covers(bs)
  {
    var s := Sorted(bs);
    SortedSorts(bs);
    SameMembers(s, bs);
    if InSequence(s) {
      forall n: nat | n < |bs|
        ensures HasNumber(bs, n)
      {
        assert s[n] in s && s[n] in bs;
      }
    }
    if Covers(bs) {
      assert Covers(s) by {
        forall n: nat | n < |s|
          ensures HasNumber(s, n)
        {
          assert HasNumber(bs, n);
          var b :| b in bs && b.number == n;
          assert b in s;
        }
      }
      CoveringInSequence(s);
    }
  }

  ghost function NumbersIn(bs: seq<Block>): set<nat> {
    set b | b in bs :: b.number
  }

  ghost function Below(n: nat): (r: set<nat>)
    ensures |r| == n && forall m: nat :: m in r <==> m < n
  {
    if n == 0 then {} else Below(n - 1) + {n - 1}
  }

  lemma {:induction false} AtMostAsMany(bs: seq<Block>)
    ensures |NumbersIn(bs)| <= |bs|
  {
    if bs != [] {
      AtMostAsMany(bs[1..]);
      assert bs == [bs[0]] + bs[1..];
      assert NumbersIn(bs) == NumbersIn(bs[1..]) + {bs[0].number};
    }
  }

  lemma {:induction false} SubsetIsSmaller(a: set<nat>, b: set<nat>)
    requires a <= b
    ensures |a| <= |b| && (|a| == |b| ==> a == b)
  {
    assert b == a + (b - a);
    assert |b| == |a| + |b - a|;
  }

  /** As many numbers as blocks, and every one below that count: none is missing or doubled. */
  lemma {:induction false} CoveringIsDistinct(s: seq<Block>, i: nat, j: nat)
    requires Covers(s) && i < j < |s|
    ensures s[i].number != s[j].number && s[j].number < |s|
  {
    var all := NumbersIn(s);
    AtMostAsMany(s);
    forall m | m in Below(|s|)
      ensures m in all
    {
      assert HasNumber(s, m);
    }
    SubsetIsSmaller(Below(|s|), all);
    assert s[j] in s && s[j].number in all;
    var less := s[..j] + s[j + 1..];
    AtMostAsMany(less);
    if s[i].number == s[j].number {
      forall m | m in all
        ensures m in NumbersIn(less)
      {
        var b :| b in s && b.number == m;
        var k :| 0 <= k < |s| && s[k] == b;
        assert k < j ==> less[k] == b;
        assert k > j ==> less[k - 1] == b;
        assert k == j ==> less[i] == s[i];
      }
      SubsetIsSmaller(all, NumbersIn(less));
    }
  }

  lemma {:induction false} AtLeastPlace(s: seq<Block>, i: nat)
    requires i < |s| && forall j, k :: 0 <= j < k < |s| ==> s[j].number < s[k].number
    ensures i <= s[i].number
  {
    if i > 0 {
      AtLeastPlace(s, i - 1);
    }
  }

  lemma {:induction false} AtMostPlace(s: seq<Block>, i: nat)
    requires i < |s| && (forall j, k :: 0 <= j < k < |s| ==> s[j].number < s[k].number) && s[|s| - 1].number < |s|
    ensures s[i].number <= i
    decreases |s| - i
  {
    if i < |s| - 1 {
      AtMostPlace(s, i + 1);
    }
  }

  lemma {:induction false} CoveringInSequence(s: seq<Block>)
    requires Ascending(s) && Covers(s)
    ensures InSequence(s)
  {
    forall j, k | 0 <= j < k < |s|
      ensures s[j].number < s[k].number < |s|
    {
      CoveringIsDistinct(s, j, k);
    }
    forall i | 0 <= i < |s|
      ensures s[i].number == i
    {
      if |s| == 1 {
        assert HasNumber(s, 0);
      } else {
        assert s[0].number < s[|s| - 1].number;
        AtLeastPlace(s, i);
        AtMostPlace(s, i);
      }
    }
  }

  // ---------- staging and clearing ----------

  datatype Chunk = Chunk(number: int, data: Bytes)

  /**
   * A WriteChunk call: before and after it has recorded its block, in a stage
   * request, about to check an error, checking with the lock, clearing as no
   * request is in flight any more, over.
   */
  datatype Worker = Ready | Recorded | Staging(landed: bool) | NeedsCheck | Checking | Clearing | Over(ok: bool)

  predicate HasLock(w: Worker) {
    w.Checking? || w.Clearing?
  }

  datatype State = State(
    workers: seq<Worker>,
    blocks: seq<Block>,           // recorded for the commit
    owners: seq<nat>,             // whose they are
    staged: map<Id, Bytes>,       // uncommitted blocks at the service
    startMu: Option<nat>,         // the worker that holds it while checking
    inFlight: int,
    cleared: bool,
    clears: nat)                  // how often uncommitted blocks were cleared

  /** What the service answers to a stage request, and whether the caller tries again. */
  datatype Answer = Accepted | InvalidBlock | TryAgain | GiveUp

  datatype Step =
    | Record(t: nat)
    | Begin(t: nat)
    | Land(t: nat)                     // the request takes effect at the service
    | Answered(t: nat, answer: Answer)
    | Lock(t: nat)
    | Wait(t: nat)                     // no request is in flight any more
    | Check(t: nat, clearWorked: bool, again: bool)

  predicate IsUpload(chunks: seq<Chunk>, random: seq<nat>) {
    |random| == 8 && forall t :: 0 <= t < |chunks| ==> chunks[t].number < Pow256(8)
  }

  /** The call records a block: its number is valid and it has data. */
  predicate Stores(c: Chunk) {
    c.number >= 0 && c.data != []
  }

  function IdOf(chunks: seq<Chunk>, random: seq<nat>, t: nat): Id
    requires t < |chunks|
  {
    if chunks[t].number >= 0 then NewBlockId(chunks[t].number, random) else []
  }

  function Start(n: nat): State {
    State(seq(n, i => Ready), [], [], map[], None, 0, false, 0)
  }

  /** One step of worker t; one that is not possible changes nothing. */
  function Next(chunks: seq<Chunk>, random: seq<nat>, s: State, step: Step): State {
    if step.t >= |s.workers| || step.t >= |chunks| then s
    else
      var t, w := step.t, s.workers[step.t];
      match step
      case Record(_) =>
        if !w.Ready? then s
        else if chunks[t].number < 0 then s.(workers := s.workers[t := Over(false)])
        else if chunks[t].data == [] then s.(workers := s.workers[t := Over(true)])
        else s.(workers := s.workers[t := Recorded], blocks := s.blocks + [Block(chunks[t].number, IdOf(chunks, random, t))],
                owners := s.owners + [t])
      case Begin(_) =>
        if w.Recorded? && s.startMu.None? then s.(workers := s.workers[t := Staging(false)], inFlight := s.inFlight + 1) else s
      case Land(_) =>
        if w.Staging? then s.(workers := s.workers[t := Staging(true)], staged := s.staged[IdOf(chunks, random, t) := chunks[t].data]) else s
      case Answered(_, answer) =>
        if !w.Staging? || (answer.Accepted? && !w.landed) then s
        else
          var w' := match answer
                    case Accepted => Over(true)
                    case InvalidBlock => NeedsCheck
                    case TryAgain => Recorded
                    case GiveUp => Over(false);
          s.(workers := s.workers[t := w'], inFlight := s.inFlight - 1)
      case Lock(_) =>
        if w.NeedsCheck? && s.startMu.None? then s.(workers := s.workers[t := Checking], startMu := Some(t)) else s
      case Wait(_) =>
        if w.Checking? && !s.cleared && s.inFlight == 0 then s.(workers := s.workers[t := Clearing]) else s
      case Check(_, clearWorked, again) =>
        if !w.Clearing? && !(w.Checking? && s.cleared) then s
        else
          var s1 := s.(workers := s.workers[t := if again then Recorded else Over(false)], startMu := None);
          if s.cleared then s1
          else s1.(cleared := true, clears := s.clears + 1, staged := if clearWorked then map[] else s.staged)
  }

  function After(chunks: seq<Chunk>, random: seq<nat>, s: State, steps: seq<Step>): State
    decreases |steps|
  {
    if steps == [] then s else After(chunks, random, Next(chunks, random, s, steps[0]), steps[1..])
  }

  function InFlight(workers: seq<Worker>): nat {
    if workers == [] then 0 else InFlight(workers[..|workers| - 1]) + (if workers[|workers| - 1].Staging? then 1 else 0)
  }

  lemma {:induction false} InFlightChange(workers: seq<Worker>, t: nat, w: Worker)
    requires t < |workers|
    ensures InFlight(workers[t := w]) == InFlight(workers) - (if workers[t].Staging? then 1 else 0) + (if w.Staging? then 1 else 0)
  {
    var n := |workers| - 1;
    var workers' := workers[t := w];
    if t == n {
      assert workers'[..n] == workers[..n];
    } else {
      assert workers'[..n] == workers[..n][t := w];
      InFlightChange(workers[..n], t, w);
    }
  }

  lemma {:induction false} NoneInFlight(workers: seq<Worker>, t: nat)
    requires InFlight(workers) == 0 && t < |workers|
    ensures !workers[t].Staging?
  {
    if t < |workers| - 1 {
      NoneInFlight(workers[..|workers| - 1], t);
    }
  }

  /** The lock and the counters tell the truth. */
  ghost predicate LockInv(s: State) {
    && s.inFlight == InFlight(s.workers)
    && (forall t: nat :: t < |s.workers| ==> (HasLock(s.workers[t]) <==> s.startMu == Some(t)) && (s.workers[t].Clearing? ==> s.inFlight == 0 && !s.cleared))
    && (s.startMu.Some? ==> s.startMu.value < |s.workers|)
    && s.clears == if s.cleared then 1 else 0
  }

  /** Every recorded block belongs to one call, and every call that got that far has one. */
  ghost predicate BlockInv(chunks: seq<Chunk>, random: seq<nat>, s: State) {
    && |s.workers| == |chunks| && |s.blocks| == |s.owners|
    && (forall i :: 0 <= i < |s.owners| ==>
          s.owners[i] < |chunks| && Stores(chunks[s.owners[i]])
          && s.blocks[i] == Block(chunks[s.owners[i]].number, IdOf(chunks, random, s.owners[i])))
    && (forall i, j :: 0 <= i < j < |s.owners| ==> s.owners[i] != s.owners[j])
    && (forall t: nat :: t in s.owners <==> t < |chunks| && !s.workers[t].Ready? && Stores(chunks[t]))
    && (forall t: nat :: t < |chunks| && !s.workers[t].Ready? && !s.workers[t].Over? ==> Stores(chunks[t]))
  }

  /** The service has only data of these calls, each under the ID of its number. */
  ghost predicate StageInv(chunks: seq<Chunk>, random: seq<nat>, s: State) {
    forall id {:trigger id in s.staged} :: id in s.staged ==> StagedBy(chunks, random, s, id)
  }

  ghost predicate StagedBy(chunks: seq<Chunk>, random: seq<nat>, s: State, id: Id)
    requires id in s.staged
  {
    exists t: nat :: t in s.owners && t < |chunks| && id == IdOf(chunks, random, t) && s.staged[id] == chunks[t].data
  }

  /** Worker t goes on; it may take the lock if it is free or give it up if it has it. */
  lemma {:induction false} LockChange(s: State, s': State, t: nat, w: Worker)
    requires LockInv(s) && t < |s.workers| && s'.workers == s.workers[t := w]
    requires s'.inFlight == s.inFlight - (if s.workers[t].Staging? then 1 else 0) + (if w.Staging? then 1 else 0)
    requires || (s'.startMu == s.startMu && (HasLock(w) <==> HasLock(s.workers[t])))
             || (s.startMu.None? && s'.startMu == Some(t) && HasLock(w))
             || (s.startMu == Some(t) && s'.startMu.None? && !HasLock(w))
    requires w.Clearing? ==> s'.inFlight == 0 && !s'.cleared
    requires s'.inFlight <= s.inFlight || s.startMu.None?
    requires s'.cleared == s.cleared || s.startMu == Some(t)
    requires s'.clears == if s'.cleared then 1 else 0
    ensures LockInv(s')
  {
    InFlightChange(s.workers, t, w);
  }

  lemma {:induction false} LockKeeps(chunks: seq<Chunk>, random: seq<nat>, s: State, step: Step)
    requires LockInv(s)
    ensures LockInv(Next(chunks, random, s, step))
  {
    var s' := Next(chunks, random, s, step);
    if s' != s && step.t < |s.workers| {
      assert HasLock(s.workers[step.t]) <==> s.startMu == Some(step.t);
      LockChange(s, s', step.t, s'.workers[step.t]);
    }
  }

  /** A call goes on without recording a block. */
  lemma {:induction false} SameBlocks(chunks: seq<Chunk>, random: seq<nat>, s: State, s': State, t: nat, w: Worker)
    requires BlockInv(chunks, random, s) && t < |chunks| && !w.Ready?
    requires s'.blocks == s.blocks && s'.owners == s.owners && s'.workers == s.workers[t := w]
    requires Stores(chunks[t]) ==> !s.workers[t].Ready?
    requires !Stores(chunks[t]) ==> w.Over?
    ensures BlockInv(chunks, random, s')
  {
    forall u: nat
      ensures u in s'.owners <==> u < |chunks| && !s'.workers[u].Ready? && Stores(chunks[u])
    {
      assert u in s.owners <==> u < |chunks| && !s.workers[u].Ready? && Stores(chunks[u]);
    }
  }

  lemma {:induction false} RecordKeeps(chunks: seq<Chunk>, random: seq<nat>, s: State, s': State, t: nat)
    requires BlockInv(chunks, random, s) && t < |chunks| && s.workers[t].Ready? && Stores(chunks[t])
    requires s'.workers == s.workers[t := Recorded] && s'.owners == s.owners + [t]
    requires s'.blocks == s.blocks + [Block(chunks[t].number, IdOf(chunks, random, t))]
    ensures BlockInv(chunks, random, s')
  {
    assert t !in s.owners;
    forall u: nat
      ensures u in s'.owners <==> u < |chunks| && !s'.workers[u].Ready? && Stores(chunks[u])
    {
      assert u in s'.owners <==> u in s.owners || u == t;
      assert u in s.owners <==> u < |chunks| && !s.workers[u].Ready? && Stores(chunks[u]);
    }
  }

  lemma {:induction false} BlockKeeps(chunks: seq<Chunk>, random: seq<nat>, s: State, step: Step)
    requires BlockInv(chunks, random, s)
    ensures BlockInv(chunks, random, Next(chunks, random, s, step))
  {
    var s' := Next(chunks, random, s, step);
    var t := step.t;
    if s' != s && t < |chunks| {
      if step.Record? && Stores(chunks[t]) {
        RecordKeeps(chunks, random, s, s', t);
      } else {
        SameBlocks(chunks, random, s, s', t, s'.workers[t]);
      }
    }
  }

  lemma {:induction false} FewerStaged(chunks: seq<Chunk>, random: seq<nat>, s: State, s': State, t: nat)
    requires StageInv(chunks, random, s) && (s'.owners == s.owners || s'.owners == s.owners + [t])
    requires s'.staged == s.staged || s'.staged == map[]
    ensures StageInv(chunks, random, s')
  {
    assert forall u :: u in s.owners ==> u in s'.owners;
    forall id | id in s'.staged
      ensures StagedBy(chunks, random, s', id)
    {
      assert StagedBy(chunks, random, s, id);
    }
  }

  lemma {:induction false} LandKeeps(chunks: seq<Chunk>, random: seq<nat>, s: State, s': State, t: nat)
    requires StageInv(chunks, random, s) && t in s.owners && t < |chunks| && s'.owners == s.owners
    requires s'.staged == s.staged[IdOf(chunks, random, t) := chunks[t].data]
    ensures StageInv(chunks, random, s')
  {
    forall id | id in s'.staged
      ensures StagedBy(chunks, random, s', id)
    {
      if id != IdOf(chunks, random, t) {
        assert StagedBy(chunks, random, s, id);
      }
    }
  }

  /** Only landing adds to the staged blocks, and only recording to the owners. */
  lemma {:induction false} WhatChanges(chunks: seq<Chunk>, random: seq<nat>, s: State, step: Step)
    ensures var s' := Next(chunks, random, s, step);
            && (s'.owners == s.owners || s'.owners == s.owners + [step.t])
            && (s'.staged == s.staged || s'.staged == map[] || step.Land?)
            && (step.Land? && !(step.t < |s.workers| && step.t < |chunks| && s.workers[step.t].Staging?) ==> s' == s)
  {
  }

  lemma {:induction false} StageKeeps(chunks: seq<Chunk>, random: seq<nat>, s: State, step: Step)
    requires BlockInv(chunks, random, s) && StageInv(chunks, random, s)
    ensures StageInv(chunks, random, Next(chunks, random, s, step))
  {
    WhatChanges(chunks, random, s, step);
    var s' := Next(chunks, random, s, step);
    if step.Land? && step.t < |chunks| && s.workers[step.t].Staging? {
      LandKeeps(chunks, random, s, s', step.t);
    } else {
      FewerStaged(chunks, random, s, s', step.t);
    }
  }

  ghost predicate Inv(chunks: seq<Chunk>, random: seq<nat>, s: State) {
    LockInv(s) && BlockInv(chunks, random, s) && StageInv(chunks, random, s)
  }

  lemma {:induction false} StepKeeps(chunks: seq<Chunk>, random: seq<nat>, s: State, step: Step)
    requires Inv(chunks, random, s)
    ensures Inv(chunks, random, Next(chunks, random, s, step))
  {
    LockKeeps(chunks, random, s, step);
    BlockKeeps(chunks, random, s, step);
    StageKeeps(chunks, random, s, step);
  }

  lemma {:induction false} RunKeeps(chunks: seq<Chunk>, random: seq<nat>, s: State, steps: seq<Step>)
    requires Inv(chunks, random, s)
    ensures Inv(chunks, random, After(chunks, random, s, steps))
    decreases |steps|
  {
    if steps != [] {
      StepKeeps(chunks, random, s, steps[0]);
      RunKeeps(chunks, random, Next(chunks, random, s, steps[0]), steps[1..]);
    }
  }

  lemma {:induction false} StartIsInv(chunks: seq<Chunk>, random: seq<nat>)
    ensures Inv(chunks, random, Start(|chunks|))
  {
    NobodyInFlight(|chunks|);
  }

  lemma {:induction false} NobodyInFlight(n: nat)
    ensures InFlight(Start(n).workers) == 0
  {
    if n > 0 {
      NobodyInFlight(n - 1);
      assert Start(n).workers[..n - 1] == Start(n - 1).workers;
    }
  }

  lemma {:induction false} ClearWaits(chunks: seq<Chunk>, random: seq<nat>, s: State, step: Step)
    requires LockInv(s)
    ensures Next(chunks, random, s, step).clears > s.clears ==> s.inFlight == 0
  {
  }

  /** In every run uncommitted blocks are cleared at most once, and never while a stage request is in flight. */
  lemma {:induction false} ClearedOnceAndQuietly(chunks: seq<Chunk>, random: seq<nat>, steps: seq<Step>, step: Step, t: nat)
    ensures var s := After(chunks, random, Start(|chunks|), steps);
            && s.clears <= 1
            && (Next(chunks, random, s, step).clears > s.clears && t < |s.workers| ==> !s.workers[t].Staging?)
  {
    var s := After(chunks, random, Start(|chunks|), steps);
    StartIsInv(chunks, random);
    RunKeeps(chunks, random, Start(|chunks|), steps);
    ClearWaits(chunks, random, s, step);
    if s.inFlight == 0 && t < |s.workers| {
      NoneInFlight(s.workers, t);
    }
  }

  // ---------- closing ----------

  function Ids(bs: seq<Block>): (ids: seq<Id>)
    ensures |ids| == |bs| && forall i :: 0 <= i < |bs| ==> ids[i] == bs[i].id
  {
    if bs == [] then [] else Ids(bs[..|bs| - 1]) + [bs[|bs| - 1].id]
  }

  /** Close up to the commit: the IDs to commit, unless the recorded numbers have a gap or a double. */
  method Close(blocks: seq<Block>, random: seq<nat>) returns (ids: Option<seq<Id>>)
    ensures ids.Some? <==> Covers(blocks) && forall b :: b in blocks ==> CheckId(b.number, b.id, random)
    ensures ids.Some? ==> ids.value == Ids(Sorted(blocks)) && InSequence(Sorted(blocks))
  {
    var sorted := Sorted(blocks);
    SortedSorts(blocks);
    SameMembers(sorted, blocks);
    SortedInSequenceWhen(blocks);
    var list: seq<Id> := [];
    for i := 0 to |sorted|
      invariant |list| == i && forall j :: 0 <= j < i ==>
        list[j] == sorted[j].id && sorted[j].number == j && CheckId(j, sorted[j].id, random)
    {
      if sorted[i].number != i {
        return None;
      }
      if !CheckId(sorted[i].number, sorted[i].id, random) {
        assert sorted[i] in blocks;
        return None;
      }
      list := list + [sorted[i].id];
    }
    forall b | b in blocks
      ensures CheckId(b.number, b.id, random)
    {
      assert b in sorted;
    }
    assert list == Ids(sorted);
    ids := Some(list);
  }

  /** CommitBlockList: the service takes the list only if it has every block. */
  function Commit(ids: seq<Id>, staged: map<Id, Bytes>): Option<Bytes> {
    if forall i :: 0 <= i < |ids| ==> ids[i] in staged then Some(Content(ids, staged)) else None
  }

  function Content(ids: seq<Id>, staged: map<Id, Bytes>): Bytes
    requires forall i :: 0 <= i < |ids| ==> ids[i] in staged
  {
    if ids == [] then [] else Content(ids[..|ids| - 1], staged) + staged[ids[|ids| - 1]]
  }

  /** The data of these calls, one after the other. */
  function DataOf(chunks: seq<Chunk>, order: seq<nat>): Bytes
    requires forall i :: 0 <= i < |order| ==> order[i] < |chunks|
  {
    if order == [] then [] else DataOf(chunks, order[..|order| - 1]) + chunks[order[|order| - 1]].data
  }

  lemma {:induction false} SameContent(ids: seq<Id>, staged: map<Id, Bytes>, chunks: seq<Chunk>, order: seq<nat>)
    requires |ids| == |order| && (forall i :: 0 <= i < |ids| ==> ids[i] in staged)
    requires forall i :: 0 <= i < |order| ==> order[i] < |chunks| && staged[ids[i]] == chunks[order[i]].data
    ensures Content(ids, staged) == DataOf(chunks, order)
    decreases |ids|
  {
    if ids != [] {
      SameContent(ids[..|ids| - 1], staged, chunks, order[..|order| - 1]);
    }
  }

  /** Recorded numbers without gaps belong to different calls. */
  lemma {:induction false} OneOwner(chunks: seq<Chunk>, random: seq<nat>, s: State, t: nat, u: nat)
    requires BlockInv(chunks, random, s) && Covers(s.blocks) && t in s.owners && u in s.owners && t != u
    ensures t < |chunks| && u < |chunks| && 0 <= chunks[t].number && 0 <= chunks[u].number && chunks[t].number != chunks[u].number
  {
    var i :| 0 <= i < |s.owners| && s.owners[i] == t;
    var j :| 0 <= j < |s.owners| && s.owners[j] == u;
    if i < j {
      CoveringIsDistinct(s.blocks, i, j);
    } else {
      CoveringIsDistinct(s.blocks, j, i);
    }
  }

  /** The call that recorded number n. */
  ghost predicate Owns(chunks: seq<Chunk>, s: State, t: nat, n: nat) {
    t in s.owners && t < |chunks| && chunks[t].number == n
  }

  lemma {:induction false} HasOwner(chunks: seq<Chunk>, random: seq<nat>, s: State, n: nat)
    requires BlockInv(chunks, random, s) && Covers(s.blocks) && n < |s.blocks|
    ensures exists t: nat :: Owns(chunks, s, t, n)
  {
    assert HasNumber(s.blocks, n);
    var b :| b in s.blocks && b.number == n;
    var i :| 0 <= i < |s.blocks| && s.blocks[i] == b;
    assert s.owners[i] in s.owners && Owns(chunks, s, s.owners[i], n);
  }

  ghost function Order(chunks: seq<Chunk>, random: seq<nat>, s: State, n: nat): (order: seq<nat>)
    requires BlockInv(chunks, random, s) && Covers(s.blocks) && n <= |s.blocks|
    ensures |order| == n && forall i {:trigger Owns(chunks, s, order[i], i)} :: 0 <= i < n ==> Owns(chunks, s, order[i], i)
  {
    if n == 0 then []
    else
      HasOwner(chunks, random, s, n - 1);
      var t: nat :| Owns(chunks, s, t, n - 1);
      Order(chunks, random, s, n - 1) + [t]
  }

  /** The ID committed for number i is that of the call that recorded it, and so is the data staged under it. */
  lemma {:induction false} StagedIsOwn(chunks: seq<Chunk>, random: seq<nat>, s: State, t: nat, i: nat)
    requires IsUpload(chunks, random) && BlockInv(chunks, random, s) && StageInv(chunks, random, s) && Covers(s.blocks)
    requires i < |s.blocks| && Owns(chunks, s, t, i)
    ensures Sorted(s.blocks)[i].id == IdOf(chunks, random, t)
    ensures IdOf(chunks, random, t) in s.staged ==> s.staged[IdOf(chunks, random, t)] == chunks[t].data
  {
    var sorted := Sorted(s.blocks);
    SortedSorts(s.blocks);
    SameMembers(sorted, s.blocks);
    SortedInSequenceWhen(s.blocks);
    assert sorted[i] in s.blocks && sorted[i].number == i;
    var k :| 0 <= k < |s.blocks| && s.blocks[k] == sorted[i];
    assert s.owners[k] in s.owners && chunks[s.owners[k]].number == i;
    if s.owners[k] != t {
      OneOwner(chunks, random, s, s.owners[k], t);
    }
    var id := IdOf(chunks, random, t);
    if id in s.staged {
      assert StagedBy(chunks, random, s, id);
      var u: nat :| u in s.owners && u < |chunks| && id == IdOf(chunks, random, u) && s.staged[id] == chunks[u].data;
      if u != t {
        OneOwner(chunks, random, s, u, t);
        IdsDiffer(chunks[u].number, chunks[t].number, random);
      }
    }
  }

  /** Place i of the order is the call that recorded number i. */
  ghost predicate IsOrder(chunks: seq<Chunk>, s: State, order: seq<nat>) {
    |order| == |s.blocks| && forall i {:trigger Owns(chunks, s, order[i], i)} :: 0 <= i < |order| ==> Owns(chunks, s, order[i], i)
  }

  /** The ID at place i is that of the call there, and data staged under it is that call's. */
  ghost predicate OwnAt(chunks: seq<Chunk>, random: seq<nat>, ids: seq<Id>, staged: map<Id, Bytes>, order: seq<nat>, i: nat)
    requires i < |ids| == |order|
  {
    order[i] < |chunks| && ids[i] == IdOf(chunks, random, order[i]) && (ids[i] in staged ==> staged[ids[i]] == chunks[order[i]].data)
  }

  lemma {:induction false} CommitOfOwn(chunks: seq<Chunk>, random: seq<nat>, ids: seq<Id>, staged: map<Id, Bytes>, order: seq<nat>)
    requires |ids| == |order|
    requires forall i {:trigger OwnAt(chunks, random, ids, staged, order, i)} :: 0 <= i < |ids| ==> OwnAt(chunks, random, ids, staged, order, i)
    ensures forall i :: 0 <= i < |order| ==> order[i] < |chunks|
    ensures Commit(ids, staged).Some? <==> forall i :: 0 <= i < |order| ==> IdOf(chunks, random, order[i]) in staged
    ensures Commit(ids, staged).Some? ==> Commit(ids, staged).value == DataOf(chunks, order)
  {
    forall i | 0 <= i < |order|
      ensures order[i] < |chunks| && ids[i] == IdOf(chunks, random, order[i]) && (ids[i] in staged ==> staged[ids[i]] == chunks[order[i]].data)
    {
      assert OwnAt(chunks, random, ids, staged, order, i);
    }
    if Commit(ids, staged).Some? {
      SameContent(ids, staged, chunks, order);
    }
  }

  /** An accepted list can be committed exactly when every recorded block is still staged; the content is then all of them in order. */
  lemma {:induction false} CommitIsInOrder(chunks: seq<Chunk>, random: seq<nat>, s: State, order: seq<nat>, ids: seq<Id>)
    requires IsUpload(chunks, random) && BlockInv(chunks, random, s) && StageInv(chunks, random, s) && Covers(s.blocks)
    requires IsOrder(chunks, s, order) && ids == Ids(Sorted(s.blocks))
    ensures forall i :: 0 <= i < |order| ==> order[i] < |chunks|
    ensures Commit(ids, s.staged).Some? <==> forall i :: 0 <= i < |order| ==> IdOf(chunks, random, order[i]) in s.staged
    ensures Commit(ids, s.staged).Some? ==> Commit(ids, s.staged).value == DataOf(chunks, order)
  {
    forall i | 0 <= i < |ids|
      ensures OwnAt(chunks, random, ids, s.staged, order, i)
    {
      assert Owns(chunks, s, order[i], i);
      StagedIsOwn(chunks, random, s, order[i], i);
    }
    CommitOfOwn(chunks, random, ids, s.staged, order);
  }

  lemma {:induction false} OrderHasAll(chunks: seq<Chunk>, random: seq<nat>, s: State, order: seq<nat>, t: nat)
    requires BlockInv(chunks, random, s) && Covers(s.blocks) && t in s.owners
    requires IsOrder(chunks, s, order)
    ensures t in order
  {
    var k :| 0 <= k < |s.owners| && s.owners[k] == t;
    SortedInSequenceWhen(s.blocks);
    SortedSorts(s.blocks);
    SameMembers(Sorted(s.blocks), s.blocks);
    assert s.blocks[k] in Sorted(s.blocks);
    var n := s.blocks[k].number;
    assert Owns(chunks, s, order[n], n);
    if order[n] != t {
      OneOwner(chunks, random, s, order[n], t);
    }
  }

  /** Everything that was written is in the order, each call once. */
  ghost predicate AllInOrder(chunks: seq<Chunk>, order: seq<nat>) {
    && (forall i :: 0 <= i < |order| ==> order[i] < |chunks| && chunks[order[i]].number == i)
    && (forall t: nat :: t in order <==> t < |chunks| && Stores(chunks[t]))
  }

  lemma {:induction false} OrderIsAll(chunks: seq<Chunk>, random: seq<nat>, s: State, order: seq<nat>)
    requires BlockInv(chunks, random, s) && Covers(s.blocks) && IsOrder(chunks, s, order)
    requires forall t :: 0 <= t < |s.workers| ==> s.workers[t].Over?
    ensures AllInOrder(chunks, order)
  {
    forall i | 0 <= i < |order|
      ensures order[i] < |chunks| && chunks[order[i]].number == i && order[i] in s.owners
    {
      assert Owns(chunks, s, order[i], i);
    }
    forall t: nat
      ensures t in order <==> t < |chunks| && Stores(chunks[t])
    {
      if t in s.owners {
        OrderHasAll(chunks, random, s, order, t);
      }
      assert t in s.owners <==> t < |chunks| && !s.workers[t].Ready? && Stores(chunks[t]);
    }
  }

  /**
   * For every order in which calls record, stage, fail and clear: if Close takes
   * the recorded blocks and the service takes the list, the committed content is
   * the data of all calls, the call for number i at place i.
   */
  lemma {:induction false} CommittedInOrder(chunks: seq<Chunk>, random: seq<nat>, steps: seq<Step>, s: State) returns (order: seq<nat>)
    requires IsUpload(chunks, random) && s == After(chunks, random, Start(|chunks|), steps)
    requires Covers(s.blocks) && Commit(Ids(Sorted(s.blocks)), s.staged).Some?
    requires forall t :: 0 <= t < |s.workers| ==> s.workers[t].Over?
    ensures AllInOrder(chunks, order) && Commit(Ids(Sorted(s.blocks)), s.staged).value == DataOf(chunks, order)
  {
    StartIsInv(chunks, random);
    RunKeeps(chunks, random, Start(|chunks|), steps);
    order := Order(chunks, random, s, |s.blocks|);
    CommitIsInOrder(chunks, random, s, order, Ids(Sorted(s.blocks)));
    OrderIsAll(chunks, random, s, order);
  }

  // ---------- how calls return ----------

  /** The step makes call t return without error: it has nothing to store, or its request is accepted. */
  predicate SucceedsAt(chunks: seq<Chunk>, s: State, step: Step, t: nat) {
    && step.t == t && t < |s.workers| && t < |chunks|
    && match step
       case Record(_) => s.workers[t].Ready? && chunks[t].number >= 0 && chunks[t].data == []
       case Answered(_, answer) => s.workers[t] == Staging(true) && answer.Accepted?
       case _ => false
  }

  /** The step makes call t fail: its number is not valid, its request failed for good, or so did the check after an invalid block. */
  predicate FailsAt(chunks: seq<Chunk>, s: State, step: Step, t: nat) {
    && step.t == t && t < |s.workers| && t < |chunks|
    && match step
       case Record(_) => s.workers[t].Ready? && chunks[t].number < 0
       case Answered(_, answer) => s.workers[t].Staging? && answer.GiveUp?
       case Check(_, _, again) => (s.workers[t].Clearing? || (s.workers[t].Checking? && s.cleared)) && !again
       case _ => false
  }

  ghost predicate Succeeds(chunks: seq<Chunk>, random: seq<nat>, s: State, steps: seq<Step>, t: nat)
    decreases |steps|
  {
    steps != [] && (SucceedsAt(chunks, s, steps[0], t) || Succeeds(chunks, random, Next(chunks, random, s, steps[0]), steps[1..], t))
  }

  ghost predicate Fails(chunks: seq<Chunk>, random: seq<nat>, s: State, steps: seq<Step>, t: nat)
    decreases |steps|
  {
    steps != [] && (FailsAt(chunks, s, steps[0], t) || Fails(chunks, random, Next(chunks, random, s, steps[0]), steps[1..], t))
  }

  lemma {:induction false} StepReturns(chunks: seq<Chunk>, random: seq<nat>, s: State, step: Step, t: nat)
    requires t < |s.workers| == |chunks|
    ensures var s' := Next(chunks, random, s, step);
            && |s'.workers| == |chunks| && (SucceedsAt(chunks, s, step, t) || FailsAt(chunks, s, step, t) ==> !s.workers[t].Over?)
            && (s'.workers[t] == Over(true) <==> s.workers[t] == Over(true) || SucceedsAt(chunks, s, step, t))
            && (s'.workers[t] == Over(false) <==> s.workers[t] == Over(false) || FailsAt(chunks, s, step, t))
  {
  }

  /** In every run a call returns without error if and only if a step makes it succeed, and with one if and only if a step makes it fail. */
  lemma {:induction false} ReturnsWhen(chunks: seq<Chunk>, random: seq<nat>, s: State, steps: seq<Step>, t: nat)
    requires t < |s.workers| == |chunks|
    ensures var s' := After(chunks, random, s, steps);
            && |s'.workers| == |chunks|
            && (s'.workers[t] == Over(true) <==> s.workers[t] == Over(true) || Succeeds(chunks, random, s, steps, t))
            && (s'.workers[t] == Over(false) <==> s.workers[t] == Over(false) || Fails(chunks, random, s, steps, t))
    decreases |steps|
  {
    if steps != [] {
      StepReturns(chunks, random, s, steps[0], t);
      ReturnsWhen(chunks, random, Next(chunks, random, s, steps[0]), steps[1..], t);
    }
  }

  // ---------- no call waits for ever ----------

  /** How far a call is from returning, if all goes well. */
  function Way(w: Worker): nat {
    match w
    case Ready => 7
    case NeedsCheck => 6
    case Checking => 5
    case Clearing => 4
    case Recorded => 3
    case Staging(landed) => if landed then 1 else 2
    case Over(_) => 0
  }

  function TotalWay(workers: seq<Worker>): nat {
    if workers == [] then 0 else TotalWay(workers[..|workers| - 1]) + Way(workers[|workers| - 1])
  }

  lemma {:induction false} WayChange(workers: seq<Worker>, t: nat, w: Worker)
    requires t < |workers|
    ensures TotalWay(workers[t := w]) == TotalWay(workers) - Way(workers[t]) + Way(w)
  {
    var n := |workers| - 1;
    var workers' := workers[t := w];
    if t == n {
      assert workers'[..n] == workers[..n];
    } else {
      assert workers'[..n] == workers[..n][t := w];
      WayChange(workers[..n], t, w);
    }
  }

  /** Some step takes a call on its way, without failing it. */
  ghost predicate GetsOn(chunks: seq<Chunk>, random: seq<nat>, s: State, step: Step, t: nat)
    requires t < |s.workers|
  {
    var s' := Next(chunks, random, s, step);
    && |s'.workers| == |s.workers| && s'.workers == s.workers[t := s'.workers[t]] && Way(s'.workers[t]) < Way(s.workers[t])
    && (s'.workers[t] == Over(false) ==> chunks[t].number < 0)
  }

  /**
   * As long as a call has not returned, some call can get on: a request can be
   * answered, else whoever checks can finish, else the lock is free.
   */
  lemma {:induction false} SomeCallGetsOn(chunks: seq<Chunk>, random: seq<nat>, s: State) returns (step: Step, t: nat)
    requires LockInv(s) && BlockInv(chunks, random, s) && exists u :: 0 <= u < |s.workers| && !s.workers[u].Over?
    ensures t < |s.workers| && GetsOn(chunks, random, s, step, t)
  {
    if u: nat :| u < |s.workers| && s.workers[u].Staging? {
      t := u;
      step := if s.workers[u].landed then Answered(u, Accepted) else Land(u);
    } else {
      NobodyStaging(s.workers);
      if s.startMu.Some? {
        t := s.startMu.value;
        step := if s.workers[t].Checking? && !s.cleared then Wait(t) else Check(t, true, true);
      } else {
        var u: nat :| u < |s.workers| && !s.workers[u].Over?;
        t := u;
        step := if s.workers[u].Ready? then Record(u) else if s.workers[u].NeedsCheck? then Lock(u) else Begin(u);
      }
    }
  }

  lemma {:induction false} NobodyStaging(workers: seq<Worker>)
    requires forall t :: 0 <= t < |workers| ==> !workers[t].Staging?
    ensures InFlight(workers) == 0
  {
    if workers != [] {
      NobodyStaging(workers[..|workers| - 1]);
    }
  }

  /** What a run has come to: all calls have returned, none has failed on the way but for its number. */
  ghost predicate AllReturn(chunks: seq<Chunk>, s: State, s': State) {
    && |s'.workers| == |s.workers| == |chunks|
    && forall t :: 0 <= t < |s.workers| ==> s'.workers[t].Over? && (s'.workers[t] == Over(false) ==> s.workers[t] == Over(false) || chunks[t].number < 0)
  }

  /**
   * From every point of every run all calls can still return, and succeed but
   * for those that have failed or whose number is not valid: nobody waits for a
   * lock or for requests in flight for ever.
   */
  lemma {:induction false} AllCanReturn(chunks: seq<Chunk>, random: seq<nat>, s: State) returns (steps: seq<Step>)
    requires Inv(chunks, random, s)
    ensures AllReturn(chunks, s, After(chunks, random, s, steps))
    decreases TotalWay(s.workers)
  {
    if forall t :: 0 <= t < |s.workers| ==> s.workers[t].Over? {
      steps := [];
    } else {
      var step, t := SomeCallGetsOn(chunks, random, s);
      var s1 := Next(chunks, random, s, step);
      WayChange(s.workers, t, s1.workers[t]);
      StepKeeps(chunks, random, s, step);
      var rest := AllCanReturn(chunks, random, s1);
      steps := [step] + rest;
      OneStep(chunks, random, s, step, rest);
    }
  }

  // ---------- when an accepted block is lost to clearing ----------

  /** This call has stored its block: it has returned without error and had something to store. */
  predicate HasStored(chunks: seq<Chunk>, s: State, t: nat) {
    t < |chunks| && t < |s.workers| && Stores(chunks[t]) && s.workers[t] == Over(true)
  }

  /** The step clears the uncommitted blocks, and does so when a call has already stored its own. */
  ghost predicate ClearsAccepted(chunks: seq<Chunk>, s: State, step: Step) {
    && step.Check? && step.clearWorked && step.t < |s.workers| && step.t < |chunks|
    && s.workers[step.t].Clearing? && !s.cleared
    && exists u: nat :: HasStored(chunks, s, u)
  }

  /** Some step of the run does. */
  ghost predicate Loses(chunks: seq<Chunk>, random: seq<nat>, s: State, steps: seq<Step>) {
    exists k {:trigger steps[k]} :: 0 <= k < |steps| && ClearsAccepted(chunks, After(chunks, random, s, steps[..k]), steps[k])
  }

  lemma {:induction false} LosesUnfold(chunks: seq<Chunk>, random: seq<nat>, s: State, steps: seq<Step>)
    requires steps != []
    ensures Loses(chunks, random, s, steps) <==>
              ClearsAccepted(chunks, s, steps[0]) || Loses(chunks, random, Next(chunks, random, s, steps[0]), steps[1..])
  {
    var s1, rest := Next(chunks, random, s, steps[0]), steps[1..];
    forall k | 0 <= k < |rest|
      ensures After(chunks, random, s, steps[..k + 1]) == After(chunks, random, s1, rest[..k]) && steps[k + 1] == rest[k]
    {
      assert steps[..k + 1][1..] == rest[..k];
    }
    assert After(chunks, random, s, steps[..0]) == s;
    if Loses(chunks, random, s, steps) && !ClearsAccepted(chunks, s, steps[0]) {
      var k :| 0 <= k < |steps| && ClearsAccepted(chunks, After(chunks, random, s, steps[..k]), steps[k]);
      assert rest[k - 1] == steps[k];
    }
    if Loses(chunks, random, s1, rest) {
      var k :| 0 <= k < |rest| && ClearsAccepted(chunks, After(chunks, random, s1, rest[..k]), rest[k]);
      assert steps[k + 1] == rest[k];
    }
  }

  /** What a call has stored, or its request in flight has brought there, is staged. */
  ghost predicate KeptAt(chunks: seq<Chunk>, random: seq<nat>, s: State, t: nat) {
    t < |chunks| && t < |s.workers| && Stores(chunks[t]) && (s.workers[t] == Over(true) || s.workers[t] == Staging(true))
    ==> IdOf(chunks, random, t) in s.staged
  }

  ghost predicate Kept(chunks: seq<Chunk>, random: seq<nat>, s: State) {
    forall t: nat {:trigger KeptAt(chunks, random, s, t)} :: KeptAt(chunks, random, s, t)
  }

  lemma {:induction false} StepKeepsStaged(chunks: seq<Chunk>, random: seq<nat>, s: State, step: Step)
    requires LockInv(s) && Kept(chunks, random, s) && !ClearsAccepted(chunks, s, step)
    ensures Kept(chunks, random, Next(chunks, random, s, step))
  {
    var s' := Next(chunks, random, s, step);
    forall t: nat
      ensures KeptAt(chunks, random, s', t)
    {
      assert KeptAt(chunks, random, s, t);
      if step.Check? && t < |chunks| && t < |s.workers| && step.t < |s.workers| {
        if s.workers[step.t].Clearing? {
          NoneInFlight(s.workers, t);
        }
        assert HasStored(chunks, s, t) || !Stores(chunks[t]) || s.workers[t] != Over(true);
      }
    }
  }

  /** Until a step clears accepted blocks, everything accepted stays staged. */
  lemma {:induction false} KeptUntilCleared(chunks: seq<Chunk>, random: seq<nat>, s: State, steps: seq<Step>)
    requires LockInv(s) && Kept(chunks, random, s) && !Loses(chunks, random, s, steps)
    ensures Kept(chunks, random, After(chunks, random, s, steps))
    decreases |steps|
  {
    if steps != [] {
      LosesUnfold(chunks, random, s, steps);
      StepKeepsStaged(chunks, random, s, steps[0]);
      LockKeeps(chunks, random, s, steps[0]);
      KeptUntilCleared(chunks, random, Next(chunks, random, s, steps[0]), steps[1..]);
    }
  }

  /** No two calls store under one number. */
  ghost predicate OneCallEach(chunks: seq<Chunk>) {
    forall t, u :: 0 <= t < u < |chunks| && Stores(chunks[t]) && Stores(chunks[u]) ==> chunks[t].number != chunks[u].number
  }

  /** A call has returned without error, but its block is not staged. */
  ghost predicate Gone(chunks: seq<Chunk>, random: seq<nat>, s: State, t: nat) {
    HasStored(chunks, s, t) && IdOf(chunks, random, t) !in s.staged
  }

  lemma {:induction false} StaysGone(chunks: seq<Chunk>, random: seq<nat>, s: State, step: Step, t: nat)
    requires IsUpload(chunks, random) && OneCallEach(chunks) && BlockInv(chunks, random, s) && Gone(chunks, random, s, t)
    ensures Gone(chunks, random, Next(chunks, random, s, step), t)
  {
    if step.Land? && step.t < |chunks| && s.workers[step.t].Staging? {
      IdsDiffer(chunks[step.t].number, chunks[t].number, random);
    }
  }

  lemma {:induction false} GoneForGood(chunks: seq<Chunk>, random: seq<nat>, s: State, steps: seq<Step>, t: nat)
    requires IsUpload(chunks, random) && OneCallEach(chunks) && BlockInv(chunks, random, s) && Gone(chunks, random, s, t)
    ensures Gone(chunks, random, After(chunks, random, s, steps), t)
    decreases |steps|
  {
    if steps != [] {
      StaysGone(chunks, random, s, steps[0], t);
      BlockKeeps(chunks, random, s, steps[0]);
      GoneForGood(chunks, random, Next(chunks, random, s, steps[0]), steps[1..], t);
    }
  }

  /** What clearing threw out never comes back: its call has returned and no other has its ID. */
  lemma {:induction false} LostIsGone(chunks: seq<Chunk>, random: seq<nat>, s: State, steps: seq<Step>) returns (t: nat)
    requires IsUpload(chunks, random) && OneCallEach(chunks) && BlockInv(chunks, random, s) && Loses(chunks, random, s, steps)
    ensures Gone(chunks, random, After(chunks, random, s, steps), t)
    decreases |steps|
  {
    LosesUnfold(chunks, random, s, steps);
    BlockKeeps(chunks, random, s, steps[0]);
    if ClearsAccepted(chunks, s, steps[0]) {
      t :| HasStored(chunks, s, t);
      GoneForGood(chunks, random, Next(chunks, random, s, steps[0]), steps[1..], t);
    } else {
      t := LostIsGone(chunks, random, Next(chunks, random, s, steps[0]), steps[1..]);
    }
  }

  lemma {:induction false} CoveredIsOneEach(chunks: seq<Chunk>, random: seq<nat>, s: State)
    requires BlockInv(chunks, random, s) && Covers(s.blocks) && forall t :: 0 <= t < |s.workers| ==> s.workers[t].Over?
    ensures OneCallEach(chunks)
  {
    forall t, u | 0 <= t < u < |chunks| && Stores(chunks[t]) && Stores(chunks[u])
      ensures chunks[t].number != chunks[u].number
    {
      assert t in s.owners && u in s.owners;
      OneOwner(chunks, random, s, t, u);
    }
  }

  /** With every block of every call staged the list is taken; with one missing it is refused. */
  lemma {:induction false} CommitNeedsAll(chunks: seq<Chunk>, random: seq<nat>, s: State)
    requires IsUpload(chunks, random) && BlockInv(chunks, random, s) && StageInv(chunks, random, s) && Covers(s.blocks)
    requires forall t :: 0 <= t < |s.workers| ==> s.workers[t] == Over(true)
    ensures Commit(Ids(Sorted(s.blocks)), s.staged).Some? <==> Kept(chunks, random, s)
  {
    var order := Order(chunks, random, s, |s.blocks|);
    CommitIsInOrder(chunks, random, s, order, Ids(Sorted(s.blocks)));
    OrderIsAll(chunks, random, s, order);
    if Commit(Ids(Sorted(s.blocks)), s.staged).Some? {
      forall t: nat | t < |chunks| && Stores(chunks[t])
        ensures IdOf(chunks, random, t) in s.staged
      {
        assert t in order;
      }
    }
    if Kept(chunks, random, s) {
      forall i | 0 <= i < |order|
        ensures IdOf(chunks, random, order[i]) in s.staged
      {
        assert order[i] in order && KeptAt(chunks, random, s, order[i]);
      }
    }
  }

  /**
   * When all calls have returned without error and the numbers have no gap, the
   * service takes the list if and only if no step of the run cleared the
   * uncommitted blocks after a call had already stored its own.
   */
  lemma {:induction false} CommitSucceedsWhen(chunks: seq<Chunk>, random: seq<nat>, steps: seq<Step>, s: State)
    requires IsUpload(chunks, random) && s == After(chunks, random, Start(|chunks|), steps)
    requires Covers(s.blocks) && forall t :: 0 <= t < |s.workers| ==> s.workers[t] == Over(true)
    ensures Commit(Ids(Sorted(s.blocks)), s.staged).Some? <==> !Loses(chunks, random, Start(|chunks|), steps)
  {
    StartIsInv(chunks, random);
    RunKeeps(chunks, random, Start(|chunks|), steps);
    CommitNeedsAll(chunks, random, s);
    if Loses(chunks, random, Start(|chunks|), steps) {
      CoveredIsOneEach(chunks, random, s);
      var t := LostIsGone(chunks, random, Start(|chunks|), steps);
      assert !KeptAt(chunks, random, s, t);
    } else {
      NothingYet(chunks, random);
      KeptUntilCleared(chunks, random, Start(|chunks|), steps);
    }
  }

  lemma {:induction false} NothingYet(chunks: seq<Chunk>, random: seq<nat>)
    ensures Kept(chunks, random, Start(|chunks|))
  {
  }

  // ---------- such a run ----------

  /** Two chunks of one byte. */
  const TWO: seq<Chunk> := [Chunk(0, [1]), Chunk(1, [2])]

  lemma {:induction false} FourSteps(chunks: seq<Chunk>, random: seq<nat>, s: State, a: Step, b: Step, c: Step, d: Step, rest: seq<Step>)
    ensures After(chunks, random, s, [a, b, c, d] + rest)
         == After(chunks, random, Next(chunks, random, Next(chunks, random, Next(chunks, random, Next(chunks, random, s, a), b), c), d), rest)
  {
    assert [a, b, c, d] + rest == [a] + ([b] + ([c] + ([d] + rest)));
    var s1 := Next(chunks, random, s, a);
    var s2 := Next(chunks, random, s1, b);
    var s3 := Next(chunks, random, s2, c);
    OneStep(chunks, random, s, a, [b] + ([c] + ([d] + rest)));
    OneStep(chunks, random, s1, b, [c] + ([d] + rest));
    OneStep(chunks, random, s2, c, [d] + rest);
    OneStep(chunks, random, s3, d, rest);
  }

  lemma {:induction false} OneStep(chunks: seq<Chunk>, random: seq<nat>, s: State, step: Step, rest: seq<Step>)
    ensures After(chunks, random, s, [step] + rest) == After(chunks, random, Next(chunks, random, s, step), rest)
  {
    assert ([step] + rest)[1..] == rest;
  }

  /** The first chunk is staged and accepted. */
  lemma {:induction false} FirstIsAccepted(random: seq<nat>, a: Id)
    requires a == IdOf(TWO, random, 0)
    ensures var s1 := Next(TWO, random, Start(2), Record(0));
            var s2 := Next(TWO, random, s1, Begin(0));
            var s3 := Next(TWO, random, s2, Land(0));
            State([Over(true), Ready], [Block(0, a)], [0], map[a := [1]], None, 0, false, 0) == Next(TWO, random, s3, Answered(0, Accepted))
  {
    assert Start(2).workers == [Ready, Ready];
  }

  /** The second is answered with an invalid block, which its call is now about to look into. */
  lemma {:induction false} SecondIsRefused(random: seq<nat>, a: Id, b: Id, s: State)
    requires b == IdOf(TWO, random, 1)
    requires s == State([Over(true), Ready], [Block(0, a)], [0], map[a := [1]], None, 0, false, 0)
    ensures var s1 := Next(TWO, random, s, Record(1));
            var s2 := Next(TWO, random, s1, Begin(1));
            var s3 := Next(TWO, random, s2, Answered(1, InvalidBlock));
            State([Over(true), Checking], [Block(0, a), Block(1, b)], [0, 1], map[a := [1]], Some(1), 0, false, 0) == Next(TWO, random, s3, Lock(1))
  {
  }

  /** It waits for nobody, clears the uncommitted blocks and tries again. */
  lemma {:induction false} SecondIsAccepted(random: seq<nat>, a: Id, b: Id, s: State)
    requires b == IdOf(TWO, random, 1)
    requires s == State([Over(true), Checking], [Block(0, a), Block(1, b)], [0, 1], map[a := [1]], Some(1), 0, false, 0)
    ensures var s0 := Next(TWO, random, s, Wait(1));
            var s1 := Next(TWO, random, s0, Check(1, true, true));
            var s2 := Next(TWO, random, s1, Begin(1));
            var s3 := Next(TWO, random, s2, Land(1));
            State([Over(true), Over(true)], [Block(0, a), Block(1, b)], [0, 1], map[b := [2]], None, 0, true, 1) == Next(TWO, random, s3, Answered(1, Accepted))
  {
  }

  const RETRY: seq<Step> := [Wait(1), Check(1, true, true), Begin(1), Land(1)] + [Answered(1, Accepted)]

  lemma {:induction false} SecondSucceeds(random: seq<nat>, a: Id, b: Id, s: State)
    requires b == IdOf(TWO, random, 1)
    requires s == State([Over(true), Checking], [Block(0, a), Block(1, b)], [0, 1], map[a := [1]], Some(1), 0, false, 0)
    ensures After(TWO, random, s, RETRY) == State([Over(true), Over(true)], [Block(0, a), Block(1, b)], [0, 1], map[b := [2]], None, 0, true, 1)
  {
    var s0 := Next(TWO, random, s, Wait(1));
    var s1 := Next(TWO, random, s0, Check(1, true, true));
    var s2 := Next(TWO, random, s1, Begin(1));
    var s3 := Next(TWO, random, s2, Land(1));
    SecondIsAccepted(random, a, b, s);
    FourSteps(TWO, random, s, Wait(1), Check(1, true, true), Begin(1), Land(1), [Answered(1, Accepted)]);
    assert [Answered(1, Accepted)] == [Answered(1, Accepted)] + [];
    OneStep(TWO, random, s3, Answered(1, Accepted), []);
  }

  lemma {:induction false} FirstIsMissing(a: Id, b: Id, blocks: seq<Block>)
    requires a != b && blocks == [Block(0, a), Block(1, b)]
    ensures Covers(blocks) && Commit(Ids(Sorted(blocks)), map[b := [2]]) == None
  {
    assert blocks[0] in blocks && blocks[1] in blocks;
    assert HasNumber(blocks, 0) && HasNumber(blocks, 1);
    assert blocks[1..] == [Block(1, b)] && blocks[1..][1..] == [];
    assert Sorted(blocks[1..]) == [Block(1, b)];
    assert Sorted(blocks) == blocks;
    assert Ids(blocks)[0] == a;
  }

  /**
   * Both calls return without error, but the clearing set off by the second
   * throws out the block of the first: the service then refuses the list.
   */
  lemma {:induction false} ClearingCanLoseABlock(random: seq<nat>) returns (steps: seq<Step>)
    requires |random| == 8
    ensures IsUpload(TWO, random)
    ensures var s := After(TWO, random, Start(|TWO|), steps);
            s.workers == [Over(true), Over(true)] && Covers(s.blocks) && Commit(Ids(Sorted(s.blocks)), s.staged) == None
  {
    var a, b := IdOf(TWO, random, 0), IdOf(TWO, random, 1);
    IdsDiffer(0, 1, random);
    var second := [Record(1), Begin(1), Answered(1, InvalidBlock), Lock(1)] + RETRY;
    steps := [Record(0), Begin(0), Land(0), Answered(0, Accepted)] + second;
    var s1 := State([Over(true), Ready], [Block(0, a)], [0], map[a := [1]], None, 0, false, 0);
    var s2 := State([Over(true), Checking], [Block(0, a), Block(1, b)], [0, 1], map[a := [1]], Some(1), 0, false, 0);
    FirstIsAccepted(random, a);
    FourSteps(TWO, random, Start(2), Record(0), Begin(0), Land(0), Answered(0, Accepted), second);
    SecondIsRefused(random, a, b, s1);
    FourSteps(TWO, random, s1, Record(1), Begin(1), Answered(1, InvalidBlock), Lock(1), RETRY);
    SecondSucceeds(random, a, b, s2);
    FirstIsMissing(a, b, [Block(0, a), Block(1, b)]);
  }
}
