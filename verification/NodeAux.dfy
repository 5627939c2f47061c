/**
 * Values attached to a node by owner: a copy-on-write list behind an atomic
 * pointer, updated by compare-and-swap loops that may interleave in any way.
 */
module NodeAux {
  import opened Wrappers

  datatype Entry = Entry(owner: string, value: string)

  /** The entries of the other owners. */
  function Others(entries: seq<Entry>, owner: string): seq<Entry> {
    if entries == [] then []
    else Others(entries[..|entries| - 1], owner)
         + (if entries[|entries| - 1].owner == owner then [] else [entries[|entries| - 1]])
  }

  /** The list after attaching value for owner; None takes the owner's value away. */
  function Updated(entries: seq<Entry>, owner: string, value: Option<string>): seq<Entry> {
    Others(entries, owner) + (if value.Some? then [Entry(owner, value.value)] else [])
  }

  /** The value found for owner. */
  function Lookup(entries: seq<Entry>, owner: string): Option<string> {
    if entries == [] then None
    else if entries[0].owner == owner then Some(entries[0].value)
    else Lookup(entries[1..], owner)
  }

  predicate OnePerOwner(entries: seq<Entry>) {
    forall i, j :: 0 <= i < j < |entries| ==> entries[i].owner != entries[j].owner
  }

  // ---------- the list ----------

  lemma {:induction false} OthersKeep(entries: seq<Entry>, owner: string)
    ensures forall e :: e in Others(entries, owner) <==> e in entries && e.owner != owner
    ensures OnePerOwner(entries) ==> OnePerOwner(Others(entries, owner))
  {
    if entries != [] {
      var front, last := entries[..|entries| - 1], entries[|entries| - 1];
      OthersKeep(front, owner);
      assert entries == front + [last];
      assert OnePerOwner(entries) ==> forall e :: e in front ==> e.owner != last.owner;
    }
  }

  lemma {:induction false} LookupAppend(a: seq<Entry>, e: Entry, owner: string)
    ensures Lookup(a + [e], owner) == if Lookup(a, owner).Some? then Lookup(a, owner) else if e.owner == owner then Some(e.value) else None
  {
    if a != [] {
      assert (a + [e])[1..] == a[1..] + [e];
      LookupAppend(a[1..], e, owner);
    }
  }

  lemma {:induction false} LookupOthers(entries: seq<Entry>, owner: string, other: string)
    ensures Lookup(Others(entries, owner), other) == if other == owner then None else Lookup(entries, other)
  {
    if entries != [] {
      var front, last := entries[..|entries| - 1], entries[|entries| - 1];
      LookupOthers(front, owner, other);
      assert entries == front + [last];
      LookupAppend(front, last, other);
      LookupAppend(Others(front, owner), last, other);
      assert last.owner == owner ==> Others(entries, owner) == Others(front, owner);
    }
  }

  /** An update is seen by its owner and by nobody else, and keeps owners apart. */
  lemma {:induction false} UpdateIsLocal(entries: seq<Entry>, owner: string, value: Option<string>, other: string)
    ensures Lookup(Updated(entries, owner, value), other) == if other == owner then value else Lookup(entries, other)
    ensures OnePerOwner(entries) ==> OnePerOwner(Updated(entries, owner, value))
  {
    LookupOthers(entries, owner, other);
    OthersKeep(entries, owner);
    if value.Some? {
      LookupAppend(Others(entries, owner), Entry(owner, value.value), other);
    } else {
      assert Updated(entries, owner, value) == Others(entries, owner);
    }
  }

  // ---------- interleaved loops ----------

  datatype Call = Call(owner: string, value: Option<string>)

  /** A SetAux loop: before its load, holding the pointer it loaded, or returned. */
  datatype Phase = Begin | Loaded(seen: Option<nat>) | Returned

  /** Pointers are places in memory, which never changes once written; nil is None. */
  datatype State = State(memory: seq<seq<Entry>>, current: Option<nat>, phases: seq<Phase>, order: seq<nat>)

  datatype Step = Load(t: nat) | Swap(t: nat)

  function ListAt(memory: seq<seq<Entry>>, p: Option<nat>): seq<Entry> {
    if p.Some? && p.value < |memory| then memory[p.value] else []
  }

  function Start(calls: seq<Call>): State {
    State([], None, seq(|calls|, i => Begin), [])
  }

  /** One atomic step of loop t; a step that is not its turn changes nothing. */
  function Next(calls: seq<Call>, s: State, step: Step): State {
    if step.t >= |calls| || step.t >= |s.phases| then s
    else
      match step
      case Load(t) => if s.phases[t].Begin? then s.(phases := s.phases[t := Loaded(s.current)]) else s
      case Swap(t) =>
        if !s.phases[t].Loaded? then s
        else if s.phases[t].seen != s.current then s.(phases := s.phases[t := Begin])
        else
          var entries := Updated(ListAt(s.memory, s.phases[t].seen), calls[t].owner, calls[t].value);
          State(s.memory + [entries], if entries == [] then None else Some(|s.memory|), s.phases[t := Returned], s.order + [t])
  }

  function After(calls: seq<Call>, s: State, steps: seq<Step>): State
    decreases |steps|
  {
    if steps == [] then s else After(calls, Next(calls, s, steps[0]), steps[1..])
  }

  /** The updates applied one by one in this order. */
  function InOrder(calls: seq<Call>, order: seq<nat>): seq<Entry> {
    if order == [] then []
    else
      var t := order[|order| - 1];
      var before := InOrder(calls, order[..|order| - 1]);
      if t < |calls| then Updated(before, calls[t].owner, calls[t].value) else before
  }

  ghost predicate Inv(calls: seq<Call>, s: State) {
    && |s.phases| == |calls|
    && (s.current.Some? ==> s.current.value < |s.memory|)
    && ListAt(s.memory, s.current) == InOrder(calls, s.order)
    && (forall t :: 0 <= t < |calls| && s.phases[t].Loaded? && s.phases[t].seen.Some? ==> s.phases[t].seen.value < |s.memory|)
    && (forall t: nat :: t in s.order <==> t < |calls| && s.phases[t].Returned?)
    && (forall i, j :: 0 <= i < j < |s.order| ==> s.order[i] != s.order[j])
  }

  lemma {:induction false} SwapKeeps(calls: seq<Call>, s: State, t: nat)
    requires Inv(calls, s) && t < |calls| && s.phases[t] == Loaded(s.current)
    ensures Inv(calls, Next(calls, s, Swap(t)))
  {
    var s' := Next(calls, s, Swap(t));
    assert s'.order == s.order + [t] && s'.order[..|s'.order| - 1] == s.order;
    assert t !in s.order && t in s'.order;
    assert forall u :: u in s.order ==> u in s'.order;
  }

  lemma {:induction false} StepKeeps(calls: seq<Call>, s: State, step: Step)
    requires Inv(calls, s)
    ensures Inv(calls, Next(calls, s, step))
  {
    if step.Swap? && step.t < |calls| && s.phases[step.t] == Loaded(s.current) {
      SwapKeeps(calls, s, step.t);
    } else {
      assert Next(calls, s, step).order == s.order;
    }
  }

  lemma {:induction false} RunKeeps(calls: seq<Call>, s: State, steps: seq<Step>)
    requires Inv(calls, s)
    ensures Inv(calls, After(calls, s, steps))
    decreases |steps|
  {
    if steps != [] {
      StepKeeps(calls, s, steps[0]);
      RunKeeps(calls, Next(calls, s, steps[0]), steps[1..]);
    }
  }

  /** The value the last update of this owner attached. */
  function LastOf(calls: seq<Call>, order: seq<nat>, owner: string): Option<string> {
    if order == [] then None
    else
      var t := order[|order| - 1];
      if t < |calls| && calls[t].owner == owner then calls[t].value else LastOf(calls, order[..|order| - 1], owner)
  }

  lemma {:induction false} InOrderIsLast(calls: seq<Call>, order: seq<nat>, owner: string)
    ensures Lookup(InOrder(calls, order), owner) == LastOf(calls, order, owner) && OnePerOwner(InOrder(calls, order))
  {
    if order != [] {
      var t, front := order[|order| - 1], order[..|order| - 1];
      InOrderIsLast(calls, front, owner);
      if t < |calls| {
        UpdateIsLocal(InOrder(calls, front), calls[t].owner, calls[t].value, owner);
      }
    }
  }

  /**
   * For every interleaving the list is the updates applied one by one in the
   * order of their swaps, each returned loop exactly once; it has at most one
   * entry per owner, and every owner sees the value of its own last update.
   */
  lemma {:induction false} EveryInterleaving(calls: seq<Call>, steps: seq<Step>, owner: string)
    ensures var s := After(calls, Start(calls), steps);
            && ListAt(s.memory, s.current) == InOrder(calls, s.order)
            && (forall t: nat :: t in s.order <==> t < |calls| && |s.phases| == |calls| && s.phases[t].Returned?)
            && (forall i, j :: 0 <= i < j < |s.order| ==> s.order[i] != s.order[j])
            && OnePerOwner(ListAt(s.memory, s.current))
            && Lookup(ListAt(s.memory, s.current), owner) == LastOf(calls, s.order, owner)
  {
    RunKeeps(calls, Start(calls), steps);
    InOrderIsLast(calls, After(calls, Start(calls), steps).order, owner);
  }

  lemma {:induction false} LastOfIsLast(calls: seq<Call>, order: seq<nat>, k: nat)
    requires k < |order| && order[k] < |calls|
    requires forall j :: k < j < |order| && order[j] < |calls| ==> calls[order[j]].owner != calls[order[k]].owner
    ensures LastOf(calls, order, calls[order[k]].owner) == calls[order[k]].value
  {
    if k < |order| - 1 {
      LastOfIsLast(calls, order[..|order| - 1], k);
    }
  }

  /** Updates of other owners never undo a returned update: only a later one of the same owner replaces it. */
  lemma {:induction false} NoUpdateIsLost(calls: seq<Call>, steps: seq<Step>, k: nat)
    requires var s := After(calls, Start(calls), steps);
             k < |s.order| && s.order[k] < |calls|
             && forall j :: k < j < |s.order| && s.order[j] < |calls| ==> calls[s.order[j]].owner != calls[s.order[k]].owner
    ensures var s := After(calls, Start(calls), steps);
            Lookup(ListAt(s.memory, s.current), calls[s.order[k]].owner) == calls[s.order[k]].value
  {
    var s := After(calls, Start(calls), steps);
    EveryInterleaving(calls, steps, calls[s.order[k]].owner);
    LastOfIsLast(calls, s.order, k);
  }

  // ---------- progress ----------

  /** Swaps are only ever added. */
  lemma {:induction false} OrderGrows(calls: seq<Call>, s: State, steps: seq<Step>)
    ensures s.order <= After(calls, s, steps).order
    decreases |steps|
  {
    if steps != [] {
      OrderGrows(calls, Next(calls, s, steps[0]), steps[1..]);
    }
  }

  lemma {:induction false} AfterBoth(calls: seq<Call>, s: State, a: seq<Step>, b: seq<Step>)
    ensures After(calls, s, a + b) == After(calls, After(calls, s, a), b)
    decreases |a|
  {
    if a == [] {
      assert a + b == b;
    } else {
      assert (a + b)[1..] == a[1..] + b;
      AfterBoth(calls, Next(calls, s, a[0]), a[1..], b);
    }
  }

  /** While no swap succeeds the pointer stays, and so does what a loop has loaded. */
  lemma {:induction false} QuietSteps(calls: seq<Call>, s: State, steps: seq<Step>, t: nat)
    requires t < |calls| == |s.phases| && s.phases[t] == Loaded(s.current) && After(calls, s, steps).order == s.order
    ensures var s' := After(calls, s, steps); |s'.phases| == |calls| && s'.current == s.current && s'.memory == s.memory && s'.phases[t] == s.phases[t]
    decreases |steps|
  {
    if steps != [] {
      OrderGrows(calls, Next(calls, s, steps[0]), steps[1..]);
      QuietSteps(calls, Next(calls, s, steps[0]), steps[1..], t);
    }
  }

  /**
   * Whatever happened before: a loop that loads, and then swaps with no swap
   * succeeding in between, has returned; its update is the last one, and its
   * owner sees the value.
   */
  lemma {:induction false} UndisturbedLoopReturns(calls: seq<Call>, before: seq<Step>, t: nat, between: seq<Step>)
    requires t < |calls|
    requires var s := After(calls, Start(calls), before);
             |s.phases| == |calls| && s.phases[t].Begin? && After(calls, s, [Load(t)] + between).order == s.order
    ensures var s := After(calls, Start(calls), before);
            var s' := After(calls, s, [Load(t)] + between + [Swap(t)]);
            && |s'.phases| == |calls| && s'.phases[t].Returned? && s'.order == s.order + [t]
            && Lookup(ListAt(s'.memory, s'.current), calls[t].owner) == calls[t].value
  {
    var s := After(calls, Start(calls), before);
    RunKeeps(calls, Start(calls), before);
    AfterBoth(calls, s, [Load(t)], between);
    AfterBoth(calls, s, [Load(t)] + between, [Swap(t)]);
    var s1 := Next(calls, s, Load(t));
    assert After(calls, s, [Load(t)]) == s1;
    QuietSteps(calls, s1, between, t);
    var s2 := After(calls, s1, between);
    assert After(calls, s2, [Swap(t)]) == Next(calls, s2, Swap(t));
    UpdateIsLocal(ListAt(s2.memory, s2.current), calls[t].owner, calls[t].value, calls[t].owner);
  }

  /**
   * No loop goes round in vain: from its load to its next swap some loop has
   * returned, and if that swap failed it was another one.
   */
  lemma {:induction false} SomeLoopGetsOn(calls: seq<Call>, before: seq<Step>, t: nat, between: seq<Step>)
    requires t < |calls|
    requires var s := After(calls, Start(calls), before); |s.phases| == |calls| && s.phases[t].Begin?
    ensures var s := After(calls, Start(calls), before);
            var s' := After(calls, s, [Load(t)] + between + [Swap(t)]);
            && s.order < s'.order && |s'.phases| == |calls|
            && (!s'.phases[t].Returned? ==> s'.order[|s.order|] != t)
  {
    var s := After(calls, Start(calls), before);
    var s1 := After(calls, s, [Load(t)] + between);
    OrderGrows(calls, s, [Load(t)] + between);
    AfterBoth(calls, s, [Load(t)] + between, [Swap(t)]);
    OrderGrows(calls, s1, [Swap(t)]);
    if s1.order == s.order {
      UndisturbedLoopReturns(calls, before, t, between);
    }
    RunKeeps(calls, Start(calls), before + ([Load(t)] + between + [Swap(t)]));
    AfterBoth(calls, Start(calls), before, [Load(t)] + between + [Swap(t)]);
  }

  /** Left alone, a loop returns at its next swap or the one after, wherever it stands. */
  lemma {:induction false} AnyLoopCanReturn(calls: seq<Call>, before: seq<Step>, t: nat)
    requires t < |calls|
    ensures var s := After(calls, Start(calls), before);
            var s' := After(calls, s, [Swap(t), Load(t), Swap(t)]);
            |s'.phases| == |calls| && s'.phases[t].Returned? && t in s'.order
  {
    var s := After(calls, Start(calls), before);
    RunKeeps(calls, Start(calls), before);
    var s1 := Next(calls, s, Swap(t));
    var s2 := Next(calls, s1, Load(t));
    var s3 := Next(calls, s2, Swap(t));
    assert [Swap(t), Load(t), Swap(t)][1..] == [Load(t), Swap(t)] && [Load(t), Swap(t)][1..] == [Swap(t)];
    assert After(calls, s2, [Swap(t)]) == s3;
    StepKeeps(calls, s, Swap(t));
    StepKeeps(calls, s1, Load(t));
    StepKeeps(calls, s2, Swap(t));
  }

  lemma {:induction false} DistinctBelow(s: seq<nat>, n: nat)
    requires (forall i :: 0 <= i < |s| ==> s[i] < n) && forall i, j :: 0 <= i < j < |s| ==> s[i] != s[j]
    ensures |s| <= n
    decreases n
  {
    if s != [] {
      assert s[0] < n;
      if n - 1 in s {
        var k :| 0 <= k < |s| && s[k] == n - 1;
        DistinctBelow(s[..k] + s[k + 1..], n - 1);
      } else {
        assert forall i :: 0 <= i < |s| ==> s[i] in s;
        DistinctBelow(s, n - 1);
      }
    }
  }

  /** There are at most as many returns as loops, so at most that many rounds one after the other. */
  lemma {:induction false} ReturnsAreBounded(calls: seq<Call>, steps: seq<Step>)
    ensures |After(calls, Start(calls), steps).order| <= |calls|
  {
    var s := After(calls, Start(calls), steps);
    EveryInterleaving(calls, steps, "");
    assert forall i :: 0 <= i < |s.order| ==> s.order[i] in s.order;
    DistinctBelow(s.order, |calls|);
  }

  // ---------- the code ----------

  /** The embedded aux value: the atomic pointer to the list. */
  class AuxList {
    var entries: Option<seq<Entry>>

    /** The inner loop of SetAux: the list to swap in. */
    static method Rebuild(loaded: Option<seq<Entry>>, owner: string, value: Option<string>) returns (next: Option<seq<Entry>>)
      ensures Or(next, []) == Updated(Or(loaded, []), owner, value)
      ensures next.None? <==> Or(next, []) == []
    {
      var list: seq<Entry> := [];
      if loaded.Some? {
        for i := 0 to |loaded.value|
          invariant list == Others(loaded.value[..i], owner)
        {
          assert loaded.value[..i + 1][..i] == loaded.value[..i];
          if loaded.value[i].owner != owner {
            list := list + [loaded.value[i]];
          }
        }
        assert loaded.value[..|loaded.value|] == loaded.value;
      }
      if value.Some? {
        list := list + [Entry(owner, value.value)];
      }
      next := if |list| != 0 then Some(list) else None;
    }

    /** SetAux when no other loop interferes; how loops interleave is the subject of Next. */
    method SetAux(owner: string, value: Option<string>)
      modifies this
      ensures Or(entries, []) == Updated(old(Or(entries, [])), owner, value)
    {
      var loaded := entries;
      entries := Rebuild(loaded, owner, value);
    }

    /** Aux. */
    method Aux(owner: string) returns (value: Option<string>)
      ensures value == Lookup(Or(entries, []), owner)
    {
      if entries.Some? {
        for i := 0 to |entries.value|
          invariant Lookup(entries.value, owner) == Lookup(entries.value[i..], owner)
        {
          if entries.value[i].owner == owner {
            return Some(entries.value[i].value);
          }
          assert entries.value[i..][1..] == entries.value[i + 1..];
        }
      }
      value := None;
    }
  }
}
