/** Replay of the journal's chunk events, which `upload` checks before it resumes. */
module RecoveryReplay {
  import opened Wrappers
  import opened RecoveryModel

  datatype Status = Status(state: Progress, chunk: Chunk)

  /** The `states` dictionary and `previous_index` after some events. */
  datatype Replayed = Replayed(states: map<int, Status>, last: int)

  const NOTHING: Replayed := Replayed(map[], -1)

  predicate Advances(before: Progress, after: Progress) {
    || (before.Prepared? && after.Uploaded?)
    || (before.Uploaded? && after.Verified?)
    || (before.Prepared? && after.Verified?)
  }

  /** The transition check of one event. */
  predicate Accepts(r: Replayed, state: Progress, chunk: Chunk) {
    || (&& state.Prepared? && chunk.index !in r.states && chunk.index == r.last + 1
        && (r.last < 0 || (r.last in r.states && r.states[r.last].state.Verified?)))
    || (&& chunk.index in r.states && r.states[chunk.index].chunk == chunk
        && Advances(r.states[chunk.index].state, state))
  }

  function After(r: Replayed, state: Progress, chunk: Chunk): Replayed {
    Replayed(r.states[chunk.index := Status(state, chunk)], chunk.index)
  }

  /** The whole check, or None where the tool refuses to resume. */
  function Replay(events: seq<Event>): Option<Replayed> {
    if events == [] then Some(NOTHING)
    else
      var e := events[|events| - 1];
      match Replay(events[..|events| - 1])
      case None => None
      case Some(r) =>
        if e.ChunkEvent? && Accepts(r, e.state, e.chunk) then Some(After(r, e.state, e.chunk)) else None
  }

  /** Chunks 0..last are known, all but the last of them verified. */
  ghost predicate Contiguous(r: Replayed) {
    && -1 <= r.last
    && (forall j :: j in r.states <==> 0 <= j <= r.last)
    && (forall j :: 0 <= j < r.last ==> r.states[j].state.Verified?)
    && (forall j :: j in r.states ==> r.states[j].chunk.index == j && !r.states[j].state.OtherState?)
  }

  lemma {:induction false} AfterContiguous(r: Replayed, state: Progress, chunk: Chunk)
    requires Contiguous(r) && Accepts(r, state, chunk)
    ensures Contiguous(After(r, state, chunk))
    ensures chunk.index == r.last || chunk.index == r.last + 1
  {
  }

  /**
   * Every journal the check accepts, whoever wrote it, describes a contiguous
   * run of chunks of which at most the last is unfinished. (An event may name
   * any earlier index, but no transition leaves the verified state.)
   */
  lemma {:induction false} AcceptedLogIsContiguous(events: seq<Event>)
    requires Replay(events).Some?
    ensures Contiguous(Replay(events).value)
  {
    if events != [] {
      var e := events[|events| - 1];
      AcceptedLogIsContiguous(events[..|events| - 1]);
      AfterContiguous(Replay(events[..|events| - 1]).value, e.state, e.chunk);
    }
  }

  lemma {:induction false} ReplayAppend(events: seq<Event>, state: Progress, chunk: Chunk)
    requires Replay(events).Some? && Accepts(Replay(events).value, state, chunk)
    ensures Replay(events + [ChunkEvent(state, chunk)]) == Some(After(Replay(events).value, state, chunk))
  {
    assert (events + [ChunkEvent(state, chunk)])[..|events|] == events;
  }

  lemma {:induction false} ReplayPrefix(events: seq<Event>, k: nat)
    requires k <= |events| && Replay(events).Some?
    ensures Replay(events[..k]).Some?
    decreases |events|
  {
    if k < |events| {
      ReplayPrefix(events[..|events| - 1], k);
      assert events[..|events| - 1][..k] == events[..k];
    } else {
      assert events[..k] == events;
    }
  }

  // ---------- exactly which logs are accepted ----------

  /** What a log may tell of a chunk: prepared, then uploaded, then verified; or verified without an upload of its own. */
  datatype Track = ToPrepared | ToUploaded | ToVerified | Reconciled

  datatype Told = Told(chunk: Chunk, track: Track)

  function Reached(track: Track): Progress {
    match track
    case ToPrepared => Prepared
    case ToUploaded => Uploaded
    case ToVerified => Verified
    case Reconciled => Verified
  }

  function Tale(t: Told): seq<Event> {
    match t.track
    case ToPrepared => [ChunkEvent(Prepared, t.chunk)]
    case ToUploaded => [ChunkEvent(Prepared, t.chunk), ChunkEvent(Uploaded, t.chunk)]
    case ToVerified => [ChunkEvent(Prepared, t.chunk), ChunkEvent(Uploaded, t.chunk), ChunkEvent(Verified, t.chunk)]
    case Reconciled => [ChunkEvent(Prepared, t.chunk), ChunkEvent(Verified, t.chunk)]
  }

  function Spelled(ts: seq<Told>): seq<Event> {
    if ts == [] then [] else Spelled(ts[..|ts| - 1]) + Tale(ts[|ts| - 1])
  }

  /** Chunk after chunk, each under its own number and finished before the next. */
  predicate Orderly(ts: seq<Told>) {
    forall k :: 0 <= k < |ts| ==> ts[k].chunk.index == k && (k < |ts| - 1 ==> Reached(ts[k].track).Verified?)
  }

  /** The replay knows of these chunks, and how far they got. */
  ghost predicate Knows(r: Replayed, ts: seq<Told>) {
    && r.last == |ts| - 1 && (forall j :: j in r.states <==> 0 <= j < |ts|)
    && forall k :: 0 <= k < |ts| ==> r.states[k] == Status(Reached(ts[k].track), ts[k].chunk)
  }

  lemma {:induction false} SpelledMore(ts: seq<Told>, t: Told)
    ensures Spelled(ts + [t]) == Spelled(ts) + Tale(t)
  {
    assert (ts + [t])[..|ts|] == ts;
  }

  lemma {:induction false} AnotherChunk(events: seq<Event>, ts: seq<Told>, c: Chunk)
    requires Orderly(ts + [Told(c, ToPrepared)]) && Replay(events).Some? && Knows(Replay(events).value, ts)
    ensures var more := events + [ChunkEvent(Prepared, c)];
            Replay(more).Some? && Knows(Replay(more).value, ts + [Told(c, ToPrepared)])
  {
    var all := ts + [Told(c, ToPrepared)];
    assert c.index == |ts| by {
      assert all[|ts|] == Told(c, ToPrepared);
    }
    assert |ts| > 0 ==> Reached(all[|ts| - 1].track).Verified?;
    ReplayAppend(events, Prepared, c);
  }

  lemma {:induction false} FurtherOn(events: seq<Event>, ts: seq<Told>, c: Chunk, a: Track, state: Progress, b: Track)
    requires c.index == |ts| && Replay(events).Some? && Knows(Replay(events).value, ts + [Told(c, a)])
    requires Advances(Reached(a), state) && Reached(b) == state
    ensures var more := events + [ChunkEvent(state, c)];
            Replay(more).Some? && Knows(Replay(more).value, ts + [Told(c, b)])
  {
    var was, now := ts + [Told(c, a)], ts + [Told(c, b)];
    assert was[|ts|] == Told(c, a) && now[|ts|] == Told(c, b);
    assert forall k :: 0 <= k < |ts| ==> was[k] == ts[k] && now[k] == ts[k];
    ReplayAppend(events, state, c);
  }

  lemma {:induction false} OrderlyLess(ts: seq<Told>)
    requires Orderly(ts) && ts != []
    ensures Orderly(ts[..|ts| - 1]) && Orderly(ts[..|ts| - 1] + [Told(ts[|ts| - 1].chunk, ToPrepared)])
  {
  }

  lemma {:induction false} OrderlyIsAccepted(ts: seq<Told>)
    requires Orderly(ts)
    ensures Replay(Spelled(ts)).Some? && Knows(Replay(Spelled(ts)).value, ts)
  {
    if ts != [] {
      var before, t := ts[..|ts| - 1], ts[|ts| - 1];
      var events, c := Spelled(before), t.chunk;
      OrderlyLess(ts);
      OrderlyIsAccepted(before);
      AnotherChunk(events, before, c);
      assert before + [t] == ts;
      var one := events + [ChunkEvent(Prepared, c)];
      if t.track.ToUploaded? || t.track.ToVerified? {
        FurtherOn(one, before, c, ToPrepared, Uploaded, ToUploaded);
        var two := one + [ChunkEvent(Uploaded, c)];
        assert two == events + [ChunkEvent(Prepared, c), ChunkEvent(Uploaded, c)];
        if t.track.ToVerified? {
          FurtherOn(two, before, c, ToUploaded, Verified, ToVerified);
          assert two + [ChunkEvent(Verified, c)] == events + Tale(t);
        }
      } else if t.track.Reconciled? {
        FurtherOn(one, before, c, ToPrepared, Verified, Reconciled);
        assert one + [ChunkEvent(Verified, c)] == events + Tale(t);
      }
    }
  }

  /** The track of a chunk that gets on. */
  function Onward(track: Track, state: Progress): Track {
    if state.Uploaded? then ToUploaded else if track.ToPrepared? then Reconciled else ToVerified
  }

  lemma {:induction false} TaleGrows(t: Told, state: Progress)
    requires Advances(Reached(t.track), state)
    ensures Tale(t) + [ChunkEvent(state, t.chunk)] == Tale(t.(track := Onward(t.track, state))) && Reached(Onward(t.track, state)) == state
  {
  }

  lemma {:induction false} NextIsTold(ts: seq<Told>, r: Replayed, c: Chunk)
    requires Orderly(ts) && Knows(r, ts) && Accepts(r, Prepared, c) && c.index !in r.states
    ensures Orderly(ts + [Told(c, ToPrepared)]) && Knows(After(r, Prepared, c), ts + [Told(c, ToPrepared)])
  {
    var all := ts + [Told(c, ToPrepared)];
    assert |ts| > 0 ==> r.states[|ts| - 1] == Status(Reached(ts[|ts| - 1].track), ts[|ts| - 1].chunk);
    assert forall k :: 0 <= k < |ts| ==> all[k] == ts[k];
  }

  lemma {:induction false} LastIsTold(ts: seq<Told>, r: Replayed, state: Progress, c: Chunk)
    requires Orderly(ts) && Knows(r, ts) && Accepts(r, state, c) && c.index in r.states
    ensures ts != [] && ts[|ts| - 1].chunk == c && Advances(Reached(ts[|ts| - 1].track), state)
  {
    var k := c.index;
    assert r.states[k] == Status(Reached(ts[k].track), ts[k].chunk);
  }

  lemma {:induction false} LastGetsOn(ts: seq<Told>, r: Replayed, state: Progress, track: Track)
    requires ts != [] && Orderly(ts) && Knows(r, ts) && Reached(track) == state
    ensures var n := |ts| - 1;
            Orderly(ts[n := ts[n].(track := track)]) && Knows(After(r, state, ts[n].chunk), ts[n := ts[n].(track := track)])
  {
  }

  /** One more accepted event is another chunk, or the last one getting on. */
  lemma {:induction false} AcceptedGrows(ts: seq<Told>, r: Replayed, state: Progress, c: Chunk) returns (all: seq<Told>)
    requires Orderly(ts) && Knows(r, ts) && Accepts(r, state, c)
    ensures Orderly(all) && Knows(After(r, state, c), all) && Spelled(all) == Spelled(ts) + [ChunkEvent(state, c)]
  {
    if c.index !in r.states {
      all := ts + [Told(c, ToPrepared)];
      NextIsTold(ts, r, c);
      SpelledMore(ts, Told(c, ToPrepared));
    } else {
      LastIsTold(ts, r, state, c);
      var n := |ts| - 1;
      TaleGrows(ts[n], state);
      all := ts[n := ts[n].(track := Onward(ts[n].track, state))];
      LastGetsOn(ts, r, state, Onward(ts[n].track, state));
      assert all[..n] == ts[..n];
    }
  }

  lemma {:induction false} AcceptedIsOrderly(events: seq<Event>) returns (ts: seq<Told>)
    requires Replay(events).Some?
    ensures Orderly(ts) && Spelled(ts) == events && Knows(Replay(events).value, ts)
  {
    ts := [];
    if events != [] {
      var n := |events| - 1;
      ts := AcceptedIsOrderly(events[..n]);
      var e := events[n];
      ts := AcceptedGrows(ts, Replay(events[..n]).value, e.state, e.chunk);
      assert events[..n] + [e] == events;
    }
  }

  /**
   * The check accepts a log if and only if it tells of chunk after chunk, each
   * with one record throughout, prepared, perhaps uploaded, and verified before
   * the next; only the last may be unfinished.
   */
  lemma {:induction false} AcceptedWhen(events: seq<Event>)
    ensures Replay(events).Some? <==> exists ts :: Orderly(ts) && Spelled(ts) == events
    ensures forall ts :: Orderly(ts) && Spelled(ts) == events ==> Replay(events).Some? && Knows(Replay(events).value, ts)
  {
    if Replay(events).Some? {
      var ts := AcceptedIsOrderly(events);
    }
    forall ts | Orderly(ts) && Spelled(ts) == events
      ensures Replay(events).Some? && Knows(Replay(events).value, ts)
    {
      OrderlyIsAccepted(ts);
    }
  }

  /** The loop of `upload` over the events that follow the header. */
  method CheckTransitions(events: seq<Event>) returns (ok: bool, states: map<int, Status>)
    requires |events| > 0
    ensures ok == Replay(events[1..]).Some?
    ensures ok ==> states == Replay(events[1..]).value.states
  {
    states := map[];
    var previousIndex := -1;
    var rest := events[1..];
    for k := 0 to |rest|
      invariant Replay(rest[..k]) == Some(Replayed(states, previousIndex))
    {
      var e := rest[k];
      assert rest[..k + 1][..k] == rest[..k];
      if !e.ChunkEvent? || !Accepts(Replayed(states, previousIndex), e.state, e.chunk) {
        if Replay(rest).Some? {
          ReplayPrefix(rest, k + 1);
        }
        return false, states;
      }
      states := states[e.chunk.index := Status(e.state, e.chunk)];
      previousIndex := e.chunk.index;
    }
    assert rest[..|rest|] == rest;
    return true, states;
  }
}
