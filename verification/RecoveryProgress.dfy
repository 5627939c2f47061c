/**
 * An interrupted session can always be finished: given a compressor that gives
 * the unfinished chunk again and a store that takes what it is sent, from
 * whatever a history has left some further steps complete the upload.
 */
module RecoveryProgress {
  import opened Wrappers
  import opened RecoveryModel
  import opened RecoveryJournal
  import opened RecoveryReplay
  import opened RecoveryProtocol
  import opened RecoverySafety
  import opened RecoveryRestore
  import opened RecoveryTheorems

  /** The compressed form of each chunk. */
  ghost predicate Zips(w: World, h: Header, zip: nat -> Bytes) {
    forall i: nat :: OffsetOf(h, i) < h.source.size ==> Compresses(w, h, i, zip(i))
  }

  /** What chunk j will be in the manifest: a verified one as it is recorded, any other as the compressor gives it. */
  ghost function Expected(w: World, h: Header, zip: nat -> Bytes, states: map<int, Status>, j: nat): Chunk {
    if j in states && states[j].state.Verified? then states[j].chunk else ChunkOf(w, h, j, zip(j))
  }

  ghost predicate FitsAt(w: World, h: Header, zip: nat -> Bytes, states: map<int, Status>, j: nat) {
    && j in states && !states[j].state.OtherState? && Recorded(w, h, j, states[j].chunk)
    && states[j].chunk == Expected(w, h, zip, states, j)
  }

  /** The journal has chunks 0..last, and one it does not call verified is what the compressor gives. */
  ghost predicate StatesFit(w: World, h: Header, zip: nat -> Bytes, states: map<int, Status>, last: int) {
    && (forall j :: j in states <==> 0 <= j <= last)
    && (forall j: nat {:trigger states[j]} :: j in states ==> FitsAt(w, h, zip, states, j))
  }

  /** A run at the head of the loop, with the chunks so far as expected. */
  ghost predicate Ready(w: World, h: Header, zip: nat -> Bytes, last: int, states: map<int, Status>, run: Run) {
    && run.Active? && run.header == h && run.phase.AtChunk? && |run.chunks| == run.i && run.states == states
    && (run.i > 0 ==> OffsetOf(h, run.i - 1) < h.source.size)
    && (forall j :: 0 <= j < run.i ==> run.chunks[j] == Expected(w, h, zip, states, j))
    && StatesFit(w, h, zip, states, last)
  }

  // ---------- continuing a history ----------

  lemma {:induction false} HistoryJoined(w: World, s: State, a: seq<Step>, t: State, b: seq<Step>)
    requires History(w, s, a) == Some(t)
    ensures History(w, s, a + b) == History(w, t, b)
    decreases |b|
  {
    if b == [] {
      assert a + b == a;
    } else {
      assert (a + b)[..|a + b| - 1] == a + b[..|b| - 1];
      HistoryJoined(w, s, a, t, b[..|b| - 1]);
    }
  }

  lemma {:induction false} OneMore(w: World, s: State, steps: seq<Step>, t: State, step: Step)
    requires History(w, s, steps) == Some(t) && Enabled(w, t, step)
    ensures History(w, s, steps + [step]) == Some(Apply(w, t, step))
  {
    assert (steps + [step])[..|steps|] == steps;
  }

  // ---------- one chunk ----------

  /** Getting the chunk into staging. */
  lemma {:induction false} StageIt(w: World, s: State, z: Bytes) returns (step: Step, t: State)
    requires s.run.Active? && s.run.phase.NeedUpload? && Compresses(w, s.run.header, s.run.i, z)
    requires s.run.phase.chunk == ChunkOf(w, s.run.header, s.run.i, z)
    ensures Enabled(w, s, step) && Apply(w, s, step) == t
    ensures t.run == s.run.(phase := ReadyUpload(s.run.phase.chunk, s.run.phase.state))
  {
    if Staged(w, s.stage, s.run.i, s.run.phase.chunk) {
      step := Work(UseStaged);
      t := s.(run := s.run.(phase := ReadyUpload(s.run.phase.chunk, s.run.phase.state)));
    } else {
      step := Work(Regenerate(z));
      t := s.(stage := s.stage[s.run.i := z], run := s.run.(phase := ReadyUpload(s.run.phase.chunk, s.run.phase.state)));
    }
  }

  /** Sending it. */
  lemma {:induction false} SendIt(w: World, s: State, z: Bytes) returns (t: State)
    requires s.run.Active? && s.run.phase.ReadyUpload? && z in w.play && s.run.phase.chunk.index >= 0
    ensures Enabled(w, s, Work(Transfer(z))) && Apply(w, s, Work(Transfer(z))) == t
    ensures t.run == s.run.(phase := if s.run.phase.state.Prepared? then RecordUploaded(s.run.phase.chunk) else ReadBack(s.run.phase.chunk))
    ensures t.remote == s.remote[ChunkPath(s.run.header, s.run.phase.chunk) := z]
  {
    t := Apply(w, s, Work(Transfer(z)));
  }

  /** Recording progress. */
  lemma {:induction false} RecordIt(w: World, s: State) returns (t: State)
    requires s.run.Active? && Pending(s.run.phase).Some?
    ensures Enabled(w, s, Append) && Apply(w, s, Append) == t
    ensures t.run == s.run.(events := t.run.events, phase := AfterAppend(s.run.phase)) && t.remote == s.remote
  {
    t := Apply(w, s, Append);
  }

  /** Recording it as verified and releasing it. */
  lemma {:induction false} VerifyIt(w: World, s: State, steps: seq<Step>, u: State) returns (t: State)
    requires History(w, s, steps) == Some(u) && u.run.Active? && u.run.phase.RecordVerified?
    ensures History(w, s, steps + [Append] + [Work(ReleaseChunk)]) == Some(t) && Advanced(u.run, t.run, u.run.phase.chunk) && t.remote == u.remote
  {
    var u1 := RecordIt(w, u);
    OneMore(w, s, steps, u, Append);
    t := ReleaseIt(w, u1);
    OneMore(w, s, steps + [Append], u1, Work(ReleaseChunk));
  }

  /** Reading it back before. */
  lemma {:induction false} ConfirmIt(w: World, s: State, steps: seq<Step>, u: State) returns (steps': seq<Step>, t: State)
    requires History(w, s, steps) == Some(u) && u.run.Active? && u.run.phase.ReadBack?
    requires RemoteMatches(w, u.remote, u.run.header, u.run.phase.chunk)
    ensures History(w, s, steps') == Some(t) && Advanced(u.run, t.run, u.run.phase.chunk)
  {
    var u1 := u.(run := u.run.(phase := RecordVerified(u.run.phase.chunk)));
    assert Apply(w, u, Work(ReadBackOk)) == u1;
    OneMore(w, s, steps, u, Work(ReadBackOk));
    t := VerifyIt(w, s, steps + [Work(ReadBackOk)], u1);
    steps' := steps + [Work(ReadBackOk)] + [Append] + [Work(ReleaseChunk)];
  }

  /** An object that is there already, intact, is recorded as verified without being sent again; the store is not touched. */
  lemma {:induction false} IntactIsNotSent(w: World, s: State, steps: seq<Step>, u: State) returns (t: State)
    requires History(w, s, steps) == Some(u) && u.run.Active? && u.run.phase.Reconcile?
    requires RemoteMatches(w, u.remote, u.run.header, u.run.phase.chunk)
    ensures History(w, s, steps + [Work(ReconcileOk)] + [Append] + [Work(ReleaseChunk)]) == Some(t)
    ensures Advanced(u.run, t.run, u.run.phase.chunk) && t.remote == u.remote
  {
    var u1 := u.(run := u.run.(phase := RecordVerified(u.run.phase.chunk)));
    assert Apply(w, u, Work(ReconcileOk)) == u1;
    OneMore(w, s, steps, u, Work(ReconcileOk));
    t := VerifyIt(w, s, steps + [Work(ReconcileOk)], u1);
  }

  lemma {:induction false} ReleaseIt(w: World, s: State) returns (t: State)
    requires s.run.Active? && s.run.phase.Release?
    ensures Enabled(w, s, Work(ReleaseChunk)) && Apply(w, s, Work(ReleaseChunk)) == t && t.remote == s.remote
    ensures t.run == s.run.(i := s.run.i + 1, chunks := s.run.chunks + [s.run.phase.chunk], phase := AtChunk)
  {
    t := Apply(w, s, Work(ReleaseChunk));
  }

  /** From the need to upload to the next chunk. */
  lemma {:induction false} UploadIt(w: World, s: State, steps: seq<Step>, u: State, z: Bytes) returns (steps': seq<Step>, t: State)
    requires History(w, s, steps) == Some(u) && u.run.Active? && u.run.phase.NeedUpload?
    requires Compresses(w, u.run.header, u.run.i, z) && u.run.phase.chunk == ChunkOf(w, u.run.header, u.run.i, z)
    ensures History(w, s, steps') == Some(t) && t.run.Active?
    ensures t.run == u.run.(events := t.run.events, i := u.run.i + 1, chunks := u.run.chunks + [u.run.phase.chunk], phase := AtChunk)
  {
    var chunk, state := u.run.phase.chunk, u.run.phase.state;
    var step, u1 := StageIt(w, u, z);
    OneMore(w, s, steps, u, step);
    var u2 := SendIt(w, u1, z);
    OneMore(w, s, steps + [step], u1, Work(Transfer(z)));
    var sofar := steps + [step] + [Work(Transfer(z))];
    assert RemoteMatches(w, u2.remote, u.run.header, chunk);
    if state.Prepared? {
      var u3 := RecordIt(w, u2);
      OneMore(w, s, sofar, u2, Append);
      steps', t := ConfirmIt(w, s, sofar + [Append], u3);
    } else {
      steps', t := ConfirmIt(w, s, sofar, u2);
    }
  }

  /** Preparing a chunk the journal does not know and recording it. */
  lemma {:induction false} PrepareIt(w: World, s: State, steps: seq<Step>, u: State, z: Bytes) returns (steps': seq<Step>, t: State)
    requires History(w, s, steps) == Some(u) && u.run.Active? && u.run.phase.ToPrepare? && Compresses(w, u.run.header, u.run.i, z)
    ensures History(w, s, steps') == Some(t) && t.run.Active?
    ensures t.run == u.run.(events := t.run.events, phase := NeedUpload(ChunkOf(w, u.run.header, u.run.i, z), Prepared))
  {
    var chunk := ChunkOf(w, u.run.header, u.run.i, z);
    var u1 := u.(stage := u.stage[u.run.i := z], run := u.run.(phase := RecordPrepared(chunk)));
    assert Apply(w, u, Work(Prepare(z))) == u1;
    OneMore(w, s, steps, u, Work(Prepare(z)));
    t := RecordIt(w, u1);
    OneMore(w, s, steps + [Work(Prepare(z))], u1, Append);
    steps' := steps + [Work(Prepare(z))] + [Append];
  }

  lemma {:induction false} BeginIt(w: World, s: State) returns (t: State)
    requires s.run.Active? && s.run.phase.AtChunk? && OffsetOf(s.run.header, s.run.i) < s.run.header.source.size
    ensures Enabled(w, s, Work(BeginChunk)) && Apply(w, s, Work(BeginChunk)) == t && t == s.(run := Begun(s.run))
  {
    t := Apply(w, s, Work(BeginChunk));
  }

  /** The run after a round: the next chunk, with this one added. */
  ghost predicate Advanced(run: Run, run': Run, chunk: Chunk)
    requires run.Active?
  {
    run'.Active? && run' == run.(events := run'.events, i := run.i + 1, chunks := run.chunks + [chunk], phase := AtChunk)
  }

  /** A chunk the journal does not know. */
  lemma {:induction false} NewChunk(w: World, s: State, steps: seq<Step>, u: State, z: Bytes) returns (steps': seq<Step>, t: State)
    requires History(w, s, steps) == Some(u) && u.run.Active? && u.run.phase.ToPrepare? && Compresses(w, u.run.header, u.run.i, z)
    ensures History(w, s, steps') == Some(t) && Advanced(u.run, t.run, ChunkOf(w, u.run.header, u.run.i, z))
  {
    var more, u1 := PrepareIt(w, s, steps, u, z);
    steps', t := UploadIt(w, s, more, u1, z);
  }

  /** A chunk the journal has as prepared or uploaded; the object is not trusted. */
  lemma {:induction false} UnfinishedChunk(w: World, s: State, steps: seq<Step>, u: State, z: Bytes) returns (steps': seq<Step>, t: State)
    requires History(w, s, steps) == Some(u) && u.run.Active? && u.run.phase.Reconcile? && Compresses(w, u.run.header, u.run.i, z)
    requires u.run.phase.chunk == ChunkOf(w, u.run.header, u.run.i, z)
    ensures History(w, s, steps') == Some(t) && Advanced(u.run, t.run, ChunkOf(w, u.run.header, u.run.i, z))
  {
    var u1 := u.(run := u.run.(phase := NeedUpload(u.run.phase.chunk, u.run.phase.state)));
    assert Apply(w, u, Work(ReconcileFail)) == u1;
    OneMore(w, s, steps, u, Work(ReconcileFail));
    steps', t := UploadIt(w, s, steps + [Work(ReconcileFail)], u1, z);
  }

  /** A chunk the journal has as verified. */
  lemma {:induction false} FinishedChunk(w: World, s: State, steps: seq<Step>, u: State) returns (steps': seq<Step>, t: State)
    requires History(w, s, steps) == Some(u) && u.run.Active? && u.run.phase.Release?
    ensures History(w, s, steps') == Some(t) && Advanced(u.run, t.run, u.run.phase.chunk)
  {
    t := ReleaseIt(w, u);
    OneMore(w, s, steps, u, Work(ReleaseChunk));
    steps' := steps + [Work(ReleaseChunk)];
  }

  /** What the head of the loop makes of the next chunk. */
  lemma {:induction false} BegunWith(w: World, h: Header, zip: nat -> Bytes, last: int, states: map<int, Status>, run: Run)
    requires WorldOk(w) && HeaderOk(h) && Zips(w, h, zip) && Ready(w, h, zip, last, states, run) && OffsetOf(h, run.i) < h.source.size
    ensures var chunk := Expected(w, h, zip, states, run.i);
            var phase := if run.i !in run.states then ToPrepare
                         else if run.states[run.i].state.Verified? then Release(chunk)
                         else Reconcile(chunk, run.states[run.i].state);
            Begun(run) == run.(phase := phase)
  {
    var i := run.i;
    if i in run.states {
      assert FitsAt(w, h, zip, states, i);
      RecordedIsValid(w, h, i, states[i].chunk);
    }
  }

  /** One round of the loop, whatever the journal says about the chunk. */
  lemma {:induction false} OneChunk(w: World, h: Header, zip: nat -> Bytes, last: int, states: map<int, Status>, s: State) returns (steps: seq<Step>, t: State)
    requires WorldOk(w) && HeaderOk(h) && Zips(w, h, zip) && Ready(w, h, zip, last, states, s.run) && OffsetOf(h, s.run.i) < h.source.size
    ensures History(w, s, steps) == Some(t) && Advanced(s.run, t.run, Expected(w, h, zip, states, s.run.i))
  {
    var z := zip(s.run.i);
    assert Compresses(w, h, s.run.i, z);
    var u := BeginIt(w, s);
    OneMore(w, s, [], s, Work(BeginChunk));
    BegunWith(w, h, zip, last, states, s.run);
    steps := [] + [Work(BeginChunk)];
    if u.run.phase.ToPrepare? {
      steps, t := NewChunk(w, s, steps, u, z);
    } else if u.run.phase.Release? {
      steps, t := FinishedChunk(w, s, steps, u);
    } else {
      steps, t := UnfinishedChunk(w, s, steps, u, z);
    }
  }

  // ---------- all chunks, then the manifest ----------

  lemma {:induction false} ReadyNext(w: World, h: Header, zip: nat -> Bytes, last: int, states: map<int, Status>, run: Run, run': Run)
    requires Ready(w, h, zip, last, states, run) && OffsetOf(h, run.i) < h.source.size
    requires Advanced(run, run', Expected(w, h, zip, states, run.i))
    ensures Ready(w, h, zip, last, states, run')
  {
  }

  lemma {:induction false} AllChunks(w: World, h: Header, zip: nat -> Bytes, last: int, states: map<int, Status>, s: State) returns (steps: seq<Step>, t: State)
    requires WorldOk(w) && HeaderOk(h) && Zips(w, h, zip) && Ready(w, h, zip, last, states, s.run)
    ensures History(w, s, steps) == Some(t) && Ready(w, h, zip, last, states, t.run) && OffsetOf(h, t.run.i) >= h.source.size
    decreases h.source.size - OffsetOf(h, s.run.i)
  {
    steps, t := [], s;
    if OffsetOf(h, s.run.i) < h.source.size {
      var first, u := OneChunk(w, h, zip, last, states, s);
      ReadyNext(w, h, zip, last, states, s.run, u.run);
      var rest;
      rest, t := AllChunks(w, h, zip, last, states, u);
      HistoryJoined(w, s, first, u, rest);
      steps := first + rest;
    }
  }

  /** Every chunk of the source, as expected. */
  ghost predicate IsChunkList(w: World, h: Header, zip: nat -> Bytes, states: map<int, Status>, chunks: seq<Chunk>) {
    && OffsetOf(h, |chunks|) >= h.source.size && (chunks == [] || OffsetOf(h, |chunks| - 1) < h.source.size)
    && forall j :: 0 <= j < |chunks| ==> chunks[j] == Expected(w, h, zip, states, j)
  }

  /** The manifest of the finished session can be sent. */
  ghost predicate ManifestFits(w: World, h: Header, zip: nat -> Bytes, states: map<int, Status>) {
    forall chunks {:trigger IsChunkList(w, h, zip, states, chunks)} :: IsChunkList(w, h, zip, states, chunks) ==>
      w.codec.encodeManifest(Manifest(h, chunks)) in w.play && |w.codec.encodeManifest(Manifest(h, chunks))| <= MANIFEST_LIMIT
  }

  lemma {:induction false} OffsetsGrow(h: Header, i: nat, j: nat)
    requires h.chunkSize > 0 && i <= j
    ensures OffsetOf(h, i) <= OffsetOf(h, j)
    decreases j
  {
    if i < j {
      OffsetsGrow(h, i, j - 1);
    }
  }

  ghost function UpTo(n: nat): (r: set<int>)
    ensures |r| == n && forall m: int :: m in r <==> 0 <= m < n
  {
    if n == 0 then {} else UpTo(n - 1) + {n - 1}
  }

  /** The journal does not know more chunks than the source has. */
  lemma {:induction false} NoChunksBeyond(w: World, h: Header, zip: nat -> Bytes, last: int, states: map<int, Status>, run: Run)
    requires HeaderOk(h) && Ready(w, h, zip, last, states, run) && last >= -1 && OffsetOf(h, run.i) >= h.source.size
    ensures |run.states| <= |run.chunks|
  {
    assert run.states.Keys == UpTo(last + 1);
    if last >= run.i {
      assert FitsAt(w, h, zip, states, last);
      OffsetsGrow(h, run.i, last);
    }
  }

  /** The checks after the loop pass. */
  lemma {:induction false} FinishIt(w: World, h: Header, zip: nat -> Bytes, last: int, states: map<int, Status>, s: State)
    requires WorldOk(w) && HeaderOk(h) && ManifestFits(w, h, zip, states) && last >= -1
    requires Ready(w, h, zip, last, states, s.run) && OffsetOf(h, s.run.i) >= h.source.size
    ensures w.codec.encodeManifest(Manifest(h, s.run.chunks)) in w.play
    ensures Enabled(w, s, Work(FinishChunks)) && Apply(w, s, Work(FinishChunks)) == s.(run := s.run.(phase := SendManifest))
  {
    NoChunksBeyond(w, h, zip, last, states, s.run);
    assert IsChunkList(w, h, zip, states, s.run.chunks);
  }

  /** The manifest is sent and read back. */
  lemma {:induction false} ManifestIt(w: World, s: State, steps: seq<Step>, u: State, data: Bytes) returns (steps': seq<Step>, t: State)
    requires History(w, s, steps) == Some(u) && u.run.Active? && u.run.phase.SendManifest?
    requires data == w.codec.encodeManifest(Manifest(u.run.header, u.run.chunks)) && data in w.play
    ensures History(w, s, steps') == Some(t) && t.run == Done(Manifest(u.run.header, u.run.chunks))
  {
    var m := Manifest(u.run.header, u.run.chunks);
    var v := u.(remote := u.remote[ManifestPath(u.run.header) := data], run := u.run.(phase := CheckManifest));
    assert Apply(w, u, Work(TransferManifest(data))) == v;
    OneMore(w, s, steps, u, Work(TransferManifest(data)));
    assert ManifestMatches(w, v.remote, m);
    t := v.(run := Done(m));
    assert Apply(w, v, Work(ManifestOk)) == t;
    OneMore(w, s, steps + [Work(TransferManifest(data))], v, Work(ManifestOk));
    steps' := steps + [Work(TransferManifest(data))] + [Work(ManifestOk)];
  }

  lemma {:induction false} SendTheManifest(w: World, h: Header, zip: nat -> Bytes, last: int, states: map<int, Status>, s: State) returns (steps: seq<Step>, t: State)
    requires WorldOk(w) && HeaderOk(h) && ManifestFits(w, h, zip, states) && last >= -1
    requires Ready(w, h, zip, last, states, s.run) && OffsetOf(h, s.run.i) >= h.source.size
    ensures History(w, s, steps) == Some(t) && t.run == Done(Manifest(h, s.run.chunks))
  {
    FinishIt(w, h, zip, last, states, s);
    OneMore(w, s, [], s, Work(FinishChunks));
    steps, t := ManifestIt(w, s, [] + [Work(FinishChunks)], s.(run := s.run.(phase := SendManifest)),
                           w.codec.encodeManifest(Manifest(h, s.run.chunks)));
  }

  lemma {:induction false} RunCanFinish(w: World, h: Header, zip: nat -> Bytes, last: int, states: map<int, Status>, s: State) returns (steps: seq<Step>, t: State)
    requires WorldOk(w) && HeaderOk(h) && Zips(w, h, zip) && ManifestFits(w, h, zip, states) && last >= -1 && Ready(w, h, zip, last, states, s.run)
    ensures History(w, s, steps) == Some(t) && t.run.Done? && t.run.manifest.header == h
  {
    var first, u := AllChunks(w, h, zip, last, states, s);
    var rest;
    rest, t := SendTheManifest(w, h, zip, last, states, u);
    HistoryJoined(w, s, first, u, rest);
    steps := first + rest;
  }

  // ---------- starting again ----------

  function ArgsOf(h: Header): Args {
    Args(h.source, h.destination, h.chunkSize)
  }

  /** The journal on disk belongs to this session, or there is none yet. */
  ghost predicate IsSession(w: World, file: Bytes, h: Header) {
    var log := LogOf(w, file);
    if log == [] then HeaderOk(h) && h == NewHeader(ArgsOf(h), h.session) else log[0] == HeaderEvent(h)
  }

  /** What the journal says about the chunks. */
  ghost function StatesOf(w: World, file: Bytes): map<int, Status> {
    var log := LogOf(w, file);
    if log != [] && Replay(log[1..]).Some? then Replay(log[1..]).value.states else map[]
  }

  /** A chunk recorded but not verified, which only the last can be, is what the compressor gives again. */
  ghost predicate SameAgain(w: World, h: Header, zip: nat -> Bytes, states: map<int, Status>) {
    forall j: nat {:trigger states[j]} :: j in states && !states[j].state.Verified? ==> states[j].chunk == ChunkOf(w, h, j, zip(j))
  }

  lemma {:induction false} ResumedIsReady(w: World, h: Header, zip: nat -> Bytes, s: State, log: seq<Event>, r: Replayed)
    requires WorldOk(w) && LogSays(log, h, r) && HeaderOk(h) && StatesOk(w, h, r) && SameAgain(w, h, zip, r.states)
    ensures r.last >= -1 && Ready(w, h, zip, r.last, r.states, Active(h, log, r.states, 0, [], AtChunk))
    ensures Resumed(log, ArgsOf(h)) == Active(h, log, r.states, 0, [], AtChunk)
  {
    forall j: nat | j in r.states
      ensures FitsAt(w, h, zip, r.states, j)
    {
      assert Recorded(w, h, j, r.states[j].chunk);
    }
  }

  /** What the invariant says of the journal. */
  lemma {:induction false} SessionSays(w: World, h: Header, s: State)
    requires Inv(w, s) && IsSession(w, s.file, h)
    ensures var log := LogOf(w, s.file);
            && HeaderOk(h) && (log == [] ==> StatesOf(w, s.file) == map[])
            && (log != [] ==> Replay(log[1..]).Some? && LogSays(log, h, Replay(log[1..]).value) && StatesOk(w, h, Replay(log[1..]).value)
                              && StatesOf(w, s.file) == Replay(log[1..]).value.states)
  {
  }

  /** The tool is started again on what is there. */
  lemma {:induction false} EnterAgain(w: World, h: Header, s: State) returns (steps: seq<Step>, u: State)
    requires WorldOk(w) && Inv(w, s) && h.chunkSize > 0
    ensures History(w, s, steps) == Some(u) && u.run == Resumed(LogOf(w, s.file), ArgsOf(h))
  {
    var log := LogOf(w, s.file);
    var idle := s.(run := Idle);
    OneMore(w, s, [], s, Crash);
    HeldLogLoads(w, s.file, log);
    u := Entered(w, idle, ArgsOf(h));
    OneMore(w, s, [] + [Crash], idle, Start(ArgsOf(h)));
    steps := [] + [Crash] + [Start(ArgsOf(h))];
  }

  /** Without a journal the header is written first. */
  lemma {:induction false} BeginSession(w: World, h: Header, zip: nat -> Bytes, s: State, steps: seq<Step>, u: State) returns (steps': seq<Step>, t: State)
    requires HeaderOk(h) && h == NewHeader(ArgsOf(h), h.session) && History(w, s, steps) == Some(u) && u.run == Opening(ArgsOf(h))
    ensures History(w, s, steps') == Some(t) && Ready(w, h, zip, -1, map[], t.run)
  {
    t := Apply(w, u, WriteHeader(h.session));
    OneMore(w, s, steps, u, WriteHeader(h.session));
    steps' := steps + [WriteHeader(h.session)];
  }

  /** A fresh start of the tool gets to the head of the loop. */
  lemma {:induction false} StartAgain(w: World, h: Header, zip: nat -> Bytes, s: State) returns (steps: seq<Step>, t: State, last: int)
    requires WorldOk(w) && Inv(w, s) && IsSession(w, s.file, h) && SameAgain(w, h, zip, StatesOf(w, s.file))
    ensures HeaderOk(h) && last >= -1 && History(w, s, steps) == Some(t) && Ready(w, h, zip, last, StatesOf(w, s.file), t.run)
  {
    var log := LogOf(w, s.file);
    SessionSays(w, h, s);
    var u;
    steps, u := EnterAgain(w, h, s);
    if log == [] {
      steps, t := BeginSession(w, h, zip, s, steps, u);
      last := -1;
    } else {
      var r := Replay(log[1..]).value;
      ResumedIsReady(w, h, zip, s, log, r);
      t, last := u, r.last;
    }
  }

  /**
   * Whatever a history of interrupted runs has left, the session can still be
   * completed, and restoring then gives the source.
   */
  lemma {:induction false} SessionCanComplete(w: World, s0: State, steps: seq<Step>, h: Header, zip: nat -> Bytes) returns (more: seq<Step>)
    requires WorldOk(w) && Init(w, s0) && History(w, s0, steps).Some? && IsSession(w, History(w, s0, steps).value.file, h)
    requires var states := StatesOf(w, History(w, s0, steps).value.file);
             SameAgain(w, h, zip, states) && ManifestFits(w, h, zip, states)
    requires Zips(w, h, zip)
    ensures History(w, s0, steps + more).Some?
    ensures var t := History(w, s0, steps + more).value;
            t.run.Done? && t.run.manifest.header == h
            && Restore(w.codec, t.remote, ManifestPath(h), false) == Some(w.content(h.source))
  {
    HistoryKeeps(w, s0, steps);
    var s := History(w, s0, steps).value;
    var begin, u, last := StartAgain(w, h, zip, s);
    var rest, t := RunCanFinish(w, h, zip, last, StatesOf(w, s.file), u);
    HistoryJoined(w, s, begin, u, rest);
    more := begin + rest;
    HistoryJoined(w, s0, steps, s, more);
    CompletionRestoresSource(w, s0, steps + more);
  }
}
