/** What every history of upload runs keeps, proved step by step. */
module RecoverySafety {
  import opened Wrappers
  import opened RecoveryModel
  import opened RecoveryJournal
  import opened RecoveryReplay
  import opened RecoveryProtocol

  // ---------- the invariant ----------

  /** The file holds exactly the rows of log, perhaps followed by part of a line. */
  ghost predicate JournalHolds(w: World, file: Bytes, log: seq<Event>) {
    Encoded(w.codec, log) <= file && NoNewline(file[|Encoded(w.codec, log)|..])
  }

  ghost function LogOf(w: World, file: Bytes): seq<Event> {
    var l := Load(w.codec, file);
    if l.Log? then l.events else []
  }

  ghost predicate InPlay<K>(w: World, m: map<K, Bytes>) {
    forall k :: k in m ==> m[k] in w.play
  }

  /** The chunks known are contiguous and each is recorded as some compression of its slice. */
  ghost predicate StatesOk(w: World, h: Header, r: Replayed) {
    && Contiguous(r)
    && forall j: nat :: j in r.states ==> Recorded(w, h, j, r.states[j].chunk)
  }

  ghost predicate IsAt(r: Replayed, i: nat, state: Progress, chunk: Chunk) {
    i in r.states && r.states[i] == Status(state, chunk)
  }

  /** Everything verified is on the remote. */
  ghost predicate RemoteOk(w: World, h: Header, r: Replayed, remote: map<string, Bytes>) {
    forall j: nat :: j in r.states && r.states[j].state.Verified? ==>
      RemoteMatches(w, remote, h, r.states[j].chunk)
  }

  /** No chunk is unfinished. */
  ghost predicate Settled(r: Replayed) {
    r.last < 0 || (r.last in r.states && r.states[r.last].state.Verified?)
  }

  /** At most one staged file: that of the last known chunk or, when that is finished, of the next one. */
  ghost predicate StageOk(r: Replayed, stage: map<nat, Bytes>) {
    && (forall j :: j in stage ==> j == r.last || (j == r.last + 1 && Settled(r)))
    && (forall j, k :: j in stage && k in stage ==> j == k)
  }

  /** The chunks the loop has passed are verified and unstaged; the later ones are as the run found them. */
  ghost predicate LoopOk(h: Header, r: Replayed, stage: map<nat, Bytes>, run: Run)
    requires run.Active?
  {
    && run.header == h
    && |run.chunks| == run.i
    && (forall j: nat :: j < run.i ==> IsAt(r, j, Verified, run.chunks[j]))
    && (forall j: nat :: j > run.i ==> SameAt(run.states, r.states, j))
    && (forall j :: j in stage ==> run.i <= j)
  }

  ghost predicate SameAt(a: map<int, Status>, b: map<int, Status>, j: int) {
    (j in a <==> j in b) && (j in a ==> a[j] == b[j])
  }

  ghost predicate AllSent(w: World, h: Header, chunks: seq<Chunk>) {
    OffsetOf(h, |chunks|) >= h.source.size
    && |w.codec.encodeManifest(Manifest(h, chunks))| <= MANIFEST_LIMIT
  }

  ghost predicate PhaseOk(w: World, r: Replayed, remote: map<string, Bytes>, run: Run)
    requires run.Active?
  {
    match run.phase
    case AtChunk => SameAt(run.states, r.states, run.i)
    case ToPrepare =>
      run.i !in r.states && OffsetOf(run.header, run.i) < run.header.source.size
    case RecordPrepared(c) => run.i !in r.states && Recorded(w, run.header, run.i, c)
    case Reconcile(c, st) => IsAt(r, run.i, st, c) && !st.Verified?
    case NeedUpload(c, st) => IsAt(r, run.i, st, c) && !st.Verified?
    case ReadyUpload(c, st) => IsAt(r, run.i, st, c) && !st.Verified?
    case RecordUploaded(c) => IsAt(r, run.i, Prepared, c)
    case ReadBack(c) => IsAt(r, run.i, Uploaded, c)
    case RecordVerified(c) =>
      (IsAt(r, run.i, Prepared, c) || IsAt(r, run.i, Uploaded, c))
      && RemoteMatches(w, remote, run.header, c)
    case Release(c) => IsAt(r, run.i, Verified, c)
    case SendManifest => AllSent(w, run.header, run.chunks)
    case CheckManifest => AllSent(w, run.header, run.chunks)
  }

  /** A completed run: all chunks verified, the manifest read back. */
  ghost predicate DoneOk(w: World, h: Header, r: Replayed, remote: map<string, Bytes>, m: Manifest) {
    && m.header == h
    && AllSent(w, h, m.chunks)
    && w.codec.encodeManifest(m) in w.play
    && ManifestMatches(w, remote, m)
    && forall j: nat :: j < |m.chunks| ==> IsAt(r, j, Verified, m.chunks[j])
  }

  ghost predicate RunOk(w: World, h: Header, r: Replayed,
                        stage: map<nat, Bytes>, remote: map<string, Bytes>, run: Run) {
    match run
    case Idle => true
    case Opening(_) => false
    case Active(_, _, _, _, _, _) => LoopOk(h, r, stage, run) && PhaseOk(w, r, remote, run)
    case Done(m) => DoneOk(w, h, r, remote, m)
  }

  /** The invariant of a session whose journal says h and r. */
  ghost predicate Session(w: World, h: Header, r: Replayed,
                          stage: map<nat, Bytes>, remote: map<string, Bytes>, run: Run) {
    && HeaderOk(h) && StatesOk(w, h, r)
    && InPlay(w, remote) && InPlay(w, stage)
    && RemoteOk(w, h, r, remote)
    && StageOk(r, stage)
    && RunOk(w, h, r, stage, remote, run)
  }

  /** The invariant before there is a header. */
  ghost predicate Fresh(w: World, s: State) {
    && s.stage == map[] && InPlay(w, s.remote)
    && (s.run.Idle? ||
        (s.run.Opening? && s.file == [] && s.run.args.source.size > 0 && s.run.args.chunkSize > 0))
  }

  /** The log is a header followed by events whose replay is r. */
  ghost predicate LogSays(log: seq<Event>, h: Header, r: Replayed) {
    log != [] && log[0] == HeaderEvent(h) && Replay(log[1..]) == Some(r)
  }

  /** The invariant of a state whose journal holds log. */
  ghost predicate InvFor(w: World, s: State, log: seq<Event>) {
    && JournalHolds(w, s.file, log)
    && (log == [] ==> Fresh(w, s))
    && (log != [] ==>
          && log[0].HeaderEvent? && Replay(log[1..]).Some?
          && Session(w, log[0].header, Replay(log[1..]).value, s.stage, s.remote, s.run)
          && (s.run.Active? ==> s.run.events == log && s.file == Encoded(w.codec, log)))
  }

  ghost predicate Inv(w: World, s: State) {
    InvFor(w, s, LogOf(w, s.file))
  }

  // ---------- the journal side ----------

  lemma {:induction false} HeldLogLoads(w: World, file: Bytes, log: seq<Event>)
    requires WorldOk(w) && JournalHolds(w, file, log)
    ensures Load(w.codec, file) == Log(log, Chain(w.codec, ZERO_DIGEST, log), |Encoded(w.codec, log)|)
    ensures LogOf(w, file) == log
  {
    var tail := file[|Encoded(w.codec, log)|..];
    assert file == Encoded(w.codec, log) + tail;
    LoadTorn(w.codec, log, tail);
  }

  lemma {:induction false} HoldsAfterAppend(w: World, log: seq<Event>, e: Event)
    requires WorldOk(w)
    ensures AppendLine(w, Encoded(w.codec, log), log, e) == Encoded(w.codec, log + [e])
    ensures JournalHolds(w, AppendLine(w, Encoded(w.codec, log), log, e), log + [e])
  {
    EncodedAppend(w.codec, log, e);
  }

  lemma {:induction false} HoldsAfterTear(w: World, log: seq<Event>, e: Event, k: nat)
    requires WorldOk(w)
    requires k < |Line(w.codec, Chain(w.codec, ZERO_DIGEST, log), e)|
    ensures JournalHolds(w, Encoded(w.codec, log) + Line(w.codec, Chain(w.codec, ZERO_DIGEST, log), e)[..k], log)
  {
    var rows := Encoded(w.codec, log);
    var line := Line(w.codec, Chain(w.codec, ZERO_DIGEST, log), e);
    assert line[..k] == line[..|line| - 1][..k];
    assert (rows + line[..k])[|rows|..] == line[..k];
  }

  lemma {:induction false} StatesOkAfter(w: World, h: Header, r: Replayed, i: nat, state: Progress, c: Chunk)
    requires StatesOk(w, h, r)
    requires c.index == i && Accepts(r, state, c) && Recorded(w, h, i, c)
    ensures StatesOk(w, h, After(r, state, c))
  {
    AfterContiguous(r, state, c);
    var t := After(r, state, c);
    forall j: nat | j in t.states
      ensures Recorded(w, h, j, t.states[j].chunk)
    {
      if j != i {
        assert j in r.states;
      }
    }
  }

  // ---------- steps within a session ----------

  /** In the loop, an unknown chunk is the next one and a known unfinished one is the last. */
  lemma {:induction false} LoopPosition(h: Header, r: Replayed, stage: map<nat, Bytes>, run: Run)
    requires run.Active? && Contiguous(r) && LoopOk(h, r, stage, run)
    ensures run.i !in r.states ==> run.i == r.last + 1 && Settled(r)
    ensures run.i in r.states && !r.states[run.i].state.Verified? ==> run.i == r.last && !Settled(r)
  {
    if run.i !in r.states {
      assert run.i > 0 ==> IsAt(r, run.i - 1, Verified, run.chunks[run.i - 1]);
    }
  }

  lemma {:induction false} BeginKeeps(w: World, h: Header, r: Replayed, stage: map<nat, Bytes>, remote: map<string, Bytes>, run: Run)
    requires Session(w, h, r, stage, remote, run)
    requires run.Active? && run.phase.AtChunk? && OffsetOf(run.header, run.i) < run.header.source.size
    ensures Session(w, h, r, stage, remote, Begun(run))
  {
    assert run.i in r.states ==> !r.states[run.i].state.OtherState?;
  }

  /** The record a run is about to append is one the replay will accept. */
  lemma {:induction false} PendingAccepted(w: World, h: Header, r: Replayed,
                        stage: map<nat, Bytes>, remote: map<string, Bytes>, run: Run)
    requires Session(w, h, r, stage, remote, run)
    requires run.Active? && Pending(run.phase).Some?
    ensures var e := Pending(run.phase).value;
            && e.chunk.index == run.i
            && Accepts(r, e.state, e.chunk)
            && Recorded(w, h, run.i, e.chunk)
  {
    LoopPosition(h, r, stage, run);
  }

  lemma {:induction false} RecordKeeps(w: World, h: Header, r: Replayed,
                    stage: map<nat, Bytes>, remote: map<string, Bytes>, run: Run, events: seq<Event>)
    requires Session(w, h, r, stage, remote, run)
    requires run.Active? && Pending(run.phase).Some?
    ensures var e := Pending(run.phase).value;
            Session(w, h, After(r, e.state, e.chunk), stage, remote,
                    run.(events := events, phase := AfterAppend(run.phase)))
  {
    var e := Pending(run.phase).value;
    var r' := After(r, e.state, e.chunk);
    var run' := run.(events := events, phase := AfterAppend(run.phase));
    PendingAccepted(w, h, r, stage, remote, run);
    StatesOkAfter(w, h, r, run.i, e.state, e.chunk);
    LoopPosition(h, r, stage, run);
    assert RemoteOk(w, h, r', remote);
    assert StageOk(r', stage);
    forall j: nat | j > run.i
      ensures SameAt(run'.states, r'.states, j)
    {
      assert SameAt(run.states, r.states, j);
    }
    assert LoopOk(h, r', stage, run');
    assert PhaseOk(w, r', remote, run');
  }

  /** Staging the chunk at hand leaves one staged file. */
  lemma {:induction false} StageKeeps(w: World, h: Header, r: Replayed,
                   stage: map<nat, Bytes>, remote: map<string, Bytes>, run: Run, z: Bytes)
    requires Session(w, h, r, stage, remote, run)
    requires run.Active? && (run.phase.ToPrepare? || run.phase.NeedUpload?) && z in w.play
    ensures InPlay(w, stage[run.i := z]) && StageOk(r, stage[run.i := z])
    ensures LoopOk(h, r, stage[run.i := z], run)
  {
    LoopPosition(h, r, stage, run);
  }

  lemma {:induction false} PrepareKeeps(w: World, h: Header, r: Replayed,
                     stage: map<nat, Bytes>, remote: map<string, Bytes>, run: Run, z: Bytes)
    requires Session(w, h, r, stage, remote, run)
    requires run.Active? && run.phase.ToPrepare? && Compresses(w, h, run.i, z)
    ensures Session(w, h, r, stage[run.i := z], remote,
                    run.(phase := RecordPrepared(ChunkOf(w, h, run.i, z))))
  {
    StageKeeps(w, h, r, stage, remote, run, z);
  }

  lemma {:induction false} ReleaseKeeps(w: World, h: Header, r: Replayed,
                     stage: map<nat, Bytes>, remote: map<string, Bytes>, run: Run)
    requires Session(w, h, r, stage, remote, run)
    requires run.Active? && run.phase.Release?
    ensures Session(w, h, r, stage - {run.i}, remote,
                    run.(i := run.i + 1, chunks := run.chunks + [run.phase.chunk], phase := AtChunk))
  {
    var run' := run.(i := run.i + 1, chunks := run.chunks + [run.phase.chunk], phase := AtChunk);
    forall j: nat | j < run'.i
      ensures IsAt(r, j, Verified, run'.chunks[j])
    {
      if j < run.i {
        assert run'.chunks[j] == run.chunks[j];
      }
    }
    assert LoopOk(h, r, stage - {run.i}, run');
    assert StageOk(r, stage - {run.i});
  }

  lemma {:induction false} RecordedHashWidth(w: World, h: Header, i: nat, c: Chunk)
    requires WorldOk(w) && Recorded(w, h, i, c)
    ensures |c.compressedSha| == 64 && c.index == i
  {
    var z :| Compresses(w, h, i, z) && c == ChunkOf(w, h, i, z);
    assert IsHex(w.codec.sha(z), 64);
  }

  /** Overwriting the object of an unfinished chunk leaves the verified ones alone. */
  lemma {:induction false} OverwriteKeeps(w: World, h: Header, r: Replayed, remote: map<string, Bytes>, i: nat, b: Bytes)
    requires WorldOk(w) && StatesOk(w, h, r) && RemoteOk(w, h, r, remote)
    requires i in r.states && !r.states[i].state.Verified? && r.states[i].chunk.index >= 0
    ensures RemoteOk(w, h, r, remote[ChunkPath(h, r.states[i].chunk) := b])
    ensures forall j: nat :: j in r.states && r.states[j].state.Verified? && r.states[j].chunk.index >= 0 ==>
              ChunkPath(h, r.states[j].chunk) != ChunkPath(h, r.states[i].chunk)
  {
    var name := ChunkPath(h, r.states[i].chunk);
    forall j: nat | j in r.states && r.states[j].state.Verified?
      ensures r.states[j].chunk.index >= 0 && ChunkPath(h, r.states[j].chunk) != name
    {
      RecordedHashWidth(w, h, i, r.states[i].chunk);
      RecordedHashWidth(w, h, j, r.states[j].chunk);
      if ChunkPath(h, r.states[j].chunk) == name {
        ChunkPathInjective(h, r.states[j].chunk, r.states[i].chunk);
      }
    }
  }

  lemma {:induction false} TransferKeeps(w: World, h: Header, r: Replayed,
                      stage: map<nat, Bytes>, remote: map<string, Bytes>, run: Run, b: Bytes)
    requires WorldOk(w) && Session(w, h, r, stage, remote, run)
    requires run.Active? && run.phase.ReadyUpload? && run.phase.chunk.index >= 0 && b in w.play
    ensures var remote' := remote[ChunkPath(h, run.phase.chunk) := b];
            && Session(w, h, r, stage, remote', Idle)
            && Session(w, h, r, stage, remote',
                       run.(phase := if run.phase.state.Prepared? then RecordUploaded(run.phase.chunk)
                                     else ReadBack(run.phase.chunk)))
  {
    OverwriteKeeps(w, h, r, remote, run.i, b);
    assert !r.states[run.i].state.OtherState?;
  }

  lemma {:induction false} ManifestKeeps(w: World, h: Header, r: Replayed,
                      stage: map<nat, Bytes>, remote: map<string, Bytes>, run: Run, b: Bytes)
    requires Session(w, h, r, stage, remote, run)
    requires run.Active? && run.phase.SendManifest? && b in w.play
    ensures Session(w, h, r, stage, remote[ManifestPath(h) := b], run.(phase := CheckManifest))
  {
    var remote' := remote[ManifestPath(h) := b];
    forall j: nat | j in r.states && r.states[j].state.Verified?
      ensures RemoteMatches(w, remote', h, r.states[j].chunk)
    {
      ManifestPathApart(h, r.states[j].chunk);
    }
    assert LoopOk(h, r, stage, run.(phase := CheckManifest));
  }

  /** Replacing the store by one that agrees on the objects the tool relies on. */
  lemma {:induction false} RemoteChangeKeeps(w: World, h: Header, r: Replayed, stage: map<nat, Bytes>,
                          remote: map<string, Bytes>, remote': map<string, Bytes>, run: Run)
    requires Session(w, h, r, stage, remote, run)
    requires InPlay(w, remote')
    requires RemoteOk(w, h, r, remote')
    requires run.Active? && run.phase.RecordVerified? ==> RemoteMatches(w, remote', run.header, run.phase.chunk)
    requires run.Done? ==> ManifestMatches(w, remote', run.manifest)
    ensures Session(w, h, r, stage, remote', run)
  {
  }

  lemma {:induction false} StageChangeKeeps(w: World, h: Header, r: Replayed, stage: map<nat, Bytes>, stage': map<nat, Bytes>,
                         remote: map<string, Bytes>, run: Run)
    requires Session(w, h, r, stage, remote, run)
    requires InPlay(w, stage') && stage'.Keys <= stage.Keys
    ensures Session(w, h, r, stage', remote, run)
  {
    assert forall j :: j in stage' ==> j in stage;
  }

  /** Actions that change neither staging nor the store. */
  lemma {:induction false} QuietActionKeeps(w: World, h: Header, r: Replayed, s: State, a: Action)
    requires Session(w, h, r, s.stage, s.remote, s.run)
    requires s.run.Active? && CanAct(w, s, a)
    requires a.ReconcileOk? || a.ReconcileFail? || a.UseStaged? || a.ReadBackOk? || a.FinishChunks? || a.ManifestOk?
    ensures Session(w, h, r, s.stage, s.remote, Act(w, s, a).run)
  {
    assert s.run.i in r.states ==> !r.states[s.run.i].state.OtherState?;
  }

  lemma {:induction false} ActionKeeps(w: World, h: Header, r: Replayed, s: State, a: Action)
    requires WorldOk(w) && Session(w, h, r, s.stage, s.remote, s.run)
    requires s.run.Active? && CanAct(w, s, a)
    ensures Session(w, h, r, Act(w, s, a).stage, Act(w, s, a).remote, Act(w, s, a).run)
  {
    match a
    case BeginChunk => BeginKeeps(w, h, r, s.stage, s.remote, s.run);
    case Prepare(z) => PrepareKeeps(w, h, r, s.stage, s.remote, s.run, z);
    case PrepareChanged(z) => StageKeeps(w, h, r, s.stage, s.remote, s.run, z);
    case Regenerate(z) => StageKeeps(w, h, r, s.stage, s.remote, s.run, z);
    case RegenerateChanged(z) => StageKeeps(w, h, r, s.stage, s.remote, s.run, z);
    case Transfer(b) => TransferKeeps(w, h, r, s.stage, s.remote, s.run, b);
    case TransferFail(b) => TransferKeeps(w, h, r, s.stage, s.remote, s.run, b);
    case ReleaseChunk => ReleaseKeeps(w, h, r, s.stage, s.remote, s.run);
    case TransferManifest(b) => ManifestKeeps(w, h, r, s.stage, s.remote, s.run, b);
    case ReconcileOk => QuietActionKeeps(w, h, r, s, a);
    case ReconcileFail => QuietActionKeeps(w, h, r, s, a);
    case UseStaged => QuietActionKeeps(w, h, r, s, a);
    case ReadBackOk => QuietActionKeeps(w, h, r, s, a);
    case FinishChunks => QuietActionKeeps(w, h, r, s, a);
    case ManifestOk => QuietActionKeeps(w, h, r, s, a);
  }

  // ---------- every step of the system ----------

  ghost function NextLog(s: State, log: seq<Event>, step: Step): seq<Event> {
    match step
    case WriteHeader(session) =>
      if s.run.Opening? then [HeaderEvent(NewHeader(s.run.args, session))] else log
    case Append =>
      if s.run.Active? && Pending(s.run.phase).Some? then log + [Pending(s.run.phase).value] else log
    case _ => log
  }

  /** With the journal untouched, the session's invariant is all there is to show. */
  lemma {:induction false} SessionSuffices(w: World, s: State, t: State, log: seq<Event>)
    requires InvFor(w, s, log) && log != [] && t.file == s.file
    requires Session(w, log[0].header, Replay(log[1..]).value, t.stage, t.remote, t.run)
    requires t.run.Active? ==> s.run.Active? && t.run.events == s.run.events
    ensures InvFor(w, t, log)
  {
  }

  lemma {:induction false} LogSaysAppend(log: seq<Event>, h: Header, r: Replayed, state: Progress, c: Chunk)
    requires LogSays(log, h, r) && Accepts(r, state, c)
    ensures LogSays(log + [ChunkEvent(state, c)], h, After(r, state, c))
  {
    var e := ChunkEvent(state, c);
    assert (log + [e])[1..] == log[1..] + [e];
    ReplayAppend(log[1..], state, c);
  }

  /** A journal and the invariant of the session it tells of. */
  lemma {:induction false} JournalAndSession(w: World, s: State, log: seq<Event>, h: Header, r: Replayed)
    requires JournalHolds(w, s.file, log) && LogSays(log, h, r)
    requires Session(w, h, r, s.stage, s.remote, s.run)
    requires s.run.Active? ==> s.run.events == log && s.file == Encoded(w.codec, log)
    ensures InvFor(w, s, log)
  {
  }

  /** A run that starts finds the session as its journal tells it. */
  lemma {:induction false} ResumeKeeps(w: World, h: Header, r: Replayed, stage: map<nat, Bytes>, remote: map<string, Bytes>,
                    run: Run, events: seq<Event>)
    requires Session(w, h, r, stage, remote, run)
    ensures Session(w, h, r, stage, remote, Active(h, events, r.states, 0, [], AtChunk))
    ensures Session(w, h, r, stage, remote, Idle)
  {
    var begun := Active(h, events, r.states, 0, [], AtChunk);
    assert LoopOk(h, r, stage, begun);
  }

  /** Entering cuts the tail off and resumes from the log. */
  lemma {:induction false} EnteredIs(w: World, s: State, log: seq<Event>, args: Args)
    requires WorldOk(w) && JournalHolds(w, s.file, log)
    ensures Entered(w, s, args) == s.(file := Encoded(w.codec, log), run := Resumed(log, args))
  {
    HeldLogLoads(w, s.file, log);
  }

  lemma {:induction false} StartKeeps(w: World, s: State, log: seq<Event>, args: Args)
    requires WorldOk(w) && InvFor(w, s, log) && s.run.Idle? && args.chunkSize > 0
    ensures InvFor(w, Entered(w, s, args), log)
  {
    EnteredIs(w, s, log, args);
    if log != [] {
      var h, r := log[0].header, Replay(log[1..]).value;
      ResumeKeeps(w, h, r, s.stage, s.remote, s.run, log);
      JournalAndSession(w, Entered(w, s, args), log, h, r);
    }
  }

  lemma {:induction false} NewSession(w: World, h: Header, remote: map<string, Bytes>, events: seq<Event>)
    requires HeaderOk(h) && InPlay(w, remote)
    ensures Session(w, h, NOTHING, map[], remote, Active(h, events, map[], 0, [], AtChunk))
  {
  }

  lemma {:induction false} HeaderKeeps(w: World, s: State, log: seq<Event>, session: string)
    requires WorldOk(w) && InvFor(w, s, log) && s.run.Opening? && IsHex(session, 32)
    ensures var h := NewHeader(s.run.args, session);
            InvFor(w, s.(file := AppendLine(w, s.file, [], HeaderEvent(h)),
                         run := Active(h, [HeaderEvent(h)], map[], 0, [], AtChunk)), [HeaderEvent(h)])
  {
    var h := NewHeader(s.run.args, session);
    var e := HeaderEvent(h);
    assert log == [];
    assert Encoded(w.codec, []) == s.file;
    assert [] + [e] == [e];
    assert LogSays([e], h, NOTHING);
    HoldsAfterAppend(w, [], e);
    NewSession(w, h, s.remote, [e]);
    JournalAndSession(w, s.(file := AppendLine(w, s.file, [], e), run := Active(h, [e], map[], 0, [], AtChunk)),
                      [e], h, NOTHING);
  }

  lemma {:induction false} AppendKeeps(w: World, s: State, log: seq<Event>, e: Event)
    requires WorldOk(w) && InvFor(w, s, log) && s.run.Active? && Pending(s.run.phase) == Some(e)
    ensures InvFor(w, s.(file := AppendLine(w, s.file, s.run.events, e),
                         run := s.run.(events := s.run.events + [e], phase := AfterAppend(s.run.phase))),
                   log + [e])
  {
    var h, r := log[0].header, Replay(log[1..]).value;
    var t := s.(file := AppendLine(w, s.file, s.run.events, e),
                run := s.run.(events := s.run.events + [e], phase := AfterAppend(s.run.phase)));
    PendingAccepted(w, h, r, s.stage, s.remote, s.run);
    RecordKeeps(w, h, r, s.stage, s.remote, s.run, log + [e]);
    HoldsAfterAppend(w, log, e);
    LogSaysAppend(log, h, r, e.state, e.chunk);
    JournalAndSession(w, t, log + [e], h, After(r, e.state, e.chunk));
  }

  lemma {:induction false} TearKeeps(w: World, s: State, log: seq<Event>, e: Event, k: nat)
    requires WorldOk(w) && InvFor(w, s, log)
    requires s.file == Encoded(w.codec, log)
    requires k < |Line(w.codec, Chain(w.codec, ZERO_DIGEST, log), e)|
    ensures InvFor(w, s.(file := s.file + Line(w.codec, Chain(w.codec, ZERO_DIGEST, log), e)[..k], run := Idle), log)
  {
    HoldsAfterTear(w, log, e, k);
  }

  /** The verified chunks of the journal on disk are those of the log it holds. */
  lemma {:induction false} VerifiedChunksOf(w: World, s: State, log: seq<Event>)
    requires WorldOk(w) && InvFor(w, s, log)
    ensures log == [] ==> VerifiedChunks(w, s.file) == map[]
    ensures log != [] ==>
      var r := Replay(log[1..]).value;
      VerifiedChunks(w, s.file)
      == map j | j in r.states && r.states[j].state.Verified? && r.states[j].chunk.index >= 0
           :: ChunkPath(log[0].header, r.states[j].chunk)
  {
    HeldLogLoads(w, s.file, log);
  }

  /** An object the journal calls verified is protected. */
  lemma {:induction false} VerifiedProtected(w: World, s: State, log: seq<Event>, j: nat)
    requires WorldOk(w) && InvFor(w, s, log) && log != []
    requires j in Replay(log[1..]).value.states && Replay(log[1..]).value.states[j].state.Verified?
    ensures Replay(log[1..]).value.states[j].chunk.index >= 0
    ensures Protected(w, s, ChunkPath(log[0].header, Replay(log[1..]).value.states[j].chunk))
  {
    VerifiedChunksOf(w, s, log);
    assert j in VerifiedChunks(w, s.file);
  }

  /** Losing or corrupting an unprotected object harms no verified chunk. */
  lemma {:induction false} RemoteLossKeeps(w: World, s: State, log: seq<Event>, name: string, remote': map<string, Bytes>)
    requires WorldOk(w) && InvFor(w, s, log) && log != [] && !Protected(w, s, name)
    requires InPlay(w, remote')
    requires forall n :: n != name ==> (n in remote' <==> n in s.remote) && (n in remote' ==> remote'[n] == s.remote[n])
    ensures Session(w, log[0].header, Replay(log[1..]).value, s.stage, remote', s.run)
  {
    var h, r := log[0].header, Replay(log[1..]).value;
    forall j: nat | j in r.states && r.states[j].state.Verified?
      ensures RemoteMatches(w, remote', h, r.states[j].chunk)
    {
      VerifiedProtected(w, s, log, j);
    }
    RemoteChangeKeeps(w, h, r, s.stage, s.remote, remote', s.run);
  }

  lemma {:induction false} FaultKeeps(w: World, s: State, log: seq<Event>, f: Fault)
    requires WorldOk(w) && InvFor(w, s, log) && CanFail(w, s, f)
    ensures InvFor(w, Damage(s, f), log)
  {
    var t := Damage(s, f);
    if log == [] {
      assert t.stage == map[];
    } else {
      var h, r := log[0].header, Replay(log[1..]).value;
      if f.LoseStage? || f.CorruptStage? {
        StageChangeKeeps(w, h, r, s.stage, t.stage, s.remote, s.run);
      } else {
        RemoteLossKeeps(w, s, log, f.name, t.remote);
      }
      SessionSuffices(w, s, t, log);
    }
  }

  lemma {:induction false} WorkKeeps(w: World, s: State, log: seq<Event>, a: Action)
    requires WorldOk(w) && InvFor(w, s, log) && s.run.Active? && CanAct(w, s, a)
    ensures InvFor(w, Act(w, s, a), log)
  {
    assert log != [];
    ActionKeeps(w, log[0].header, Replay(log[1..]).value, s, a);
    SessionSuffices(w, s, Act(w, s, a), log);
  }

  /** Every step, crash or fault keeps the invariant. */
  lemma {:induction false} StepKeeps(w: World, s: State, log: seq<Event>, step: Step)
    requires WorldOk(w) && InvFor(w, s, log) && Enabled(w, s, step)
    ensures InvFor(w, Apply(w, s, step), NextLog(s, log, step))
  {
    match step
    case Start(args) => StartKeeps(w, s, log, args);
    case WriteHeader(session) => HeaderKeeps(w, s, log, session);
    case TearHeader(session, k) => TearKeeps(w, s, log, HeaderEvent(NewHeader(s.run.args, session)), k);
    case Append => AppendKeeps(w, s, log, Pending(s.run.phase).value);
    case TearAppend(k) => TearKeeps(w, s, log, Pending(s.run.phase).value, k);
    case Work(a) => WorkKeeps(w, s, log, a);
    case Crash =>
    case Outside(f) => FaultKeeps(w, s, log, f);
  }

  /** Every state that any history of crashed and completed runs leads to satisfies the invariant. */
  lemma {:induction false} HistoryKeeps(w: World, s: State, steps: seq<Step>)
    requires WorldOk(w) && Init(w, s) && History(w, s, steps).Some?
    ensures Inv(w, History(w, s, steps).value)
  {
    if steps == [] {
      assert JournalHolds(w, s.file, []);
      HeldLogLoads(w, s.file, []);
    } else {
      HistoryKeeps(w, s, steps[..|steps| - 1]);
      var t := History(w, s, steps[..|steps| - 1]).value;
      var step := steps[|steps| - 1];
      var log := LogOf(w, t.file);
      StepKeeps(w, t, log, step);
      HeldLogLoads(w, Apply(w, t, step).file, NextLog(t, log, step));
    }
  }
}
