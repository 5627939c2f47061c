/**
 * The upload protocol as a step system over the durable state: the journal
 * file, the staging directory and the remote store. A crash may fall between
 * any two durable effects and inside an append or an upload. What the
 * environment does (arguments, failures, corruption) is part of the step, so a
 * list of steps is one history of upload runs and every history is such a list.
 */
module RecoveryProtocol {
  import opened Wrappers
  import opened RecoveryModel
  import opened RecoveryJournal
  import opened RecoveryReplay

  /** The library, the bytes behind each source identity, and the strings that occur in a history. */
  datatype World = World(codec: Codec, content: Identity -> Bytes, play: set<Bytes>)

  ghost predicate WorldOk(w: World) {
    && Sound(w.codec)
    && CollisionFree(w.codec, w.play)
    && forall id: Identity :: id.size > 0 ==> |w.content(id)| == id.size
  }

  datatype Args = Args(source: Identity, destination: string, chunkSize: int)

  /** Where the loop body of `upload` stands for the chunk at hand. */
  datatype Phase =
    | AtChunk
    | ToPrepare
    | RecordPrepared(chunk: Chunk)
    | Reconcile(chunk: Chunk, state: Progress)
    | NeedUpload(chunk: Chunk, state: Progress)
    | ReadyUpload(chunk: Chunk, state: Progress)
    | RecordUploaded(chunk: Chunk)
    | ReadBack(chunk: Chunk)
    | RecordVerified(chunk: Chunk)
    | Release(chunk: Chunk)
    | SendManifest
    | CheckManifest

  /** The volatile state of the process. */
  datatype Run =
    | Idle
    | Opening(args: Args)
    | Active(header: Header, events: seq<Event>, states: map<int, Status>,
             i: nat, chunks: seq<Chunk>, phase: Phase)
    | Done(manifest: Manifest)

  datatype State = State(file: Bytes, stage: map<nat, Bytes>, remote: map<string, Bytes>, run: Run)

  /** What a running tool does between two appends. */
  datatype Action =
    | BeginChunk
    | Prepare(z: Bytes)
    | PrepareChanged(z: Bytes)
    | ReconcileOk
    | ReconcileFail
    | UseStaged
    | Regenerate(z: Bytes)
    | RegenerateChanged(z: Bytes)
    | Transfer(b: Bytes)
    | TransferFail(b: Bytes)
    | ReadBackOk
    | ReleaseChunk
    | FinishChunks
    | TransferManifest(b: Bytes)
    | ManifestOk

  /** What happens to staging and to the store behind the tool's back. */
  datatype Fault =
    | LoseStage(j: nat)
    | CorruptStage(j: nat, b: Bytes)
    | LoseRemote(name: string)
    | CorruptRemote(name: string, b: Bytes)

  datatype Step =
    | Start(args: Args)
    | WriteHeader(session: string)
    | TearHeader(session: string, k: nat)
    | Append
    | TearAppend(k: nat)
    | Work(action: Action)
    | Crash
    | Outside(fault: Fault)

  // ---------- layout ----------

  function OffsetOf(h: Header, i: nat): int {
    if i == 0 then 0 else OffsetOf(h, i - 1) + h.chunkSize
  }

  function LengthAt(h: Header, offset: int): int {
    if h.chunkSize <= h.source.size - offset then h.chunkSize else h.source.size - offset
  }

  predicate HeaderOk(h: Header) {
    h.version == VERSION && h.source.size > 0 && h.chunkSize > 0 && IsHex(h.session, 32)
  }

  lemma {:induction false} OffsetNonNegative(h: Header, i: nat)
    requires h.chunkSize > 0
    ensures OffsetOf(h, i) >= 0
  {
    if i > 0 {
      OffsetNonNegative(h, i - 1);
    }
  }

  /** The source bytes of chunk i. */
  function Slice(w: World, h: Header, i: nat): (raw: Bytes) {
    var from, length := OffsetOf(h, i), LengthAt(h, OffsetOf(h, i));
    if 0 <= from && 0 <= length && from + length <= |w.content(h.source)|
    then w.content(h.source)[from..from + length] else []
  }

  /** The record `prepare` returns for the compressed form z of chunk i. */
  function ChunkOf(w: World, h: Header, i: nat, z: Bytes): Chunk {
    Chunk(i, OffsetOf(h, i), LengthAt(h, OffsetOf(h, i)), w.codec.sha(Slice(w, h, i)), |z|, w.codec.sha(z))
  }

  /** z is what a gzip run over chunk i may leave in staging. */
  predicate Compresses(w: World, h: Header, i: nat, z: Bytes) {
    && z in w.play
    && w.codec.gunzip(z) == Some(Slice(w, h, i))
    && |z| <= StagingLimit(LengthAt(h, OffsetOf(h, i)))
  }

  /** What the journal may record for chunk i. */
  ghost predicate Recorded(w: World, h: Header, i: nat, chunk: Chunk) {
    && OffsetOf(h, i) < h.source.size
    && exists z :: Compresses(w, h, i, z) && chunk == ChunkOf(w, h, i, z)
  }

  // ---------- the steps ----------

  predicate Staged(w: World, stage: map<nat, Bytes>, i: nat, chunk: Chunk) {
    i in stage && |stage[i]| == chunk.compressedSize && w.codec.sha(stage[i]) == chunk.compressedSha
  }

  predicate RemoteMatches(w: World, remote: map<string, Bytes>, h: Header, chunk: Chunk) {
    chunk.index >= 0
    && Matches(w.codec, remote, ChunkPath(h, chunk), chunk.compressedSize, chunk.compressedSha)
  }

  predicate ManifestMatches(w: World, remote: map<string, Bytes>, m: Manifest) {
    var data := w.codec.encodeManifest(m);
    Matches(w.codec, remote, ManifestPath(m.header), |data|, w.codec.sha(data))
  }

  function AppendLine(w: World, file: Bytes, events: seq<Event>, e: Event): Bytes {
    file + Line(w.codec, Chain(w.codec, ZERO_DIGEST, events), e)
  }

  /** The event the next append of the run writes. */
  function Pending(phase: Phase): Option<Event> {
    match phase
    case RecordPrepared(c) => Some(ChunkEvent(Prepared, c))
    case RecordUploaded(c) => Some(ChunkEvent(Uploaded, c))
    case RecordVerified(c) => Some(ChunkEvent(Verified, c))
    case _ => None
  }

  function AfterAppend(phase: Phase): Phase {
    match phase
    case RecordPrepared(c) => NeedUpload(c, Prepared)
    case RecordUploaded(c) => ReadBack(c)
    case RecordVerified(c) => Release(c)
    case _ => phase
  }

  function NewHeader(args: Args, session: string): Header {
    Header(VERSION, session, args.source, args.destination, args.chunkSize, "gzip-level-6-mtime-0")
  }

  /** Comparing the header with the arguments and checking the transitions. */
  function Resumed(events: seq<Event>, args: Args): Run {
    if args.source.size <= 0 then Idle
    else if events == [] then Opening(args)
    else if !events[0].HeaderEvent? then Idle
    else
      var h := events[0].header;
      if h.version != VERSION || h.source != args.source || h.destination != args.destination
         || h.chunkSize != args.chunkSize then Idle
      else
        match Replay(events[1..])
        case None => Idle
        case Some(r) => Active(h, events, r.states, 0, [], AtChunk)
  }

  /** Entering the journal: refuse a damaged one, cut a torn tail off, resume. */
  function Entered(w: World, s: State, args: Args): State {
    match Load(w.codec, s.file)
    case Corrupt => s
    case Log(events, _, kept) => s.(file := s.file[..kept], run := Resumed(events, args))
  }

  /** The head of the loop body: resume, skip or prepare the chunk. */
  function Begun(run: Run): Run
    requires run.Active?
  {
    if run.i !in run.states then run.(phase := ToPrepare)
    else
      var st := run.states[run.i];
      var offset := OffsetOf(run.header, run.i);
      if !ValidChunk(st.chunk, run.i, offset, LengthAt(run.header, offset)) then Idle
      else if st.state.Verified? then run.(phase := Release(st.chunk))
      else run.(phase := Reconcile(st.chunk, st.state))
  }

  /** The checks after the loop. */
  function Finished(w: World, run: Run): Run
    requires run.Active?
  {
    if |run.states| > |run.chunks| then Idle
    else if |w.codec.encodeManifest(Manifest(run.header, run.chunks))| > MANIFEST_LIMIT then Idle
    else run.(phase := SendManifest)
  }

  /** Objects whose preservation the tool relies on once it has read them back. */
  ghost predicate Protected(w: World, s: State, name: string) {
    || (exists j :: j in VerifiedChunks(w, s.file) && VerifiedChunks(w, s.file)[j] == name)
    || (s.run.Active? && s.run.phase.RecordVerified? && s.run.phase.chunk.index >= 0
        && name == ChunkPath(s.run.header, s.run.phase.chunk))
    || (s.run.Done? && name == ManifestPath(s.run.manifest.header))
  }

  /** The chunks the journal on disk calls verified, with their object names. */
  function VerifiedChunks(w: World, file: Bytes): map<int, string> {
    match Load(w.codec, file)
    case Corrupt => map[]
    case Log(events, _, _) =>
      if events == [] || !events[0].HeaderEvent? then map[]
      else
        match Replay(events[1..])
        case None => map[]
        case Some(r) =>
          map j | j in r.states && r.states[j].state.Verified? && r.states[j].chunk.index >= 0
            :: ChunkPath(events[0].header, r.states[j].chunk)
  }

  predicate CanAct(w: World, s: State, a: Action)
    requires s.run.Active?
  {
    var run := s.run;
    match a
    case BeginChunk => run.phase.AtChunk? && OffsetOf(run.header, run.i) < run.header.source.size
    case Prepare(z) => run.phase.ToPrepare? && Compresses(w, run.header, run.i, z)
    case PrepareChanged(z) => run.phase.ToPrepare? && z in w.play
    case ReconcileOk => run.phase.Reconcile? && RemoteMatches(w, s.remote, run.header, run.phase.chunk)
    case ReconcileFail => run.phase.Reconcile?
    case UseStaged => run.phase.NeedUpload? && Staged(w, s.stage, run.i, run.phase.chunk)
    case Regenerate(z) =>
      run.phase.NeedUpload? && !Staged(w, s.stage, run.i, run.phase.chunk) && Compresses(w, run.header, run.i, z)
    case RegenerateChanged(z) =>
      run.phase.NeedUpload? && !Staged(w, s.stage, run.i, run.phase.chunk) && z in w.play
    case Transfer(b) => run.phase.ReadyUpload? && run.phase.chunk.index >= 0 && b in w.play
    case TransferFail(b) => run.phase.ReadyUpload? && run.phase.chunk.index >= 0 && b in w.play
    case ReadBackOk => run.phase.ReadBack? && RemoteMatches(w, s.remote, run.header, run.phase.chunk)
    case ReleaseChunk => run.phase.Release?
    case FinishChunks => run.phase.AtChunk? && OffsetOf(run.header, run.i) >= run.header.source.size
    case TransferManifest(b) => run.phase.SendManifest? && b in w.play
    case ManifestOk =>
      run.phase.CheckManifest?
      && w.codec.encodeManifest(Manifest(run.header, run.chunks)) in w.play
      && ManifestMatches(w, s.remote, Manifest(run.header, run.chunks))
  }

  function Act(w: World, s: State, a: Action): State
    requires s.run.Active? && CanAct(w, s, a)
  {
    var run := s.run;
    match a
    case BeginChunk => s.(run := Begun(run))
    case Prepare(z) =>
      s.(stage := s.stage[run.i := z], run := run.(phase := RecordPrepared(ChunkOf(w, run.header, run.i, z))))
    case PrepareChanged(z) => s.(stage := s.stage[run.i := z], run := Idle)
    case ReconcileOk => s.(run := run.(phase := RecordVerified(run.phase.chunk)))
    case ReconcileFail => s.(run := run.(phase := NeedUpload(run.phase.chunk, run.phase.state)))
    case UseStaged => s.(run := run.(phase := ReadyUpload(run.phase.chunk, run.phase.state)))
    case Regenerate(z) =>
      s.(stage := s.stage[run.i := z],
         run := if ChunkOf(w, run.header, run.i, z) != run.phase.chunk then Idle
                else run.(phase := ReadyUpload(run.phase.chunk, run.phase.state)))
    case RegenerateChanged(z) => s.(stage := s.stage[run.i := z], run := Idle)
    case Transfer(b) =>
      s.(remote := s.remote[ChunkPath(run.header, run.phase.chunk) := b],
         run := run.(phase := if run.phase.state.Prepared? then RecordUploaded(run.phase.chunk)
                              else ReadBack(run.phase.chunk)))
    case TransferFail(b) => s.(remote := s.remote[ChunkPath(run.header, run.phase.chunk) := b], run := Idle)
    case ReadBackOk => s.(run := run.(phase := RecordVerified(run.phase.chunk)))
    case ReleaseChunk =>
      s.(stage := s.stage - {run.i},
         run := run.(i := run.i + 1, chunks := run.chunks + [run.phase.chunk], phase := AtChunk))
    case FinishChunks => s.(run := Finished(w, run))
    case TransferManifest(b) =>
      s.(remote := s.remote[ManifestPath(run.header) := b], run := run.(phase := CheckManifest))
    case ManifestOk => s.(run := Done(Manifest(run.header, run.chunks)))
  }

  ghost predicate CanFail(w: World, s: State, f: Fault) {
    match f
    case LoseStage(j) => true
    case CorruptStage(j, b) => j in s.stage && b in w.play
    case LoseRemote(name) => !Protected(w, s, name)
    case CorruptRemote(name, b) => !Protected(w, s, name) && b in w.play
  }

  function Damage(s: State, f: Fault): State {
    match f
    case LoseStage(j) => s.(stage := s.stage - {j})
    case CorruptStage(j, b) => s.(stage := s.stage[j := b])
    case LoseRemote(name) => s.(remote := s.remote - {name})
    case CorruptRemote(name, b) => s.(remote := s.remote[name := b])
  }

  ghost predicate Enabled(w: World, s: State, step: Step) {
    match step
    case Start(args) => s.run.Idle? && args.chunkSize > 0
    case WriteHeader(session) => s.run.Opening? && IsHex(session, 32)
    case TearHeader(session, k) =>
      s.run.Opening? && k < |Line(w.codec, ZERO_DIGEST, HeaderEvent(NewHeader(s.run.args, session)))|
    case Append => s.run.Active? && Pending(s.run.phase).Some?
    case TearAppend(k) =>
      s.run.Active? && Pending(s.run.phase).Some?
      && k < |Line(w.codec, Chain(w.codec, ZERO_DIGEST, s.run.events), Pending(s.run.phase).value)|
    case Work(a) => s.run.Active? && CanAct(w, s, a)
    case Crash => true
    case Outside(f) => CanFail(w, s, f)
  }

  ghost function Apply(w: World, s: State, step: Step): State
    requires Enabled(w, s, step)
  {
    match step
    case Start(args) => Entered(w, s, args)
    case WriteHeader(session) =>
      var h := NewHeader(s.run.args, session);
      s.(file := AppendLine(w, s.file, [], HeaderEvent(h)),
         run := Active(h, [HeaderEvent(h)], map[], 0, [], AtChunk))
    case TearHeader(session, k) =>
      s.(file := s.file + Line(w.codec, ZERO_DIGEST, HeaderEvent(NewHeader(s.run.args, session)))[..k],
         run := Idle)
    case Append =>
      var e := Pending(s.run.phase).value;
      s.(file := AppendLine(w, s.file, s.run.events, e),
         run := s.run.(events := s.run.events + [e], phase := AfterAppend(s.run.phase)))
    case TearAppend(k) =>
      var e := Pending(s.run.phase).value;
      s.(file := s.file + Line(w.codec, Chain(w.codec, ZERO_DIGEST, s.run.events), e)[..k], run := Idle)
    case Work(a) => Act(w, s, a)
    case Crash => s.(run := Idle)
    case Outside(f) => Damage(s, f)
  }

  /** No journal, nothing staged, and any objects at all on the remote. */
  ghost predicate Init(w: World, s: State) {
    s.file == [] && s.stage == map[] && s.run.Idle? && forall n :: n in s.remote ==> s.remote[n] in w.play
  }

  /** The state a history leads to, or None if it is not a history of the system. */
  ghost function History(w: World, s: State, steps: seq<Step>): Option<State> {
    if steps == [] then Some(s)
    else
      match History(w, s, steps[..|steps| - 1])
      case None => None
      case Some(t) =>
        if Enabled(w, t, steps[|steps| - 1]) then Some(Apply(w, t, steps[|steps| - 1])) else None
  }
}
