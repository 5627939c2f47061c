/** The promises of the recovery tool over whole histories of upload runs. */
module RecoveryTheorems {
  import opened Wrappers
  import opened RecoveryModel
  import opened RecoveryJournal
  import opened RecoveryReplay
  import opened RecoveryProtocol
  import opened RecoverySafety
  import opened RecoveryRestore

  // ---------- resuming ----------

  /** A record the journal may hold passes `validate_chunk` on resumption. */
  lemma {:induction false} RecordedIsValid(w: World, h: Header, i: nat, c: Chunk)
    requires WorldOk(w) && h.source.size > 0 && h.chunkSize > 0 && Recorded(w, h, i, c)
    ensures ValidChunk(c, i, OffsetOf(h, i), LengthAt(h, OffsetOf(h, i)))
  {
    var z :| Compresses(w, h, i, z) && c == ChunkOf(w, h, i, z);
    OffsetNonNegative(h, i);
    assert |Slice(w, h, i)| == LengthAt(h, OffsetOf(h, i)) > 0;
    assert z != [];
    assert IsHex(w.codec.sha(z), 64) && IsHex(w.codec.sha(Slice(w, h, i)), 64);
  }

  /**
   * Whatever was interrupted, and wherever: the journal on disk loads, the
   * transition check accepts it, it describes chunks 0..k of which all but the
   * last are verified, and every recorded chunk passes validation.
   */
  lemma {:induction false} AnyJournalResumes(w: World, s0: State, steps: seq<Step>)
    requires WorldOk(w) && Init(w, s0) && History(w, s0, steps).Some?
    ensures var file := History(w, s0, steps).value.file;
            && Load(w.codec, file).Log?
            && var log := Load(w.codec, file).events;
            log == [] ||
            (&& log[0].HeaderEvent?
             && Replay(log[1..]).Some?
             && var h, r := log[0].header, Replay(log[1..]).value;
             && Contiguous(r)
             && forall j: nat :: j in r.states ==>
                  ValidChunk(r.states[j].chunk, j, OffsetOf(h, j), LengthAt(h, OffsetOf(h, j))))
  {
    HistoryKeeps(w, s0, steps);
    var s := History(w, s0, steps).value;
    var log := LogOf(w, s.file);
    HeldLogLoads(w, s.file, log);
    if log != [] {
      var h, r := log[0].header, Replay(log[1..]).value;
      forall j: nat | j in r.states
        ensures ValidChunk(r.states[j].chunk, j, OffsetOf(h, j), LengthAt(h, OffsetOf(h, j)))
      {
        RecordedIsValid(w, h, j, r.states[j].chunk);
      }
    }
  }

  /** At no point of any history do two complete staged chunk files exist. */
  lemma {:induction false} AtMostOneStagedFile(w: World, s0: State, steps: seq<Step>)
    requires WorldOk(w) && Init(w, s0) && History(w, s0, steps).Some?
    ensures |History(w, s0, steps).value.stage| <= 1
  {
    HistoryKeeps(w, s0, steps);
    var s := History(w, s0, steps).value;
    assert forall j, k :: j in s.stage && k in s.stage ==> j == k;
    if s.stage != map[] {
      var j :| j in s.stage;
      assert s.stage.Keys == {j};
      assert |s.stage| == |s.stage.Keys|;
    }
  }

  // ---------- verified chunks are final ----------

  /** The names of the verified chunks a log tells of. */
  ghost function VerifiedNames(h: Header, r: Replayed): map<int, string> {
    map j | j in r.states && r.states[j].state.Verified? && r.states[j].chunk.index >= 0
      :: ChunkPath(h, r.states[j].chunk)
  }

  /** Appending a record leaves every verified chunk verified, with the same object name. */
  lemma {:induction false} AppendKeepsVerified(h: Header, r: Replayed, state: Progress, chunk: Chunk)
    requires Accepts(r, state, chunk)
    ensures forall j :: j in VerifiedNames(h, r) ==>
              j in VerifiedNames(h, After(r, state, chunk))
              && VerifiedNames(h, After(r, state, chunk))[j] == VerifiedNames(h, r)[j]
  {
  }

  ghost predicate LogReads(log: seq<Event>) {
    log == [] || (log[0].HeaderEvent? && Replay(log[1..]).Some?)
  }

  /** The log is unchanged, begins, or gains one record that the replay accepts. */
  ghost predicate GainsRecord(log: seq<Event>, log': seq<Event>) {
    || log' == log || log == []
    || (|log'| == |log| + 1 && log <= log' && log'[|log|].ChunkEvent? && Replay(log[1..]).Some?
        && Accepts(Replay(log[1..]).value, log'[|log|].state, log'[|log|].chunk))
  }

  /** The verified chunks of a journal are those its replay tells of. */
  lemma {:induction false} VerifiedOfLog(w: World, file: Bytes, log: seq<Event>)
    requires WorldOk(w) && JournalHolds(w, file, log) && LogReads(log)
    ensures VerifiedChunks(w, file) == if log == [] then map[] else VerifiedNames(log[0].header, Replay(log[1..]).value)
  {
    HeldLogLoads(w, file, log);
  }

  /** A journal that gained at most one acceptable record has lost no verified chunk. */
  lemma {:induction false} LongerJournalVerifiesMore(w: World, file: Bytes, log: seq<Event>, file': Bytes, log': seq<Event>)
    requires WorldOk(w)
    requires JournalHolds(w, file, log) && LogReads(log)
    requires JournalHolds(w, file', log') && LogReads(log')
    requires GainsRecord(log, log')
    ensures forall j :: j in VerifiedChunks(w, file) ==>
              j in VerifiedChunks(w, file') && VerifiedChunks(w, file')[j] == VerifiedChunks(w, file)[j]
  {
    VerifiedOfLog(w, file, log);
    VerifiedOfLog(w, file', log');
    if log != [] && log' != log {
      var e := log'[|log|];
      var h, r := log[0].header, Replay(log[1..]).value;
      assert log' == log + [e];
      LogSaysAppend(log, h, r, e.state, e.chunk);
      AppendKeepsVerified(h, r, e.state, e.chunk);
    }
  }

  lemma {:induction false} StepGainsRecord(w: World, s: State, log: seq<Event>, step: Step)
    requires WorldOk(w) && InvFor(w, s, log) && Enabled(w, s, step)
    ensures JournalHolds(w, Apply(w, s, step).file, NextLog(s, log, step)) && LogReads(NextLog(s, log, step))
    ensures GainsRecord(log, NextLog(s, log, step))
  {
    StepKeeps(w, s, log, step);
    if step.Append? {
      PendingAccepted(w, log[0].header, Replay(log[1..]).value, s.stage, s.remote, s.run);
    }
  }

  /** The object of the chunk at hand is not that of a verified one. */
  lemma {:induction false} TransferIsApart(w: World, s: State, log: seq<Event>, j: int)
    requires WorldOk(w) && InvFor(w, s, log) && s.run.Active? && s.run.phase.ReadyUpload? && s.run.phase.chunk.index >= 0
    requires j in VerifiedChunks(w, s.file)
    ensures VerifiedChunks(w, s.file)[j] != ChunkPath(s.run.header, s.run.phase.chunk)
  {
    VerifiedChunksOf(w, s, log);
    var h, r := log[0].header, Replay(log[1..]).value;
    assert Contiguous(r);
    OverwriteKeeps(w, h, r, s.remote, s.run.i, []);
  }

  lemma {:induction false} ManifestIsApart(w: World, s: State, log: seq<Event>, j: int)
    requires WorldOk(w) && InvFor(w, s, log) && s.run.Active? && j in VerifiedChunks(w, s.file)
    ensures VerifiedChunks(w, s.file)[j] != ManifestPath(s.run.header)
  {
    VerifiedChunksOf(w, s, log);
    ManifestPathApart(log[0].header, Replay(log[1..]).value.states[j].chunk);
  }

  /** No action of the tool writes the object of a verified chunk. */
  lemma {:induction false} ActionSparesVerified(w: World, s: State, log: seq<Event>, a: Action, j: int)
    requires WorldOk(w) && InvFor(w, s, log) && s.run.Active? && CanAct(w, s, a)
    requires j in VerifiedChunks(w, s.file)
    ensures var name, t := VerifiedChunks(w, s.file)[j], Act(w, s, a);
            name in t.remote <==> name in s.remote
    ensures var name, t := VerifiedChunks(w, s.file)[j], Act(w, s, a);
            name in s.remote ==> t.remote[name] == s.remote[name]
  {
    if a.Transfer? || a.TransferFail? {
      TransferIsApart(w, s, log, j);
    } else if a.TransferManifest? {
      ManifestIsApart(w, s, log, j);
    }
  }

  lemma {:induction false} StaysVerified(w: World, s: State, step: Step, j: int)
    requires WorldOk(w) && Inv(w, s) && Enabled(w, s, step)
    requires j in VerifiedChunks(w, s.file)
    ensures j in VerifiedChunks(w, Apply(w, s, step).file)
    ensures VerifiedChunks(w, Apply(w, s, step).file)[j] == VerifiedChunks(w, s.file)[j]
  {
    var log := LogOf(w, s.file);
    StepGainsRecord(w, s, log, step);
    LongerJournalVerifiesMore(w, s.file, log, Apply(w, s, step).file, NextLog(s, log, step));
  }

  lemma {:induction false} OnlyWorkAndFaultsTouchTheStore(w: World, s: State, step: Step)
    requires Enabled(w, s, step) && !step.Work? && !step.Outside?
    ensures Apply(w, s, step).remote == s.remote
  {
  }

  lemma {:induction false} FaultSparesProtected(w: World, s: State, f: Fault, name: string)
    requires CanFail(w, s, f) && Protected(w, s, name)
    ensures name in Damage(s, f).remote <==> name in s.remote
    ensures name in s.remote ==> Damage(s, f).remote[name] == s.remote[name]
  {
  }

  lemma {:induction false} KeepsItsBytes(w: World, s: State, step: Step, j: int)
    requires WorldOk(w) && Inv(w, s) && Enabled(w, s, step)
    requires j in VerifiedChunks(w, s.file)
    ensures var name, t := VerifiedChunks(w, s.file)[j], Apply(w, s, step);
            name in s.remote && name in t.remote && t.remote[name] == s.remote[name]
  {
    var log := LogOf(w, s.file);
    VerifiedChunksOf(w, s, log);
    var name := VerifiedChunks(w, s.file)[j];
    assert name in s.remote by {
      assert RemoteMatches(w, s.remote, log[0].header, Replay(log[1..]).value.states[j].chunk);
    }
    if step.Work? {
      ActionSparesVerified(w, s, log, step.action, j);
    } else if step.Outside? {
      FaultSparesProtected(w, s, step.fault, name);
    } else {
      OnlyWorkAndFaultsTouchTheStore(w, s, step);
    }
  }

  /**
   * One step of any kind: a chunk the journal calls verified stays verified
   * under the same name, and its object keeps its bytes.
   */
  lemma {:induction false} VerifiedIsFinal(w: World, s: State, step: Step, j: int)
    requires WorldOk(w) && Inv(w, s) && Enabled(w, s, step)
    requires j in VerifiedChunks(w, s.file)
    ensures var t := Apply(w, s, step);
            var name := VerifiedChunks(w, s.file)[j];
            && j in VerifiedChunks(w, t.file) && VerifiedChunks(w, t.file)[j] == name
            && name in s.remote && name in t.remote && t.remote[name] == s.remote[name]
  {
    StaysVerified(w, s, step, j);
    KeepsItsBytes(w, s, step, j);
  }

  lemma {:induction false} HistoryStep(w: World, s0: State, steps: seq<Step>, step: Step)
    requires History(w, s0, steps + [step]).Some?
    ensures History(w, s0, steps).Some? && Enabled(w, History(w, s0, steps).value, step)
    ensures History(w, s0, steps + [step]).value == Apply(w, History(w, s0, steps).value, step)
  {
    assert (steps + [step])[..|steps|] == steps;
  }

  lemma {:induction false} LastStepApart(before: seq<Step>, after: seq<Step>)
    requires after != []
    ensures before + after == (before + after[..|after| - 1]) + [after[|after| - 1]]
  {
  }

  /** The same over a whole continuation: what was verified when it began is verified and intact when it ends. */
  lemma {:induction false} VerifiedStaysIntact(w: World, s0: State, before: seq<Step>, after: seq<Step>, j: int)
    requires WorldOk(w) && Init(w, s0)
    requires History(w, s0, before).Some? && History(w, s0, before + after).Some?
    requires j in VerifiedChunks(w, History(w, s0, before).value.file)
    ensures var s, t := History(w, s0, before).value, History(w, s0, before + after).value;
            var name := VerifiedChunks(w, s.file)[j];
            && j in VerifiedChunks(w, t.file) && VerifiedChunks(w, t.file)[j] == name
            && name in s.remote && name in t.remote && t.remote[name] == s.remote[name]
    decreases |after|
  {
    if after == [] {
      assert before + after == before;
      HistoryKeeps(w, s0, before);
      VerifiedIsFinal(w, History(w, s0, before).value, Crash, j);
    } else {
      var most, step := before + after[..|after| - 1], after[|after| - 1];
      LastStepApart(before, after);
      HistoryStep(w, s0, most, step);
      VerifiedStaysIntact(w, s0, before, after[..|after| - 1], j);
      HistoryKeeps(w, s0, most);
      VerifiedIsFinal(w, History(w, s0, most).value, step, j);
    }
  }

  // ---------- completion ----------

  /** The object of a verified chunk decompresses to the chunk's slice of the source. */
  lemma {:induction false} FetchedIsSlice(w: World, h: Header, i: nat, c: Chunk, remote: map<string, Bytes>)
    requires WorldOk(w) && HeaderOk(h) && InPlay(w, remote)
    requires Recorded(w, h, i, c) && RemoteMatches(w, remote, h, c)
    ensures Fetched(w.codec, remote, h, c) == Some(Slice(w, h, i))
  {
    var z :| Compresses(w, h, i, z) && c == ChunkOf(w, h, i, z);
    assert remote[ChunkPath(h, c)] == z;
    OffsetNonNegative(h, i);
  }

  function Min(a: int, b: int): int {
    if a <= b then a else b
  }

  /** Chunk j is recorded as a compression of slice j, and its object matches the record. */
  ghost predicate Stored(w: World, h: Header, remote: map<string, Bytes>, chunks: seq<Chunk>) {
    forall j: nat :: j < |chunks| ==> Recorded(w, h, j, chunks[j]) && RemoteMatches(w, remote, h, chunks[j])
  }

  lemma {:induction false} StoredPrefix(w: World, h: Header, remote: map<string, Bytes>, chunks: seq<Chunk>)
    requires Stored(w, h, remote, chunks) && chunks != []
    ensures Stored(w, h, remote, chunks[..|chunks| - 1])
  {
  }

  lemma {:induction false} LaidStep(h: Header, chunks: seq<Chunk>, offset: int)
    requires chunks != [] && Laid(h, chunks[..|chunks| - 1]) == Some(offset) && LengthAt(h, offset) > 0
    requires ValidChunk(chunks[|chunks| - 1], |chunks| - 1, offset, LengthAt(h, offset))
    ensures Laid(h, chunks) == Some(offset + LengthAt(h, offset))
  {
  }

  lemma {:induction false} StoredIsLaid(w: World, h: Header, remote: map<string, Bytes>, chunks: seq<Chunk>)
    requires WorldOk(w) && HeaderOk(h) && Stored(w, h, remote, chunks)
    ensures Laid(h, chunks) == Some(Min(OffsetOf(h, |chunks|), h.source.size))
  {
    if chunks != [] {
      var k := |chunks| - 1;
      StoredPrefix(w, h, remote, chunks);
      StoredIsLaid(w, h, remote, chunks[..k]);
      RecordedIsValid(w, h, k, chunks[k]);
      LaidStep(h, chunks, OffsetOf(h, k));
      assert OffsetOf(h, k) + LengthAt(h, OffsetOf(h, k)) == Min(OffsetOf(h, |chunks|), h.source.size);
    } else {
      assert OffsetOf(h, 0) == 0 && Laid(h, chunks) == Some(0);
    }
  }

  lemma {:induction false} AssembledStep(c: Codec, remote: map<string, Bytes>, h: Header, chunks: seq<Chunk>, image: Bytes, raw: Bytes)
    requires chunks != [] && Laid(h, chunks).Some?
    requires Assembled(c, remote, h, chunks[..|chunks| - 1]) == Some(image)
    requires Fetched(c, remote, h, chunks[|chunks| - 1]) == Some(raw)
    ensures Assembled(c, remote, h, chunks) == Some(image + raw)
  {
  }

  /** The source up to the end of the first k chunks. */
  function Covered(w: World, h: Header, k: nat): Bytes {
    var end := Min(OffsetOf(h, k), h.source.size);
    if 0 <= end <= |w.content(h.source)| then w.content(h.source)[..end] else []
  }

  lemma {:induction false} CoveredStep(w: World, h: Header, k: nat)
    requires WorldOk(w) && HeaderOk(h) && OffsetOf(h, k) < h.source.size
    ensures Covered(w, h, k + 1) == Covered(w, h, k) + Slice(w, h, k)
  {
    OffsetNonNegative(h, k);
    var source, from, length := w.content(h.source), OffsetOf(h, k), LengthAt(h, OffsetOf(h, k));
    assert source[..from] + source[from..from + length] == source[..from + length];
  }

  /** Stored chunks assemble to the prefix of the source they cover. */
  lemma {:induction false} StoredAssembles(w: World, h: Header, remote: map<string, Bytes>, chunks: seq<Chunk>)
    requires WorldOk(w) && HeaderOk(h) && Stored(w, h, remote, chunks) && InPlay(w, remote)
    ensures Laid(h, chunks).Some?
    ensures Assembled(w.codec, remote, h, chunks) == Some(Covered(w, h, |chunks|))
  {
    StoredIsLaid(w, h, remote, chunks);
    if chunks != [] {
      var k := |chunks| - 1;
      StoredPrefix(w, h, remote, chunks);
      StoredAssembles(w, h, remote, chunks[..k]);
      FetchedIsSlice(w, h, k, chunks[k], remote);
      AssembledStep(w.codec, remote, h, chunks, Covered(w, h, k), Slice(w, h, k));
      CoveredStep(w, h, k);
    }
  }

  lemma {:induction false} CompletedSessionRestores(w: World, h: Header, r: Replayed, remote: map<string, Bytes>, m: Manifest)
    requires WorldOk(w) && HeaderOk(h) && StatesOk(w, h, r) && RemoteOk(w, h, r, remote) && InPlay(w, remote)
    requires DoneOk(w, h, r, remote, m)
    ensures Restore(w.codec, remote, ManifestPath(h), false) == Some(w.content(h.source))
  {
    forall j: nat | j < |m.chunks|
      ensures Recorded(w, h, j, m.chunks[j]) && RemoteMatches(w, remote, h, m.chunks[j])
    {
      assert IsAt(r, j, Verified, m.chunks[j]);
    }
    StoredIsLaid(w, h, remote, m.chunks);
    StoredAssembles(w, h, remote, m.chunks);
    assert remote[ManifestPath(h)] == w.codec.encodeManifest(m);
    assert Accepted(w.codec, remote, ManifestPath(h)) == Some(m);
    assert w.content(h.source)[..h.source.size] == w.content(h.source);
  }

  /**
   * The tool's central promise. Take any history of upload runs, crashed
   * anywhere, with torn journal lines, torn or corrupted objects and lost or
   * corrupted staging. If its last run completes, restoring the manifest from
   * the store as it then is yields exactly the bytes of the source.
   */
  lemma {:induction false} CompletionRestoresSource(w: World, s0: State, steps: seq<Step>)
    requires WorldOk(w) && Init(w, s0) && History(w, s0, steps).Some?
    requires History(w, s0, steps).value.run.Done?
    ensures var s := History(w, s0, steps).value;
            var h := s.run.manifest.header;
            Restore(w.codec, s.remote, ManifestPath(h), false) == Some(w.content(h.source))
  {
    HistoryKeeps(w, s0, steps);
    var s := History(w, s0, steps).value;
    var log := LogOf(w, s.file);
    CompletedSessionRestores(w, log[0].header, Replay(log[1..]).value, s.remote, s.run.manifest);
  }

  // ---------- the arguments of a run ----------

  /** Step k is the last start of the history. */
  ghost predicate LastStart(steps: seq<Step>, k: nat) {
    k < |steps| && steps[k].Start? && forall j :: k < j < |steps| ==> !steps[j].Start?
  }

  /** The header is about these arguments. */
  ghost predicate Fits(h: Header, args: Args) {
    h.version == VERSION && h.source == args.source && h.destination == args.destination && h.chunkSize == args.chunkSize
  }

  /** What the run is about are these arguments. */
  ghost predicate RunFits(run: Run, args: Args) {
    match run
    case Idle => true
    case Opening(a) => a == args
    case Active(h, _, _, _, _, _) => Fits(h, args)
    case Done(m) => Fits(m.header, args)
  }

  lemma {:induction false} WorkFits(w: World, s: State, a: Action, args: Args)
    requires s.run.Active? && CanAct(w, s, a) && Fits(s.run.header, args)
    ensures RunFits(Act(w, s, a).run, args)
  {
  }

  lemma {:induction false} StepFits(w: World, s: State, step: Step, args: Args)
    requires Enabled(w, s, step) && (if step.Start? then step.args == args else RunFits(s.run, args))
    ensures RunFits(Apply(w, s, step).run, args)
  {
    if step.Work? {
      WorkFits(w, s, step.action, args);
    }
  }

  /**
   * Whatever was started before, and on whatever journal: a run is about the
   * source, the destination and the chunk size of its own start.
   */
  lemma {:induction false} RunIsAboutItsArguments(w: World, s0: State, steps: seq<Step>)
    requires Init(w, s0) && History(w, s0, steps).Some? && !History(w, s0, steps).value.run.Idle?
    ensures exists k: nat :: LastStart(steps, k)
    ensures forall k: nat :: LastStart(steps, k) ==> RunFits(History(w, s0, steps).value.run, steps[k].args)
    decreases |steps|
  {
    var most, step := steps[..|steps| - 1], steps[|steps| - 1];
    var t := History(w, s0, most).value;
    if step.Start? {
      assert LastStart(steps, |steps| - 1);
      StepFits(w, t, step, step.args);
    } else {
      if t.run.Idle? {
        OnlyStartsBegin(w, t, step);
      }
      RunIsAboutItsArguments(w, s0, most);
      var k: nat :| LastStart(most, k);
      assert LastStart(steps, k);
      StepFits(w, t, step, steps[k].args);
    }
  }

  lemma {:induction false} OnlyStartsBegin(w: World, s: State, step: Step)
    requires Enabled(w, s, step) && s.run.Idle? && !step.Start?
    ensures Apply(w, s, step).run.Idle?
  {
  }

  /** So a completed run restores the source it was started for. */
  lemma {:induction false} CompletedRunRestoresItsSource(w: World, s0: State, steps: seq<Step>, k: nat)
    requires WorldOk(w) && Init(w, s0) && History(w, s0, steps).Some? && History(w, s0, steps).value.run.Done? && LastStart(steps, k)
    ensures var s := History(w, s0, steps).value;
            && Fits(s.run.manifest.header, steps[k].args)
            && Restore(w.codec, s.remote, ManifestPath(s.run.manifest.header), false) == Some(w.content(steps[k].args.source))
  {
    CompletionRestoresSource(w, s0, steps);
    RunIsAboutItsArguments(w, s0, steps);
  }

  /**
   * What a start does, after any history: on an empty journal it goes on to
   * write a header; on one with a header it resumes if and only if source,
   * destination and chunk size are those of the header, at the first chunk and
   * with all that the journal says; in all other cases it gives up.  The events
   * of the journal, staging and the store stay as they are.
   */
  lemma {:induction false} StartResumesWhen(w: World, s0: State, steps: seq<Step>, args: Args)
    requires WorldOk(w) && Init(w, s0) && History(w, s0, steps).Some? && History(w, s0, steps).value.run.Idle? && args.chunkSize > 0
    ensures var s := History(w, s0, steps).value;
            var t, log := Apply(w, s, Start(args)), LogOf(w, s.file);
            && LogOf(w, t.file) == log && t.stage == s.stage && t.remote == s.remote && !t.run.Done?
            && (t.run.Opening? <==> log == [] && args.source.size > 0)
            && (t.run.Active? <==> log != [] && log[0].HeaderEvent? && log[0].header.source == args.source
                                   && log[0].header.destination == args.destination && log[0].header.chunkSize == args.chunkSize)
            && (t.run.Active? ==> t.run.header == log[0].header && t.run.events == log && Replay(log[1..]).Some?
                                  && t.run.states == Replay(log[1..]).value.states && t.run.i == 0 && t.run.chunks == [] && t.run.phase.AtChunk?)
  {
    HistoryKeeps(w, s0, steps);
    var s := History(w, s0, steps).value;
    var log := LogOf(w, s.file);
    StepKeeps(w, s, log, Start(args));
    HeldLogLoads(w, s.file, log);
    HeldLogLoads(w, Apply(w, s, Start(args)).file, log);
  }

  // ---------- what is sent ----------

  /** The tool gets ready to send a chunk only with exactly the recorded bytes staged. */
  lemma {:induction false} SendsOnlyTheRecorded(w: World, s: State, a: Action)
    requires s.run.Active? && CanAct(w, s, a) && Act(w, s, a).run.Active? && Act(w, s, a).run.phase.ReadyUpload?
    ensures var t := Act(w, s, a);
            Staged(w, t.stage, t.run.i, t.run.phase.chunk)
  {
  }

  // ---------- whatever journal a run resumes ----------

  predicate GoodHeader(h: Header) {
    h.source.size > 0 && h.chunkSize > 0
  }

  /** Chunk k of the source, with a record that passes `validate_chunk`. */
  predicate GoodChunk(h: Header, k: nat, c: Chunk) {
    OffsetOf(h, k) < h.source.size && ValidChunk(c, k, OffsetOf(h, k), LengthAt(h, OffsetOf(h, k)))
  }

  predicate GoodChunks(h: Header, chunks: seq<Chunk>) {
    GoodHeader(h) && forall k :: 0 <= k < |chunks| ==> GoodChunk(h, k, chunks[k])
  }

  /** What was recorded of chunk k when the run began is c. */
  predicate AsRecorded(states: map<int, Status>, k: nat, c: Chunk) {
    k in states ==> states[k].chunk == c
  }

  predicate GoodPhase(run: Run)
    requires run.Active?
  {
    var h, i := run.header, run.i;
    match run.phase
    case AtChunk => true
    case ToPrepare => OffsetOf(h, i) < h.source.size && i !in run.states
    case SendManifest => OffsetOf(h, i) >= h.source.size && |run.states| <= |run.chunks|
    case CheckManifest => OffsetOf(h, i) >= h.source.size && |run.states| <= |run.chunks|
    case RecordPrepared(c) => GoodChunk(h, i, c) && AsRecorded(run.states, i, c)
    case Reconcile(c, _) => GoodChunk(h, i, c) && AsRecorded(run.states, i, c)
    case NeedUpload(c, _) => GoodChunk(h, i, c) && AsRecorded(run.states, i, c)
    case ReadyUpload(c, _) => GoodChunk(h, i, c) && AsRecorded(run.states, i, c)
    case RecordUploaded(c) => GoodChunk(h, i, c) && AsRecorded(run.states, i, c)
    case ReadBack(c) => GoodChunk(h, i, c) && AsRecorded(run.states, i, c)
    case RecordVerified(c) => GoodChunk(h, i, c) && AsRecorded(run.states, i, c)
    case Release(c) => GoodChunk(h, i, c) && AsRecorded(run.states, i, c)
  }

  /** The recorded chunks are the first ones. */
  ghost predicate FirstOnes(states: map<int, Status>) {
    exists last :: Contiguous(Replayed(states, last))
  }

  ghost predicate GoodRun(run: Run) {
    match run
    case Idle => true
    case Opening(args) => args.source.size > 0 && args.chunkSize > 0
    case Active(h, _, states, i, chunks, _) =>
      && GoodChunks(h, chunks) && |chunks| == i && FirstOnes(states) && GoodPhase(run)
      && forall k :: 0 <= k < i ==> AsRecorded(states, k, chunks[k])
    case Done(m) => GoodChunks(m.header, m.chunks) && OffsetOf(m.header, |m.chunks|) >= m.header.source.size
  }

  lemma {:induction false} BegunIsGood(run: Run)
    requires run.Active? && run.phase.AtChunk? && OffsetOf(run.header, run.i) < run.header.source.size && GoodRun(run)
    ensures GoodRun(Begun(run))
  {
  }

  lemma {:induction false} ReleasedIsGood(run: Run)
    requires run.Active? && run.phase.Release? && GoodRun(run)
    ensures GoodRun(run.(i := run.i + 1, chunks := run.chunks + [run.phase.chunk], phase := AtChunk))
  {
  }

  lemma {:induction false} ActionIsGood(w: World, s: State, a: Action)
    requires WorldOk(w) && s.run.Active? && CanAct(w, s, a) && GoodRun(s.run)
    ensures GoodRun(Act(w, s, a).run)
  {
    var run := s.run;
    if a.BeginChunk? {
      BegunIsGood(run);
    } else if a.Prepare? {
      RecordedIsValid(w, run.header, run.i, ChunkOf(w, run.header, run.i, a.z));
    } else if a.ReleaseChunk? {
      ReleasedIsGood(run);
    }
  }

  lemma {:induction false} StartIsGood(w: World, s: State, args: Args)
    requires s.run.Idle? && args.chunkSize > 0
    ensures GoodRun(Entered(w, s, args).run)
  {
    if Load(w.codec, s.file).Log? {
      var events := Load(w.codec, s.file).events;
      if Resumed(events, args).Active? {
        AcceptedLogIsContiguous(events[1..]);
        var r := Replay(events[1..]).value;
        assert Contiguous(Replayed(r.states, r.last));
      }
    }
  }

  lemma {:induction false} StepIsGood(w: World, s: State, step: Step)
    requires WorldOk(w) && Enabled(w, s, step) && GoodRun(s.run)
    ensures GoodRun(Apply(w, s, step).run)
  {
    match step
    case Start(args) => StartIsGood(w, s, args);
    case Work(a) => ActionIsGood(w, s, a);
    case WriteHeader(session) => assert Contiguous(Replayed(map[], -1));
    case _ =>
  }

  lemma {:induction false} OffsetIs(h: Header, k: nat)
    ensures OffsetOf(h, k) == k * h.chunkSize
  {
    if k > 0 {
      OffsetIs(h, k - 1);
      assert k * h.chunkSize == (k - 1) * h.chunkSize + h.chunkSize;
    }
  }

  lemma {:induction false} GoodIsLaid(h: Header, chunks: seq<Chunk>)
    requires GoodChunks(h, chunks) && OffsetOf(h, |chunks|) >= h.source.size
    ensures Laid(h, chunks) == Some(h.source.size)
  {
    forall k | 0 <= k < |chunks|
      ensures PlacedAt(h, chunks[k], k)
    {
      OffsetIs(h, k);
    }
    OffsetIs(h, |chunks|);
    LaidWhen(h, chunks);
  }

  /**
   * Whatever journal a run finds, and whoever wrote it: when it completes, its
   * manifest is laid out as restoring asks for, each record valid and none
   * beyond the source.
   */
  lemma {:induction false} AnyManifestIsLaidOut(w: World, s: State, steps: seq<Step>)
    requires WorldOk(w) && s.run.Idle? && History(w, s, steps).Some?
    ensures var run := History(w, s, steps).value.run;
            GoodRun(run) && (run.Done? ==> Laid(run.manifest.header, run.manifest.chunks) == Some(run.manifest.header.source.size))
  {
    if steps != [] {
      AnyManifestIsLaidOut(w, s, steps[..|steps| - 1]);
      StepIsGood(w, History(w, s, steps[..|steps| - 1]).value, steps[|steps| - 1]);
    }
    var run := History(w, s, steps).value.run;
    if run.Done? {
      GoodIsLaid(run.manifest.header, run.manifest.chunks);
    }
  }

  lemma {:induction false} FirstCount(keys: set<int>, last: int)
    requires -1 <= last && forall j :: j in keys <==> 0 <= j <= last
    ensures |keys| == last + 1
    decreases last
  {
    if last >= 0 {
      FirstCount(keys - {last}, last - 1);
    } else {
      assert forall j: int :: j !in keys;
    }
  }

  /** And all that the journal recorded when the run began is in it. */
  lemma {:induction false} ManifestHasTheRecorded(w: World, s: State, steps: seq<Step>, j: int)
    requires WorldOk(w) && s.run.Idle? && History(w, s, steps).Some?
    requires var run := History(w, s, steps).value.run;
             run.Active? && (run.phase.SendManifest? || run.phase.CheckManifest?) && j in run.states
    ensures var run := History(w, s, steps).value.run;
            0 <= j < |run.chunks| && run.chunks[j] == run.states[j].chunk
  {
    AnyManifestIsLaidOut(w, s, steps);
    var run := History(w, s, steps).value.run;
    var last :| Contiguous(Replayed(run.states, last));
    FirstCount(run.states.Keys, last);
    assert |run.states| == |run.states.Keys|;
    assert AsRecorded(run.states, j, run.chunks[j]);
  }
}
