/**
 * The data of the checkpointed recovery tool: journal events, chunk records,
 * manifests, object names, and the library functions it relies on.
 */
module RecoveryModel {
  import opened Wrappers
  import opened Decimal

  type Hex = string

  const NEWLINE: bv8 := 10
  const BLOCK: nat := 1024 * 1024
  const VERSION: int := 1
  const MANIFEST_LIMIT: nat := 64 * BLOCK

  /** What `identity` records of the source; everything but the size is one opaque tag. */
  datatype Identity = Identity(tag: string, size: int)

  datatype Header = Header(version: int, session: string, source: Identity,
                           destination: string, chunkSize: int, compression: string)

  datatype Chunk = Chunk(index: int, offset: int, length: int, rawSha: Hex,
                         compressedSize: int, compressedSha: Hex)

  datatype Progress = Prepared | Uploaded | Verified | OtherState(name: string)

  /** A journal event; any JSON value of another shape is an OtherEvent. */
  datatype Event = HeaderEvent(header: Header)
                 | ChunkEvent(state: Progress, chunk: Chunk)
                 | OtherEvent(json: string)

  /** One journal line: the event and the checksum that chains it to its predecessors. */
  datatype Row = Row(event: Event, sha256: Hex)

  datatype Manifest = Manifest(header: Header, chunks: seq<Chunk>)

  /**
   * The library functions: SHA-256, JSON encoding and parsing, gzip
   * decompression. The theorems hold for every choice of them that is Sound.
   */
  datatype Codec = Codec(
    sha: Bytes -> Hex,
    ascii: Hex -> Bytes,
    encodeEvent: Event -> Bytes,
    encodeRow: Row -> Bytes,
    parseRow: Bytes -> Option<Row>,
    encodeManifest: Manifest -> Bytes,
    parseManifest: Bytes -> Option<Manifest>,
    gunzip: Bytes -> Option<Bytes>)

  predicate NoNewline(b: Bytes) {
    forall i :: 0 <= i < |b| ==> b[i] != NEWLINE
  }

  predicate IsHexDigit(c: char) {
    '0' <= c <= '9' || 'a' <= c <= 'f'
  }

  predicate IsHex(s: string, length: nat) {
    |s| == length && forall i :: 0 <= i < |s| ==> IsHexDigit(s[i])
  }

  /** Encodings carry no newline and are inverted by the parser; digests are 64 hex digits. */
  ghost predicate Sound(c: Codec) {
    && (forall b: Bytes :: IsHex(c.sha(b), 64))
    && (forall r: Row :: NoNewline(c.encodeRow(r)))
    && (forall r: Row :: c.parseRow(c.encodeRow(r) + [NEWLINE]) == Some(r))
    && (forall m: Manifest :: c.parseManifest(c.encodeManifest(m)) == Some(m))
    && c.gunzip([]) == Some([])
  }

  /** `remote_path`: Python's rstrip, then a slash unless the destination is a bare remote. */
  function StripSlashes(s: string): string {
    if s != "" && s[|s| - 1] == '/' then StripSlashes(s[..|s| - 1]) else s
  }

  function RemotePath(destination: string, name: string): string {
    StripSlashes(destination)
    + (if destination != "" && destination[|destination| - 1] == ':' then "" else "/")
    + name
  }

  function ChunkName(header: Header, chunk: Chunk): string
    requires chunk.index >= 0
  {
    "chunks/" + header.session + "-" + Padded(chunk.index, 12) + "-" + chunk.compressedSha + ".gz"
  }

  function ManifestName(header: Header): string {
    "manifests/" + header.session + ".json"
  }

  function ChunkPath(header: Header, chunk: Chunk): string
    requires chunk.index >= 0
  {
    RemotePath(header.destination, ChunkName(header, chunk))
  }

  function ManifestPath(header: Header): string {
    RemotePath(header.destination, ManifestName(header))
  }

  /** The two parts of a prefix, found again in the whole. */
  lemma {:induction false} PrefixParts(a: Bytes, b: Bytes, whole: Bytes)
    requires a + b <= whole
    ensures a <= whole && |a| + |b| <= |whole| && whole[|a|..|a| + |b|] == b
  {
    assert whole[..|a| + |b|] == a + b;
    assert whole[|a|..|a| + |b|] == (a + b)[|a|..];
    assert whole[..|a|] == (a + b)[..|a|];
  }

  lemma {:induction false} CancelPrefix(p: string, a: string, b: string)
    requires p + a == p + b
    ensures a == b
  {
    assert a == (p + a)[|p|..];
    assert b == (p + b)[|p|..];
  }

  lemma {:induction false} CancelSuffix(a: string, b: string, s: string, t: string)
    requires a + s == b + t && |s| == |t|
    ensures a == b && s == t
  {
    assert |a| == |b|;
    assert a == (a + s)[..|a|];
    assert b == (b + t)[..|b|];
    assert s == (a + s)[|a|..];
    assert t == (b + t)[|b|..];
  }

  /** Within a session two chunk objects share a name only if they share index and content hash. */
  lemma {:induction false} ChunkPathInjective(header: Header, a: Chunk, b: Chunk)
    requires a.index >= 0 && b.index >= 0
    requires |a.compressedSha| == |b.compressedSha|
    requires ChunkPath(header, a) == ChunkPath(header, b)
    ensures a.index == b.index && a.compressedSha == b.compressedSha
  {
    var prefix := RemotePath(header.destination, "") + ("chunks/" + header.session + "-");
    var restA := (Padded(a.index, 12) + "-") + (a.compressedSha + ".gz");
    var restB := (Padded(b.index, 12) + "-") + (b.compressedSha + ".gz");
    assert ChunkPath(header, a) == prefix + restA;
    assert ChunkPath(header, b) == prefix + restB;
    CancelPrefix(prefix, restA, restB);
    CancelSuffix(Padded(a.index, 12) + "-", Padded(b.index, 12) + "-",
                 a.compressedSha + ".gz", b.compressedSha + ".gz");
    CancelSuffix(Padded(a.index, 12), Padded(b.index, 12), "-", "-");
    CancelSuffix(a.compressedSha, b.compressedSha, ".gz", ".gz");
    PaddedInjective(a.index, b.index, 12);
  }

  /** The manifest never overwrites a chunk. */
  lemma {:induction false} ManifestPathApart(header: Header, chunk: Chunk)
    requires chunk.index >= 0
    ensures ManifestPath(header) != ChunkPath(header, chunk)
  {
    var prefix := RemotePath(header.destination, "");
    assert ManifestPath(header) == prefix + ManifestName(header);
    assert ChunkPath(header, chunk) == prefix + ChunkName(header, chunk);
    assert (prefix + ManifestName(header))[|prefix|] == 'm';
    assert (prefix + ChunkName(header, chunk))[|prefix|] == 'c';
  }

  /** The largest compressed chunk that staging accepts. */
  function StagingLimit(length: int): int {
    length + length / 100 + BLOCK
  }

  /** `validate_chunk`. */
  predicate ValidChunk(chunk: Chunk, index: int, offset: int, length: int) {
    && chunk.index == index && chunk.offset == offset && chunk.length == length
    && 0 < chunk.compressedSize <= StagingLimit(length)
    && IsHex(chunk.rawSha, 64)
    && IsHex(chunk.compressedSha, 64)
  }

  /** Size and digest of the object at name agree with the recorded ones: what `verify` accepts. */
  predicate Matches(c: Codec, remote: map<string, Bytes>, name: string, size: int, sha: Hex) {
    name in remote && |remote[name]| == size && c.sha(remote[name]) == sha
  }
}
