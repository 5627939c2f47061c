/** Restoring an image from a manifest, and the byte loops of staging and verification. */
module RecoveryRestore {
  import opened Wrappers
  import opened RecoveryModel
  import opened RecoveryProtocol

  /** The layout loop: the offset after chunks index.. , or None where it refuses the manifest. */
  function Laid(h: Header, chunks: seq<Chunk>): Option<int> {
    if chunks == [] then Some(0)
    else
      var k := |chunks| - 1;
      match Laid(h, chunks[..k])
      case None => None
      case Some(offset) =>
        var length := LengthAt(h, offset);
        if length <= 0 || !ValidChunk(chunks[k], k, offset, length) then None else Some(offset + length)
  }

  /** The raw bytes of one chunk, if the stored object passes every check. */
  function Fetched(c: Codec, remote: map<string, Bytes>, h: Header, chunk: Chunk): Option<Bytes>
    requires chunk.index >= 0
  {
    if !Matches(c, remote, ChunkPath(h, chunk), chunk.compressedSize, chunk.compressedSha) then None
    else
      match c.gunzip(remote[ChunkPath(h, chunk)])
      case None => None
      case Some(raw) => if |raw| == chunk.length && c.sha(raw) == chunk.rawSha then Some(raw) else None
  }

  function Assembled(c: Codec, remote: map<string, Bytes>, h: Header, chunks: seq<Chunk>): Option<Bytes>
    requires Laid(h, chunks).Some?
  {
    if chunks == [] then Some([])
    else
      var k := |chunks| - 1;
      match Assembled(c, remote, h, chunks[..k])
      case None => None
      case Some(image) =>
        match Fetched(c, remote, h, chunks[k])
        case None => None
        case Some(raw) => Some(image + raw)
  }

  /** The manifest at name, if it is one the tool accepts. */
  function Accepted(c: Codec, remote: map<string, Bytes>, name: string): Option<Manifest> {
    if name !in remote || |remote[name]| > MANIFEST_LIMIT then None
    else
      match c.parseManifest(remote[name])
      case None => None
      case Some(m) =>
        if HeaderOk(m.header) && Laid(m.header, m.chunks) == Some(m.header.source.size) then Some(m) else None
  }

  /** The published output, or None when nothing is published. */
  function Restore(c: Codec, remote: map<string, Bytes>, name: string, outputExists: bool): Option<Bytes> {
    if outputExists then None
    else
      match Accepted(c, remote, name)
      case None => None
      case Some(m) => Assembled(c, remote, m.header, m.chunks)
  }

  // ---------- soundness: whatever the store returns ----------

  lemma {:induction false} LaidPrefix(h: Header, chunks: seq<Chunk>, k: nat)
    requires Laid(h, chunks).Some? && k <= |chunks|
    ensures Laid(h, chunks[..k]).Some?
    ensures k < |chunks| ==>
              var offset := Laid(h, chunks[..k]).value;
              LengthAt(h, offset) > 0 && ValidChunk(chunks[k], k, offset, LengthAt(h, offset))
              && Laid(h, chunks[..k + 1]) == Some(offset + LengthAt(h, offset))
    decreases |chunks|
  {
    if k == |chunks| {
      assert chunks[..k] == chunks;
    } else if k == |chunks| - 1 {
      assert chunks[..k + 1] == chunks;
    } else {
      var shorter := chunks[..|chunks| - 1];
      LaidPrefix(h, shorter, k);
      assert shorter[..k] == chunks[..k] && shorter[..k + 1] == chunks[..k + 1];
    }
  }

  /** Chunk k of the list occupies [offset, offset + length), the next one starts where it ends. */
  ghost predicate Tiles(h: Header, chunks: seq<Chunk>, total: int) {
    && (chunks == [] ==> total == 0)
    && (chunks != [] ==> chunks[0].offset == 0 && chunks[|chunks| - 1].offset + chunks[|chunks| - 1].length == total)
    && (forall k :: 0 <= k < |chunks| ==> chunks[k].length > 0)
    && (forall k :: 0 <= k < |chunks| - 1 ==> chunks[k + 1].offset == chunks[k].offset + chunks[k].length)
  }

  lemma {:induction false} LaidTiles(h: Header, chunks: seq<Chunk>)
    requires Laid(h, chunks).Some?
    ensures Tiles(h, chunks, Laid(h, chunks).value)
  {
    forall k | 0 <= k < |chunks|
      ensures chunks[k].length > 0 && Laid(h, chunks[..k]) == Some(chunks[k].offset)
      ensures Laid(h, chunks[..k + 1]) == Some(chunks[k].offset + chunks[k].length)
    {
      LaidPrefix(h, chunks, k);
    }
    if chunks != [] {
      assert chunks[..0] == [] && chunks[..|chunks|] == chunks;
    }
  }

  /** The bytes at each chunk's place have the raw digest recorded for the chunk. */
  ghost predicate SlicesMatch(c: Codec, image: Bytes, chunks: seq<Chunk>) {
    forall k :: 0 <= k < |chunks| ==> SliceMatches(c, image, chunks[k])
  }

  ghost predicate SliceMatches(c: Codec, image: Bytes, chunk: Chunk) {
    && 0 <= chunk.offset && 0 <= chunk.length && chunk.offset + chunk.length <= |image|
    && c.sha(image[chunk.offset..chunk.offset + chunk.length]) == chunk.rawSha
  }

  lemma {:induction false} SliceMatchesLonger(c: Codec, image: Bytes, more: Bytes, chunk: Chunk)
    requires SliceMatches(c, image, chunk)
    ensures SliceMatches(c, image + more, chunk)
  {
    assert (image + more)[chunk.offset..chunk.offset + chunk.length]
        == image[chunk.offset..chunk.offset + chunk.length];
  }

  lemma {:induction false} AssembledSlices(c: Codec, remote: map<string, Bytes>, h: Header, chunks: seq<Chunk>)
    requires Laid(h, chunks).Some? && Assembled(c, remote, h, chunks).Some?
    ensures |Assembled(c, remote, h, chunks).value| == Laid(h, chunks).value
    ensures SlicesMatch(c, Assembled(c, remote, h, chunks).value, chunks)
  {
    if chunks != [] {
      var last := |chunks| - 1;
      var shorter := chunks[..last];
      AssembledSlices(c, remote, h, shorter);
      var image, raw := Assembled(c, remote, h, shorter).value, Fetched(c, remote, h, chunks[last]).value;
      forall k | 0 <= k < |chunks|
        ensures SliceMatches(c, image + raw, chunks[k])
      {
        if k < last {
          assert shorter[k] == chunks[k];
          SliceMatchesLonger(c, image, raw, chunks[k]);
        } else {
          assert (image + raw)[chunks[k].offset..chunks[k].offset + chunks[k].length] == raw;
        }
      }
    }
  }

  /**
   * Whatever the store returned: if an output is published, the manifest's
   * chunks tile [0, size) without gap or overlap, the output has exactly that
   * size, and every slice has the raw digest recorded for it.
   */
  lemma {:induction false} PublishedOutputIsValid(c: Codec, remote: map<string, Bytes>, name: string, output: Bytes)
    requires Restore(c, remote, name, false) == Some(output)
    ensures Accepted(c, remote, name).Some?
    ensures var m := Accepted(c, remote, name).value;
            && Tiles(m.header, m.chunks, m.header.source.size)
            && |output| == m.header.source.size
            && SlicesMatch(c, output, m.chunks)
  {
    var m := Accepted(c, remote, name).value;
    LaidTiles(m.header, m.chunks);
    AssembledSlices(c, remote, m.header, m.chunks);
  }

  // ---------- exactly when an output is published ----------

  /** Chunk k starts k chunk sizes into the source and has a chunk size, or what is left. */
  predicate PlacedAt(h: Header, chunk: Chunk, k: nat) {
    k * h.chunkSize < h.source.size && ValidChunk(chunk, k, k * h.chunkSize, LengthAt(h, k * h.chunkSize))
  }

  predicate AllPlaced(h: Header, chunks: seq<Chunk>) {
    forall k :: 0 <= k < |chunks| ==> PlacedAt(h, chunks[k], k)
  }

  lemma {:induction false} LaidWhen(h: Header, chunks: seq<Chunk>)
    requires h.source.size > 0 && h.chunkSize > 0
    ensures Laid(h, chunks).Some? <==> AllPlaced(h, chunks)
    ensures Laid(h, chunks).Some? ==> Laid(h, chunks).value == if h.source.size <= |chunks| * h.chunkSize then h.source.size else |chunks| * h.chunkSize
  {
    if chunks != [] {
      var n := |chunks| - 1;
      LaidWhen(h, chunks[..n]);
      assert AllPlaced(h, chunks) <==> AllPlaced(h, chunks[..n]) && PlacedAt(h, chunks[n], n);
      assert (n + 1) * h.chunkSize == n * h.chunkSize + h.chunkSize;
    }
  }

  /** The object of the chunk is stored with its recorded size and digest, and unpacks to the recorded length and raw digest. */
  predicate Fetchable(c: Codec, remote: map<string, Bytes>, h: Header, chunk: Chunk) {
    && chunk.index >= 0 && ChunkPath(h, chunk) in remote
    && var stored := remote[ChunkPath(h, chunk)];
       && |stored| == chunk.compressedSize && c.sha(stored) == chunk.compressedSha
       && c.gunzip(stored).Some? && |c.gunzip(stored).value| == chunk.length && c.sha(c.gunzip(stored).value) == chunk.rawSha
  }

  /** At the place of the chunk the image has what its object unpacks to. */
  ghost predicate HasChunk(c: Codec, remote: map<string, Bytes>, h: Header, image: Bytes, chunk: Chunk) {
    && Fetchable(c, remote, h, chunk) && 0 <= chunk.offset && 0 <= chunk.length && chunk.offset + chunk.length <= |image|
    && c.gunzip(remote[ChunkPath(h, chunk)]) == Some(image[chunk.offset..chunk.offset + chunk.length])
  }

  lemma {:induction false} HasChunkStill(c: Codec, remote: map<string, Bytes>, h: Header, image: Bytes, more: Bytes, chunk: Chunk)
    requires HasChunk(c, remote, h, image, chunk)
    ensures HasChunk(c, remote, h, image + more, chunk)
  {
    assert (image + more)[chunk.offset..chunk.offset + chunk.length] == image[chunk.offset..chunk.offset + chunk.length];
  }

  lemma {:induction false} HasLastChunk(c: Codec, remote: map<string, Bytes>, h: Header, image: Bytes, raw: Bytes, chunk: Chunk)
    requires Fetchable(c, remote, h, chunk) && c.gunzip(remote[ChunkPath(h, chunk)]) == Some(raw) && chunk.offset == |image|
    ensures HasChunk(c, remote, h, image + raw, chunk)
  {
    assert (image + raw)[chunk.offset..chunk.offset + chunk.length] == raw;
  }

  lemma {:induction false} AssembledWhen(c: Codec, remote: map<string, Bytes>, h: Header, chunks: seq<Chunk>)
    requires Laid(h, chunks).Some?
    ensures Assembled(c, remote, h, chunks).Some? <==> forall k :: 0 <= k < |chunks| ==> Fetchable(c, remote, h, chunks[k])
    ensures Assembled(c, remote, h, chunks).Some? ==>
              forall k :: 0 <= k < |chunks| ==> HasChunk(c, remote, h, Assembled(c, remote, h, chunks).value, chunks[k])
  {
    if chunks != [] {
      var n := |chunks| - 1;
      var before := chunks[..n];
      AssembledWhen(c, remote, h, before);
      assert forall k :: 0 <= k < n ==> before[k] == chunks[k];
      assert Fetchable(c, remote, h, chunks[n]) <==> Fetched(c, remote, h, chunks[n]).Some?;
      if Assembled(c, remote, h, chunks).Some? {
        var image, raw := Assembled(c, remote, h, before).value, Fetched(c, remote, h, chunks[n]).value;
        AssembledSlices(c, remote, h, before);
        forall k | 0 <= k < |chunks|
          ensures HasChunk(c, remote, h, image + raw, chunks[k])
        {
          if k < n {
            HasChunkStill(c, remote, h, image, raw, before[k]);
          } else {
            HasLastChunk(c, remote, h, image, raw, chunks[n]);
          }
        }
      }
    }
  }

  /** A manifest the tool accepts, with every chunk stored as it records. */
  predicate Restorable(c: Codec, remote: map<string, Bytes>, name: string, m: Manifest) {
    && name in remote && |remote[name]| <= MANIFEST_LIMIT && c.parseManifest(remote[name]) == Some(m) && HeaderOk(m.header)
    && AllPlaced(m.header, m.chunks) && m.header.source.size <= |m.chunks| * m.header.chunkSize
    && forall k :: 0 <= k < |m.chunks| ==> Fetchable(c, remote, m.header, m.chunks[k])
  }

  /**
   * An output is published if and only if there is none yet, the manifest is one
   * of a complete image, laid out chunk by chunk, and every chunk is stored as
   * recorded; then the output is what the chunks unpack to, each at its place.
   */
  lemma {:induction false} PublishedWhen(c: Codec, remote: map<string, Bytes>, name: string, outputExists: bool)
    ensures Restore(c, remote, name, outputExists).Some? <==> !outputExists && exists m :: Restorable(c, remote, name, m)
    ensures forall m :: Restore(c, remote, name, outputExists).Some? && Restorable(c, remote, name, m) ==>
              && |Restore(c, remote, name, outputExists).value| == m.header.source.size
              && forall k :: 0 <= k < |m.chunks| ==> HasChunk(c, remote, m.header, Restore(c, remote, name, outputExists).value, m.chunks[k])
  {
    if name in remote && c.parseManifest(remote[name]).Some? {
      var m := c.parseManifest(remote[name]).value;
      if HeaderOk(m.header) {
        LaidWhen(m.header, m.chunks);
        if Laid(m.header, m.chunks).Some? {
          AssembledWhen(c, remote, m.header, m.chunks);
          if Assembled(c, remote, m.header, m.chunks).Some? {
            AssembledSlices(c, remote, m.header, m.chunks);
          }
        }
      }
      assert Restore(c, remote, name, outputExists).Some? ==> Restorable(c, remote, name, m);
    }
  }

  // ---------- the loops ----------

  /** `verify`: the object arrives in blocks and is refused as soon as it is too long. */
  method VerifyObject(c: Codec, stored: Bytes, expectedSize: int, expectedHash: Hex) returns (ok: bool)
    ensures ok == (|stored| == expectedSize && c.sha(stored) == expectedHash)
  {
    var hashed: Bytes := [];
    while |hashed| < |stored|
      invariant |hashed| <= |stored| && hashed == stored[..|hashed|]
      decreases |stored| - |hashed|
    {
      var n := if |stored| - |hashed| < BLOCK then |stored| - |hashed| else BLOCK;
      var data := stored[|hashed|..|hashed| + n];
      if |hashed| + |data| > expectedSize {
        return false;
      }
      hashed := hashed + data;
    }
    assert hashed == stored;
    return |hashed| == expectedSize && c.sha(hashed) == expectedHash;
  }

  /** The read loop of `prepare`: positional reads, each of any length up to a block. */
  method ReadRange(source: Bytes, offset: nat, length: nat) returns (r: Option<Bytes>)
    ensures r == if offset + length <= |source| || length == 0 then
                   Some(if length == 0 then [] else source[offset..offset + length]) else None
  {
    var remaining := length;
    var data: Bytes := [];
    while remaining > 0
      invariant 0 <= remaining <= length && |data| == length - remaining
      invariant data == [] || (offset + |data| <= |source| && data == source[offset..offset + |data|])
    {
      var at := offset + length - remaining;
      if at >= |source| {
        return None;
      }
      var most := if remaining < BLOCK then remaining else BLOCK;
      var available := if |source| - at < most then |source| - at else most;
      var n :| 1 <= n <= available;
      data := data + source[at..at + n];
      remaining := remaining - n;
    }
    return Some(data);
  }

  /** The decompression loop: exactly `length` bytes, then nothing more. */
  method Decompress(c: Codec, raw: Bytes, chunk: Chunk) returns (r: Option<Bytes>)
    requires chunk.length >= 0
    ensures r == if |raw| == chunk.length && c.sha(raw) == chunk.rawSha then Some(raw) else None
  {
    var remaining := chunk.length;
    var target: Bytes := [];
    while remaining > 0
      invariant 0 <= remaining <= chunk.length
      invariant |target| == chunk.length - remaining <= |raw| && target == raw[..|target|]
    {
      var most := if remaining < BLOCK then remaining else BLOCK;
      var available := if |raw| - |target| < most then |raw| - |target| else most;
      if available == 0 {
        return None;
      }
      var n :| 1 <= n <= available;
      target := target + raw[|target|..|target| + n];
      remaining := remaining - n;
    }
    assert |target| == |raw| ==> target == raw;
    if |target| < |raw| || c.sha(target) != chunk.rawSha {
      return None;
    }
    return Some(target);
  }

  /** `restore`: check the layout first, then fetch and check chunk by chunk, publish at the end. */
  method RestoreImage(c: Codec, remote: map<string, Bytes>, name: string, outputExists: bool)
    returns (output: Option<Bytes>)
    ensures output == Restore(c, remote, name, outputExists)
  {
    if outputExists || name !in remote || |remote[name]| > MANIFEST_LIMIT {
      return None;
    }
    var parsed := c.parseManifest(remote[name]);
    if parsed.None? || !HeaderOk(parsed.value.header) {
      return None;
    }
    var header, chunks := parsed.value.header, parsed.value.chunks;
    var offset := 0;
    for index := 0 to |chunks|
      invariant Laid(header, chunks[..index]) == Some(offset)
    {
      var length := LengthAt(header, offset);
      assert chunks[..index + 1][..index] == chunks[..index];
      if length <= 0 || !ValidChunk(chunks[index], index, offset, length) {
        if Laid(header, chunks).Some? {
          LaidPrefix(header, chunks, index + 1);
        }
        return None;
      }
      offset := offset + length;
    }
    assert chunks[..|chunks|] == chunks;
    if offset != header.source.size {
      return None;
    }
    output := FetchAll(c, remote, header, chunks);
  }

  method FetchAll(c: Codec, remote: map<string, Bytes>, header: Header, chunks: seq<Chunk>)
    returns (output: Option<Bytes>)
    requires Laid(header, chunks).Some?
    ensures output == Assembled(c, remote, header, chunks)
  {
    var target: Bytes := [];
    for k := 0 to |chunks|
      invariant Laid(header, chunks[..k]).Some?
      invariant Assembled(c, remote, header, chunks[..k]) == Some(target)
    {
      LaidPrefix(header, chunks, k);
      LaidPrefix(header, chunks, k + 1);
      assert chunks[..k + 1][..k] == chunks[..k];
      var path := ChunkPath(header, chunks[k]);
      var raw: Option<Bytes> := None;
      if path in remote {
        var ok := VerifyObject(c, remote[path], chunks[k].compressedSize, chunks[k].compressedSha);
        var unzipped := c.gunzip(remote[path]);
        if ok && unzipped.Some? {
          raw := Decompress(c, unzipped.value, chunks[k]);
        }
      }
      assert raw == Fetched(c, remote, header, chunks[k]);
      if raw.None? {
        AssembledPrefix(c, remote, header, chunks, k + 1);
        return None;
      }
      target := target + raw.value;
    }
    assert chunks[..|chunks|] == chunks;
    return Some(target);
  }

  lemma {:induction false} AssembledPrefix(c: Codec, remote: map<string, Bytes>, h: Header, chunks: seq<Chunk>, k: nat)
    requires Laid(h, chunks).Some? && k <= |chunks|
    ensures Laid(h, chunks[..k]).Some?
    ensures Assembled(c, remote, h, chunks).Some? ==> Assembled(c, remote, h, chunks[..k]).Some?
    decreases |chunks|
  {
    LaidPrefix(h, chunks, k);
    if k == |chunks| {
      assert chunks[..k] == chunks;
    } else {
      AssembledPrefix(c, remote, h, chunks[..|chunks| - 1], k);
      assert chunks[..|chunks| - 1][..k] == chunks[..k];
    }
  }
}
