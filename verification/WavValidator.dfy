/** The validator of uploaded audio: it accepts exactly the files of acceptable chunk lists. */
module WavValidator {
  import opened BitStrings
  import opened WavFile

  datatype Option<T> = None | Some(value: T)

  /** The playing time, or the one error the validator raises. */
  datatype Result = Valid(ms: nat) | InvalidWav

  // ----- the header

  predicate HeaderOk(content: seq<Byte>) {
    && 44 <= |content| <= MAX_BYTES
    && content[..4] == RIFF && content[8..12] == WAVE
    && LittleEndian(content[4..8]) + 8 == |content|
  }

  lemma HeaderOfFile(content: seq<Byte>, cs: seq<Chunk>)
    requires Parses(content, cs) && 44 <= |content| <= MAX_BYTES
    ensures HeaderOk(content) && content[12..] == EncodeAll(cs)
  {
    var n := 4 + |EncodeAll(cs)|;
    Pow2Values();
    LittleEndianRoundTrip(n, 4);
    hide LittleEndian, LittleEndianBytes, EncodeAll, Pow2;
    assert content[4..8] == LittleEndianBytes(n, 4);
  }

  lemma FileOfHeader(content: seq<Byte>, cs: seq<Chunk>)
    requires HeaderOk(content) && ReadSoFar(content, cs, |content|)
    ensures Parses(content, cs)
  {
    LittleEndianInverse(content[4..8]);
    hide LittleEndian, LittleEndianBytes, EncodeAll;
    assert |EncodeAll(cs)| == |content| - 12;
    assert content == content[..4] + content[4..8] + content[8..12] + content[12..];
  }

  /** No chunk list of this content is acceptable. */
  ghost predicate Hopeless(content: seq<Byte>) {
    forall cs :: Parses(content, cs) ==> !Acceptable(cs)
  }

  lemma BadHeaderIsHopeless(content: seq<Byte>)
    requires !HeaderOk(content)
    ensures Hopeless(content)
  {
    forall cs | Parses(content, cs)
      ensures !Acceptable(cs)
    {
      if Acceptable(cs) {
        HeaderOfFile(content, cs);
      }
    }
  }

  // ----- the walk over the chunks

  /** Whatever parses the content starts with the chunks read so far. */
  ghost predicate Forced(content: seq<Byte>, cs: seq<Chunk>) {
    forall full :: Parses(content, full) ==> cs <= full
  }

  /** The first four bytes after a chunk header, or fewer at the end of the file. */
  function Tag(content: seq<Byte>, start: nat): seq<Byte>
    requires start <= |content|
  {
    if start + 4 <= |content| then content[start..start + 4] else content[start..]
  }

  /** The checks of one pass of the loop. */
  predicate NextOk(content: seq<Byte>, cs: seq<Chunk>, offset: nat) {
    && |cs| < 64
    && ChunkFits(content, offset)
    && var c := ChunkAt(content, offset);
       && (c.kind == FMT || c.kind == DATA || IsMetadata(c))
       && (c.kind == FMT ==> |OfKind(cs, FMT)| == 0 && |c.payload| == 16)
       && (c.kind == DATA ==> |OfKind(cs, DATA)| == 0)
       && (IsMetadata(c) ==> MetadataSize(cs) + |c.payload| <= 65536)
       && (c.kind == LIST ==> Tag(content, offset + 8) == INFO)
  }

  lemma TagOfChunk(content: seq<Byte>, offset: nat)
    requires ChunkFits(content, offset)
    ensures var c := ChunkAt(content, offset);
            INFO <= c.payload + c.pad ==> Tag(content, offset + 8) == INFO
  {
    var c := ChunkAt(content, offset);
    hide LittleEndian;
    var body := c.payload + c.pad;
    assert content[offset + 8..offset + 8 + |body|] == body;
    if INFO <= body {
      assert content[offset + 8..offset + 12] == body[..4];
    }
  }

  lemma BadChunkIsHopeless(content: seq<Byte>, cs: seq<Chunk>, offset: nat)
    requires ReadSoFar(content, cs, offset) && offset < |content| && Forced(content, cs)
    requires !NextOk(content, cs, offset)
    ensures Hopeless(content)
  {
    forall full | Parses(content, full)
      ensures !Acceptable(full)
    {
      NextChunk(content, cs, offset, full);
      var c := ChunkAt(content, offset);
      SummariesGrow(cs + [c], full);
      SummariesAppend(cs, c);
      TagOfChunk(content, offset);
      hide ReadSoFar, Parses, ChunkFits, ChunkAt, OfKind, MetadataSize, Tag;
      assert full[|cs|] == c;
    }
  }

  lemma SummariesAppend(cs: seq<Chunk>, c: Chunk)
    ensures OfKind(cs + [c], FMT) == OfKind(cs, FMT) + if c.kind == FMT then [c] else []
    ensures OfKind(cs + [c], DATA) == OfKind(cs, DATA) + if c.kind == DATA then [c] else []
    ensures MetadataSize(cs + [c]) == MetadataSize(cs) + if IsMetadata(c) then |c.payload| else 0
  {
    assert (cs + [c])[..|cs|] == cs;
  }

  lemma NextIsForced(content: seq<Byte>, cs: seq<Chunk>, offset: nat)
    requires ReadSoFar(content, cs, offset) && offset < |content| && Forced(content, cs) && ChunkFits(content, offset)
    ensures Forced(content, cs + [ChunkAt(content, offset)])
  {
    forall full | Parses(content, full)
      ensures cs + [ChunkAt(content, offset)] <= full
    {
      NextChunk(content, cs, offset, full);
    }
  }

  /**
   * A list of fewer than four bytes can pass the INFO test with bytes of the next chunk's header;
   * that header then names no known kind.
   */
  predicate Doomed(content: seq<Byte>, offset: nat) {
    && offset + 2 <= |content|
    && (content[offset..offset + 2] == [0x46, 0x4f] || content[offset..offset + 2] == [0x49, 0x4e])
  }

  lemma ShortListIsDoomed(content: seq<Byte>, offset: nat)
    requires ChunkFits(content, offset) && Tag(content, offset + 8) == INFO
    ensures var c := ChunkAt(content, offset);
            INFO <= c.payload + c.pad || Doomed(content, offset + |c.Encode()|)
  {
    var c := ChunkAt(content, offset);
    hide LittleEndian, LittleEndianBytes;
    var body, next := c.payload + c.pad, offset + |c.Encode()|;
    assert content[offset + 8..next] == body;
    assert content[offset + 8..offset + 12] == INFO;
    if |body| >= 4 {
      assert body[..4] == content[offset + 8..offset + 12];
    } else if |body| == 2 {
      assert content[next..next + 2] == INFO[2..4];
    } else {
      assert |body| == 0;
      assert content[next..next + 2] == INFO[0..2];
    }
  }

  lemma DoomedFails(content: seq<Byte>, cs: seq<Chunk>, offset: nat)
    requires Doomed(content, offset)
    ensures !NextOk(content, cs, offset)
  {
    if ChunkFits(content, offset) {
      hide LittleEndian;
      assert ChunkAt(content, offset).kind[..2] == content[offset..offset + 2];
    }
  }

  /** What the loop variables say about the chunks read so far. */
  predicate Summarizes(cs: seq<Chunk>, count: nat, metadata: nat, fmt: Option<Format>, data: Option<nat>) {
    && count == |cs| <= 64
    && metadata == MetadataSize(cs) <= 65536
    && |OfKind(cs, FMT)| == (if fmt.Some? then 1 else 0)
    && (fmt.Some? ==> |OfKind(cs, FMT)[0].payload| == 16 && fmt.value == FormatOf(cs))
    && |OfKind(cs, DATA)| == (if data.Some? then 1 else 0)
    && (data.Some? ==> data.value == |OfKind(cs, DATA)[0].payload|)
  }

  /** All chunks are known, or the rest of the content cannot be read. */
  predicate KnownOrDoomed(content: seq<Byte>, cs: seq<Chunk>, offset: nat) {
    AllKnown(cs) || Doomed(content, offset)
  }

  lemma OneMoreIsKnown(content: seq<Byte>, cs: seq<Chunk>, offset: nat)
    requires NextOk(content, cs, offset) && KnownOrDoomed(content, cs, offset)
    ensures var c := ChunkAt(content, offset);
            KnownOrDoomed(content, cs + [c], offset + |c.Encode()|)
  {
    var c := ChunkAt(content, offset);
    if Doomed(content, offset) {
      DoomedFails(content, cs, offset);
    }
    hide LittleEndian, LittleEndianBytes, OfKind, MetadataSize;
    if c.kind == LIST {
      ShortListIsDoomed(content, offset);
    }
  }

  /** At the end of the content the chunks read are its only parse. */
  lemma OnlyParse(content: seq<Byte>, cs: seq<Chunk>)
    requires HeaderOk(content) && ReadSoFar(content, cs, |content|) && Forced(content, cs)
    ensures forall full :: Parses(content, full) <==> full == cs
  {
    FileOfHeader(content, cs);
    forall full | Parses(content, full)
      ensures full == cs
    {
      HeaderOfFile(content, full);
      EncodeSplit(full, |cs|);
      assert full[..|cs|] == cs;
      EncodingLength(full[|cs|..]);
    }
  }

  lemma ProductGrows(a: int, b: int, c: nat)
    requires a <= b
    ensures a * c <= b * c
  {
  }

  /** Frames and rate give a whole number of milliseconds between one second and two minutes. */
  lemma MillisecondBounds(frames: nat, rate: nat)
    requires 0 < rate <= frames <= 120 * rate
    ensures 1000 <= frames * 1000 / rate <= 120000
  {
    var q := frames * 1000 / rate;
    assert q * rate <= frames * 1000 < (q + 1) * rate;
    if q < 1000 {
      ProductGrows(q + 1, 1000, rate);
    } else if q > 120000 {
      ProductGrows(120001, q, rate);
    }
  }

  lemma AcceptedLength(cs: seq<Chunk>)
    requires Acceptable(cs)
    ensures 1000 <= Milliseconds(cs) <= 120000
  {
    hide OfKind, MetadataSize, DecodeFormat, EncodeAll;
    var f := FormatOf(cs);
    MillisecondBounds(|OfKind(cs, DATA)[0].payload| / f.align, f.rate);
  }

  /** One pass of the loop; count already includes the chunk that starts at the offset. */
  method ReadChunk(content: seq<Byte>, offset: nat, count: nat, metadata: nat, fmt: Option<Format>, data: Option<nat>,
                   ghost cs: seq<Chunk>)
    returns (ok: bool, next: nat, metadata': nat, fmt': Option<Format>, data': Option<nat>)
    requires offset < |content| && count == |cs| + 1
    requires ReadSoFar(content, cs, offset) && Forced(content, cs)
    requires Summarizes(cs, |cs|, metadata, fmt, data) && KnownOrDoomed(content, cs, offset)
    ensures !ok ==> Hopeless(content)
    ensures ok ==> && NextOk(content, cs, offset)
                   && var cs' := cs + [ChunkAt(content, offset)];
                   && next > offset
                   && ReadSoFar(content, cs', next) && Forced(content, cs')
                   && Summarizes(cs', count, metadata', fmt', data') && KnownOrDoomed(content, cs', next)
  {
    hide LittleEndian, LittleEndianBytes, EncodeAll, DecodeFormat, ReadSoFar, Forced, KnownOrDoomed, OfKind, MetadataSize;
    next, metadata', fmt', data' := offset, metadata, fmt, data;
    if !NextOk(content, cs, offset) {
      BadChunkIsHopeless(content, cs, offset);
    }
    if count > 64 || offset + 8 > |content| {
      return false, next, metadata', fmt', data';
    }
    var kind := content[offset..offset + 4];
    var size := LittleEndian(content[offset + 4..offset + 8]);
    var start := offset + 8;
    var end := start + size;
    if end + size % 2 > |content| {
      return false, next, metadata', fmt', data';
    }
    ghost var c := ChunkAt(content, offset);
    SummariesAppend(cs, c);
    assert c.kind == kind && c.payload == content[start..end] && |c.Encode()| == 8 + size + size % 2;
    hide ChunkAt, ChunkFits, Hopeless, Tag;
    if kind == FMT {
      if fmt.Some? || size != 16 {
        return false, next, metadata', fmt', data';
      }
      fmt' := Some(DecodeFormat(content[start..end]));
    } else if kind == DATA {
      if data.Some? {
        return false, next, metadata', fmt', data';
      }
      data' := Some(size);
    } else if kind == JUNK || kind == LIST {
      metadata' := metadata + size;
      if metadata' > 65536 || (kind == LIST && Tag(content, start) != INFO) {
        return false, next, metadata', fmt', data';
      }
    } else {
      return false, next, metadata', fmt', data';
    }
    OneMoreIsKnown(content, cs, offset);
    ReadOneMore(content, cs, offset);
    NextIsForced(content, cs, offset);
    return true, end + size % 2, metadata', fmt', data';
  }

  /** validate_wav */
  method ValidateWav(content: seq<Byte>) returns (r: Result)
    ensures r.Valid? <==> exists cs :: Parses(content, cs) && Acceptable(cs)
    ensures forall cs :: Parses(content, cs) && Acceptable(cs) ==> r == Valid(Milliseconds(cs))
    ensures r.Valid? ==> 1000 <= r.ms <= 120000
  {
    if !(44 <= |content| <= MAX_BYTES) || content[..4] != RIFF || content[8..12] != WAVE
       || LittleEndian(content[4..8]) + 8 != |content| {
      BadHeaderIsHopeless(content);
      return InvalidWav;
    }
    var offset: nat, count: nat, metadata: nat := 12, 0, 0;
    var fmt: Option<Format>, data: Option<nat> := None, None;
    ghost var cs: seq<Chunk> := [];
    assert ReadSoFar(content, cs, offset) && Forced(content, cs);
    while offset < |content|
      invariant ReadSoFar(content, cs, offset) && Forced(content, cs)
      invariant Summarizes(cs, count, metadata, fmt, data)
      invariant KnownOrDoomed(content, cs, offset)
      decreases |content| - offset
    {
      count := count + 1;
      hide ReadSoFar, Forced, Summarizes, KnownOrDoomed, NextOk, ChunkAt, Parses, Acceptable;
      ghost var c := if ChunkFits(content, offset) then [ChunkAt(content, offset)] else [];
      var ok;
      ok, offset, metadata, fmt, data := ReadChunk(content, offset, count, metadata, fmt, data, cs);
      if !ok {
        return InvalidWav;
      }
      cs := cs + c;
    }
    OnlyParse(content, cs);
    if fmt.None? || data.None? {
      return InvalidWav;
    }
    var f := fmt.value;
    if !SupportedFormat(f) || data.value % f.align != 0 {
      return InvalidWav;
    }
    var frames := data.value / f.align;
    if !(f.rate <= frames <= 120 * f.rate) {
      return InvalidWav;
    }
    AcceptedLength(cs);
    return Valid(frames * 1000 / f.rate);
  }
}
