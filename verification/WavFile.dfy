/** RIFF/WAVE files: the chunk grammar, and the validator that walks it. */
module WavFile {
  import opened BitStrings

  // ----- little-endian numbers and the four-character codes

  /** The number that bytes denote, least significant first. */
  function LittleEndian(b: seq<Byte>): nat {
    if b == [] then 0 else b[0] + 0x100 * LittleEndian(b[1..])
  }

  function LittleEndianBytes(v: nat, n: nat): (b: seq<Byte>)
    ensures |b| == n
  {
    if n == 0 then [] else [v % 0x100] + LittleEndianBytes(v / 0x100, n - 1)
  }

  lemma {:induction false} LittleEndianRoundTrip(v: nat, n: nat)
    requires v < Pow2(8 * n)
    ensures LittleEndian(LittleEndianBytes(v, n)) == v
  {
    if n > 0 {
      Pow2Sum(8 * n - 8, 8);
      ScaleByByte(Pow2(8 * n - 8));
      LittleEndianRoundTrip(v / 0x100, n - 1);
      assert LittleEndianBytes(v, n)[1..] == LittleEndianBytes(v / 0x100, n - 1);
    }
  }

  lemma LowestByte(x: Byte, rest: nat)
    ensures (x + 0x100 * rest) % 0x100 == x && (x + 0x100 * rest) / 0x100 == rest
  {
  }

  lemma BytesOfSum(x: Byte, rest: nat, n: nat)
    ensures LittleEndianBytes(x + 0x100 * rest, n + 1) == [x] + LittleEndianBytes(rest, n)
  {
    LowestByte(x, rest);
  }

  lemma {:induction false} LittleEndianInverse(b: seq<Byte>)
    ensures LittleEndianBytes(LittleEndian(b), |b|) == b
  {
    if b != [] {
      BytesOfSum(b[0], LittleEndian(b[1..]), |b| - 1);
      LittleEndianInverse(b[1..]);
      hide LittleEndianBytes;
      assert b == [b[0]] + b[1..];
    }
  }

  const RIFF: seq<Byte> := [0x52, 0x49, 0x46, 0x46]
  const WAVE: seq<Byte> := [0x57, 0x41, 0x56, 0x45]
  const FMT: seq<Byte> := [0x66, 0x6d, 0x74, 0x20]
  const DATA: seq<Byte> := [0x64, 0x61, 0x74, 0x61]
  const JUNK: seq<Byte> := [0x4a, 0x55, 0x4e, 0x4b]
  const LIST: seq<Byte> := [0x4c, 0x49, 0x53, 0x54]
  const INFO: seq<Byte> := [0x49, 0x4e, 0x46, 0x4f]

  const MAX_BYTES: nat := 25 * 1024 * 1024

  // ----- the grammar

  /** A chunk; an odd payload is followed by one pad byte of any value. */
  datatype Chunk = Chunk(kind: seq<Byte>, payload: seq<Byte>, pad: seq<Byte>) {
    predicate Shaped() {
      |kind| == 4 && |payload| < TWO32 && |pad| == |payload| % 2
    }

    function Encode(): seq<Byte> {
      kind + LittleEndianBytes(|payload|, 4) + payload + pad
    }
  }

  predicate AllShaped(cs: seq<Chunk>) {
    forall i :: 0 <= i < |cs| ==> cs[i].Shaped()
  }

  function EncodeAll(cs: seq<Chunk>): seq<Byte> {
    if cs == [] then [] else cs[0].Encode() + EncodeAll(cs[1..])
  }

  /** The file made of some chunks. */
  function Riff(cs: seq<Chunk>): seq<Byte> {
    RIFF + LittleEndianBytes(4 + |EncodeAll(cs)|, 4) + WAVE + EncodeAll(cs)
  }

  // ----- which chunk lists are accepted

  datatype Format = Format(encoding: nat, channels: nat, rate: nat, byteRate: nat, align: nat, bits: nat)

  function DecodeFormat(p: seq<Byte>): Format
    requires |p| == 16
  {
    Format(LittleEndian(p[0..2]), LittleEndian(p[2..4]), LittleEndian(p[4..8]),
           LittleEndian(p[8..12]), LittleEndian(p[12..14]), LittleEndian(p[14..16]))
  }

  /** 16-bit PCM, mono or stereo, at one of five rates. */
  predicate SupportedFormat(f: Format) {
    && f.encoding == 1 && f.channels in {1, 2} && f.rate in {16000, 22050, 24000, 44100, 48000}
    && f.bits == 16 && f.align == f.channels * 2 && f.byteRate == f.rate * f.align
  }

  /** Between one second and two minutes of whole frames. */
  predicate SupportedLength(f: Format, size: nat)
    requires SupportedFormat(f)
  {
    size % f.align == 0 && f.rate <= size / f.align <= 120 * f.rate
  }

  function OfKind(cs: seq<Chunk>, kind: seq<Byte>): seq<Chunk> {
    if cs == [] then []
    else
      var last := |cs| - 1;
      OfKind(cs[..last], kind) + if cs[last].kind == kind then [cs[last]] else []
  }

  predicate IsMetadata(c: Chunk) {
    c.kind == JUNK || c.kind == LIST
  }

  function MetadataSize(cs: seq<Chunk>): nat {
    if cs == [] then 0
    else
      var last := |cs| - 1;
      MetadataSize(cs[..last]) + if IsMetadata(cs[last]) then |cs[last].payload| else 0
  }

  /** A chunk of a known kind; a format is 16 bytes long and a list starts with INFO, its pad byte included. */
  predicate KnownChunk(c: Chunk) {
    || (c.kind == FMT && |c.payload| == 16)
    || c.kind == DATA
    || c.kind == JUNK
    || (c.kind == LIST && INFO <= c.payload + c.pad)
  }

  predicate AllKnown(cs: seq<Chunk>) {
    forall i :: 0 <= i < |cs| ==> KnownChunk(cs[i])
  }

  /** The chunk lists of acceptable files. */
  predicate Acceptable(cs: seq<Chunk>) {
    && AllShaped(cs) && |cs| <= 64 && AllKnown(cs)
    && |OfKind(cs, FMT)| == 1 && |OfKind(cs, DATA)| == 1 && MetadataSize(cs) <= 65536
    && |OfKind(cs, FMT)[0].payload| == 16
    && SupportedFormat(FormatOf(cs))
    && SupportedLength(FormatOf(cs), |OfKind(cs, DATA)[0].payload|)
    && 44 <= |Riff(cs)| <= MAX_BYTES
  }

  function FormatOf(cs: seq<Chunk>): Format
    requires |OfKind(cs, FMT)| == 1 && |OfKind(cs, FMT)[0].payload| == 16
  {
    DecodeFormat(OfKind(cs, FMT)[0].payload)
  }

  /** The playing time in whole milliseconds, rounded down. */
  function Milliseconds(cs: seq<Chunk>): (ms: nat)
    requires Acceptable(cs)
  {
    var f := FormatOf(cs);
    |OfKind(cs, DATA)[0].payload| / f.align * 1000 / f.rate
  }

  // ----- files written by a serializer

  /** The 16 bytes of a format chunk. */
  function EncodeFormat(f: Format): (p: seq<Byte>)
    ensures |p| == 16
  {
    LittleEndianBytes(f.encoding, 2) + LittleEndianBytes(f.channels, 2) + LittleEndianBytes(f.rate, 4)
    + LittleEndianBytes(f.byteRate, 4) + LittleEndianBytes(f.align, 2) + LittleEndianBytes(f.bits, 2)
  }

  /** The plain file of some samples: a format chunk and a data chunk. */
  function PlainChunks(f: Format, samples: seq<Byte>): seq<Chunk> {
    [Chunk(FMT, EncodeFormat(f), []), Chunk(DATA, samples, [])]
  }

  lemma SixParts(a: seq<Byte>, b: seq<Byte>, c: seq<Byte>, d: seq<Byte>, e: seq<Byte>, g: seq<Byte>)
    requires |a| == |b| == |e| == |g| == 2 && |c| == |d| == 4
    ensures var p := a + b + c + d + e + g;
            p[0..2] == a && p[2..4] == b && p[4..8] == c && p[8..12] == d && p[12..14] == e && p[14..16] == g
  {
  }

  function Number16(low: int, high: int): int {
    low + 0x100 * high
  }

  function Number32(a: int, b: int, c: int, d: int): int {
    a + 0x100 * b + 0x1_0000 * c + 0x100_0000 * d
  }

  lemma TwoBytes(p: seq<Byte>, i: nat)
    requires i + 2 <= |p|
    ensures LittleEndian(p[i..i + 2]) == Number16(p[i], p[i + 1])
  {
    var b := p[i..i + 2];
    assert b[1..] == [p[i + 1]] && b[1..][1..] == [];
    assert LittleEndian(b[1..]) == p[i + 1];
  }

  lemma FourBytes(p: seq<Byte>, i: nat)
    requires i + 4 <= |p|
    ensures LittleEndian(p[i..i + 4]) == Number32(p[i], p[i + 1], p[i + 2], p[i + 3])
  {
    var b := p[i..i + 4];
    assert b[1..][1..] == p[i + 2..i + 4];
    TwoBytes(p, i + 2);
    assert LittleEndian(b[1..]) == p[i + 1] + 0x100 * LittleEndian(p[i + 2..i + 4]);
  }

  /** Which bytes of a format chunk hold which field, the least significant first. */
  lemma FieldsOfFormat(p: seq<Byte>)
    requires |p| == 16
    ensures DecodeFormat(p) == Format(Number16(p[0], p[1]), Number16(p[2], p[3]), Number32(p[4], p[5], p[6], p[7]),
                                      Number32(p[8], p[9], p[10], p[11]), Number16(p[12], p[13]), Number16(p[14], p[15]))
  {
    TwoBytes(p, 0);
    TwoBytes(p, 2);
    FourBytes(p, 4);
    FourBytes(p, 8);
    TwoBytes(p, 12);
    TwoBytes(p, 14);
    hide LittleEndian, Number16, Number32;
  }

  /** The fields of a format that a file has room for. */
  predicate FieldsFit(f: Format) {
    && f.encoding < 0x1_0000 && f.channels < 0x1_0000 && f.align < 0x1_0000 && f.bits < 0x1_0000
    && f.rate < TWO32 && f.byteRate < TWO32
  }

  lemma FormatRoundTrip(f: Format)
    requires FieldsFit(f)
    ensures DecodeFormat(EncodeFormat(f)) == f
  {
    hide LittleEndian, LittleEndianBytes;
    Pow2Values();
    LittleEndianRoundTrip(f.encoding, 2);
    LittleEndianRoundTrip(f.channels, 2);
    LittleEndianRoundTrip(f.rate, 4);
    LittleEndianRoundTrip(f.byteRate, 4);
    LittleEndianRoundTrip(f.align, 2);
    LittleEndianRoundTrip(f.bits, 2);
    SixParts(LittleEndianBytes(f.encoding, 2), LittleEndianBytes(f.channels, 2), LittleEndianBytes(f.rate, 4),
             LittleEndianBytes(f.byteRate, 4), LittleEndianBytes(f.align, 2), LittleEndianBytes(f.bits, 2));
  }

  lemma SampleBytes(f: Format, size: nat)
    requires SupportedFormat(f) && SupportedLength(f, size)
    ensures size % 2 == 0 && 32000 <= size <= 120 * 48000 * 4
  {
    if f.channels == 1 {
      MonoBytes(f.rate, size);
    } else {
      StereoBytes(f.rate, size);
    }
  }

  lemma MonoBytes(rate: nat, size: nat)
    requires 16000 <= rate <= 48000 && size % 2 == 0 && rate <= size / 2 <= 120 * rate
    ensures 32000 <= size <= 120 * 48000 * 4
  {
  }

  lemma StereoBytes(rate: nat, size: nat)
    requires 16000 <= rate <= 48000 && size % 4 == 0 && rate <= size / 4 <= 120 * rate
    ensures size % 2 == 0 && 32000 <= size <= 120 * 48000 * 4
  {
  }

  lemma PlainSummaries(f: Format, samples: seq<Byte>)
    ensures var cs := PlainChunks(f, samples);
            && OfKind(cs, FMT) == [cs[0]] && OfKind(cs, DATA) == [cs[1]] && MetadataSize(cs) == 0
            && |EncodeAll(cs)| == 32 + |samples|
  {
    var cs := PlainChunks(f, samples);
    assert cs[..1] == [cs[0]] && cs[1..] == [cs[1]];
    assert cs[..1][..0] == [] && cs[1..][1..] == [];
    assert OfKind(cs[..1], FMT) == [cs[0]] && OfKind(cs[..1], DATA) == [];
    assert MetadataSize(cs[..1]) == 0;
    hide LittleEndianBytes, EncodeFormat;
    assert EncodeAll(cs[1..]) == cs[1].Encode();
  }

  /**
   * A plain file is acceptable exactly if it is 16-bit PCM, mono or stereo, at one of the five rates, and holds whole frames of
   * one second to two minutes; its length is then the time of its frames.
   */
  lemma PlainFileIsAcceptable(f: Format, samples: seq<Byte>)
    requires FieldsFit(f)
    ensures Acceptable(PlainChunks(f, samples))
       <==> && f.encoding == 1 && f.bits == 16 && (f.channels == 1 || f.channels == 2)
            && (f.rate == 16000 || f.rate == 22050 || f.rate == 24000 || f.rate == 44100 || f.rate == 48000)
            && f.align == 2 * f.channels && f.byteRate == f.rate * f.align
            && exists frames: nat :: |samples| == frames * f.align && f.rate <= frames <= 120 * f.rate
    ensures Acceptable(PlainChunks(f, samples)) ==> Milliseconds(PlainChunks(f, samples)) == |samples| / f.align * 1000 / f.rate
  {
    FormatRoundTrip(f);
    PlainSummaries(f, samples);
    if SupportedFormat(f) {
      WholeFrames(f, |samples|);
      if SupportedLength(f, |samples|) {
        SampleBytes(f, |samples|);
      }
    }
    hide SupportedLength, DecodeFormat, EncodeFormat, EncodeAll, OfKind, MetadataSize, LittleEndianBytes;
  }

  lemma WholeFrames(f: Format, size: nat)
    requires SupportedFormat(f)
    ensures SupportedLength(f, size) <==> exists frames: nat :: size == frames * f.align && f.rate <= frames <= 120 * f.rate
  {
    if SupportedLength(f, size) {
      assert size == (size / f.align) * f.align;
    }
    if frames: nat :| size == frames * f.align && f.rate <= frames <= 120 * f.rate {
      assert size / f.align == frames;
    }
  }

  // ----- the encoding can be read in one way only

  lemma {:induction false} EncodeAppend(cs: seq<Chunk>, c: Chunk)
    ensures EncodeAll(cs + [c]) == EncodeAll(cs) + c.Encode()
  {
    if cs == [] {
      assert cs + [c] == [c];
    } else {
      EncodeAppend(cs[1..], c);
      assert (cs + [c])[1..] == cs[1..] + [c];
    }
  }

  lemma {:induction false} EncodeSplit(cs: seq<Chunk>, n: nat)
    requires n <= |cs|
    ensures EncodeAll(cs) == EncodeAll(cs[..n]) + EncodeAll(cs[n..])
  {
    if n > 0 {
      EncodeSplit(cs[1..], n - 1);
      assert cs[1..][..n - 1] == cs[..n][1..];
    }
  }

  lemma {:induction false} EncodingLength(cs: seq<Chunk>)
    requires AllShaped(cs)
    ensures |EncodeAll(cs)| >= 8 * |cs|
  {
    if cs != [] {
      EncodingLength(cs[1..]);
    }
  }

  /** The chunk that starts at an offset, if one fits. */
  predicate ChunkFits(content: seq<Byte>, offset: nat) {
    && offset + 8 <= |content|
    && var size := LittleEndian(content[offset + 4..offset + 8]);
       offset + 8 + size + size % 2 <= |content|
  }

  function ChunkAt(content: seq<Byte>, offset: nat): Chunk
    requires ChunkFits(content, offset)
  {
    var size := LittleEndian(content[offset + 4..offset + 8]);
    var end := offset + 8 + size;
    Chunk(content[offset..offset + 4], content[offset + 8..end], content[end..end + size % 2])
  }

  lemma SizeBelowTwo32(b: seq<Byte>)
    requires |b| == 4
    ensures LittleEndian(b) < TWO32
  {
    var b1, b2, b3 := b[1..], b[1..][1..], b[1..][1..][1..];
    assert LittleEndian(b3) < 0x100;
    assert LittleEndian(b2) < 0x1_0000;
    assert LittleEndian(b1) < 0x100_0000;
  }

  lemma SliceOfSlice(content: seq<Byte>, offset: nat, e: seq<Byte>, i: nat, j: nat)
    requires i <= j <= |e| && offset + |e| <= |content| && content[offset..offset + |e|] == e
    ensures content[offset + i..offset + j] == e[i..j]
  {
    var x, y := content[offset + i..offset + j], e[i..j];
    forall k | 0 <= k < j - i
      ensures x[k] == y[k]
    {
      assert content[offset..offset + |e|][i + k] == content[offset + i + k];
    }
  }

  lemma FourParts(k: seq<Byte>, l: seq<Byte>, p: seq<Byte>, q: seq<Byte>)
    requires |k| == |l| == 4
    ensures var e := k + l + p + q;
            && e[0..4] == k
            && e[4..8] == l
            && e[8..8 + |p|] == p
            && e[8 + |p|..|e|] == q
  {
    var e := k + l + p + q;
    assert e[8..8 + |p|] == p;
    assert e[8 + |p|..|e|] == q;
  }

  lemma FourSlices(content: seq<Byte>, offset: nat, end: nat, next: nat)
    requires offset + 8 <= end <= next <= |content|
    ensures content[offset..next]
         == content[offset..offset + 4] + content[offset + 4..offset + 8] + content[offset + 8..end] + content[end..next]
  {
    TwoSlices(content, offset, offset + 4, offset + 8);
    TwoSlices(content, offset, offset + 8, end);
    TwoSlices(content, offset, end, next);
  }

  lemma TwoSlices(content: seq<Byte>, from: nat, middle: nat, next: nat)
    requires from <= middle <= next <= |content|
    ensures content[from..next] == content[from..middle] + content[middle..next]
  {
  }

  /** What is read at an offset is the encoding of a well-shaped chunk. */
  lemma ChunkAtEncodes(content: seq<Byte>, offset: nat)
    requires ChunkFits(content, offset)
    ensures var c := ChunkAt(content, offset);
            && c.Shaped()
            && offset + |c.Encode()| <= |content|
            && content[offset..offset + |c.Encode()|] == c.Encode()
  {
    var field := content[offset + 4..offset + 8];
    var size := LittleEndian(field);
    SizeBelowTwo32(field);
    LittleEndianInverse(field);
    hide LittleEndian, LittleEndianBytes;
    EncodedSlices(content, offset, size, ChunkAt(content, offset));
  }

  lemma EncodedSlices(content: seq<Byte>, offset: nat, size: nat, c: Chunk)
    requires offset + 8 + size + size % 2 <= |content| && content[offset + 4..offset + 8] == LittleEndianBytes(size, 4)
    requires c.kind == content[offset..offset + 4] && c.payload == content[offset + 8..offset + 8 + size]
    requires c.pad == content[offset + 8 + size..offset + 8 + size + size % 2]
    ensures |c.Encode()| == 8 + size + size % 2 && content[offset..offset + |c.Encode()|] == c.Encode()
  {
    hide LittleEndianBytes;
    FourSlices(content, offset, offset + 8 + size, offset + 8 + size + size % 2);
  }

  /** A chunk whose encoding starts at an offset is the one read there. */
  lemma ChunkAtIsUnique(content: seq<Byte>, offset: nat, c: Chunk)
    requires c.Shaped() && offset + |c.Encode()| <= |content|
    requires content[offset..offset + |c.Encode()|] == c.Encode()
    ensures ChunkFits(content, offset) && ChunkAt(content, offset) == c
  {
    var e, n := c.Encode(), |c.payload|;
    Pow2Values();
    LittleEndianRoundTrip(n, 4);
    hide LittleEndian, LittleEndianBytes, Pow2;
    FourParts(c.kind, LittleEndianBytes(n, 4), c.payload, c.pad);
    SliceOfSlice(content, offset, e, 0, 4);
    SliceOfSlice(content, offset, e, 4, 8);
    SliceOfSlice(content, offset, e, 8, 8 + n);
    SliceOfSlice(content, offset, e, 8 + n, |e|);
  }

  /** The content is the file made of these chunks. */
  predicate Parses(content: seq<Byte>, cs: seq<Chunk>) {
    AllShaped(cs) && content == Riff(cs)
  }

  /** The first chunks fill the content up to an offset. */
  predicate ReadSoFar(content: seq<Byte>, cs: seq<Chunk>, offset: nat) {
    && AllShaped(cs) && 12 <= offset <= |content|
    && content[12..offset] == EncodeAll(cs)
  }

  lemma ChunksOfContent(content: seq<Byte>, full: seq<Chunk>)
    requires Parses(content, full)
    ensures |content| >= 12 && content[12..] == EncodeAll(full)
  {
    hide EncodeAll, LittleEndianBytes;
  }

  lemma RestOfContent(content: seq<Byte>, cs: seq<Chunk>, offset: nat, full: seq<Chunk>)
    requires ReadSoFar(content, cs, offset) && Parses(content, full) && cs <= full
    ensures content[offset..] == EncodeAll(full[|cs|..])
  {
    ChunksOfContent(content, full);
    hide Parses, EncodeAll;
    EncodeSplit(full, |cs|);
    assert full[..|cs|] == cs;
    assert content[12..][..offset - 12] == content[12..offset];
    assert content[12..][offset - 12..] == content[offset..];
  }

  /** If more content follows, the next chunk of any parse that extends cs is the one read at the offset. */
  lemma NextChunk(content: seq<Byte>, cs: seq<Chunk>, offset: nat, full: seq<Chunk>)
    requires ReadSoFar(content, cs, offset) && offset < |content|
    requires Parses(content, full) && cs <= full
    ensures ChunkFits(content, offset) && cs + [ChunkAt(content, offset)] <= full
  {
    RestOfContent(content, cs, offset, full);
    var rest := full[|cs|..];
    assert EncodeAll(rest) == rest[0].Encode() + EncodeAll(rest[1..]);
    var e := rest[0].Encode();
    hide EncodeAll, LittleEndianBytes, ChunkFits, ChunkAt;
    assert content[offset..][..|e|] == content[offset..offset + |e|];
    ChunkAtIsUnique(content, offset, rest[0]);
  }

  lemma AllShapedAppend(cs: seq<Chunk>, c: Chunk)
    requires AllShaped(cs) && c.Shaped()
    ensures AllShaped(cs + [c])
  {
  }

  lemma ReadOneMore(content: seq<Byte>, cs: seq<Chunk>, offset: nat)
    requires ReadSoFar(content, cs, offset) && ChunkFits(content, offset)
    ensures var c := ChunkAt(content, offset);
            ReadSoFar(content, cs + [c], offset + |c.Encode()|)
  {
    var c := ChunkAt(content, offset);
    ChunkAtEncodes(content, offset);
    EncodeAppend(cs, c);
    hide EncodeAll, ChunkAt, ChunkFits, LittleEndianBytes, AllShaped, Chunk.Shaped;
    var next := offset + |c.Encode()|;
    TwoSlices(content, 12, offset, next);
    AllShapedAppend(cs, c);
  }

  /** Counts and sizes of a longer list are no smaller. */
  lemma {:induction false} SummariesGrow(cs: seq<Chunk>, full: seq<Chunk>)
    requires cs <= full
    ensures MetadataSize(cs) <= MetadataSize(full)
    ensures |OfKind(cs, FMT)| <= |OfKind(full, FMT)| && |OfKind(cs, DATA)| <= |OfKind(full, DATA)|
  {
    if cs != full {
      SummariesGrow(cs, full[..|full| - 1]);
    } else {
      assert cs == full;
    }
  }
}
