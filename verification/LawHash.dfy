/** SHA-256 computed in ECMAScript numbers and typed arrays, refining the standard. */
module LawHash {
  import opened BitStrings
  import opened JsNumbers
  import opened SecureHashStandard

  // ----- the word functions, written as the program writes them

  /** (value>>>count)|(value<<(32-count)) */
  function Rotate(value: int, count: nat): (v: int)
    requires 0 < count < 32
    ensures -TWO32 < v < TWO32
  {
    BitOr(UnsignedShiftRight(value, count), LeftShift(value, 32 - count))
  }

  function XorOfRotations(x: int, i: nat, j: nat, k: nat): (v: int)
    requires 0 < i < 32 && 0 < j < 32 && 0 < k < 32
    ensures -TWO32 < v < TWO32
  {
    BitXor(BitXor(Rotate(x, i), Rotate(x, j)), Rotate(x, k))
  }

  function XorWithShift(x: int, i: nat, j: nat, k: nat): (v: int)
    requires 0 < i < 32 && 0 < j < 32 && 0 < k < 32
    ensures -TWO32 < v < TWO32
  {
    BitXor(BitXor(Rotate(x, i), Rotate(x, j)), UnsignedShiftRight(x, k))
  }

  function Choose(e: int, f: int, g: int): (v: int)
    ensures -TWO32 < v < TWO32
  {
    BitXor(BitAnd(e, f), BitAnd(BitNot(e), g))
  }

  function Majority(a: int, b: int, c: int): (v: int)
    ensures -TWO32 < v < TWO32
  {
    BitXor(BitXor(BitAnd(a, b), BitAnd(a, c)), BitAnd(b, c))
  }

  // ----- each of them represents the function of the standard

  predicate Congruent(n: int, v: int, q: int) {
    n == v + q * TWO32
  }

  /** n represents the word w: they agree modulo 2^32, whatever the sign of n. */
  ghost predicate Represents(n: int, w: Word) {
    exists q: int :: Congruent(n, Value(w), q)
  }

  lemma RepresentedBits(n: int, w: Word)
    requires Represents(n, w)
    ensures Bits32(n) == w && n % TWO32 == Value(w)
  {
    var q: int :| Congruent(n, Value(w), q);
    BitsOfReduced(n, w, q);
  }

  lemma SignedRepresents(b: Word)
    ensures Represents(Signed(b), b)
  {
    assert Congruent(Signed(b), Value(b), if Value(b) >= 0x8000_0000 then -1 else 0);
  }

  lemma UnsignedRepresents(b: Word)
    ensures Represents(Value(b), b)
  {
    assert Congruent(Value(b), Value(b), 0);
  }

  lemma RotateRefines(x: int, w: Word, n: nat)
    requires 0 < n < 32 && Represents(x, w)
    ensures Represents(Rotate(x, n), Rotr(n, w))
  {
    RepresentedBits(x, w);
    UnsignedRepresents(ShiftRight(w, n));
    SignedRepresents(ShiftLeft(w, 32 - n));
    RepresentedBits(UnsignedShiftRight(x, n), ShiftRight(w, n));
    RepresentedBits(LeftShift(x, 32 - n), ShiftLeft(w, 32 - n));
    SignedRepresents(Or(ShiftRight(w, n), ShiftLeft(w, 32 - n)));
    assert Or(ShiftRight(w, n), ShiftLeft(w, 32 - n)) == Rotr(n, w);
  }

  lemma XorRefines(x: int, v: Word, y: int, w: Word)
    requires Represents(x, v) && Represents(y, w)
    ensures Represents(BitXor(x, y), Xor(v, w))
  {
    RepresentedBits(x, v);
    RepresentedBits(y, w);
    SignedRepresents(Xor(v, w));
  }

  lemma AndRefines(x: int, v: Word, y: int, w: Word)
    requires Represents(x, v) && Represents(y, w)
    ensures Represents(BitAnd(x, y), And(v, w))
  {
    RepresentedBits(x, v);
    RepresentedBits(y, w);
    SignedRepresents(And(v, w));
  }

  lemma NotRefines(x: int, w: Word)
    requires Represents(x, w)
    ensures Represents(BitNot(x), Not(w))
  {
    RepresentedBits(x, w);
    SignedRepresents(Not(w));
  }

  lemma XorOfRotationsRefines(x: int, w: Word, i: nat, j: nat, k: nat)
    requires 0 < i < 32 && 0 < j < 32 && 0 < k < 32 && Represents(x, w)
    ensures Represents(XorOfRotations(x, i, j, k), Xor(Xor(Rotr(i, w), Rotr(j, w)), Rotr(k, w)))
  {
    RotateRefines(x, w, i);
    RotateRefines(x, w, j);
    RotateRefines(x, w, k);
    XorRefines(Rotate(x, i), Rotr(i, w), Rotate(x, j), Rotr(j, w));
    XorRefines(BitXor(Rotate(x, i), Rotate(x, j)), Xor(Rotr(i, w), Rotr(j, w)), Rotate(x, k), Rotr(k, w));
  }

  lemma XorWithShiftRefines(x: int, w: Word, i: nat, j: nat, k: nat)
    requires 0 < i < 32 && 0 < j < 32 && 0 < k < 32 && Represents(x, w)
    ensures Represents(XorWithShift(x, i, j, k), Xor(Xor(Rotr(i, w), Rotr(j, w)), Shr(k, w)))
  {
    RotateRefines(x, w, i);
    RotateRefines(x, w, j);
    RepresentedBits(x, w);
    UnsignedRepresents(ShiftRight(w, k));
    XorRefines(Rotate(x, i), Rotr(i, w), Rotate(x, j), Rotr(j, w));
    XorRefines(BitXor(Rotate(x, i), Rotate(x, j)), Xor(Rotr(i, w), Rotr(j, w)), UnsignedShiftRight(x, k), Shr(k, w));
  }

  lemma ChooseRefines(e: int, x: Word, f: int, y: Word, g: int, z: Word)
    requires Represents(e, x) && Represents(f, y) && Represents(g, z)
    ensures Represents(Choose(e, f, g), Ch(x, y, z))
  {
    AndRefines(e, x, f, y);
    NotRefines(e, x);
    AndRefines(BitNot(e), Not(x), g, z);
    XorRefines(BitAnd(e, f), And(x, y), BitAnd(BitNot(e), g), And(Not(x), z));
  }

  lemma MajorityRefines(a: int, x: Word, b: int, y: Word, c: int, z: Word)
    requires Represents(a, x) && Represents(b, y) && Represents(c, z)
    ensures Represents(Majority(a, b, c), Maj(x, y, z))
  {
    AndRefines(a, x, b, y);
    AndRefines(a, x, c, z);
    AndRefines(b, y, c, z);
    XorRefines(BitAnd(a, b), And(x, y), BitAnd(a, c), And(x, z));
    XorRefines(BitXor(BitAnd(a, b), BitAnd(a, c)), Xor(And(x, y), And(x, z)), BitAnd(b, c), And(y, z));
  }

  lemma CongruentSum(x: int, a: int, p: int, y: int, b: int, q: int)
    requires Congruent(x, a, p) && Congruent(y, b, q)
    ensures Congruent(x + y, (a + b) % TWO32, p + q + (a + b) / TWO32)
  {
  }

  /** An exact sum of representatives represents the sum modulo 2^32. */
  lemma SumRefines(x: int, v: Word, y: int, w: Word)
    requires Represents(x, v) && Represents(y, w)
    ensures Represents(x + y, Add(v, w))
  {
    var p: int :| Congruent(x, Value(v), p);
    var q: int :| Congruent(y, Value(w), q);
    AddIsModular(v, w);
    hide Value, Add;
    CongruentSum(x, Value(v), p, y, Value(w), q);
  }

  /** >>>0 keeps the word a number represents and makes the number that word's value. */
  lemma ToUint32Refines(x: int, w: Word)
    requires Represents(x, w)
    ensures ToUint32(x) == Value(w) && Represents(ToUint32(x), w)
  {
    RepresentedBits(x, w);
    UnsignedRepresents(w);
  }

  // ----- the message schedule

  /** One schedule word from the four it depends on. */
  function ScheduleWord(w16: Uint32, x: Uint32, w7: Uint32, y: Uint32): Uint32 {
    ToUint32(Plus(Plus(Plus(w16, XorWithShift(x, 7, 18, 3)), w7), XorWithShift(y, 17, 19, 10)))
  }

  lemma ThreeTermSumRefines(x: int, p: Word, y: int, q: Word, z: int, r: Word)
    requires Represents(x, p) && Represents(y, q) && Represents(z, r)
    ensures Represents(x + y + z, Add(Add(p, q), r))
  {
    hide Represents;
    SumRefines(x, p, y, q);
    SumRefines(x + y, Add(p, q), z, r);
  }

  /** The program adds the four terms of a schedule word in the order opposite to the standard's. */
  lemma ScheduleSumRefines(w16: Uint32, v16: Word, m0: int, s0: Word, w7: Uint32, v7: Word, m1: int, s1: Word)
    requires Represents(w16, v16) && Represents(m0, s0) && Represents(w7, v7) && Represents(m1, s1)
    requires -TWO32 < m0 < TWO32 && -TWO32 < m1 < TWO32
    ensures Represents(ToUint32(Plus(Plus(Plus(w16, m0), w7), m1)), Add(Add(Add(s1, v7), s0), v16))
  {
    hide Represents, Add, ToUint32;
    ThreeTermSumRefines(m1, s1, w7, v7, m0, s0);
    SumRefines(m1 + w7 + m0, Add(Add(s1, v7), s0), w16, v16);
    assert m1 + w7 + m0 + w16 == w16 + m0 + w7 + m1;
    ToUint32Refines(w16 + m0 + w7 + m1, Add(Add(Add(s1, v7), s0), v16));
  }

  lemma ScheduleWordRefines(w16: Uint32, v16: Word, x: Uint32, v15: Word, w7: Uint32, v7: Word, y: Uint32, v2: Word)
    requires Represents(w16, v16) && Represents(x, v15) && Represents(w7, v7) && Represents(y, v2)
    ensures Represents(ScheduleWord(w16, x, w7, y), Add(Add(Add(SmallSigma1(v2), v7), SmallSigma0(v15)), v16))
  {
    hide Represents;
    XorWithShiftRefines(x, v15, 7, 18, 3);
    XorWithShiftRefines(y, v2, 17, 19, 10);
    ScheduleSumRefines(w16, v16, XorWithShift(x, 7, 18, 3), SmallSigma0(v15),
                       w7, v7, XorWithShift(y, 17, 19, 10), SmallSigma1(v2));
  }

  /** The first n entries hold the schedule of the block. */
  ghost predicate ScheduleUpTo(words: seq<Uint32>, block: Block, n: nat)
    requires n <= |words|
  {
    forall t :: 0 <= t < n ==> Represents(words[t], Schedule(block, t))
  }

  lemma FirstWordsAreScheduled(chunk: seq<Byte>, i: nat)
    requires |chunk| == 64 && i < 16
    ensures var w := BigEndian(chunk[i * 4..i * 4 + 4]);
            w < TWO32 && Represents(w, Schedule(BitsOfBytes(chunk), i))
  {
    hide BitsOfBytes, BigEndian, Value;
    var four := chunk[i * 4..i * 4 + 4];
    BigEndianBits(four);
    BitsOfSlice(chunk, i * 4, i * 4 + 4);
    Pow2Values();
    UnsignedRepresents(BitsOfBytes(four));
  }

  lemma LaterWordsAreScheduled(words: seq<Uint32>, block: Block, i: nat)
    requires 16 <= i < |words| && ScheduleUpTo(words, block, i)
    ensures Represents(ScheduleWord(words[i - 16], words[i - 15], words[i - 7], words[i - 2]), Schedule(block, i))
  {
    ScheduleWordRefines(words[i - 16], Schedule(block, i - 16), words[i - 15], Schedule(block, i - 15),
                        words[i - 7], Schedule(block, i - 7), words[i - 2], Schedule(block, i - 2));
  }

  /** The schedule of the 64-byte block at an offset of the padded message. */
  method ExpandSchedule(padded: array<Byte>, offset: nat, words: array<Uint32>)
    requires offset + 64 <= padded.Length && words.Length == 64
    modifies words
    ensures ScheduleUpTo(words[..], BitsOfBytes(padded[offset..offset + 64]), 64)
  {
    hide Represents, BitsOfBytes, BigEndian, ScheduleWord, Schedule;
    var chunk := padded[offset..offset + 64];
    ghost var block: Block := BitsOfBytes(chunk);
    for i := 0 to 16
      invariant ScheduleUpTo(words[..], block, i)
    {
      FirstWordsAreScheduled(chunk, i);
      words[i] := BigEndian(chunk[i * 4..i * 4 + 4]);
    }
    for i := 16 to 64
      invariant ScheduleUpTo(words[..], block, i)
    {
      LaterWordsAreScheduled(words[..], block, i);
      words[i] := ScheduleWord(words[i - 16], words[i - 15], words[i - 7], words[i - 2]);
    }
  }

  // ----- the compression of one block

  /** Eight numbers represent a hash value or the working variables. */
  ghost predicate Holds(s: seq<Uint32>, v: Hash) {
    && |s| == 8
    && Represents(s[0], v.a) && Represents(s[1], v.b) && Represents(s[2], v.c) && Represents(s[3], v.d)
    && Represents(s[4], v.e) && Represents(s[5], v.f) && Represents(s[6], v.g) && Represents(s[7], v.h)
  }

  function TemporaryOne(e: Uint32, f: Uint32, g: Uint32, h: Uint32, k: Uint32, w: Uint32): Uint32 {
    ToUint32(Plus(Plus(Plus(Plus(h, XorOfRotations(e, 6, 11, 25)), Choose(e, f, g)), k), w))
  }

  function TemporaryTwo(a: Uint32, b: Uint32, c: Uint32): Uint32 {
    ToUint32(Plus(XorOfRotations(a, 2, 13, 22), Majority(a, b, c)))
  }

  lemma FiveTermSumRefines(h: Uint32, vh: Word, s: int, vs: Word, c: int, vc: Word, k: Uint32, vk: Word, w: Uint32, vw: Word)
    requires Represents(h, vh) && Represents(s, vs) && Represents(c, vc) && Represents(k, vk) && Represents(w, vw)
    requires -TWO32 < s < TWO32 && -TWO32 < c < TWO32
    ensures Represents(ToUint32(Plus(Plus(Plus(Plus(h, s), c), k), w)), Add(Add(Add(Add(vh, vs), vc), vk), vw))
  {
    hide Represents, Add, ToUint32;
    ThreeTermSumRefines(h, vh, s, vs, c, vc);
    ThreeTermSumRefines(h + s + c, Add(Add(vh, vs), vc), k, vk, w, vw);
    ToUint32Refines(h + s + c + k + w, Add(Add(Add(Add(vh, vs), vc), vk), vw));
  }

  lemma TwoTermSumRefines(x: int, v: Word, y: int, w: Word)
    requires Represents(x, v) && Represents(y, w)
    requires -TWO32 < x < TWO32 && -TWO32 < y < TWO32
    ensures Represents(ToUint32(Plus(x, y)), Add(v, w))
  {
    hide Represents;
    SumRefines(x, v, y, w);
    ToUint32Refines(x + y, Add(v, w));
  }

  lemma TemporaryOneRefines(e: Uint32, ve: Word, f: Uint32, vf: Word, g: Uint32, vg: Word, h: Uint32, vh: Word,
                            k: Uint32, vk: Word, w: Uint32, vw: Word)
    requires Represents(e, ve) && Represents(f, vf) && Represents(g, vg) && Represents(h, vh)
    requires Represents(k, vk) && Represents(w, vw)
    ensures Represents(TemporaryOne(e, f, g, h, k, w), Add(Add(Add(Add(vh, BigSigma1(ve)), Ch(ve, vf, vg)), vk), vw))
  {
    hide Represents;
    XorOfRotationsRefines(e, ve, 6, 11, 25);
    ChooseRefines(e, ve, f, vf, g, vg);
    FiveTermSumRefines(h, vh, XorOfRotations(e, 6, 11, 25), BigSigma1(ve), Choose(e, f, g), Ch(ve, vf, vg), k, vk, w, vw);
  }

  lemma TemporaryTwoRefines(a: Uint32, va: Word, b: Uint32, vb: Word, c: Uint32, vc: Word)
    requires Represents(a, va) && Represents(b, vb) && Represents(c, vc)
    ensures Represents(TemporaryTwo(a, b, c), Add(BigSigma0(va), Maj(va, vb, vc)))
  {
    hide Represents;
    XorOfRotationsRefines(a, va, 2, 13, 22);
    MajorityRefines(a, va, b, vb, c, vc);
    TwoTermSumRefines(XorOfRotations(a, 2, 13, 22), BigSigma0(va), Majority(a, b, c), Maj(va, vb, vc));
  }

  lemma ConstantRefines(k: Uint32)
    ensures Represents(k, ToBits(k, 32))
  {
    Pow2Values();
    ValueOfBits(k, 32);
    UnsignedRepresents(ToBits(k, 32));
  }

  lemma RoundConstantInRange(t: nat)
    requires t < 64
    ensures RoundConstant(t) < TWO32
  {
    RoundConstantsAreCubeRoots(t);
  }

  /** One pass of the round loop. */
  function NextWork(s: seq<Uint32>, k: Uint32, w: Uint32): (n: seq<Uint32>)
    requires |s| == 8
    ensures |n| == 8
  {
    var t1 := TemporaryOne(s[4], s[5], s[6], s[7], k, w);
    var t2 := TemporaryTwo(s[0], s[1], s[2]);
    [ToUint32(Plus(t1, t2)), s[0], s[1], s[2], ToUint32(Plus(s[3], t1)), s[4], s[5], s[6]]
  }

  lemma RoundRefines(s: seq<Uint32>, v: Hash, k: Uint32, vk: Word, w: Uint32, vw: Word)
    requires Holds(s, v) && Represents(k, vk) && Represents(w, vw)
    ensures Holds(NextWork(s, k, w), Round(v, vk, vw))
  {
    hide Represents, TemporaryOne, TemporaryTwo, Add, BigSigma0, BigSigma1, Ch, Maj, ToUint32, Plus;
    var t1, t2 := TemporaryOne(s[4], s[5], s[6], s[7], k, w), TemporaryTwo(s[0], s[1], s[2]);
    var v1 := Add(Add(Add(Add(v.h, BigSigma1(v.e)), Ch(v.e, v.f, v.g)), vk), vw);
    TemporaryOneRefines(s[4], v.e, s[5], v.f, s[6], v.g, s[7], v.h, k, vk, w, vw);
    TemporaryTwoRefines(s[0], v.a, s[1], v.b, s[2], v.c);
    TwoTermSumRefines(s[3], v.d, t1, v1);
    TwoTermSumRefines(t1, v1, t2, Add(BigSigma0(v.a), Maj(v.a, v.b, v.c)));
  }

  /** state[i]=(state[i]+value)>>>0 for every working variable. */
  function Accumulated(s: seq<Uint32>, work: seq<Uint32>, n: nat): (r: seq<Uint32>)
    requires |s| == |work| == 8 && n <= 8
    ensures |r| == 8
  {
    seq(8, i requires 0 <= i < 8 => if i < n then ToUint32(Plus(s[i], work[i])) else s[i])
  }

  lemma AccumulatedRefines(s: seq<Uint32>, v: Hash, work: seq<Uint32>, block: Block)
    requires Holds(s, v) && Holds(work, Rounds(v, block, 64))
    ensures Holds(Accumulated(s, work, 8), Compress(v, block))
  {
    hide Represents, Add, Rounds, ToUint32, Plus;
    var r := Rounds(v, block, 64);
    TwoTermAccumulation(s[0], v.a, work[0], r.a);
    TwoTermAccumulation(s[1], v.b, work[1], r.b);
    TwoTermAccumulation(s[2], v.c, work[2], r.c);
    TwoTermAccumulation(s[3], v.d, work[3], r.d);
    TwoTermAccumulation(s[4], v.e, work[4], r.e);
    TwoTermAccumulation(s[5], v.f, work[5], r.f);
    TwoTermAccumulation(s[6], v.g, work[6], r.g);
    TwoTermAccumulation(s[7], v.h, work[7], r.h);
  }

  lemma TwoTermAccumulation(x: Uint32, v: Word, y: Uint32, w: Word)
    requires Represents(x, v) && Represents(y, w)
    ensures Represents(ToUint32(Plus(x, y)), Add(w, v))
  {
    TwoTermSumRefines(y, w, x, v);
    assert Plus(x, y) == Plus(y, x);
  }

  /** Adds the compressed block to the hash value that state represents. */
  method CompressBlock(state: array<Uint32>, words: array<Uint32>, ghost v: Hash, ghost block: Block)
    requires state.Length == 8 && words.Length == 64 && state != words
    requires Holds(state[..], v) && ScheduleUpTo(words[..], block, 64)
    modifies state
    ensures Holds(state[..], Compress(v, block))
  {
    hide Represents, TemporaryOne, TemporaryTwo, Add, Round, Schedule, RoundConstant, ToBits, ToUint32, Plus;
    var a, b, c, d, e, f, g, h := state[0], state[1], state[2], state[3], state[4], state[5], state[6], state[7];
    ghost var s := state[..];
    assert s == [a, b, c, d, e, f, g, h];
    for i := 0 to 64
      invariant state[..] == s
      invariant Holds([a, b, c, d, e, f, g, h], Rounds(v, block, i))
    {
      RoundConstantInRange(i);
      var k: Uint32 := RoundConstant(i);
      ConstantRefines(k);
      assert words[..][i] == words[i];
      RoundRefines([a, b, c, d, e, f, g, h], Rounds(v, block, i), k, ToBits(k, 32), words[i], Schedule(block, i));
      var t1 := TemporaryOne(e, f, g, h, k, words[i]);
      var t2 := TemporaryTwo(a, b, c);
      h := g;
      g := f;
      f := e;
      e := ToUint32(Plus(d, t1));
      d := c;
      c := b;
      b := a;
      a := ToUint32(Plus(t1, t2));
    }
    var work := [a, b, c, d, e, f, g, h];
    AccumulatedRefines(s, v, work, block);
    for i := 0 to 8
      invariant state[..] == Accumulated(s, work, i)
    {
      state[i] := ToUint32(Plus(state[i], work[i]));
    }
  }

  // ----- padding in bytes

  /** The bytes, 0x80 and eight length bytes, rounded up to whole blocks. */
  function PaddedBlocks(n: nat): nat {
    (n + 9 + 63) / 64
  }

  /** The typed array's length. */
  function PaddedLength(n: nat): (len: nat)
    ensures n + 9 <= len
  {
    PaddedBlocks(n) * 64
  }

  /** What setUint32 stores of the bit length. */
  function LengthField(n: nat): Uint32 {
    8 * n % TWO32
  }

  function PaddedBytes(bytes: seq<Byte>): (padded: seq<Byte>)
    ensures |padded| == PaddedLength(|bytes|)
  {
    var n := |bytes|;
    bytes + [0x80] + ZeroBytes(PaddedLength(n) - n - 5) + BigEndianBytes(LengthField(n), 4)
  }

  lemma RoomIsUnique(l: nat, j: nat, k: nat)
    requires LeavesLengthRoom(l, j) && LeavesLengthRoom(l, k) && j < 512 && k < 512
    ensures j == k
  {
  }

  /** The zero bits between the one bit and the 64-bit length are as many as the standard asks for. */
  lemma ZeroBitsAgree(n: nat)
    ensures 8 * (PaddedLength(n) - n - 5) + 7 == PaddingZeros(8 * n) + 32
  {
    var blocks := PaddedBlocks(n);
    var k := 512 * blocks - 8 * n - 65;
    assert 8 * n + 1 + k == 512 * (blocks - 1) + 448;
    assert (512 * (blocks - 1) + 448) % 512 == 448;
    hide PaddingZeros;
    RoomIsUnique(8 * n, k, PaddingZeros(8 * n));
  }

  lemma {:induction false} LeadingZeros(x: nat, n: nat, extra: nat)
    requires x < Pow2(n)
    ensures ToBits(x, n + extra) == Zeros(extra) + ToBits(x, n)
  {
    if n == 0 {
      ZerosDenoteZero(extra);
    } else {
      LeadingZeros(x / 2, n - 1, extra);
      assert ToBits(x, n + extra) == ToBits(x / 2, n - 1 + extra) + [x % 2 == 1];
    }
  }

  lemma PaddedParts(bytes: seq<Byte>, zeros: nat, tail: seq<Byte>)
    ensures BitsOfBytes(bytes + [0x80] + ZeroBytes(zeros) + tail)
         == BitsOfBytes(bytes) + [true] + Zeros(7 + 8 * zeros) + BitsOfBytes(tail)
  {
    hide BitsOfBytes, ZeroBytes, Zeros;
    BitsOfBytesConcat(bytes + [0x80] + ZeroBytes(zeros), tail);
    BitsOfBytesConcat(bytes + [0x80], ZeroBytes(zeros));
    BitsOfBytesConcat(bytes, [0x80]);
    BitsOfZeroBytes(zeros);
    MarkerBits();
    ZerosConcat(7, 8 * zeros);
    var m, t := BitsOfBytes(bytes), BitsOfBytes(tail);
    assert m + ([true] + Zeros(7)) + Zeros(8 * zeros) == m + [true] + (Zeros(7) + Zeros(8 * zeros));
  }

  lemma ZerosConcat(m: nat, n: nat)
    ensures Zeros(m) + Zeros(n) == Zeros(m + n)
  {
  }

  lemma LengthBits(v: nat)
    requires v < TWO32
    ensures Zeros(32) + BitsOfBytes(BigEndianBytes(v, 4)) == ToBits(v, 64)
  {
    hide BitsOfBytes, BigEndianBytes, ToBits, Value, BigEndian;
    var tail := BigEndianBytes(v, 4);
    Pow2Values();
    BigEndianRoundTrip(v, 4);
    BigEndianBits(tail);
    BitsOfValue(BitsOfBytes(tail));
    LeadingZeros(v, 32, 32);
  }

  lemma PaddedPartsRegrouped(bytes: seq<Byte>, zeros: nat, k: nat, v: nat)
    requires 8 * zeros + 7 == k + 32 && v < TWO32
    ensures BitsOfBytes(bytes + [0x80] + ZeroBytes(zeros) + BigEndianBytes(v, 4))
         == BitsOfBytes(bytes) + [true] + Zeros(k) + ToBits(v, 64)
  {
    hide BitsOfBytes, ToBits, BigEndianBytes, Zeros, ZeroBytes;
    PaddedParts(bytes, zeros, BigEndianBytes(v, 4));
    LengthBits(v);
    ZerosConcat(k, 32);
    var m, t := BitsOfBytes(bytes) + [true], BitsOfBytes(BigEndianBytes(v, 4));
    assert m + (Zeros(k) + Zeros(32)) + t == m + Zeros(k) + (Zeros(32) + t);
  }

  lemma PaddedBytesParts(bytes: seq<Byte>, zeros: nat, v: nat)
    requires zeros == PaddedLength(|bytes|) - |bytes| - 5 && v == LengthField(|bytes|)
    ensures PaddedBytes(bytes) == bytes + [0x80] + ZeroBytes(zeros) + BigEndianBytes(v, 4)
  {
    hide PaddedLength, LengthField, BigEndianBytes, ZeroBytes;
  }

  lemma PaddedBitsFor(bytes: seq<Byte>, zeros: nat, k: nat, v: nat)
    requires zeros == PaddedLength(|bytes|) - |bytes| - 5 && v == LengthField(|bytes|)
    requires k == PaddingZeros(8 * |bytes|)
    ensures BitsOfBytes(PaddedBytes(bytes)) == BitsOfBytes(bytes) + [true] + Zeros(k) + ToBits(v, 64)
  {
    hide PaddedLength, LengthField, PaddingZeros, LeavesLengthRoom, BitsOfBytes, ToBits, BigEndianBytes, Zeros, ZeroBytes, PaddedBytes;
    PaddedBytesParts(bytes, zeros, v);
    ZeroBitsAgree(|bytes|);
    PaddedPartsRegrouped(bytes, zeros, k, v);
  }

  /** The bits of the padded bytes: message, one bit, zero bits and the length modulo 2^32 in 64 bits. */
  lemma PaddedBits(bytes: seq<Byte>)
    ensures BitsOfBytes(PaddedBytes(bytes))
         == BitsOfBytes(bytes) + [true] + Zeros(PaddingZeros(8 * |bytes|)) + ToBits(LengthField(|bytes|), 64)
  {
    hide PaddedLength, LengthField, PaddingZeros, LeavesLengthRoom, BitsOfBytes, ToBits, Zeros, PaddedBytes;
    PaddedBitsFor(bytes, PaddedLength(|bytes|) - |bytes| - 5, PaddingZeros(8 * |bytes|), LengthField(|bytes|));
  }

  lemma MarkerBits()
    ensures BitsOfBytes([0x80]) == [true] + Zeros(7)
  {
    var b := ToBits(0x80, 8);
    ZerosDenoteZero(7);
    assert b[0] && b[1..] == Zeros(7) by {
      assert ToBits(1, 1) == ToBits(0, 0) + [true];
      assert ToBits(2, 2) == ToBits(1, 1) + [false];
      assert ToBits(4, 3) == ToBits(2, 2) + [false];
      assert ToBits(8, 4) == ToBits(4, 3) + [false];
      assert ToBits(16, 5) == ToBits(8, 4) + [false];
      assert ToBits(32, 6) == ToBits(16, 5) + [false];
      assert ToBits(64, 7) == ToBits(32, 6) + [false];
      assert b == ToBits(64, 7) + [false];
    }
    assert BitsOfBytes([0x80]) == BitsOfBytes([]) + b;
  }

  lemma LengthIsKept(n: nat)
    requires 8 * n < TWO64
    ensures ToBits(LengthField(n), 64) == ToBits(8 * n, 64) <==> n < 0x2000_0000
  {
    hide ToBits, Value;
    Pow2Of64();
    ValueOfBits(8 * n, 64);
    ValueOfBits(LengthField(n), 64);
  }

  /** The program pads as the standard does exactly for messages shorter than 2^29 bytes. */
  lemma PaddingIsStandard(bytes: seq<Byte>)
    requires 8 * |bytes| < TWO64
    ensures BitsOfBytes(PaddedBytes(bytes)) == Pad(BitsOfBytes(bytes)) <==> |bytes| < 0x2000_0000
  {
    hide PaddingZeros, BitsOfBytes, ToBits, PaddedBytes, LengthField, Zeros;
    PaddedBits(bytes);
    LengthIsKept(|bytes|);
    var head := BitsOfBytes(bytes) + [true] + Zeros(PaddingZeros(8 * |bytes|));
    SameTail(head, ToBits(LengthField(|bytes|), 64), ToBits(8 * |bytes|, 64));
  }

  lemma SameTail(head: seq<bool>, a: seq<bool>, b: seq<bool>)
    ensures head + a == head + b <==> a == b
  {
    assert (head + a)[|head|..] == a && (head + b)[|head|..] == b;
  }

  method PadMessage(bytes: seq<Byte>) returns (padded: array<Byte>)
    ensures fresh(padded) && padded[..] == PaddedBytes(bytes)
  {
    var n := |bytes|;
    var len := PaddedLength(n);
    padded := new Byte[len](_ => 0);
    forall i | 0 <= i < n {
      padded[i] := bytes[i];
    }
    padded[n] := 0x80;
    var tail := BigEndianBytes(LengthField(n), 4);
    forall i | 0 <= i < 4 {
      padded[len - 4 + i] := tail[i];
    }
  }

  // ----- the digest as text

  /** Number.prototype.toString(16) */
  function ToHex(v: nat): (s: string)
    ensures |s| >= 1
  {
    if v < 16 then [HexDigit(v)] else ToHex(v / 16) + [HexDigit(v % 16)]
  }

  function PadStart(s: string, width: nat): string {
    if |s| < width then seq(width - |s|, _ => '0') + s else s
  }

  lemma ScaleByNibble(x: nat)
    ensures Scale(x, 4) == 16 * x
  {
    assert Scale(x, 1) == 2 * x;
    assert Scale(x, 2) == 4 * x;
    assert Scale(x, 3) == 8 * x;
  }

  lemma ValueByNibble(b: seq<bool>)
    requires |b| >= 4
    ensures var last := |b| - 4;
            && Value(b[last..]) < 16
            && Value(b) == 16 * Value(b[..last]) + Value(b[last..])
            && (last == 0 ==> Value(b[..last]) == 0)
  {
    var last := |b| - 4;
    assert b == b[..last] + b[last..];
    ValueOfConcat(b[..last], b[last..]);
    ScaleByNibble(Value(b[..last]));
    Pow2Values();
  }

  /** ToHex drops leading zero digits and PadStart puts them back. */
  lemma {:induction false} PaddedHexIsHex(b: seq<bool>)
    requires |b| % 4 == 0 && |b| > 0
    ensures |ToHex(Value(b))| <= |b| / 4
    ensures PadStart(ToHex(Value(b)), |b| / 4) == Hex(b)
  {
    hide Value, HexDigit, PadStart;
    var last := |b| - 4;
    ValueByNibble(b);
    if last == 0 {
      SingleHexDigit(Value(b));
      assert Hex(b[..last]) == "";
    } else {
      PaddedHexIsHex(b[..last]);
      NextHexDigit(Value(b[..last]), Value(b[last..]), last / 4);
    }
  }

  lemma SingleHexDigit(d: nat)
    requires d < 16
    ensures ToHex(d) == [HexDigit(d)] && PadStart(ToHex(d), 1) == [HexDigit(d)]
  {
  }

  lemma NextHexDigit(front: nat, d: nat, width: nat)
    requires d < 16 && width >= 1 && |ToHex(front)| <= width
    ensures var s := ToHex(16 * front + d);
            |s| <= width + 1 && PadStart(s, width + 1) == PadStart(ToHex(front), width) + [HexDigit(d)]
  {
    if front == 0 {
      assert ToHex(0) == "0" && ToHex(d) == [HexDigit(d)];
    } else {
      assert (16 * front + d) / 16 == front && (16 * front + d) % 16 == d;
    }
  }

  /** Each state word in hexadecimal, padded to eight digits, joined. */
  method Digits(state: array<Uint32>, ghost words: seq<Word>) returns (hex: string)
    requires state.Length == |words| == 8
    requires forall i :: 0 <= i < 8 ==> state[i] == Value(words[i])
    ensures hex == HexOfWords(words)
  {
    hide PadStart, ToHex, Hex, Value;
    hex := "";
    for i := 0 to 8
      invariant hex == HexOfWords(words[..i])
    {
      PaddedHexIsHex(words[i]);
      assert words[..i + 1][..i] == words[..i];
      hex := hex + PadStart(ToHex(state[i]), 8);
    }
    assert words[..8] == words;
  }

  // ----- the whole function

  lemma InitialStateHolds(s: seq<Uint32>)
    requires s == INITIAL_HASH
    ensures Holds(s, InitialHash())
  {
    hide Represents, ToBits;
    forall i | 0 <= i < 8
      ensures Represents(s[i], ToBits(s[i], 32))
    {
      ConstantRefines(s[i]);
    }
  }

  lemma HeldValues(s: seq<Uint32>, v: Hash)
    requires Holds(s, v)
    ensures forall i :: 0 <= i < 8 ==> s[i] == Value(v.Words()[i])
  {
    hide Represents, Value;
    forall i | 0 <= i < 8
      ensures s[i] == Value(v.Words()[i])
    {
      HeldValue(s[i], v.Words()[i]);
    }
  }

  lemma HeldValue(x: Uint32, w: Word)
    requires Represents(x, w)
    ensures x == Value(w)
  {
    ToUint32Refines(x, w);
  }

  /** The hash value of the padded bytes, whatever their length field says. */
  function HashOfPadding(bytes: seq<Byte>): Hash {
    HashBlocks(BitsOfBytes(PaddedBytes(bytes)), PaddedBlocks(|bytes|))
  }

  /** Below 2^29 bytes that is the digest of the standard. */
  lemma DigestIsStandard(bytes: seq<Byte>)
    requires |bytes| < 0x2000_0000
    ensures HashOfPadding(bytes) == Sha256(BitsOfBytes(bytes))
  {
    hide BitsOfBytes, PaddedBytes, Pad, HashBlocks, PaddedBlocks;
    PaddingIsStandard(bytes);
    var padded := BitsOfBytes(PaddedBytes(bytes));
    assert |padded| == 512 * PaddedBlocks(|bytes|);
    assert |padded| / 512 == PaddedBlocks(|bytes|);
  }

  lemma BlockOfBytes(bytes: seq<Byte>, n: nat)
    requires 64 * n + 64 <= |bytes|
    ensures BitsOfBytes(bytes[64 * n..64 * n + 64]) == BlockAt(BitsOfBytes(bytes), n)
  {
    hide BitsOfBytes;
    BitsOfSlice(bytes, 64 * n, 64 * n + 64);
  }

  /** One pass of the block loop. */
  method HashBlock(padded: array<Byte>, offset: nat, state: array<Uint32>, words: array<Uint32>, ghost n: nat)
    requires offset == 64 * n && offset + 64 <= padded.Length
    requires state.Length == 8 && words.Length == 64 && state != words
    requires Holds(state[..], HashBlocks(BitsOfBytes(padded[..]), n))
    modifies state, words
    ensures Holds(state[..], HashBlocks(BitsOfBytes(padded[..]), n + 1))
  {
    hide BitsOfBytes, Holds, ScheduleUpTo, Compress, BlockAt;
    ghost var content := padded[..];
    BlockOfBytes(content, n);
    assert content[offset..offset + 64] == padded[offset..offset + 64];
    ghost var v, block := HashBlocks(BitsOfBytes(content), n), BlockAt(BitsOfBytes(content), n);
    ExpandSchedule(padded, offset, words);
    hide HashBlocks;
    CompressBlock(state, words, v, block);
    assert HashBlocks(BitsOfBytes(content), n + 1) == Compress(v, block) by {
      NextHash(BitsOfBytes(content), n);
    }
    assert padded[..] == content;
  }

  lemma NextHash(bits: seq<bool>, n: nat)
    requires 512 * n + 512 <= |bits|
    ensures HashBlocks(bits, n + 1) == Compress(HashBlocks(bits, n), BlockAt(bits, n))
  {
    hide Compress, BlockAt;
  }

  method InitialState() returns (state: array<Uint32>)
    ensures fresh(state) && state.Length == 8 && Holds(state[..], InitialHash())
  {
    state := new Uint32[8](i requires 0 <= i < 8 => INITIAL_HASH[i]);
    assert state[..] == INITIAL_HASH;
    hide InitialHash, Holds;
    InitialStateHolds(state[..]);
  }

  /** The block loop. */
  method HashPadded(padded: array<Byte>, ghost blocks: nat) returns (state: array<Uint32>)
    requires padded.Length == 64 * blocks
    ensures fresh(state) && state.Length == 8
    ensures Holds(state[..], HashBlocks(BitsOfBytes(padded[..]), blocks))
  {
    hide BitsOfBytes, Holds, InitialHash, Compress, BlockAt;
    ghost var content := padded[..];
    assert HashBlocks(BitsOfBytes(content), 0) == InitialHash();
    hide HashBlocks;
    state := InitialState();
    var words := new Uint32[64](_ => 0);
    var offset := 0;
    ghost var n := 0;
    while offset < padded.Length
      invariant offset == 64 * n && n <= blocks
      invariant padded[..] == content
      invariant Holds(state[..], HashBlocks(BitsOfBytes(content), n))
    {
      HashBlock(padded, offset, state, words, n);
      offset := offset + 64;
      n := n + 1;
    }
  }

  /** lawSha256: for messages shorter than 2^29 bytes the SHA-256 digest in lower-case hexadecimal. */
  method LawSha256(bytes: seq<Byte>) returns (hex: string)
    requires 8 * |bytes| <= EXACT
    ensures hex == HexOfWords(HashOfPadding(bytes).Words())
    ensures |bytes| < 0x2000_0000 ==> hex == Sha256Hex(BitsOfBytes(bytes))
  {
    hide PaddedBytes, BitsOfBytes, Holds, PaddedBlocks, HexOfWords, HashBlocks, Sha256;
    var padded := PadMessage(bytes);
    var state := HashPadded(padded, PaddedBlocks(|bytes|));
    HeldValues(state[..], HashOfPadding(bytes));
    hex := Digits(state, HashOfPadding(bytes).Words());
    if |bytes| < 0x2000_0000 {
      DigestIsStandard(bytes);
    }
  }
}
