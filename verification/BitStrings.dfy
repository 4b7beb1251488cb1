/** Bit strings, most significant bit first, and the integers they denote. */
module BitStrings {
  type Byte = b: int | 0 <= b < 256

  const TWO32 := 0x1_0000_0000
  const TWO64 := 0x1_0000_0000_0000_0000

  function Pow2(n: nat): (p: nat)
    ensures p >= 1
  {
    if n == 0 then 1 else 2 * Pow2(n - 1)
  }

  function Zeros(n: nat): (z: seq<bool>)
    ensures |z| == n
  {
    seq(n, _ => false)
  }

  /** The integer a bit string denotes. */
  function Value(b: seq<bool>): (v: nat)
    ensures v < Pow2(|b|)
  {
    if b == [] then 0
    else
      var last := |b| - 1;
      2 * Value(b[..last]) + if b[last] then 1 else 0
  }

  /** The low n bits of x. */
  function ToBits(x: nat, n: nat): (b: seq<bool>)
    ensures |b| == n
  {
    if n == 0 then [] else ToBits(x / 2, n - 1) + [x % 2 == 1]
  }

  lemma {:induction false} ValueOfBits(x: nat, n: nat)
    requires x < Pow2(n)
    ensures Value(ToBits(x, n)) == x
  {
    if n > 0 {
      ValueOfBits(x / 2, n - 1);
      var b := ToBits(x, n);
      assert b[..n - 1] == ToBits(x / 2, n - 1);
    }
  }

  lemma {:induction false} BitsOfValue(b: seq<bool>)
    ensures ToBits(Value(b), |b|) == b
  {
    if b != [] {
      var last := |b| - 1;
      BitsOfValue(b[..last]);
      assert Value(b) / 2 == Value(b[..last]);
      assert b == b[..last] + [b[last]];
    }
  }

  /** x shifted left by n places. */
  function Scale(x: nat, n: nat): nat {
    if n == 0 then x else 2 * Scale(x, n - 1)
  }

  lemma {:induction false} ValueOfConcat(a: seq<bool>, b: seq<bool>)
    ensures Value(a + b) == Scale(Value(a), |b|) + Value(b)
  {
    if b == [] {
      assert a + b == a;
    } else {
      var last := |b| - 1;
      ValueOfConcat(a, b[..last]);
      assert (a + b)[..|a + b| - 1] == a + b[..last];
    }
  }

  lemma ScaleByByte(x: nat)
    ensures Scale(x, 8) == 0x100 * x
  {
    assert Scale(x, 1) == 2 * x;
    assert Scale(x, 2) == 4 * x;
    assert Scale(x, 4) == 4 * Scale(x, 2);
    assert Scale(x, 6) == 4 * Scale(x, 4);
    assert Scale(x, 8) == 4 * Scale(x, 6);
  }

  lemma Pow2Values()
    ensures Pow2(4) == 16 && Pow2(8) == 256 && Pow2(16) == 0x1_0000
    ensures Pow2(24) == 0x100_0000 && Pow2(32) == TWO32
  {
    assert Pow2(4) == 16;
    assert Pow2(8) == 16 * Pow2(4);
    assert Pow2(12) == 16 * Pow2(8);
    assert Pow2(16) == 16 * Pow2(12);
    assert Pow2(20) == 16 * Pow2(16);
    assert Pow2(24) == 16 * Pow2(20);
    assert Pow2(28) == 16 * Pow2(24);
    assert Pow2(32) == 16 * Pow2(28);
  }

  lemma {:induction false} Pow2Sum(m: nat, n: nat)
    ensures Pow2(m + n) == Scale(Pow2(m), n)
  {
    if n > 0 {
      Pow2Sum(m, n - 1);
    }
  }

  lemma Pow2Of64()
    ensures Pow2(64) == TWO64
  {
    Pow2Values();
    Pow2Sum(32, 32);
    ScaleByByte(TWO32);
    Pow2Sum(32, 8);
    ScaleByByte(Pow2(40));
    Pow2Sum(40, 8);
    ScaleByByte(Pow2(48));
    Pow2Sum(48, 8);
    ScaleByByte(Pow2(56));
    Pow2Sum(56, 8);
  }

  lemma {:induction false} ZerosDenoteZero(n: nat)
    ensures Value(Zeros(n)) == 0 && ToBits(0, n) == Zeros(n)
  {
    if n > 0 {
      ZerosDenoteZero(n - 1);
      assert Zeros(n)[..n - 1] == Zeros(n - 1);
    }
  }

  /** The bits of a byte string, eight per byte. */
  function BitsOfBytes(bytes: seq<Byte>): (b: seq<bool>)
    ensures |b| == 8 * |bytes|
  {
    if bytes == [] then []
    else BitsOfBytes(bytes[..|bytes| - 1]) + ToBits(bytes[|bytes| - 1], 8)
  }

  lemma {:induction false} BitsOfBytesConcat(a: seq<Byte>, b: seq<Byte>)
    ensures BitsOfBytes(a + b) == BitsOfBytes(a) + BitsOfBytes(b)
  {
    if b == [] {
      assert a + b == a;
    } else {
      var last := |b| - 1;
      BitsOfBytesConcat(a, b[..last]);
      assert (a + b)[..|a + b| - 1] == a + b[..last];
    }
  }

  function ZeroBytes(n: nat): (z: seq<Byte>)
    ensures |z| == n
  {
    seq(n, _ => 0)
  }

  lemma {:induction false} BitsOfZeroBytes(n: nat)
    ensures BitsOfBytes(ZeroBytes(n)) == Zeros(8 * n)
  {
    if n > 0 {
      BitsOfZeroBytes(n - 1);
      assert ZeroBytes(n)[..n - 1] == ZeroBytes(n - 1);
      ZerosDenoteZero(8);
      assert Zeros(8 * n) == Zeros(8 * n - 8) + Zeros(8);
    }
  }

  lemma BitsOfSlice(bytes: seq<Byte>, from: nat, to: nat)
    requires from <= to <= |bytes|
    ensures BitsOfBytes(bytes)[8 * from..8 * to] == BitsOfBytes(bytes[from..to])
  {
    hide BitsOfBytes;
    assert bytes == bytes[..to] + bytes[to..];
    BitsOfBytesConcat(bytes[..to], bytes[to..]);
    assert bytes[..to] == bytes[..from] + bytes[from..to];
    BitsOfBytesConcat(bytes[..from], bytes[from..to]);
    MiddlePart(BitsOfBytes(bytes[..from]), BitsOfBytes(bytes[from..to]), BitsOfBytes(bytes[to..]));
  }

  lemma MiddlePart(head: seq<bool>, mid: seq<bool>, tail: seq<bool>)
    ensures (head + mid + tail)[|head|..|head| + |mid|] == mid
  {
  }

  /** The number that bytes denote, most significant first. */
  function BigEndian(b: seq<Byte>): nat {
    if b == [] then 0
    else
      var last := |b| - 1;
      0x100 * BigEndian(b[..last]) + b[last]
  }

  /** The low n bytes of v, most significant first. */
  function BigEndianBytes(v: nat, n: nat): (b: seq<Byte>)
    ensures |b| == n
  {
    if n == 0 then [] else BigEndianBytes(v / 0x100, n - 1) + [v % 0x100]
  }

  /** Reading bytes big-endian and concatenating their bits agree. */
  lemma {:induction false} BigEndianBits(b: seq<Byte>)
    ensures Value(BitsOfBytes(b)) == BigEndian(b) < Pow2(8 * |b|)
  {
    if b != [] {
      var last := |b| - 1;
      BigEndianBits(b[..last]);
      hide Value, ToBits;
      ValueOfConcat(BitsOfBytes(b[..last]), ToBits(b[last], 8));
      ScaleByByte(BigEndian(b[..last]));
      Pow2Values();
      ValueOfBits(b[last], 8);
    }
  }

  lemma {:induction false} BigEndianRoundTrip(v: nat, n: nat)
    requires v < Pow2(8 * n)
    ensures BigEndian(BigEndianBytes(v, n)) == v
  {
    if n > 0 {
      Pow2Sum(8 * n - 8, 8);
      ScaleByByte(Pow2(8 * n - 8));
      BigEndianRoundTrip(v / 0x100, n - 1);
      assert BigEndianBytes(v, n)[..n - 1] == BigEndianBytes(v / 0x100, n - 1);
    }
  }

  function And(x: seq<bool>, y: seq<bool>): (z: seq<bool>)
    requires |x| == |y|
    ensures |z| == |x|
  {
    seq(|x|, i requires 0 <= i < |x| => x[i] && y[i])
  }

  function Or(x: seq<bool>, y: seq<bool>): (z: seq<bool>)
    requires |x| == |y|
    ensures |z| == |x|
  {
    seq(|x|, i requires 0 <= i < |x| => x[i] || y[i])
  }

  function Xor(x: seq<bool>, y: seq<bool>): (z: seq<bool>)
    requires |x| == |y|
    ensures |z| == |x|
  {
    seq(|x|, i requires 0 <= i < |x| => x[i] != y[i])
  }

  function Not(x: seq<bool>): (z: seq<bool>)
    ensures |z| == |x|
  {
    seq(|x|, i requires 0 <= i < |x| => !x[i])
  }

  function ShiftRight(x: seq<bool>, n: nat): (z: seq<bool>)
    requires n <= |x|
    ensures |z| == |x|
  {
    Zeros(n) + x[..|x| - n]
  }

  function ShiftLeft(x: seq<bool>, n: nat): (z: seq<bool>)
    requires n <= |x|
    ensures |z| == |x|
  {
    x[n..] + Zeros(n)
  }
}
