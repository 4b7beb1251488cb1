/** The ECMAScript number operations that the hash uses, on exact integers. */
module JsNumbers {
  import opened BitStrings

  /** An element of a Uint32Array. */
  type Uint32 = x: int | 0 <= x < TWO32

  /** The largest magnitude below which every integer is a double. */
  const EXACT := 0x20_0000_0000_0000

  /** Addition of two numbers; the precondition is what makes the double result exact. */
  function Plus(x: int, y: int): int
    requires -EXACT <= x + y <= EXACT
  {
    x + y
  }

  /** The 32-bit string of ToInt32 and ToUint32. */
  function Bits32(x: int): (b: seq<bool>)
    ensures |b| == 32
  {
    ToBits(x % TWO32, 32)
  }

  /** The two's complement reading of a 32-bit string. */
  function Signed(b: seq<bool>): (v: int)
    requires |b| == 32
    ensures -TWO32 < v < TWO32
  {
    Pow2Values();
    if Value(b) >= 0x8000_0000 then Value(b) - TWO32 else Value(b)
  }

  function BitAnd(x: int, y: int): int {
    Signed(And(Bits32(x), Bits32(y)))
  }

  function BitOr(x: int, y: int): int {
    Signed(Or(Bits32(x), Bits32(y)))
  }

  function BitXor(x: int, y: int): int {
    Signed(Xor(Bits32(x), Bits32(y)))
  }

  function BitNot(x: int): int {
    Signed(Not(Bits32(x)))
  }

  /** x >>> n */
  function UnsignedShiftRight(x: int, n: nat): (v: Uint32)
    requires n < 32
  {
    Pow2Values();
    Value(ShiftRight(Bits32(x), n))
  }

  /** x << n */
  function LeftShift(x: int, n: nat): int
    requires n < 32
  {
    Signed(ShiftLeft(Bits32(x), n))
  }

  /** x >>> 0 */
  function ToUint32(x: int): Uint32 {
    x % TWO32
  }

  lemma ReductionIsUnique(v: int, q: int)
    requires 0 <= v < TWO32
    ensures (v + q * TWO32) % TWO32 == v
  {
  }

  lemma BitsOfReduced(x: int, b: seq<bool>, q: int)
    requires |b| == 32 && x == Value(b) + q * TWO32
    ensures Bits32(x) == b && x % TWO32 == Value(b)
  {
    Pow2Values();
    ReductionIsUnique(Value(b), q);
    BitsOfValue(b);
  }
}
