/** The Secure Hash Standard, FIPS 180-4, for SHA-256 on bit strings. */
module SecureHashStandard {
  import opened BitStrings
  import opened PrimeNumbers

  type Word = b: seq<bool> | |b| == 32 witness Zeros(32)

  // ----- section 2.2.2: operations on words

  /** Circular right shift. */
  function Rotr(n: nat, x: Word): Word
    requires n <= 32
  {
    x[32 - n..] + x[..32 - n]
  }

  /** Right shift. */
  function Shr(n: nat, x: Word): Word
    requires n <= 32
  {
    ShiftRight(x, n)
  }

  /** Addition modulo 2^32: the sum of two words is reduced at most once. */
  function Add(x: Word, y: Word): Word {
    var sum := Value(x) + Value(y);
    ToBits(if sum >= TWO32 then sum - TWO32 else sum, 32)
  }

  lemma ReducedOnce(sum: nat)
    requires sum < 2 * TWO32
    ensures sum % TWO32 == if sum >= TWO32 then sum - TWO32 else sum
  {
  }

  lemma AddIsModular(x: Word, y: Word)
    ensures Value(Add(x, y)) == (Value(x) + Value(y)) % TWO32
  {
    hide Value, ToBits;
    var sum := Value(x) + Value(y);
    Pow2Values();
    ReducedOnce(sum);
    ValueOfBits(if sum >= TWO32 then sum - TWO32 else sum, 32);
  }

  // ----- section 4.1.2: functions

  function Ch(x: Word, y: Word, z: Word): Word {
    Xor(And(x, y), And(Not(x), z))
  }

  function Maj(x: Word, y: Word, z: Word): Word {
    Xor(Xor(And(x, y), And(x, z)), And(y, z))
  }

  function BigSigma0(x: Word): Word {
    Xor(Xor(Rotr(2, x), Rotr(13, x)), Rotr(22, x))
  }

  function BigSigma1(x: Word): Word {
    Xor(Xor(Rotr(6, x), Rotr(11, x)), Rotr(25, x))
  }

  function SmallSigma0(x: Word): Word {
    Xor(Xor(Rotr(7, x), Rotr(18, x)), Shr(3, x))
  }

  function SmallSigma1(x: Word): Word {
    Xor(Xor(Rotr(17, x), Rotr(19, x)), Shr(10, x))
  }

  // ----- sections 4.2.2 and 5.3.3: constants

  const FIRST_PRIMES: seq<seq<nat>> := [
    [2, 3, 5, 7, 11, 13, 17, 19],
    [23, 29, 31, 37, 41, 43, 47, 53],
    [59, 61, 67, 71, 73, 79, 83, 89],
    [97, 101, 103, 107, 109, 113, 127, 131],
    [137, 139, 149, 151, 157, 163, 167, 173],
    [179, 181, 191, 193, 197, 199, 211, 223],
    [227, 229, 233, 239, 241, 251, 257, 263],
    [269, 271, 277, 281, 283, 293, 307, 311]]

  function TablePrime(i: nat): nat
    requires i < 64
  {
    FIRST_PRIMES[i / 8][i % 8]
  }

  /** Where to look for the k-th number of a row: behind the number before it. */
  function From(row: nat, k: nat): nat
    requires row < 8 && k < 8
  {
    1 + if k > 0 then FIRST_PRIMES[row][k - 1] else if row > 0 then FIRST_PRIMES[row - 1][7] else 0
  }

  /** Only the last number from lo on survives the sieve. */
  predicate ComesNext(lo: nat, hi: nat) {
    lo <= hi < 361 && NoneSurvive(lo, hi) && Survives(hi)
  }

  /** The first n numbers of a row come next, each after the one before it. */
  predicate RowComesNext(row: nat, n: nat)
    requires row < 8 && n <= 8
  {
    n == 0
    || (ComesNext(From(row, n - 1), FIRST_PRIMES[row][n - 1]) && RowComesNext(row, n - 1))
  }

  lemma PrimesInRows()
    ensures forall row :: 0 <= row < 8 ==> RowComesNext(row, 8)
  {
    PrimesInRow0();
    PrimesInRow1();
    PrimesInRow2();
    PrimesInRow3();
    PrimesInRow4();
    PrimesInRow5();
    PrimesInRow6();
    PrimesInRow7();
    hide RowComesNext;
  }

  lemma Gaps0a()
    ensures ComesNext(1, 2)
    ensures ComesNext(3, 3)
    ensures ComesNext(4, 5)
    ensures ComesNext(6, 7)
  {
  }

  lemma Gaps0b()
    ensures ComesNext(8, 11)
    ensures ComesNext(12, 13)
    ensures ComesNext(14, 17)
    ensures ComesNext(18, 19)
  {
  }

  lemma PrimesInRow0()
    ensures RowComesNext(0, 8)
  {
    Gaps0a();
    Gaps0b();
    hide ComesNext;
  }

  lemma Gaps1a()
    ensures ComesNext(20, 23)
    ensures ComesNext(24, 29)
    ensures ComesNext(30, 31)
    ensures ComesNext(32, 37)
  {
  }

  lemma Gaps1b()
    ensures ComesNext(38, 41)
    ensures ComesNext(42, 43)
    ensures ComesNext(44, 47)
    ensures ComesNext(48, 53)
  {
  }

  lemma PrimesInRow1()
    ensures RowComesNext(1, 8)
  {
    Gaps1a();
    Gaps1b();
    hide ComesNext;
  }

  lemma Gaps2a()
    ensures ComesNext(54, 59)
    ensures ComesNext(60, 61)
    ensures ComesNext(62, 67)
    ensures ComesNext(68, 71)
  {
  }

  lemma Gaps2b()
    ensures ComesNext(72, 73)
    ensures ComesNext(74, 79)
    ensures ComesNext(80, 83)
    ensures ComesNext(84, 89)
  {
  }

  lemma PrimesInRow2()
    ensures RowComesNext(2, 8)
  {
    Gaps2a();
    Gaps2b();
    hide ComesNext;
  }

  lemma Gaps3a()
    ensures ComesNext(90, 97)
    ensures ComesNext(98, 101)
    ensures ComesNext(102, 103)
    ensures ComesNext(104, 107)
  {
  }

  lemma Gaps3b()
    ensures ComesNext(108, 109)
    ensures ComesNext(110, 113)
    ensures ComesNext(114, 127)
    ensures ComesNext(128, 131)
  {
    NoneSurviveJoin(114, 120, 127);
  }

  lemma PrimesInRow3()
    ensures RowComesNext(3, 8)
  {
    Gaps3a();
    Gaps3b();
    hide ComesNext;
  }

  lemma Gaps4a()
    ensures ComesNext(132, 137)
    ensures ComesNext(138, 139)
    ensures ComesNext(140, 149)
    ensures ComesNext(150, 151)
  {
    NoneSurviveJoin(140, 144, 149);
  }

  lemma Gaps4b()
    ensures ComesNext(152, 157)
    ensures ComesNext(158, 163)
    ensures ComesNext(164, 167)
    ensures ComesNext(168, 173)
  {
  }

  lemma PrimesInRow4()
    ensures RowComesNext(4, 8)
  {
    Gaps4a();
    Gaps4b();
    hide ComesNext;
  }

  lemma Gaps5a()
    ensures ComesNext(174, 179)
    ensures ComesNext(180, 181)
    ensures ComesNext(182, 191)
    ensures ComesNext(192, 193)
  {
    NoneSurviveJoin(182, 186, 191);
  }

  lemma Gaps5b()
    ensures ComesNext(194, 197)
    ensures ComesNext(198, 199)
    ensures ComesNext(200, 211)
    ensures ComesNext(212, 223)
  {
    NoneSurviveJoin(200, 205, 211);
    NoneSurviveJoin(212, 217, 223);
  }

  lemma PrimesInRow5()
    ensures RowComesNext(5, 8)
  {
    Gaps5a();
    Gaps5b();
    hide ComesNext;
  }

  lemma Gaps6a()
    ensures ComesNext(224, 227)
    ensures ComesNext(228, 229)
    ensures ComesNext(230, 233)
    ensures ComesNext(234, 239)
  {
  }

  lemma Gaps6b()
    ensures ComesNext(240, 241)
    ensures ComesNext(242, 251)
    ensures ComesNext(252, 257)
    ensures ComesNext(258, 263)
  {
    NoneSurviveJoin(242, 246, 251);
  }

  lemma PrimesInRow6()
    ensures RowComesNext(6, 8)
  {
    Gaps6a();
    Gaps6b();
    hide ComesNext;
  }

  lemma Gaps7a()
    ensures ComesNext(264, 269)
    ensures ComesNext(270, 271)
    ensures ComesNext(272, 277)
    ensures ComesNext(278, 281)
  {
  }

  lemma Gaps7b()
    ensures ComesNext(282, 283)
    ensures ComesNext(284, 293)
    ensures ComesNext(294, 307)
    ensures ComesNext(308, 311)
  {
    NoneSurviveJoin(284, 288, 293);
    NoneSurviveJoin(294, 300, 307);
  }

  lemma PrimesInRow7()
    ensures RowComesNext(7, 8)
  {
    Gaps7a();
    Gaps7b();
    hide ComesNext;
  }

  lemma {:induction false} EachComesNext(row: nat, n: nat, k: nat)
    requires row < 8 && k < n <= 8 && RowComesNext(row, n)
    ensures ComesNext(From(row, k), FIRST_PRIMES[row][k])
  {
    hide ComesNext, From;
    if k < n - 1 {
      EachComesNext(row, n - 1, k);
    }
  }

  /** The first n numbers of the table. */
  function TablePrimes(n: nat): (primes: seq<nat>)
    requires n <= 64
    ensures |primes| == n
  {
    if n == 0 then [] else TablePrimes(n - 1) + [TablePrime(n - 1)]
  }

  /** They are all the primes up to the last of them, in order. */
  lemma {:induction false} FirstPrimesAreFirst(n: nat)
    requires 1 <= n <= 64
    ensures TablePrimes(n) == PrimesBetween(0, TablePrime(n - 1) + 1)
  {
    hide PrimesBetween, TablePrime, ComesNext, FIRST_PRIMES;
    if n > 1 {
      FirstPrimesAreFirst(n - 1);
    } else {
      assert TablePrimes(1) == [TablePrime(0)];
    }
    TableComesNext(n - 1);
    FirstPrimesGoOn(n);
  }

  lemma TableComesNext(i: nat)
    requires i < 64
    ensures ComesNext(if i > 0 then TablePrime(i - 1) + 1 else 1, TablePrime(i))
  {
    PrimesInRows();
    hide ComesNext, RowComesNext, FIRST_PRIMES;
    EachComesNext(i / 8, 8, i % 8);
    assert i > 0 ==> From(i / 8, i % 8) == TablePrime(i - 1) + 1;
  }

  lemma FirstPrimesGoOn(n: nat)
    requires 1 <= n <= 64 && ComesNext(if n > 1 then TablePrime(n - 2) + 1 else 1, TablePrime(n - 1))
    ensures n > 1 ==> PrimesBetween(0, TablePrime(n - 1) + 1) == PrimesBetween(0, TablePrime(n - 2) + 1) + [TablePrime(n - 1)]
    ensures n == 1 ==> PrimesBetween(0, TablePrime(0) + 1) == [TablePrime(0)]
  {
    var lo, hi := if n > 1 then TablePrime(n - 2) + 1 else 1, TablePrime(n - 1);
    NoPrimeBelowOne();
    hide TablePrime, PrimesBetween, NoneSurvive, Survives;
    NextPrime(lo, hi);
    PrimesJoin(0, lo, hi + 1);
  }

  lemma NoPrimeBelowOne()
    ensures PrimesBetween(0, 1) == []
  {
    assert PrimesBetween(1, 1) == [];
  }

  /** The integer parts of the cube roots of those primes, eight to a row like the other tables. */
  const CUBE_ROOT_PARTS: seq<seq<nat>> := [
    [1, 1, 1, 1, 2, 2, 2, 2],
    [2, 3, 3, 3, 3, 3, 3, 3],
    [3, 3, 4, 4, 4, 4, 4, 4],
    [4, 4, 4, 4, 4, 4, 5, 5],
    [5, 5, 5, 5, 5, 5, 5, 5],
    [5, 5, 5, 5, 5, 5, 5, 6],
    [6, 6, 6, 6, 6, 6, 6, 6],
    [6, 6, 6, 6, 6, 6, 6, 6]]

  const ROUND_CONSTANTS: seq<seq<nat>> := [
    [0x428a_2f98, 0x7137_4491, 0xb5c0_fbcf, 0xe9b5_dba5, 0x3956_c25b, 0x59f1_11f1, 0x923f_82a4, 0xab1c_5ed5],
    [0xd807_aa98, 0x1283_5b01, 0x2431_85be, 0x550c_7dc3, 0x72be_5d74, 0x80de_b1fe, 0x9bdc_06a7, 0xc19b_f174],
    [0xe49b_69c1, 0xefbe_4786, 0x0fc1_9dc6, 0x240c_a1cc, 0x2de9_2c6f, 0x4a74_84aa, 0x5cb0_a9dc, 0x76f9_88da],
    [0x983e_5152, 0xa831_c66d, 0xb003_27c8, 0xbf59_7fc7, 0xc6e0_0bf3, 0xd5a7_9147, 0x06ca_6351, 0x1429_2967],
    [0x27b7_0a85, 0x2e1b_2138, 0x4d2c_6dfc, 0x5338_0d13, 0x650a_7354, 0x766a_0abb, 0x81c2_c92e, 0x9272_2c85],
    [0xa2bf_e8a1, 0xa81a_664b, 0xc24b_8b70, 0xc76c_51a3, 0xd192_e819, 0xd699_0624, 0xf40e_3585, 0x106a_a070],
    [0x19a4_c116, 0x1e37_6c08, 0x2748_774c, 0x34b0_bcb5, 0x391c_0cb3, 0x4ed8_aa4a, 0x5b9c_ca4f, 0x682e_6ff3],
    [0x748f_82ee, 0x78a5_636f, 0x84c8_7814, 0x8cc7_0208, 0x90be_fffa, 0xa450_6ceb, 0xbef9_a3f7, 0xc671_78f2]]

  const INITIAL_HASH: seq<nat> := [
    0x6a09_e667, 0xbb67_ae85, 0x3c6e_f372, 0xa54f_f53a, 0x510e_527f, 0x9b05_688c, 0x1f83_d9ab, 0x5be0_cd19]

  function RoundConstant(t: nat): nat
    requires t < 64
  {
    ROUND_CONSTANTS[t / 8][t % 8]
  }

  /** w is the first 32 bits of the fractional part of the cube root of p, whose integer part is whole. */
  predicate CubeRootFraction(p: nat, whole: nat, w: nat) {
    var root := whole * TWO32 + w;
    w < TWO32 && root * root * root <= p * TWO32 * TWO32 * TWO32 < (root + 1) * (root + 1) * (root + 1)
  }

  /** w is the first 32 bits of the fractional part of the square root of p. */
  predicate SquareRootFraction(p: nat, whole: nat, w: nat) {
    var root := whole * TWO32 + w;
    w < TWO32 && root * root <= p * TWO32 * TWO32 < (root + 1) * (root + 1)
  }

  /** The first n round constants of a row are such fractions. */
  predicate CubeRootRow(row: nat, n: nat)
    requires row < 8 && n <= 8
  {
    n == 0
    || (CubeRootFraction(FIRST_PRIMES[row][n - 1], CUBE_ROOT_PARTS[row][n - 1], ROUND_CONSTANTS[row][n - 1])
        && CubeRootRow(row, n - 1))
  }

  lemma {:induction false} CubeRootInRow(row: nat, n: nat, i: nat)
    requires row < 8 && i < n <= 8 && CubeRootRow(row, n)
    ensures CubeRootFraction(FIRST_PRIMES[row][i], CUBE_ROOT_PARTS[row][i], ROUND_CONSTANTS[row][i])
  {
    if i < n - 1 {
      CubeRootInRow(row, n - 1, i);
    }
  }

  lemma CubeRootRow0()
    ensures CubeRootRow(0, 8)
  {
  }

  lemma CubeRootRow1()
    ensures CubeRootRow(1, 8)
  {
  }

  lemma CubeRootRow2()
    ensures CubeRootRow(2, 8)
  {
  }

  lemma CubeRootRow3()
    ensures CubeRootRow(3, 8)
  {
  }

  lemma CubeRootRow4()
    ensures CubeRootRow(4, 8)
  {
  }

  lemma CubeRootRow5()
    ensures CubeRootRow(5, 8)
  {
  }

  lemma CubeRootRow6()
    ensures CubeRootRow(6, 8)
  {
  }

  lemma CubeRootRow7()
    ensures CubeRootRow(7, 8)
  {
  }

  /** Every round constant is the first 32 fractional bits of the cube root of its prime. */
  lemma RoundConstantsAreCubeRoots(t: nat)
    requires t < 64
    ensures CubeRootFraction(FIRST_PRIMES[t / 8][t % 8], CUBE_ROOT_PARTS[t / 8][t % 8], RoundConstant(t))
  {
    if t < 8 { CubeRootRow0(); CubeRootInRow(0, 8, t % 8); }
    else if t < 16 { CubeRootRow1(); CubeRootInRow(1, 8, t % 8); }
    else if t < 24 { CubeRootRow2(); CubeRootInRow(2, 8, t % 8); }
    else if t < 32 { CubeRootRow3(); CubeRootInRow(3, 8, t % 8); }
    else if t < 40 { CubeRootRow4(); CubeRootInRow(4, 8, t % 8); }
    else if t < 48 { CubeRootRow5(); CubeRootInRow(5, 8, t % 8); }
    else if t < 56 { CubeRootRow6(); CubeRootInRow(6, 8, t % 8); }
    else { CubeRootRow7(); CubeRootInRow(7, 8, t % 8); }
  }

  /** The n initial hash words from an index on are fractions of square roots; the integer parts are 1, 1, 2, 2, 3, 3, 4, 4. */
  predicate SquareRoots(from: nat, n: nat)
    requires from + n <= 8
    decreases n
  {
    n == 0
    || (SquareRootFraction(FIRST_PRIMES[0][from], from / 2 + 1, INITIAL_HASH[from]) && SquareRoots(from + 1, n - 1))
  }

  lemma InitialHashIsSquareRoots()
    ensures SquareRoots(0, 8)
  {
  }

  // ----- section 5.1.1: padding the message

  /** l message bits, a one bit and k zero bits leave room for the 64-bit length in the last block. */
  predicate LeavesLengthRoom(l: nat, k: nat) {
    (l + 1 + k) % 512 == 448
  }

  /** The number of zero bits of the padding: the smallest that leaves room. */
  function PaddingZeros(l: nat): (k: nat)
    ensures k < 512
    ensures LeavesLengthRoom(l, k)
    ensures forall j: nat :: LeavesLengthRoom(l, j) ==> k <= j
  {
    (447 - l) % 512
  }

  function Pad(message: seq<bool>): (padded: seq<bool>)
    requires |message| < TWO64
    ensures |padded| % 512 == 0
  {
    message + [true] + Zeros(PaddingZeros(|message|)) + ToBits(|message|, 64)
  }

  // ----- section 6.2.2: the hash computation

  type Block = b: seq<bool> | |b| == 512 witness Zeros(512)

  /** Section 5.2.1: the block with index i of a padded message. */
  function BlockAt(padded: seq<bool>, i: nat): Block
    requires 512 * i + 512 <= |padded|
  {
    padded[512 * i..512 * i + 512]
  }

  /** Step 1: the message schedule. */
  function Schedule(block: Block, t: nat): Word {
    if t < 16 then block[32 * t..32 * t + 32]
    else
      Add(Add(Add(SmallSigma1(Schedule(block, t - 2)), Schedule(block, t - 7)), SmallSigma0(Schedule(block, t - 15))),
          Schedule(block, t - 16))
  }

  /** The eight working variables a to h, or the eight words of a hash value. */
  datatype Hash = Hash(a: Word, b: Word, c: Word, d: Word, e: Word, f: Word, g: Word, h: Word) {
    function Words(): (w: seq<Word>)
      ensures |w| == 8
    {
      [a, b, c, d, e, f, g, h]
    }
  }

  /** Step 3 for one t. */
  function Round(v: Hash, k: Word, w: Word): Hash {
    var t1 := Add(Add(Add(Add(v.h, BigSigma1(v.e)), Ch(v.e, v.f, v.g)), k), w);
    var t2 := Add(BigSigma0(v.a), Maj(v.a, v.b, v.c));
    Hash(Add(t1, t2), v.a, v.b, v.c, Add(v.d, t1), v.e, v.f, v.g)
  }

  /** Steps 2 and 3: the working variables after the first t rounds. */
  function Rounds(v: Hash, block: Block, t: nat): Hash
    requires t <= 64
  {
    if t == 0 then v
    else Round(Rounds(v, block, t - 1), ToBits(RoundConstant(t - 1), 32), Schedule(block, t - 1))
  }

  /** Step 4: the next intermediate hash value. */
  function Compress(v: Hash, block: Block): Hash {
    var r := Rounds(v, block, 64);
    Hash(Add(r.a, v.a), Add(r.b, v.b), Add(r.c, v.c), Add(r.d, v.d),
         Add(r.e, v.e), Add(r.f, v.f), Add(r.g, v.g), Add(r.h, v.h))
  }

  function InitialHash(): Hash {
    var H := INITIAL_HASH;
    Hash(ToBits(H[0], 32), ToBits(H[1], 32), ToBits(H[2], 32), ToBits(H[3], 32),
         ToBits(H[4], 32), ToBits(H[5], 32), ToBits(H[6], 32), ToBits(H[7], 32))
  }

  /** The hash value after the first n blocks of a padded message. */
  function HashBlocks(padded: seq<bool>, n: nat): Hash
    requires 512 * n <= |padded|
  {
    if n == 0 then InitialHash()
    else Compress(HashBlocks(padded, n - 1), BlockAt(padded, n - 1))
  }

  function Concat(words: seq<Word>): (b: seq<bool>)
    ensures |b| == 32 * |words| && |b| % 4 == 0
  {
    if words == [] then [] else words[0] + Concat(words[1..])
  }

  /** SHA-256: the eight words of the message digest. */
  function Sha256(message: seq<bool>): Hash
    requires |message| < TWO64
  {
    var padded := Pad(message);
    HashBlocks(padded, |padded| / 512)
  }

  // ----- a digest as hexadecimal text, four bits a digit

  function HexDigit(d: nat): char
    requires d < 16
  {
    "0123456789abcdef"[d]
  }

  function Hex(b: seq<bool>): (digits: string)
    requires |b| % 4 == 0
    ensures 4 * |digits| == |b|
  {
    if b == [] then ""
    else
      var last := |b| - 4;
      Pow2Values();
      Hex(b[..last]) + [HexDigit(Value(b[last..]))]
  }

  function HexOfWords(words: seq<Word>): (digits: string)
    ensures |digits| == 8 * |words|
  {
    if words == [] then ""
    else
      var last := |words| - 1;
      HexOfWords(words[..last]) + Hex(words[last])
  }

  /** The SHA-256 digest of a message in hexadecimal. */
  function Sha256Hex(message: seq<bool>): (digits: string)
    requires |message| < TWO64
    ensures |digits| == 64
  {
    HexOfWords(Sha256(message).Words())
  }

  lemma HexOfLast(front: seq<bool>, nibble: seq<bool>)
    requires |front| % 4 == 0 && |nibble| == 4
    ensures Value(nibble) < 16 && Hex(front + nibble) == Hex(front) + [HexDigit(Value(nibble))]
  {
    Pow2Values();
    hide Value, HexDigit;
    assert (front + nibble)[..|front|] == front && (front + nibble)[|front|..] == nibble;
  }

  lemma HexConcatStep(a: seq<bool>, front: seq<bool>, nibble: seq<bool>)
    requires |a| % 4 == 0 && |front| % 4 == 0 && |nibble| == 4 && (|a| + |front|) % 4 == 0
    requires Hex(a + front) == Hex(a) + Hex(front)
    ensures |front + nibble| % 4 == 0 && |a + (front + nibble)| % 4 == 0
    ensures Hex(a + (front + nibble)) == Hex(a) + Hex(front + nibble)
  {
    hide *;
    HexOfLast(a + front, nibble);
    HexOfLast(front, nibble);
    assert a + (front + nibble) == (a + front) + nibble;
  }

  lemma HexOfNothing()
    ensures Hex([]) == ""
  {
  }

  lemma {:induction false} HexConcat(a: seq<bool>, b: seq<bool>)
    requires |a| % 4 == 0 && |b| % 4 == 0
    ensures Hex(a + b) == Hex(a) + Hex(b)
  {
    HexOfNothing();
    hide *;
    if b == [] {
      assert a + b == a;
    } else {
      var front, nibble := b[..|b| - 4], b[|b| - 4..];
      HexConcat(a, front);
      assert b == front + nibble;
      HexConcatStep(a, front, nibble);
    }
  }

  lemma {:induction false} ConcatAppends(words: seq<Word>, w: Word)
    ensures Concat(words + [w]) == Concat(words) + w
  {
    if words != [] {
      ConcatAppends(words[1..], w);
      assert (words + [w])[1..] == words[1..] + [w];
    } else {
      assert words + [w] == [w];
      assert [w][1..] == [];
    }
  }

  /** Spelling words one by one spells the bits of their concatenation, four to a digit. */
  lemma {:induction false} HexOfWordsIsHex(words: seq<Word>)
    ensures HexOfWords(words) == Hex(Concat(words))
  {
    if words != [] {
      var last := |words| - 1;
      HexOfWordsIsHex(words[..last]);
      assert words == words[..last] + [words[last]];
      ConcatAppends(words[..last], words[last]);
      HexConcat(Concat(words[..last]), words[last]);
    }
  }
}
