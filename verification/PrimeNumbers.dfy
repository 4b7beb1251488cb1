/** Prime numbers, and a sieve that finds those below 361. */
module PrimeNumbers {

  predicate IsPrime(n: nat) {
    n >= 2 && forall d :: 2 <= d < n ==> n % d != 0
  }

  /** The primes from lo up to, but without, hi, in order. */
  function PrimesBetween(lo: nat, hi: nat): (primes: seq<nat>)
    ensures forall n :: n in primes <==> lo <= n < hi && IsPrime(n)
    decreases hi - lo
  {
    if hi <= lo then [] else (if IsPrime(lo) then [lo] else []) + PrimesBetween(lo + 1, hi)
  }

  lemma {:induction false} PrimesJoin(lo: nat, mid: nat, hi: nat)
    requires lo <= mid <= hi
    ensures PrimesBetween(lo, hi) == PrimesBetween(lo, mid) + PrimesBetween(mid, hi)
    decreases mid - lo
  {
    hide IsPrime;
    if lo < mid {
      PrimesJoin(lo + 1, mid, hi);
    }
  }

  // ----- the sieve

  predicate Spared(n: nat, p: nat)
    requires p > 0
  {
    n % p != 0 || n == p
  }

  /** Not a proper multiple of a prime below 19. */
  predicate Survives(n: nat) {
    n >= 2 && Spared(n, 2) && Spared(n, 3) && Spared(n, 5) && Spared(n, 7) && Spared(n, 11) && Spared(n, 13) && Spared(n, 17)
  }

  lemma DividesOn(n: nat, d: nat, p: nat)
    requires d > 0 && p > 0 && n % d == 0 && d % p == 0
    ensures n % p == 0
  {
    assert n == p * ((d / p) * (n / d));
    Multiple(p, (d / p) * (n / d));
  }

  lemma Multiple(p: nat, k: nat)
    requires p > 0
    ensures (p * k) % p == 0
  {
    var n := p * k;
    RemainderIsZero(p, k - n / p, n % p);
  }

  lemma RemainderIsZero(p: nat, t: int, r: nat)
    requires r < p && r == p * t
    ensures r == 0
  {
    TimesAtLeast(p, t);
  }

  lemma TimesAtLeast(p: nat, t: int)
    ensures t >= 1 ==> p * t >= p
    ensures t <= -1 ==> p * t <= 0 - p
  {
  }

  lemma ProductGrows(d: nat, q: nat)
    requires d >= 19 && q >= 19
    ensures d * q >= 361
  {
  }

  /** Of a divisor and its quotient one is below 19 if the number is below 361. */
  lemma SmallerHalf(n: nat, d: nat) returns (e: nat)
    requires n < 361 && 2 <= d < n && n % d == 0
    ensures 2 <= e < 19 && e < n && n % e == 0
  {
    var q := n / d;
    assert n == d * q;
    if d < 19 {
      e := d;
    } else {
      if q >= 19 {
        ProductGrows(d, q);
      }
      e := q;
      Multiple(q, d);
    }
  }

  /** What survives below 361 is exactly the primes. */
  lemma SurvivorsArePrimes(n: nat)
    requires n < 361
    ensures Survives(n) <==> IsPrime(n)
  {
    if Survives(n) && !IsPrime(n) {
      var d :| 2 <= d < n && n % d == 0;
      var e := SmallerHalf(n, d);
      var p := SmallFactor(e);
      DividesOn(n, e, p);
    }
  }

  function SmallFactor(e: nat): (p: nat)
    requires 2 <= e < 19
    ensures p in {2, 3, 5, 7, 11, 13, 17} && e % p == 0 && p <= e
  {
    if e % 2 == 0 then 2 else if e % 3 == 0 then 3 else if e % 5 == 0 then 5 else if e % 7 == 0 then 7 else e
  }

  /** No number from lo up to, but without, hi survives. */
  predicate NoneSurvive(lo: nat, hi: nat)
    decreases hi - lo
  {
    hi <= lo || (!Survives(lo) && NoneSurvive(lo + 1, hi))
  }

  lemma {:induction false} NoneSurviveJoin(lo: nat, mid: nat, hi: nat)
    requires lo <= mid && NoneSurvive(lo, mid) && NoneSurvive(mid, hi)
    ensures NoneSurvive(lo, hi)
    decreases mid - lo
  {
    hide Survives;
    if lo < mid {
      NoneSurviveJoin(lo + 1, mid, hi);
    }
  }

  /** Of the numbers from lo to hi only hi is a prime. */
  lemma {:induction false} NextPrime(lo: nat, hi: nat)
    requires lo <= hi < 361 && NoneSurvive(lo, hi) && Survives(hi)
    ensures PrimesBetween(lo, hi + 1) == [hi]
    decreases hi - lo
  {
    hide Survives, IsPrime;
    SurvivorsArePrimes(lo);
    if lo < hi {
      NextPrime(lo + 1, hi);
    } else {
      assert PrimesBetween(hi + 1, hi + 1) == [];
    }
  }
}
