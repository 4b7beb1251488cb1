/** Decimal numerals: writing a number and reading it back. */
module Numerals {

  predicate AllDigits(s: string) {
    forall i :: 0 <= i < |s| ==> '0' <= s[i] <= '9'
  }

  /** The number that digits denote; leading zeros are allowed. */
  function NumberOf(s: string): nat
    requires AllDigits(s)
  {
    if s == "" then 0
    else
      var last := |s| - 1;
      10 * NumberOf(s[..last]) + (s[last] as int - '0' as int)
  }

  /** The shortest numeral of a number. */
  function Numeral(n: nat): (s: string)
    ensures AllDigits(s) && 0 < |s| <= n + 1
  {
    var digit := ['0' + (n % 10) as char];
    if n < 10 then digit else Numeral(n / 10) + digit
  }

  lemma {:induction false} NumeralReads(n: nat)
    ensures NumberOf(Numeral(n)) == n && (Numeral(n)[0] == '0' ==> n == 0 && Numeral(n) == "0")
  {
    if n < 10 {
      assert Numeral(n)[..0] == "";
    } else {
      NumeralReads(n / 10);
      var rest := Numeral(n / 10);
      assert Numeral(n)[..|rest|] == rest;
    }
  }
}
