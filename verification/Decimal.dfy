// Decimal text of numbers: plain, and zero-padded to a fixed width.
module Decimal {

  predicate IsDigit(c: char) {
    '0' <= c <= '9'
  }

  predicate AllDigits(s: string) {
    forall i :: 0 <= i < |s| ==> IsDigit(s[i])
  }

  function Digit(d: nat): (c: char)
    requires d < 10
    ensures IsDigit(c) && DigitValue(c) == d
  {
    "0123456789"[d]
  }

  function DigitValue(c: char): (d: nat)
    requires IsDigit(c)
    ensures d < 10
  {
    c as int - '0' as int
  }

  function Dec(n: nat): (s: string)
    ensures s != "" && AllDigits(s)
  {
    if n < 10 then [Digit(n)] else Dec(n / 10) + [Digit(n % 10)]
  }

  function Undec(s: string): nat
    requires AllDigits(s)
  {
    if s == "" then 0 else Undec(s[..|s| - 1]) * 10 + DigitValue(s[|s| - 1])
  }

  function IntText(n: int): string {
    if n < 0 then "-" + Dec(-n) else Dec(n)
  }

  function Pow10(w: nat): (p: nat)
    ensures p >= 1
  {
    if w == 0 then 1 else 10 * Pow10(w - 1)
  }

  // The last w decimal digits of n, zero-padded.
  function Fixed(n: nat, w: nat): (s: string)
    ensures |s| == w && AllDigits(s)
    decreases w
  {
    if w == 0 then "" else Fixed(n / 10, w - 1) + [Digit(n % 10)]
  }

  lemma {:induction false} UndecDec(n: nat)
    ensures Undec(Dec(n)) == n
  {
    if n >= 10 {
      UndecDec(n / 10);
      assert Dec(n)[..|Dec(n)| - 1] == Dec(n / 10);
    }
  }

  lemma {:induction false} UndecFixed(n: nat, w: nat)
    requires n < Pow10(w)
    ensures Undec(Fixed(n, w)) == n
    decreases w
  {
    if w > 0 {
      UndecFixed(n / 10, w - 1);
      assert Fixed(n, w)[..w - 1] == Fixed(n / 10, w - 1);
    }
  }

  // Dec(n) has at least w + 1 digits exactly when n >= 10^w.
  lemma {:induction false} DecLength(n: nat, w: nat)
    ensures |Dec(n)| > w <==> w == 0 || n >= Pow10(w)
    decreases n
  {
    if n >= 10 && w > 0 {
      DecLength(n / 10, w - 1);
      if n >= Pow10(w) { assert n / 10 >= Pow10(w - 1); }
    }
  }
}
