/** String(n) for non-negative integers, and String.prototype.padStart with zeros. */
module Decimal {

  const DIGITS := "0123456789"

  predicate IsDigit(ch: char) {
    '0' <= ch <= '9'
  }

  function DigitValue(ch: char): (v: nat)
    requires IsDigit(ch)
    ensures v < 10 && DIGITS[v] == ch
  {
    (ch - '0') as nat
  }

  predicate AllDigits(s: string) {
    forall i :: 0 <= i < |s| ==> IsDigit(s[i])
  }

  function Dec(n: nat): (s: string)
    ensures AllDigits(s) && |s| > 0
  {
    if n < 10 then [DIGITS[n]] else Dec(n / 10) + [DIGITS[n % 10]]
  }

  function Parse(s: string): nat
    requires AllDigits(s)
  {
    if s == "" then 0 else Parse(s[..|s| - 1]) * 10 + DigitValue(s[|s| - 1])
  }

  function Zeros(k: nat): (s: string)
    ensures |s| == k && AllDigits(s)
  {
    seq(k, _ => '0')
  }

  function PadStart(s: string, width: nat): (r: string)
    ensures |r| >= width && |r| >= |s|
    ensures AllDigits(s) ==> AllDigits(r)
  {
    if |s| < width then Zeros(width - |s|) + s else s
  }

  lemma {:induction false} ParseDec(n: nat)
    ensures Parse(Dec(n)) == n
  {
    if n >= 10 {
      ParseDec(n / 10);
      assert Dec(n)[..|Dec(n)| - 1] == Dec(n / 10);
    } else {
      assert Dec(n)[..0] == "";
    }
  }

  lemma {:induction false} ParseIgnoresLeadingZeros(k: nat, s: string)
    requires AllDigits(s)
    ensures AllDigits(Zeros(k) + s) && Parse(Zeros(k) + s) == Parse(s)
  {
    var padded := Zeros(k) + s;
    if s != "" {
      assert padded[..|padded| - 1] == Zeros(k) + s[..|s| - 1];
      ParseIgnoresLeadingZeros(k, s[..|s| - 1]);
    } else if k > 0 {
      assert padded[..k - 1] == Zeros(k - 1) + s;
      ParseIgnoresLeadingZeros(k - 1, s);
    }
  }

  /** Padding loses nothing: the number is recovered whatever the width, also past it. */
  lemma ParsePadded(n: nat, width: nat)
    ensures Parse(PadStart(Dec(n), width)) == n
  {
    ParseDec(n);
    if |Dec(n)| < width {
      ParseIgnoresLeadingZeros(width - |Dec(n)|, Dec(n));
    }
  }

  lemma DecInjective(m: nat, n: nat)
    requires Dec(m) == Dec(n)
    ensures m == n
  {
    ParseDec(m);
    ParseDec(n);
  }

  function PowerOfTen(k: nat): (p: nat)
    ensures p > 0
  {
    if k == 0 then 1 else 10 * PowerOfTen(k - 1)
  }

  lemma {:induction false} DecLength(n: nat, k: nat)
    requires k > 0
    ensures |Dec(n)| <= k <==> n < PowerOfTen(k)
  {
    assert PowerOfTen(k) == 10 * PowerOfTen(k - 1);
    if n < 10 {
      assert PowerOfTen(k - 1) >= 1;
    } else if k == 1 {
      assert PowerOfTen(0) == 1;
    } else {
      DecLength(n / 10, k - 1);
    }
  }

  lemma DecFourDigits(n: nat)
    requires 1000 <= n <= 9999
    ensures |Dec(n)| == 4
  {
    assert |Dec(n / 1000)| == 1;
    assert |Dec(n / 100)| == 2;
    assert |Dec(n / 10)| == 3;
  }
}
