/** JavaScript numbers as they matter here, and rounding once against rounding often. */
module Rounding {

  /** A JavaScript number: a finite value, or NaN/undefined/infinite. */
  datatype Num = Finite(value: real) | NotFinite

  /** Math.round: floor(x + 1/2), so a half goes up (section 21.3.2.28 of ECMA-262). */
  function Round(x: real): int {
    (x + 0.5).Floor
  }

  lemma RoundWithinHalf(x: real)
    ensures -0.5 < Round(x) as real - x <= 0.5
  {
  }

  lemma RoundInteger(n: int)
    ensures Round(n as real) == n
  {
  }

  function Total(xs: seq<real>): real {
    if xs == [] then 0.0 else Total(xs[..|xs| - 1]) + xs[|xs| - 1]
  }

  function RoundedTotal(xs: seq<real>): int {
    if xs == [] then 0 else RoundedTotal(xs[..|xs| - 1]) + Round(xs[|xs| - 1])
  }

  function Abs(n: int): nat {
    if n < 0 then -n else n
  }

  /** Rounding each of n terms moves the sum by at most n/2, and down by strictly less. */
  lemma {:induction false} RoundedTotalDrift(xs: seq<real>)
    ensures RoundedTotal(xs) as real - Total(xs) <= |xs| as real / 2.0
    ensures xs != [] ==> RoundedTotal(xs) as real - Total(xs) > -(|xs| as real / 2.0)
  {
    if xs != [] {
      RoundedTotalDrift(xs[..|xs| - 1]);
      RoundWithinHalf(xs[|xs| - 1]);
    }
  }

  /** Rounding n terms one by one and rounding their sum once differ by less than (n+1)/2. */
  lemma RoundOnceGap(xs: seq<real>)
    ensures 2 * Abs(RoundedTotal(xs) - Round(Total(xs))) < |xs| + 1
  {
    RoundedTotalDrift(xs);
    RoundWithinHalf(Total(xs));
  }

  /** The bound is attained for every n: n halves round to n one by one and to ceil(n/2) at once. */
  lemma {:induction false} RoundOnceGapIsTight(n: nat)
    ensures RoundedTotal(Halves(n)) == n
    ensures Total(Halves(n)) == n as real / 2.0
    ensures Abs(RoundedTotal(Halves(n)) - Round(Total(Halves(n)))) == n / 2
  {
    if n > 0 {
      RoundOnceGapIsTight(n - 1);
      assert Halves(n)[..n - 1] == Halves(n - 1);
    }
    HalfRoundsUp(n);
  }

  function Halves(n: nat): seq<real> {
    seq(n, _ => 0.5)
  }

  lemma HalfRoundsUp(n: nat)
    ensures Round(n as real / 2.0) == n - n / 2
  {
    if n % 2 == 0 {
      assert n as real / 2.0 == (n / 2) as real;
    } else {
      assert n as real / 2.0 == (n / 2) as real + 0.5;
    }
  }
}
