/** The printed form of a document sequence number. */
module InvoiceNumbers {
  import opened Decimal

  function InvoiceNumber(year: nat, n: nat): string {
    "INV-" + Dec(year) + "-" + PadStart(Dec(n), 5)
  }

  function GibNumber(year: nat, n: nat): string {
    "GIB" + Dec(year) + PadStart(Dec(n), 9)
  }

  predicate FourDigitYear(year: nat) {
    1000 <= year <= 9999
  }

  /** A number printed with four-digit years names exactly one (year, sequence) pair. */
  lemma InvoiceNumberInjective(y1: nat, n1: nat, y2: nat, n2: nat)
    requires FourDigitYear(y1) && FourDigitYear(y2)
    requires InvoiceNumber(y1, n1) == InvoiceNumber(y2, n2)
    ensures y1 == y2 && n1 == n2
  {
    SplitNumber("INV-", y1, "-", PadStart(Dec(n1), 5));
    SplitNumber("INV-", y2, "-", PadStart(Dec(n2), 5));
    DecInjective(y1, y2);
    ParsePadded(n1, 5);
    ParsePadded(n2, 5);
  }

  lemma GibNumberInjective(y1: nat, n1: nat, y2: nat, n2: nat)
    requires FourDigitYear(y1) && FourDigitYear(y2)
    requires GibNumber(y1, n1) == GibNumber(y2, n2)
    ensures y1 == y2 && n1 == n2
  {
    SplitNumber("GIB", y1, "", PadStart(Dec(n1), 9));
    SplitNumber("GIB", y2, "", PadStart(Dec(n2), 9));
    assert "GIB" + Dec(y1) + "" == "GIB" + Dec(y1);
    assert "GIB" + Dec(y2) + "" == "GIB" + Dec(y2);
    DecInjective(y1, y2);
    ParsePadded(n1, 9);
    ParsePadded(n2, 9);
  }

  /** The tax administration's number has 16 characters until a year runs past nine digits. */
  lemma GibNumberHasSixteen(year: nat, n: nat)
    requires FourDigitYear(year)
    ensures |GibNumber(year, n)| == 16 <==> n < 1_000_000_000
    ensures |InvoiceNumber(year, n)| == 14 <==> n < 100_000
  {
    DecFourDigits(year);
    DecLength(n, 9);
    DecLength(n, 5);
    assert PowerOfTen(5) == 100_000;
    assert PowerOfTen(9) == 10_000 * PowerOfTen(5);
  }

  /** The last digits of n, so many of them. */
  function Digits(n: nat, width: nat): string {
    if width == 0 then "" else Digits(n / 10, width - 1) + [DIGITS[n % 10]]
  }

  lemma PaddedStep(n: nat, width: nat)
    requires n >= 10 && width >= 2
    ensures PadStart(Dec(n), width) == PadStart(Dec(n / 10), width - 1) + [DIGITS[n % 10]]
  {
    var front := Dec(n / 10);
    assert Dec(n) == front + [DIGITS[n % 10]];
  }

  lemma {:induction false} ZeroDigits(width: nat)
    ensures Digits(0, width) == Zeros(width)
  {
    if width > 0 {
      ZeroDigits(width - 1);
      assert Zeros(width) == Zeros(width - 1) + "0";
    }
  }

  lemma OneDigitPadded(n: nat, width: nat)
    requires n < 10 && width > 0
    ensures PadStart(Dec(n), width) == Digits(n, width)
  {
    ZeroDigits(width - 1);
    assert PadStart(Dec(n), width) == Zeros(width - 1) + [DIGITS[n]];
  }

  lemma OneDigitLess(n: nat, width: nat)
    requires 10 <= n < PowerOfTen(width)
    ensures width >= 2 && n / 10 < PowerOfTen(width - 1)
  {
    assert PowerOfTen(0) == 1 && PowerOfTen(1) == 10;
    assert PowerOfTen(width) == 10 * PowerOfTen(width - 1);
  }

  lemma {:induction false} PaddedIsDigits(n: nat, width: nat)
    requires width > 0 && n < PowerOfTen(width)
    ensures PadStart(Dec(n), width) == Digits(n, width)
  {
    if n < 10 {
      OneDigitPadded(n, width);
    } else {
      OneDigitLess(n, width);
      PaddedIsDigits(n / 10, width - 1);
      PaddedStep(n, width);
    }
  }

  /** The numbers of a year as they are printed, until they run past the padding. */
  lemma PrintedForm(year: nat, n: nat)
    requires FourDigitYear(year)
    ensures n < 100_000 ==> InvoiceNumber(year, n) == "INV-" + Digits(year, 4) + "-" + Digits(n, 5)
    ensures n < 1_000_000_000 ==> GibNumber(year, n) == "GIB" + Digits(year, 4) + Digits(n, 9)
  {
    assert PowerOfTen(5) == 100_000 && PowerOfTen(4) == 10_000;
    assert PowerOfTen(9) == 10_000 * PowerOfTen(5);
    DecFourDigits(year);
    PaddedIsDigits(year, 4);
    if n < 100_000 {
      PaddedIsDigits(n, 5);
    }
    if n < 1_000_000_000 {
      PaddedIsDigits(n, 9);
    }
  }

  /** Where the year and the sequence part sit in a number with a four-digit year. */
  lemma SplitNumber(prefix: string, year: nat, separator: string, tail: string)
    requires FourDigitYear(year)
    ensures var s := prefix + Dec(year) + separator + tail;
      var p := |prefix|;
      |s| == p + 4 + |separator| + |tail| && s[p..p + 4] == Dec(year) && s[p + 4 + |separator|..] == tail
  {
    DecFourDigits(year);
    var s := prefix + Dec(year) + separator + tail;
    assert s == prefix + (Dec(year) + (separator + tail));
  }
}
