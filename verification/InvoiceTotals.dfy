/** Invoice totals: tax rounded line by line, in whole cents. */
module InvoiceTotals {
  import opened Outcomes
  import opened Rounding
  import opened Sums

  /** One invoice line as the request carries it; a missing rate means 20 percent. */
  datatype Line = Line(quantity: Num, unitPrice: Num, rate: Option<Num>)

  /** Amounts in cents. */
  datatype Totals = Totals(subtotal: int, tax: int, grandTotal: int)

  function RateOf(line: Line): Num {
    if line.rate.Some? then line.rate.value else Finite(20.0)
  }

  predicate ValidLine(line: Line) {
    && line.quantity.Finite?
    && line.quantity.value == line.quantity.value.Floor as real
    && line.quantity.value >= 1.0
    && line.unitPrice.Finite?
    && line.unitPrice.value >= 0.0
    && RateOf(line).Finite?
    && 0.0 <= RateOf(line).value <= 100.0
  }

  function LineCents(line: Line): int {
    if ValidLine(line) then Round(line.unitPrice.value * 100.0) * line.quantity.value.Floor else 0
  }

  /** The tax of a line before rounding, in cents. */
  function ExactTax(line: Line): real {
    if ValidLine(line) then LineCents(line) as real * RateOf(line).value / 100.0 else 0.0
  }

  function LineTax(line: Line): int {
    Round(ExactTax(line))
  }

  predicate AllValid(lines: seq<Line>) {
    forall i :: 0 <= i < |lines| ==> ValidLine(lines[i])
  }

  /** What the totals of a list of lines mean; None when some line is refused. */
  function TotalsOf(lines: seq<Line>): Option<Totals> {
    if AllValid(lines) then
      var subtotal, tax := SumBy(lines, LineCents), SumBy(lines, LineTax);
      Some(Totals(subtotal, tax, subtotal + tax))
    else
      None
  }

  /** The loop over the lines, stopping at the first refused one. */
  method CalculateInvoiceTotals(items: seq<Line>) returns (r: Option<Totals>)
    ensures r == TotalsOf(items)
    ensures r.Some? <==> forall i :: 0 <= i < |items| ==> ValidLine(items[i])
    ensures r.Some? ==> 0 <= r.value.subtotal <= r.value.grandTotal == r.value.subtotal + r.value.tax
  {
    var subtotalCents, taxCents := 0, 0;
    for i := 0 to |items|
      invariant AllValid(items[..i])
      invariant subtotalCents == SumBy(items[..i], LineCents)
      invariant taxCents == SumBy(items[..i], LineTax)
      invariant subtotalCents >= 0 && taxCents >= 0
    {
      if !ValidLine(items[i]) {
        return None;
      }
      var lineCents, lineTax := LineCents(items[i]), LineTax(items[i]);
      ValidLineAmounts(items[i]);
      subtotalCents := subtotalCents + lineCents;
      taxCents := taxCents + lineTax;
      assert items[..i + 1] == items[..i] + [items[i]];
      SumAppend(items[..i], items[i], LineCents);
      SumAppend(items[..i], items[i], LineTax);
    }
    assert items[..|items|] == items;
    return Some(Totals(subtotalCents, taxCents, subtotalCents + taxCents));
  }

  lemma ValidLineAmounts(line: Line)
    ensures LineCents(line) >= 0 && ExactTax(line) >= 0.0 && LineTax(line) >= 0
  {
    if ValidLine(line) {
      var cents, quantity := Round(line.unitPrice.value * 100.0), line.quantity.value.Floor;
      assert cents >= 0 && quantity >= 1;
      assert cents * quantity >= 0;
      ProductNonNegative(LineCents(line) as real, RateOf(line).value);
    }
  }

  lemma ProductNonNegative(x: real, y: real)
    requires x >= 0.0 && y >= 0.0
    ensures x * y >= 0.0
  {
  }

  lemma TotalsNonNegative(lines: seq<Line>)
    requires TotalsOf(lines).Some?
    ensures var t := TotalsOf(lines).value; 0 <= t.subtotal && 0 <= t.tax && 0 <= t.grandTotal
  {
    forall i | 0 <= i < |lines| ensures LineCents(lines[i]) >= 0 && LineTax(lines[i]) >= 0 {
      ValidLineAmounts(lines[i]);
    }
    SumNonNegative(lines, LineCents);
    SumNonNegative(lines, LineTax);
  }

  // ---- What a line means, in the numbers of the request --------------------------

  predicate IsWhole(x: Num, n: int) {
    x.Finite? && x.value == n as real
  }

  /** A line is accepted exactly when its quantity is a whole number from 1 on, its price is not
      negative, and its rate, if it has one, lies between 0 and 100. */
  lemma LineAccepted(line: Line)
    ensures TotalsOf([line]).Some? <==>
      && (exists n :: n >= 1 && IsWhole(line.quantity, n))
      && line.unitPrice.Finite? && line.unitPrice.value >= 0.0
      && (line.rate.Some? ==> line.rate.value.Finite? && 0.0 <= line.rate.value.value <= 100.0)
  {
    assert TotalsOf([line]).Some? <==> ValidLine([line][0]);
    if ValidLine(line) {
      assert IsWhole(line.quantity, line.quantity.value.Floor);
    }
    if n :| n >= 1 && IsWhole(line.quantity, n) {
      assert line.quantity.value.Floor == n;
    }
  }

  /** An accepted line of n pieces at price p and rate r comes to n times the rounded price, and its
      tax to r percent of that, rounded once; without a rate, to a fifth. */
  lemma LineComesTo(line: Line, n: int, p: real, r: real)
    requires line.quantity == Finite(n as real) && n >= 1 && line.unitPrice == Finite(p) && p >= 0.0
    requires line.rate == Some(Finite(r)) || (line.rate == None && r == 20.0)
    requires 0.0 <= r <= 100.0
    ensures var cents := (p * 100.0 + 0.5).Floor * n;
      var tax := (cents as real * r / 100.0 + 0.5).Floor;
      && TotalsOf([line]) == Some(Totals(cents, tax, cents + tax))
      && (line.rate == None ==> tax == (cents as real / 5.0 + 0.5).Floor)
  {
    assert line.quantity.value.Floor == n;
    assert ValidLine([line][0]);
    assert [line][..0] == [];
    assert SumBy([line], LineCents) == LineCents(line);
    assert SumBy([line], LineTax) == LineTax(line);
    var cents := (p * 100.0 + 0.5).Floor * n;
    assert LineCents(line) == cents;
    assert r == 20.0 ==> cents as real * r / 100.0 == cents as real / 5.0;
  }

  /** Totals add up line by line, and one refused line refuses them all. */
  lemma TotalsAdd(lines: seq<Line>, line: Line)
    ensures TotalsOf(lines + [line]).Some? <==> TotalsOf(lines).Some? && TotalsOf([line]).Some?
    ensures TotalsOf(lines + [line]).Some? ==>
      var a, b, sum := TotalsOf(lines).value, TotalsOf([line]).value, TotalsOf(lines + [line]).value;
      sum == Totals(a.subtotal + b.subtotal, a.tax + b.tax, a.grandTotal + b.grandTotal)
  {
    var all := lines + [line];
    assert all[|lines|] == line && [line][0] == line;
    assert forall i :: 0 <= i < |lines| ==> all[i] == lines[i];
    SumAppend(lines, line, LineCents);
    SumAppend(lines, line, LineTax);
    assert [] + [line] == [line];
    SumAppend([], line, LineCents);
    SumAppend([], line, LineTax);
  }

  function Filled(line: Line): Line {
    if line.rate == None then line.(rate := Some(Finite(20.0))) else line
  }

  function FilledLines(lines: seq<Line>): (filled: seq<Line>)
    ensures |filled| == |lines|
  {
    seq(|lines|, i requires 0 <= i < |lines| => Filled(lines[i]))
  }

  /** Writing 20 percent into every line without a rate changes nothing. */
  lemma MissingRateIsTwenty(lines: seq<Line>)
    ensures TotalsOf(FilledLines(lines)) == TotalsOf(lines)
  {
    var filled := FilledLines(lines);
    assert forall i :: 0 <= i < |lines| ==> ValidLine(filled[i]) == ValidLine(lines[i]);
    SumCongruent(lines, filled, LineCents, LineCents);
    SumCongruent(lines, filled, LineTax, LineTax);
  }

  // ---- The 3-cent tolerance of the repository -------------------------------

  const TOLERANCE := 3

  /** What the client claims, in lira; a claim that is not finite is filled in. */
  datatype Claim = Claim(subtotal: Num, tax: Num, grandTotal: Num)

  predicate Within(claimed: Num, cents: int) {
    claimed.NotFinite? || Abs(Round(claimed.value * 100.0) - cents) <= TOLERANCE
  }

  predicate WithinTolerance(claim: Claim, totals: Totals) {
    && Within(claim.subtotal, totals.subtotal)
    && Within(claim.tax, totals.tax)
    && Within(claim.grandTotal, totals.grandTotal)
  }
}
