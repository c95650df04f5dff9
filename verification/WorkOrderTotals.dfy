/** Work order totals: tax rounded once over the sum, and when an invoice accepts them. */
module WorkOrderTotals {
  import opened Outcomes
  import opened Rounding
  import opened Sums
  import opened InvoiceTotals

  /** A work order item; prices in lira. */
  datatype Item = Item(quantity: nat, unitPrice: real, rate: real)

  /** A zero rate is falsy in the source and turns into 20 percent. */
  function EffectiveRate(rate: real): real {
    if rate == 0.0 then 20.0 else rate
  }

  function ItemBase(item: Item): real {
    item.unitPrice * item.quantity as real
  }

  function ItemTax(item: Item): real {
    ItemBase(item) * EffectiveRate(item.rate) / 100.0
  }

  function Bases(items: seq<Item>): (xs: seq<real>)
    ensures |xs| == |items|
  {
    seq(|items|, i requires 0 <= i < |items| => ItemBase(items[i]))
  }

  function Taxes(items: seq<Item>): (xs: seq<real>)
    ensures |xs| == |items|
  {
    seq(|items|, i requires 0 <= i < |items| => ItemTax(items[i]))
  }

  class WorkOrderEntity {
    const items: seq<Item>
    // The three totals, in cents.
    var subtotal: int
    var kdvAmount: int
    var grandTotal: int

    constructor (items: seq<Item>)
      ensures this.items == items
    {
      this.items := items;
      subtotal, kdvAmount, grandTotal := 0, 0, 0;
    }

    method RecalculateTotals()
      modifies this
      ensures subtotal == Round(Total(Bases(items)) * 100.0)
      ensures kdvAmount == Round(Total(Taxes(items)) * 100.0)
      ensures grandTotal == Round((Total(Bases(items)) + Total(Taxes(items))) * 100.0)
    {
      var sum, kdv := 0.0, 0.0;
      for i := 0 to |items|
        invariant sum == Total(Bases(items)[..i]) && kdv == Total(Taxes(items)[..i])
      {
        var lineBase := items[i].unitPrice * items[i].quantity as real;
        var lineKdv := lineBase * EffectiveRate(items[i].rate) / 100.0;
        sum := sum + lineBase;
        kdv := kdv + lineKdv;
        assert Bases(items)[..i + 1][..i] == Bases(items)[..i];
        assert Taxes(items)[..i + 1][..i] == Taxes(items)[..i];
      }
      assert Bases(items)[..|items|] == Bases(items);
      assert Taxes(items)[..|items|] == Taxes(items);
      subtotal := Round(sum * 100.0);
      kdvAmount := Round(kdv * 100.0);
      grandTotal := Round((sum + kdv) * 100.0);
    }
  }

  /** The totals a work order sends along with the invoice request, in cents. */
  function RoundedOnce(items: seq<Item>): Totals {
    Totals(
      Round(Total(Bases(items)) * 100.0),
      Round(Total(Taxes(items)) * 100.0),
      Round((Total(Bases(items)) + Total(Taxes(items))) * 100.0))
  }

  function ToLine(item: Item): Line {
    Line(Finite(item.quantity as real), Finite(item.unitPrice), Some(Finite(item.rate)))
  }

  function ToLines(items: seq<Item>): (lines: seq<Line>)
    ensures |lines| == |items|
  {
    seq(|items|, i requires 0 <= i < |items| => ToLine(items[i]))
  }

  /** A price stored in a column with two decimals, a positive quantity and a rate up to 100. */
  predicate CentPriced(item: Item) {
    && item.quantity >= 1
    && item.unitPrice >= 0.0
    && item.unitPrice * 100.0 == (item.unitPrice * 100.0).Floor as real
    && 0.0 <= item.rate <= 100.0
  }

  predicate CentItems(items: seq<Item>) {
    forall i :: 0 <= i < |items| ==> CentPriced(items[i])
  }

  predicate NoZeroRate(items: seq<Item>) {
    forall i :: 0 <= i < |items| ==> items[i].rate != 0.0
  }

  /** Base cents of the lines whose rate is zero. */
  function ZeroRated(item: Item): int {
    if item.rate == 0.0 then LineCents(ToLine(item)) else 0
  }

  /** Tax the work order charges on zero-rated lines and the invoice does not, in cents. */
  function PhantomTax(items: seq<Item>): real {
    SumBy(items, ZeroRated) as real * 20.0 / 100.0
  }

  lemma CentItemFacts(item: Item)
    requires CentPriced(item)
    ensures ValidLine(ToLine(item))
    ensures ItemBase(item) * 100.0 == LineCents(ToLine(item)) as real
    ensures ItemTax(item) * 100.0 == ExactTax(ToLine(item)) + ZeroRated(item) as real * 20.0 / 100.0
  {
    var line := ToLine(item);
    var cents := (item.unitPrice * 100.0).Floor;
    assert line.quantity.value.Floor == item.quantity;
    RoundInteger(cents);
    assert LineCents(line) == cents * item.quantity;
    calc {
      ItemBase(item) * 100.0;
      item.unitPrice * item.quantity as real * 100.0;
      (item.unitPrice * 100.0) * item.quantity as real;
      cents as real * item.quantity as real;
      LineCents(line) as real;
    }
    var rate := EffectiveRate(item.rate);
    assert ItemTax(item) * 100.0 == ItemBase(item) * 100.0 * rate / 100.0;
  }

  function ExactTaxes(lines: seq<Line>): (xs: seq<real>)
    ensures |xs| == |lines|
  {
    seq(|lines|, i requires 0 <= i < |lines| => ExactTax(lines[i]))
  }

  lemma {:induction false} RoundedTaxes(lines: seq<Line>)
    ensures SumBy(lines, LineTax) == RoundedTotal(ExactTaxes(lines))
  {
    if lines != [] {
      var last := |lines| - 1;
      assert ExactTaxes(lines)[..last] == ExactTaxes(lines[..last]);
      RoundedTaxes(lines[..last]);
    }
  }

  /** The unrounded sums of the two sides, compared in cents. */
  lemma {:induction false} ExactSums(items: seq<Item>)
    requires CentItems(items)
    ensures AllValid(ToLines(items))
    ensures Total(Bases(items)) * 100.0 == SumBy(ToLines(items), LineCents) as real
    ensures Total(Taxes(items)) * 100.0 == Total(ExactTaxes(ToLines(items))) + PhantomTax(items)
  {
    if items != [] {
      var last := |items| - 1;
      var front, lines := items[..last], ToLines(items);
      ExactSums(front);
      CentItemFacts(items[last]);
      assert Bases(items)[..last] == Bases(front);
      assert Taxes(items)[..last] == Taxes(front);
      assert lines[..last] == ToLines(front);
      assert ExactTaxes(lines)[..last] == ExactTaxes(ToLines(front));
      forall i | 0 <= i < |lines| ensures ValidLine(lines[i]) {
        CentItemFacts(items[i]);
      }
    }
  }

  /** Rounding per line and rounding once differ by strictly less than (n+1)/2 cents, in the
      tax and in the grand total, once the tax on zero-rated lines is put aside. */
  lemma TaxGap(items: seq<Item>)
    requires CentItems(items)
    ensures TotalsOf(ToLines(items)).Some?
    ensures var perLine, once := TotalsOf(ToLines(items)).value, RoundedOnce(items);
      var gap := perLine.tax as real + PhantomTax(items) - once.tax as real;
      && once.subtotal == perLine.subtotal
      && once.grandTotal - once.subtotal == once.tax
      && -(|items| + 1) as real < 2.0 * gap < (|items| + 1) as real
      && (NoZeroRate(items) ==> 2 * Abs(perLine.tax - once.tax) < |items| + 1)
  {
    ExactSums(items);
    var lines := ToLines(items);
    var subtotal, tax := SumBy(lines, LineCents), Total(Taxes(items)) * 100.0;
    RoundInteger(subtotal);
    assert (Total(Bases(items)) + Total(Taxes(items))) * 100.0 == subtotal as real + tax;
    RoundShift(subtotal, tax);
    RoundedTaxes(lines);
    RoundedTotalDrift(ExactTaxes(lines));
    RoundWithinHalf(tax);
    if NoZeroRate(items) {
      NoPhantomTax(items);
    }
  }

  lemma RoundShift(n: int, x: real)
    ensures Round(n as real + x) == n + Round(x)
  {
  }

  lemma NoPhantomTax(items: seq<Item>)
    requires NoZeroRate(items)
    ensures PhantomTax(items) == 0.0
  {
    SumZero(items, ZeroRated);
  }

  function ClaimOf(totals: Totals): Claim {
    Claim(
      Finite(totals.subtotal as real / 100.0),
      Finite(totals.tax as real / 100.0),
      Finite(totals.grandTotal as real / 100.0))
  }

  /** Whether an invoice issued from the items with the work order's own totals passes. */
  predicate InvoiceAccepts(items: seq<Item>) {
    TotalsOf(ToLines(items)).Some? && WithinTolerance(ClaimOf(RoundedOnce(items)), TotalsOf(ToLines(items)).value)
  }

  lemma ClaimCents(totals: Totals)
    ensures Round(totals.subtotal as real / 100.0 * 100.0) == totals.subtotal
    ensures Round(totals.tax as real / 100.0 * 100.0) == totals.tax
    ensures Round(totals.grandTotal as real / 100.0 * 100.0) == totals.grandTotal
  {
    RoundInteger(totals.subtotal);
    RoundInteger(totals.tax);
    RoundInteger(totals.grandTotal);
  }

  /** The check comes down to the tax alone. */
  lemma AcceptanceIsTaxGap(items: seq<Item>)
    requires CentItems(items)
    ensures TotalsOf(ToLines(items)).Some?
    ensures InvoiceAccepts(items) <==> Abs(TotalsOf(ToLines(items)).value.tax - RoundedOnce(items).tax) <= TOLERANCE
  {
    TaxGap(items);
    ClaimCents(RoundedOnce(items));
  }

  ghost predicate EveryInvoiceAccepted(n: nat) {
    forall items: seq<Item> :: |items| == n && CentItems(items) && NoZeroRate(items) ==> InvoiceAccepts(items)
  }

  function HalfCentItems(n: nat): seq<Item> {
    seq(n, _ => Item(1, 0.01, 50.0))
  }

  /** n lines of one cent at 50 percent: the two taxes are exactly n/2 (rounded down) apart. */
  lemma HalfCentGap(n: nat)
    ensures CentItems(HalfCentItems(n)) && NoZeroRate(HalfCentItems(n))
    ensures TotalsOf(ToLines(HalfCentItems(n))).Some?
    ensures Abs(TotalsOf(ToLines(HalfCentItems(n))).value.tax - RoundedOnce(HalfCentItems(n)).tax) == n / 2
  {
    var items := HalfCentItems(n);
    var lines := ToLines(items);
    assert CentPriced(Item(1, 0.01, 50.0));
    ExactSums(items);
    NoPhantomTax(items);
    CentItemFacts(Item(1, 0.01, 50.0));
    RoundInteger(1);
    assert ExactTaxes(lines) == Halves(n);
    RoundedTaxes(lines);
    RoundOnceGapIsTight(n);
  }

  /** The 3-cent tolerance covers every invoice of n lines exactly when n is at most 7. */
  lemma ToleranceCoversSevenLines(n: nat)
    ensures EveryInvoiceAccepted(n) <==> n <= 7
  {
    if n <= 7 {
      forall items: seq<Item> | |items| == n && CentItems(items) && NoZeroRate(items)
        ensures InvoiceAccepts(items)
      {
        TaxGap(items);
        AcceptanceIsTaxGap(items);
      }
    } else {
      HalfCentGap(n);
      AcceptanceIsTaxGap(HalfCentItems(n));
    }
  }

  // ---- Lists with zero-rated lines -------------------------------------------------------

  function TaxedLine(item: Item): int {
    if item.rate == 0.0 then 0 else 1
  }

  /** How far rounding line by line moves the tax of the lines. */
  function Drift(items: seq<Item>): real {
    SumBy(ToLines(items), LineTax) as real - Total(ExactTaxes(ToLines(items)))
  }

  /** The work order charges zero-rated lines 20 percent and the invoice nothing: the totals are
      accepted exactly when that difference, less the drift, rounds to at most 3 cents. */
  lemma AcceptedExactly(items: seq<Item>)
    requires CentItems(items)
    ensures InvoiceAccepts(items) <==> -3.5 <= PhantomTax(items) - Drift(items) < 3.5
  {
    ExactSums(items);
    AcceptanceIsTaxGap(items);
    var tax := SumBy(ToLines(items), LineTax);
    assert Total(Taxes(items)) * 100.0 == tax as real + (PhantomTax(items) - Drift(items));
    RoundShift(tax, PhantomTax(items) - Drift(items));
  }

  /** Only lines with a rate drift, each by at most half a cent up and less than that down. */
  lemma {:induction false} DriftOfTaxedLines(items: seq<Item>)
    requires CentItems(items)
    ensures var n := SumBy(items, TaxedLine);
      && n >= 0 && Drift(items) <= n as real / 2.0
      && (if n == 0 then Drift(items) == 0.0 else Drift(items) > -(n as real / 2.0))
  {
    if items != [] {
      var last := |items| - 1;
      var front, item := items[..last], items[last];
      var line := ToLine(item);
      DriftOfTaxedLines(front);
      assert ToLines(items)[..last] == ToLines(front);
      assert ExactTaxes(ToLines(items))[..last] == ExactTaxes(ToLines(front));
      CentItemFacts(item);
      RoundWithinHalf(ExactTax(line));
      if item.rate == 0.0 {
        assert ExactTax(line) == 0.0;
      }
    }
  }

  lemma ZeroBaseNonNegative(items: seq<Item>)
    ensures SumBy(items, ZeroRated) >= 0
  {
    forall i | 0 <= i < |items| ensures ZeroRated(items[i]) >= 0 {
      ValidLineAmounts(ToLine(items[i]));
    }
    SumNonNegative(items, ZeroRated);
  }

  /** A work order without any rate is accepted exactly when it costs at most 17 cents in all. */
  lemma ZeroRatedLinesAccepted(items: seq<Item>)
    requires CentItems(items) && SumBy(items, TaxedLine) == 0
    ensures InvoiceAccepts(items) <==> SumBy(items, ZeroRated) <= 17
  {
    AcceptedExactly(items);
    DriftOfTaxedLines(items);
    ZeroBaseNonNegative(items);
  }

  /** Every work order of n lines with a rate and lines without one worth z cents is accepted. */
  ghost predicate EveryMixAccepted(n: nat, z: nat) {
    forall items: seq<Item> ::
      CentItems(items) && SumBy(items, TaxedLine) == n && SumBy(items, ZeroRated) == z ==> InvoiceAccepts(items)
  }

  /** n lines of 49 cents at one percent, each taxed 0.49 cents, and z cents without a rate. */
  function MixItems(n: nat, z: nat): seq<Item> {
    seq(n, _ => Item(1, 0.49, 1.0)) + (if z == 0 then [] else [Item(1, z as real / 100.0, 0.0)])
  }

  lemma {:induction false} PennyTaxes(n: nat)
    ensures var items := MixItems(n, 0);
      && CentItems(items)
      && SumBy(items, TaxedLine) == n && SumBy(items, ZeroRated) == 0 && Drift(items) == -0.49 * n as real
  {
    var items, item := MixItems(n, 0), Item(1, 0.49, 1.0);
    assert CentPriced(item);
    CentItemFacts(item);
    if n > 0 {
      PennyTaxes(n - 1);
      var lines := ToLines(items);
      assert items[..n - 1] == MixItems(n - 1, 0);
      assert lines[..n - 1] == ToLines(MixItems(n - 1, 0));
      assert ExactTaxes(lines)[..n - 1] == ExactTaxes(ToLines(MixItems(n - 1, 0)));
      RoundInteger(49);
      assert LineCents(ToLine(item)) == 49;
      assert ExactTax(ToLine(item)) == 0.49;
    }
  }

  lemma MixFacts(n: nat, z: nat)
    ensures var items := MixItems(n, z);
      && CentItems(items)
      && SumBy(items, TaxedLine) == n && SumBy(items, ZeroRated) == z && Drift(items) == -0.49 * n as real
  {
    PennyTaxes(n);
    if z > 0 {
      var front, item := MixItems(n, 0), Item(1, z as real / 100.0, 0.0);
      var items := MixItems(n, z);
      assert items == front + [item];
      assert item.unitPrice * 100.0 == z as real;
      assert CentPriced(item);
      CentItemFacts(item);
      RoundInteger(z);
      SumAppend(front, item, TaxedLine);
      SumAppend(front, item, ZeroRated);
      assert ToLines(items)[..n] == ToLines(front);
      assert ExactTaxes(ToLines(items))[..n] == ExactTaxes(ToLines(front));
      assert ExactTax(ToLine(item)) == 0.0;
      assert CentItems(items) by {
        forall i | 0 <= i < |items| ensures CentPriced(items[i]) {
          assert i < n ==> items[i] == front[i];
        }
      }
    }
  }

  /** The tolerance covers every such mix exactly when 5 n + 2 z is at most 35; with z = 0 this is the
      bound of seven lines, with n = 0 that of 17 cents. */
  lemma ToleranceCoversMix(n: nat, z: nat)
    ensures EveryMixAccepted(n, z) <==> 5 * n + 2 * z <= 35
  {
    if 5 * n + 2 * z <= 35 {
      forall items: seq<Item> | CentItems(items) && SumBy(items, TaxedLine) == n && SumBy(items, ZeroRated) == z
        ensures InvoiceAccepts(items)
      {
        AcceptedExactly(items);
        DriftOfTaxedLines(items);
      }
    } else {
      MixFacts(n, z);
      AcceptedExactly(MixItems(n, z));
      assert z as real / 5.0 + 0.49 * n as real >= 3.5;
    }
  }
}
