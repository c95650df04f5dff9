/** What one money transaction undoes, frees or accepts, stated over any state that satisfies the
    invariant; `MoneyProtocol.EveryRunOk` shows that every reachable state does. */
module MoneyRoundTrips {
  import opened Outcomes
  import opened Rounding
  import opened Sums
  import opened InvoiceTotals
  import opened Ledger
  import opened LedgerInvariants
  import opened MoneyResults

  // ---- What one transaction undoes or frees ----------------------------------------------

  /** Cancelling frees exactly what had been paid on the invoice, offsets included, and nothing of
      anyone else's. */
  lemma CancellationFreesPaid(db: Db, i: nat, c: CustomerId)
    requires Inv(db) && i < |db.invoices| && !db.invoices[i].status.Cancelled?
    ensures Cancel(db, i).Ok?
    ensures FreeAdvance(Cancel(db, i).value, c) ==
      FreeAdvance(db, c) + (if db.invoices[i].customer == c then SumBy(db.payments, Attached(i)) else 0)
  {
    var plan := CancelRead(db, i).value;
    CancelReadOk(db, i);
    CarryOverKeepsMoney(db.payments, i, plan.seen, c);
    InvoiceReplaced(db.invoices, i, plan.row.(status := Cancelled, remaining := 0, workOrder := None), c);
  }

  lemma CancellingOpensNothing(db: Db, i: nat, c: CustomerId)
    requires Cancel(db, i).Ok? && !HasOpenInvoice(db, c)
    ensures !HasOpenInvoice(Cancel(db, i).value, c)
  {
    var db' := Cancel(db, i).value;
    forall k | 0 <= k < |db'.invoices| ensures !IsOpen(db'.invoices[k], c) {
      assert !IsOpen(db.invoices[k], c);
    }
  }

  /** The credit balance after cancelling a fully paid invoice covers the invoice. */
  lemma CancelledAmountIsFree(db: Db, i: nat, offset: int)
    requires Inv(db) && i < |db.invoices| && db.invoices[i].status == InvoiceStatus.Paid
    requires !HasOpenInvoice(db, db.invoices[i].customer) && offset >= db.invoices[i].grandTotal
    ensures Cancel(db, i).Ok?
    ensures var row, db' := db.invoices[i], Cancel(db, i).value;
      AdvanceFor(offset, AccountOf(db', row.customer).balance, row.grandTotal) == row.grandTotal
  {
    var row, db' := db.invoices[i], Cancel(db, i).value;
    CancelReadOk(db, i);
    CancelKeepsInv(db, CancelRead(db, i).value);
    CancellationFreesPaid(db, i, row.customer);
    BalanceIsOpenLessAdvance(db, row.customer);
    BalanceIsOpenLessAdvance(db', row.customer);
    CancellingOpensNothing(db, i, row.customer);
    SettledOwesNothing(db', row.customer);
    assert InvoiceOk(row);
  }

  /** The invoice row a successful request adds, when its offset covers the whole. */
  lemma OffsetPaysInvoice(db: Db, req: IssueRequest)
    requires Issue(db, req).Ok?
    requires var totals := IssueRead(db, req).value.totals;
      AdvanceFor(req.offset, AccountOf(db, req.customer).balance, totals.grandTotal) == totals.grandTotal
    ensures |Issue(db, req).value.invoices| == |db.invoices| + 1
    ensures var row := Issue(db, req).value.invoices[|db.invoices|];
      && row.status == InvoiceStatus.Paid && row.remaining == 0 && row.paid == row.grandTotal
      && row.grandTotal == IssueRead(db, req).value.totals.grandTotal
  {
  }

  /** A fully paid invoice that is cancelled and issued again for the same total is paid by its own
      advance on the spot, when the customer owes nothing else and the request asks for the offset:
      the new row is paid with nothing remaining, and the balance is what it was at first. */
  lemma ReissuePaidByAdvance(db: Db, i: nat, req: IssueRequest)
    requires Inv(db) && i < |db.invoices| && db.invoices[i].status == InvoiceStatus.Paid
    requires !HasOpenInvoice(db, db.invoices[i].customer)
    requires req.customer == db.invoices[i].customer && req.offset >= db.invoices[i].grandTotal
    requires Cancel(db, i).Ok? && Issue(Cancel(db, i).value, req).Ok?
    requires IssueRead(Cancel(db, i).value, req).value.totals.grandTotal == db.invoices[i].grandTotal
    ensures var reissued := Issue(Cancel(db, i).value, req).value;
      && |reissued.invoices| == |db.invoices| + 1
      && AccountOf(reissued, req.customer).balance == AccountOf(db, req.customer).balance
      && var row := reissued.invoices[|db.invoices|];
        && row.status == InvoiceStatus.Paid && row.remaining == 0
        && row.paid == row.grandTotal == db.invoices[i].grandTotal
  {
    var cancelled := Cancel(db, i).value;
    CancelledAmountIsFree(db, i, req.offset);
    ReversedAccount(db, i, req.customer);
    OffsetPaysInvoice(cancelled, req);
    IssuedAccount(cancelled, IssueRead(cancelled, req).value, Issue(cancelled, req).value, req.customer);
  }

  lemma IssuedAccount(db: Db, plan: IssuePlan, issued: Db, c: CustomerId)
    requires IssueWrite(db, plan) == Ok(issued)
    ensures var was, now, grand := AccountOf(db, c), AccountOf(issued, c), plan.totals.grandTotal;
      now == if c == plan.customer then was.(debits := was.debits + grand, balance := was.balance + grand) else was
    ensures |issued.invoices| == |db.invoices| + 1
    ensures var row := issued.invoices[|db.invoices|];
      row.customer == plan.customer && row.grandTotal == plan.totals.grandTotal && !row.status.Cancelled?
  {
  }

  lemma ReversedAccount(db: Db, i: nat, c: CustomerId)
    requires Inv(db) && i < |db.invoices| && !db.invoices[i].status.Cancelled?
    ensures Cancel(db, i).Ok?
    ensures var row, was, now := db.invoices[i], AccountOf(db, c), AccountOf(Cancel(db, i).value, c);
      now == if c == row.customer
        then was.(debits := was.debits - row.grandTotal, balance := was.balance - row.grandTotal)
        else was
  {
    CancelReadOk(db, i);
    ClampNeverBites(db, i);
    CancelledAccount(db, CancelRead(db, i).value, c);
    assert AccountOk(db, c);
  }

  lemma IssueThenCancelAccounts(db: Db, req: IssueRequest, c: CustomerId)
    requires Inv(db) && Issue(db, req).Ok?
    ensures Cancel(Issue(db, req).value, |db.invoices|).Ok?
    ensures AccountOf(Cancel(Issue(db, req).value, |db.invoices|).value, c) == AccountOf(db, c)
  {
    var plan := IssueRead(db, req).value;
    IssueReadOk(db, req);
    IssueKeepsInv(db, plan);
    IssuedAccount(db, plan, Issue(db, req).value, c);
    ReversedAccount(Issue(db, req).value, |db.invoices|, c);
  }

  lemma IssueThenCancelReread(db: Db, req: IssueRequest)
    requires Inv(db) && Issue(db, req).Ok? && Cancel(Issue(db, req).value, |db.invoices|).Ok?
    requires AccountOf(Cancel(Issue(db, req).value, |db.invoices|).value, req.customer) == AccountOf(db, req.customer)
    ensures IssueRead(Cancel(Issue(db, req).value, |db.invoices|).value, req) == IssueRead(db, req)
  {
    var db' := Cancel(Issue(db, req).value, |db.invoices|).value;
    assert db'.invoices[..|db.invoices|] == db.invoices;
    if req.workOrder.Some? {
      forall k | 0 <= k < |db'.invoices|
        ensures db'.invoices[k].workOrder != req.workOrder || db'.invoices[k].status.Cancelled?
      {
        assert k < |db.invoices| ==> db'.invoices[k] == db.invoices[k];
      }
      assert !HasLiveInvoice(db', req.workOrder.value);
    }
  }

  lemma HandNumberStaysUsed(db: Db, db': Db, plan: IssuePlan)
    requires !WantsNumber(plan.number)
    requires |db'.invoices| > |db.invoices| && db'.invoices[|db.invoices|].number == plan.number
    ensures IssueWrite(db', plan) == Err(DuplicateNumber)
  {
    assert NumberTaken(db', plan.number);
  }

  lemma IssuedNumber(db: Db, req: IssueRequest)
    requires Issue(db, req).Ok? && Cancel(Issue(db, req).value, |db.invoices|).Ok?
    ensures IssueRead(db, req).Ok? && IssueRead(db, req).value.number == req.number
    ensures var db' := Cancel(Issue(db, req).value, |db.invoices|).value;
      |db'.invoices| > |db.invoices|
      && db'.invoices[|db.invoices|].number == NumberFor(db, IssueRead(db, req).value)
  {
  }

  /** Cancelling an invoice just issued takes back all of it: every account is as before, down to
      the advance that was offset, and the same request would be planned in the same way again.
      Only the number stays used: a number chosen by hand is refused the second time. */
  lemma CancelUndoesIssue(db: Db, req: IssueRequest, c: CustomerId)
    requires Inv(db) && Issue(db, req).Ok?
    ensures Cancel(Issue(db, req).value, |db.invoices|).Ok?
    ensures var db' := Cancel(Issue(db, req).value, |db.invoices|).value;
      && AccountOf(db', c) == AccountOf(db, c)
      && IssueRead(db', req) == IssueRead(db, req)
      && (!WantsNumber(req.number) ==> Issue(db', req) == Err(DuplicateNumber))
  {
    IssueThenCancelAccounts(db, req, c);
    IssueThenCancelAccounts(db, req, req.customer);
    IssueThenCancelReread(db, req);
    IssuedNumber(db, req);
    if !WantsNumber(req.number) {
      HandNumberStaysUsed(db, Cancel(Issue(db, req).value, |db.invoices|).value, IssueRead(db, req).value);
    }
  }

  /** Issuing completes the work order and closes it to every further invoice. */
  lemma IssueClosesWorkOrder(db: Db, req: IssueRequest, again: IssueRequest)
    requires Issue(db, req).Ok? && req.workOrder.Some? && again.workOrder == req.workOrder
    ensures var w, issued := req.workOrder.value, Issue(db, req).value;
      && w in issued.workOrders && issued.workOrders[w] == db.workOrders[w].(status := WorkOrderStatus.Completed)
      && Issue(issued, again).Err?
  {
    var w, issued := req.workOrder.value, Issue(db, req).value;
    assert issued.invoices[|db.invoices|].workOrder == Some(w);
    assert HasLiveInvoice(issued, w);
  }

  /** Cancelling an invoice opens its work order for another one, with its lines untouched. */
  lemma CancelReopensWorkOrder(db: Db, i: nat)
    requires InvoicesOk(db) && WorkOrdersOk(db) && Cancel(db, i).Ok? && db.invoices[i].workOrder.Some?
    ensures var w, reopened := db.invoices[i].workOrder.value, Cancel(db, i).value;
      && w in reopened.workOrders && reopened.workOrders[w] == db.workOrders[w].(status := InProgress)
      && !HasLiveInvoice(reopened, w)
  {
    var w, reopened := db.invoices[i].workOrder.value, Cancel(db, i).value;
    forall k | 0 <= k < |reopened.invoices| ensures reopened.invoices[k].workOrder != Some(w) {
      assert k != i ==> reopened.invoices[k] == db.invoices[k];
    }
  }

  // ---- A request without lines ----------------------------------------------------------------

  /** Whether a claim without any lines passes the check against its own stand-in line. */
  predicate StandInAccepted(req: IssueRequest) {
    var totals := TotalsOf(EffectiveItems(req, []));
    totals.Some? && WithinTolerance(req.claim, totals.value)
  }

  /** The check of a claim against a stand-in line of this price. */
  lemma StandInCheck(req: IssueRequest, price: real, subtotal: real, tax: real, grand: real)
    requires req.items == [] && req.claim == Claim(Finite(subtotal), Finite(tax), Finite(grand))
    requires price >= 0.0 && FallbackPrice(req.claim) == price
    ensures var cents := Round(price * 100.0);
      var vat := Round(cents as real / 5.0);
      StandInAccepted(req) <==>
        && Abs(Round(subtotal * 100.0) - cents) <= 3
        && Abs(Round(tax * 100.0) - vat) <= 3
        && Abs(Round(grand * 100.0) - (cents + vat)) <= 3
  {
    StandInTotals(price);
  }

  /** A claim of three amounts with a positive subtotal is accepted exactly when its tax and grand
      total are within three cents of 20 percent on that subtotal. */
  lemma StandInFromSubtotal(req: IssueRequest, subtotal: real, tax: real, grand: real)
    requires req.items == [] && req.claim == Claim(Finite(subtotal), Finite(tax), Finite(grand))
    requires subtotal > 0.0
    ensures var price := Round(subtotal * 100.0);
      var vat := Round(price as real / 5.0);
      StandInAccepted(req) <==>
        Abs(Round(tax * 100.0) - vat) <= 3 && Abs(Round(grand * 100.0) - (price + vat)) <= 3
  {
    StandInCheck(req, subtotal, subtotal, tax, grand);
  }

  /** With a subtotal of 0 the stand-in line is priced from the grand total, but the subtotal of 0 is
      then compared with it: such a claim is accepted exactly when the grand total is below 4.2 cents
      and the tax is within three cents of the line's, which is one cent from 3 cents on and else 0. */
  lemma StandInFromGrandTotal(req: IssueRequest, tax: real, grand: real)
    requires req.items == [] && req.claim == Claim(Finite(0.0), Finite(tax), Finite(grand))
    requires grand >= 0.0
    ensures StandInAccepted(req) <==>
      grand < 0.042 && Abs(Round(tax * 100.0) - (if grand >= 0.03 then 1 else 0)) <= 3
  {
    var price := Round(grand / 1.2 * 100.0);
    assert grand / 1.2 * 100.0 == grand * 100.0 / 1.2;
    assert FallbackPrice(req.claim) == price as real / 100.0;
    assert price as real / 100.0 * 100.0 == price as real;
    RoundInteger(price);
    StandInCheck(req, price as real / 100.0, 0.0, tax, grand);
    StandInCents(grand * 100.0, price);
  }

  /** The price, its tax and the total it comes to, for a grand total of x cents. */
  lemma StandInCents(x: real, price: int)
    requires x >= 0.0 && price == Round(x / 1.2)
    ensures price <= 3 <==> x < 4.2
    ensures price <= 3 ==> Round(price as real / 5.0) == if x >= 3.0 then 1 else 0
    ensures Abs(Round(x) - (price + Round(price as real / 5.0))) <= 3
  {
    RoundWithinHalf(x / 1.2);
    RoundWithinHalf(price as real / 5.0);
    RoundWithinHalf(x);
    assert price >= 3 <==> x >= 3.0;
  }

  /** A claim of a grand total alone, in whole cents, is always accepted, and the stand-in line comes
      out within one cent of it. */
  lemma StandInFromTotalAlone(req: IssueRequest, cents: nat)
    requires req.items == [] && req.claim == Claim(NotFinite, NotFinite, Finite(cents as real / 100.0))
    ensures StandInAccepted(req)
    ensures -1 <= TotalsOf(EffectiveItems(req, [])).value.grandTotal - cents <= 1
  {
    var price := Round(cents as real / 1.2);
    assert cents as real / 100.0 / 1.2 * 100.0 == cents as real / 1.2;
    assert FallbackPrice(req.claim) == price as real / 100.0;
    assert price as real / 100.0 * 100.0 == price as real;
    RoundInteger(price);
    RoundInteger(cents);
    StandInTotals(price as real / 100.0);
    RoundWithinHalf(cents as real / 1.2);
    RoundWithinHalf(price as real / 5.0);
  }

  lemma StandInTotals(price: real)
    requires price >= 0.0
    ensures var cents := Round(price * 100.0);
      var vat := Round(cents as real / 5.0);
      TotalsOf([Line(Finite(1.0), Finite(price), Some(Finite(20.0)))]) == Some(Totals(cents, vat, cents + vat))
  {
    var line := Line(Finite(1.0), Finite(price), Some(Finite(20.0)));
    var cents := Round(price * 100.0);
    assert ValidLine(line) && LineCents(line) == cents;
    assert cents as real * 20.0 / 100.0 == cents as real / 5.0;
    assert [line][..0] == [];
    assert SumBy([line], LineCents) == cents;
    assert SumBy([line], LineTax) == LineTax(line);
  }
}
