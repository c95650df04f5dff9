/** What the redundant money records must agree on, and that every write keeps it.

    The four records (invoice columns, payments, account totals, movement log) are compared
    with sums over the rows they are redundant with, so no record is its own definition. */
module LedgerInvariants {
  import opened Outcomes
  import opened Sums
  import opened InvoiceTotals
  import opened InvoiceNumbers
  import opened Ledger

  // ---- Columns ---------------------------------------------------------------

  function LiveGrand(c: CustomerId): Invoice -> int {
    (inv: Invoice) => if inv.customer == c && !inv.status.Cancelled? then inv.grandTotal else 0
  }

  function VoidGrand(c: CustomerId): Invoice -> int {
    (inv: Invoice) => if inv.customer == c && inv.status.Cancelled? then inv.grandTotal else 0
  }

  function LivePaid(c: CustomerId): Invoice -> int {
    (inv: Invoice) => if inv.customer == c && !inv.status.Cancelled? then inv.paid else 0
  }

  function LiveRemaining(c: CustomerId): Invoice -> int {
    (inv: Invoice) => if inv.customer == c && !inv.status.Cancelled? then inv.remaining else 0
  }

  /** Money that entered the till: every payment except an advance moved onto an invoice. */
  function NewMoney(c: CustomerId): Payment -> int {
    (p: Payment) => if p.customer == c && !p.paymentMethod.AdvanceOffset? then p.amount else 0
  }

  function Attached(i: nat): Payment -> int {
    (p: Payment) => if p.invoice == Some(i) then p.amount else 0
  }

  function DebitOf(c: CustomerId): Movement -> int {
    (m: Movement) => if m.customer == c then m.debit else 0
  }

  function CreditOf(c: CustomerId): Movement -> int {
    (m: Movement) => if m.customer == c then m.credit else 0
  }

  function NetOf(c: CustomerId): Movement -> int {
    (m: Movement) => if m.customer == c then m.debit - m.credit else 0
  }

  /** Money paid in and not sitting on a live invoice. */
  function FreeAdvance(db: Db, c: CustomerId): int {
    SumBy(db.payments, NewMoney(c)) - SumBy(db.invoices, LivePaid(c))
  }

  /** The sequence numbers of one year, in commit order. */
  function SerialsOf(invoices: seq<Invoice>, year: nat): seq<nat> {
    if invoices == [] then []
    else
      var last := invoices[|invoices| - 1].serial;
      SerialsOf(invoices[..|invoices| - 1], year) +
      (if last.Some? && last.value.year == year then [last.value.n] else [])
  }

  function OneTo(k: nat): seq<nat> {
    seq(k, i => i + 1)
  }

  // ---- The invariant -----------------------------------------------------------

  predicate InvoiceOk(inv: Invoice) {
    && inv.subtotal >= 0 && inv.tax >= 0 && inv.grandTotal == inv.subtotal + inv.tax
    && inv.paid >= 0
    && (inv.status.Cancelled? ==> inv.remaining == 0 && inv.workOrder.None?)
    && (!inv.status.Cancelled? ==>
      inv.remaining >= 0 && inv.paid + inv.remaining == inv.grandTotal
      && inv.status == StatusFor(inv.paid, inv.remaining))
  }

  ghost predicate InvoicesOk(db: Db) {
    forall i :: 0 <= i < |db.invoices| ==>
      InvoiceOk(db.invoices[i]) && db.invoices[i].customer in db.accounts
  }

  predicate PaymentOk(db: Db, p: Payment) {
    && p.amount > 0
    && (p.invoice.Some? ==> p.invoice.value < |db.invoices| && db.invoices[p.invoice.value].customer == p.customer)
    && (p.paymentMethod.AdvanceOffset? ==> p.invoice.Some?)
    && (p.carriedOver <==> p.invoice.Some? && db.invoices[p.invoice.value].status.Cancelled?)
    && (p.attempt.Some? ==>
      && p.attempt.value < |db.attempts|
      && p.invoice == Some(db.attempts[p.attempt.value].invoice)
      && p.amount == db.attempts[p.attempt.value].amount)
  }

  ghost predicate PaymentsOk(db: Db) {
    forall k :: 0 <= k < |db.payments| ==> PaymentOk(db, db.payments[k])
  }

  /** The paid column is the sum of the payments attached to the invoice. */
  ghost predicate PaidIsAttached(db: Db) {
    forall i :: 0 <= i < |db.invoices| ==> db.invoices[i].paid == SumBy(db.payments, Attached(i))
  }

  /** Account totals against the invoices and the payments. */
  ghost predicate AccountOk(db: Db, c: CustomerId) {
    var account := AccountOf(db, c);
    && account.debits == SumBy(db.invoices, LiveGrand(c))
    && account.credits == SumBy(db.payments, NewMoney(c))
    && account.balance == account.debits - account.credits
    && FreeAdvance(db, c) >= 0
  }

  /** The movement log against the same rows: gross amounts, cancelled invoices on both sides. */
  ghost predicate LogOk(db: Db, c: CustomerId) {
    && SumBy(db.movements, DebitOf(c)) == SumBy(db.invoices, LiveGrand(c)) + SumBy(db.invoices, VoidGrand(c))
    && SumBy(db.movements, CreditOf(c)) == SumBy(db.payments, NewMoney(c)) + SumBy(db.invoices, VoidGrand(c))
  }

  ghost predicate AccountsOk(db: Db) {
    forall c: CustomerId :: AccountOk(db, c) && LogOk(db, c)
  }

  /** Every balance written in the log is the running sum of the customer's movements. */
  ghost predicate LogReplays(db: Db) {
    forall k :: 0 <= k < |db.movements| ==>
      db.movements[k].balanceAfter == SumBy(db.movements[..k + 1], NetOf(db.movements[k].customer))
  }

  ghost predicate HasPayment(db: Db, a: nat) {
    exists k :: 0 <= k < |db.payments| && db.payments[k].attempt == Some(a)
  }

  ghost predicate AttemptsOk(db: Db) {
    && (forall a :: 0 <= a < |db.attempts| ==>
      && db.attempts[a].invoice < |db.invoices|
      && db.attempts[a].amount > 0
      && (db.attempts[a].paid <==> HasPayment(db, a)))
    && (forall j, k :: 0 <= j < k < |db.payments| && db.payments[j].attempt.Some? ==>
      db.payments[j].attempt != db.payments[k].attempt)
  }

  ghost predicate WorkOrdersOk(db: Db) {
    && (forall i :: 0 <= i < |db.invoices| && db.invoices[i].workOrder.Some? ==>
      && db.invoices[i].workOrder.value in db.workOrders
      && db.workOrders[db.invoices[i].workOrder.value].customer == db.invoices[i].customer)
    && (forall i, j :: 0 <= i < j < |db.invoices| && db.invoices[i].workOrder.Some? ==>
      db.invoices[i].workOrder != db.invoices[j].workOrder)
  }

  ghost predicate NumbersOk(db: Db) {
    && (forall i, j :: 0 <= i < j < |db.invoices| ==> db.invoices[i].number != db.invoices[j].number)
    && (forall i :: 0 <= i < |db.invoices| && db.invoices[i].serial.Some? ==>
      db.invoices[i].number == InvoiceNumber(db.invoices[i].serial.value.year, db.invoices[i].serial.value.n))
    && (forall year: nat :: SerialsOf(db.invoices, year) == OneTo(LastNumber(db, year)))
  }

  ghost predicate Inv(db: Db) {
    && InvoicesOk(db) && PaymentsOk(db) && PaidIsAttached(db) && AccountsOk(db)
    && LogReplays(db) && AttemptsOk(db) && WorkOrdersOk(db) && NumbersOk(db)
  }

  lemma EmptyOk()
    ensures Inv(EMPTY)
  {
  }

  // ---- What a plan still has to be when it commits ---------------------------------

  ghost predicate IssuePlanOk(db: Db, plan: IssuePlan) {
    && plan.totals.subtotal >= 0 && plan.totals.tax >= 0
    && plan.totals.grandTotal == plan.totals.subtotal + plan.totals.tax
    && 0 <= plan.advance <= plan.totals.grandTotal
    && (plan.advance > 0 ==> plan.advance <= -AccountOf(db, plan.customer).balance)
    && (plan.workOrder.Some? ==>
      && plan.workOrder.value in db.workOrders
      && db.workOrders[plan.workOrder.value].customer == plan.customer
      && !HasLiveInvoice(db, plan.workOrder.value))
  }

  ghost predicate PayPlanOk(db: Db, plan: PayPlan) {
    if plan.Existing? then plan.payment < |db.payments|
    else
      var req := plan.req;
      && req.amount > 0
      && !req.paymentMethod.AdvanceOffset?
      && (req.invoice.Some? <==> plan.row.Some?)
      && (req.invoice.Some? ==>
        && req.invoice.value < |db.invoices|
        && db.invoices[req.invoice.value] == plan.row.value
        && plan.row.value.customer == plan.customer
        && !plan.row.value.status.Cancelled?
        && req.amount <= plan.row.value.remaining)
      && (req.attempt.Some? ==>
        && req.attempt.value < |db.attempts|
        && req.invoice == Some(db.attempts[req.attempt.value].invoice)
        && req.amount == db.attempts[req.attempt.value].amount
        && !HasPayment(db, req.attempt.value))
  }

  ghost predicate CancelPlanOk(db: Db, plan: CancelPlan) {
    && plan.invoice < |db.invoices|
    && db.invoices[plan.invoice] == plan.row
    && !plan.row.status.Cancelled?
    && plan.account.Some?
    && plan.row.customer in db.accounts
    && plan.account.value.debits == AccountOf(db, plan.row.customer).debits
    && plan.account.value.credits == AccountOf(db, plan.row.customer).credits
    && plan.seen <= |db.payments|
    && (forall k :: plan.seen <= k < |db.payments| ==> db.payments[k].invoice != Some(plan.invoice))
  }

  lemma IssueReadOk(db: Db, req: IssueRequest)
    requires Inv(db) && IssueRead(db, req).Ok?
    ensures IssuePlanOk(db, IssueRead(db, req).value)
  {
    var ordered := CheckWorkOrder(db, req).value;
    TotalsNonNegative(EffectiveItems(req, ordered));
  }

  /** What the pre-lock checks of a payment leave established, whatever happened since. */
  ghost predicate PayRequestOk(db: Db, req: PayRequest, c: CustomerId) {
    && req.amount > 0
    && !req.paymentMethod.AdvanceOffset?
    && (req.invoice.Some? ==> req.invoice.value < |db.invoices| && db.invoices[req.invoice.value].customer == c)
    && (req.attempt.Some? ==>
      && req.attempt.value < |db.attempts|
      && req.invoice == Some(db.attempts[req.attempt.value].invoice)
      && req.amount == db.attempts[req.attempt.value].amount)
  }

  lemma PayReadOk(db: Db, req: PayRequest, c: CustomerId)
    requires Inv(db) && PayRequestOk(db, req, c) && PayRead(db, req, c).Ok?
    ensures PayPlanOk(db, PayRead(db, req, c).value)
  {
  }

  lemma CancelReadOk(db: Db, i: nat)
    requires Inv(db) && CancelRead(db, i).Ok?
    ensures CancelPlanOk(db, CancelRead(db, i).value)
  {
  }

  // ---- Consequences of the invariant -------------------------------------------------

  lemma LivePaidPlusRemaining(db: Db, c: CustomerId)
    requires InvoicesOk(db)
    ensures SumBy(db.invoices, LiveGrand(c)) == SumBy(db.invoices, LivePaid(c)) + SumBy(db.invoices, LiveRemaining(c))
  {
    SumSplit(db.invoices, LiveGrand(c), LivePaid(c), LiveRemaining(c));
  }

  /** No advance is spent twice, and the balance is open invoices less free advance. */
  lemma BalanceIsOpenLessAdvance(db: Db, c: CustomerId)
    requires Inv(db)
    ensures FreeAdvance(db, c) >= 0
    ensures AccountOf(db, c).balance == SumBy(db.invoices, LiveRemaining(c)) - FreeAdvance(db, c)
    ensures AccountOf(db, c).balance < 0 ==> -AccountOf(db, c).balance <= FreeAdvance(db, c)
  {
    assert AccountOk(db, c);
    LivePaidPlusRemaining(db, c);
    forall i | 0 <= i < |db.invoices| ensures LiveRemaining(c)(db.invoices[i]) >= 0 {
      assert InvoiceOk(db.invoices[i]);
    }
    SumNonNegative(db.invoices, LiveRemaining(c));
  }

  /** The clamp at zero in a cancellation never takes effect. */
  lemma ClampNeverBites(db: Db, i: nat)
    requires Inv(db) && i < |db.invoices| && !db.invoices[i].status.Cancelled?
    ensures AccountOf(db, db.invoices[i].customer).debits >= db.invoices[i].grandTotal
  {
    var c := db.invoices[i].customer;
    assert AccountOk(db, c);
    forall k | 0 <= k < |db.invoices| ensures LiveGrand(c)(db.invoices[k]) >= 0 {
      assert InvoiceOk(db.invoices[k]);
    }
    RowAtMostSum(db.invoices, i, LiveGrand(c));
  }

  /** The log of a customer replays to the account balance. */
  lemma LogNetIsBalance(db: Db, c: CustomerId)
    requires Inv(db)
    ensures SumBy(db.movements, NetOf(c)) == AccountOf(db, c).balance
  {
    assert AccountOk(db, c) && LogOk(db, c);
    SumSplit(db.movements, DebitOf(c), NetOf(c), CreditOf(c));
  }

  // ---- Pieces shared by the three writes ------------------------------------------------

  lemma InvoiceAdded(invoices: seq<Invoice>, inv: Invoice, c: CustomerId)
    requires !inv.status.Cancelled?
    ensures var own := inv.customer == c;
      && SumBy(invoices + [inv], LiveGrand(c)) == SumBy(invoices, LiveGrand(c)) + (if own then inv.grandTotal else 0)
      && SumBy(invoices + [inv], VoidGrand(c)) == SumBy(invoices, VoidGrand(c))
      && SumBy(invoices + [inv], LivePaid(c)) == SumBy(invoices, LivePaid(c)) + (if own then inv.paid else 0)
  {
    SumAppend(invoices, inv, LiveGrand(c));
    SumAppend(invoices, inv, VoidGrand(c));
    SumAppend(invoices, inv, LivePaid(c));
  }

  lemma InvoiceReplaced(invoices: seq<Invoice>, i: nat, row: Invoice, c: CustomerId)
    requires i < |invoices| && !invoices[i].status.Cancelled?
    requires row.customer == invoices[i].customer && row.grandTotal == invoices[i].grandTotal
    ensures var own, kept := row.customer == c, !row.status.Cancelled?;
      && SumBy(invoices[i := row], LiveGrand(c)) ==
        SumBy(invoices, LiveGrand(c)) - (if own && !kept then row.grandTotal else 0)
      && SumBy(invoices[i := row], VoidGrand(c)) ==
        SumBy(invoices, VoidGrand(c)) + (if own && !kept then row.grandTotal else 0)
      && SumBy(invoices[i := row], LivePaid(c)) ==
        SumBy(invoices, LivePaid(c)) + (if own then (if kept then row.paid else 0) - invoices[i].paid else 0)
  {
    SumUpdate(invoices, i, row, LiveGrand(c));
    SumUpdate(invoices, i, row, VoidGrand(c));
    SumUpdate(invoices, i, row, LivePaid(c));
  }

  lemma MoneyAdded(payments: seq<Payment>, p: Payment, c: CustomerId)
    ensures SumBy(payments + [p], NewMoney(c)) == SumBy(payments, NewMoney(c))
      + (if p.customer == c && !p.paymentMethod.AdvanceOffset? then p.amount else 0)
  {
    SumAppend(payments, p, NewMoney(c));
  }

  lemma MovementAdded(movements: seq<Movement>, m: Movement, c: CustomerId)
    ensures SumBy(movements + [m], DebitOf(c)) ==
      SumBy(movements, DebitOf(c)) + (if m.customer == c then m.debit else 0)
    ensures SumBy(movements + [m], CreditOf(c)) ==
      SumBy(movements, CreditOf(c)) + (if m.customer == c then m.credit else 0)
  {
    SumAppend(movements, m, DebitOf(c));
    SumAppend(movements, m, CreditOf(c));
  }

  lemma NothingAttachedBeyond(db: Db, i: nat)
    requires PaymentsOk(db) && i >= |db.invoices|
    ensures SumBy(db.payments, Attached(i)) == 0
  {
    NothingAttachedPrefix(db, i, |db.payments|);
    assert db.payments[..|db.payments|] == db.payments;
  }

  lemma {:induction false} NothingAttachedPrefix(db: Db, i: nat, n: nat)
    requires PaymentsOk(db) && i >= |db.invoices| && n <= |db.payments|
    ensures SumBy(db.payments[..n], Attached(i)) == 0
  {
    if n > 0 {
      NothingAttachedPrefix(db, i, n - 1);
      assert db.payments[..n][..n - 1] == db.payments[..n - 1];
      assert PaymentOk(db, db.payments[n - 1]);
    }
  }

  /** Appending a movement whose balance is the old net plus its own keeps the log replaying. */
  lemma LogGrows(db: Db, m: Movement, db': Db)
    requires LogReplays(db) && db'.movements == db.movements + [m]
    requires m.balanceAfter == SumBy(db.movements, NetOf(m.customer)) + m.debit - m.credit
    ensures LogReplays(db')
  {
    forall k | 0 <= k < |db'.movements|
      ensures db'.movements[k].balanceAfter == SumBy(db'.movements[..k + 1], NetOf(db'.movements[k].customer))
    {
      if k < |db.movements| {
        assert db'.movements[..k + 1] == db.movements[..k + 1];
      } else {
        assert db'.movements[..k + 1] == db.movements + [m];
        SumAppend(db.movements, m, NetOf(m.customer));
      }
    }
  }

  lemma {:induction false} SerialsUpdate(invoices: seq<Invoice>, i: nat, row: Invoice, year: nat)
    requires i < |invoices| && row.serial == invoices[i].serial
    ensures SerialsOf(invoices[i := row], year) == SerialsOf(invoices, year)
  {
    var last := |invoices| - 1;
    if i < last {
      assert invoices[i := row][..last] == invoices[..last][i := row];
      SerialsUpdate(invoices[..last], i, row, year);
    } else {
      assert invoices[i := row][..last] == invoices[..last];
    }
  }

  // ---- Issuing keeps the invariant ------------------------------------------------------

  lemma IssueKeepsMoney(db: Db, plan: IssuePlan, db': Db, c: CustomerId)
    requires IssueWrite(db, plan) == Ok(db')
    ensures SumBy(db'.payments, NewMoney(c)) == SumBy(db.payments, NewMoney(c))
  {
    if plan.advance > 0 {
      MoneyAdded(db.payments,
        Payment(plan.customer, Some(|db.invoices|), plan.advance, AdvanceOffset, None, false), c);
    }
  }

  lemma IssueKeepsAccount(db: Db, plan: IssuePlan, db': Db, c: CustomerId)
    requires AccountOk(db, c)
    requires 0 <= plan.advance <= plan.totals.grandTotal
    requires plan.advance > 0 ==> plan.advance <= FreeAdvance(db, plan.customer)
    requires IssueWrite(db, plan) == Ok(db')
    ensures AccountOk(db', c)
  {
    InvoiceAdded(db.invoices, NewInvoice(db, plan), c);
    IssueKeepsMoney(db, plan, db', c);
  }

  lemma IssueKeepsGross(db: Db, plan: IssuePlan, db': Db, c: CustomerId)
    requires LogOk(db, c) && IssueWrite(db, plan) == Ok(db')
    ensures LogOk(db', c)
  {
    InvoiceAdded(db.invoices, NewInvoice(db, plan), c);
    IssueKeepsMoney(db, plan, db', c);
    var m := Movement(plan.customer, plan.totals.grandTotal, 0, AccountOf(db', plan.customer).balance);
    assert db'.movements == db.movements + [m];
    MovementAdded(db.movements, m, c);
  }

  lemma IssueKeepsRows(db: Db, plan: IssuePlan, db': Db)
    requires InvoicesOk(db) && PaymentsOk(db) && IssuePlanOk(db, plan) && IssueWrite(db, plan) == Ok(db')
    ensures InvoicesOk(db') && PaymentsOk(db')
  {
    forall k | 0 <= k < |db'.payments| ensures PaymentOk(db', db'.payments[k]) {
      if k < |db.payments| {
        assert PaymentOk(db, db.payments[k]);
      }
    }
  }

  lemma IssueKeepsPaid(db: Db, plan: IssuePlan, db': Db)
    requires PaymentsOk(db) && PaidIsAttached(db) && IssuePlanOk(db, plan) && IssueWrite(db, plan) == Ok(db')
    ensures PaidIsAttached(db')
  {
    forall i | 0 <= i < |db'.invoices| ensures db'.invoices[i].paid == SumBy(db'.payments, Attached(i)) {
      if plan.advance > 0 {
        SumAppend(db.payments, db'.payments[|db.payments|], Attached(i));
      }
      if i == |db.invoices| {
        NothingAttachedBeyond(db, i);
      }
    }
  }

  lemma IssueKeepsLog(db: Db, plan: IssuePlan, db': Db)
    requires LogReplays(db) && IssueWrite(db, plan) == Ok(db')
    requires SumBy(db.movements, NetOf(plan.customer)) == AccountOf(db, plan.customer).balance
    ensures LogReplays(db')
  {
    var m := Movement(plan.customer, plan.totals.grandTotal, 0, AccountOf(db', plan.customer).balance);
    LogGrows(db, m, db');
  }

  lemma IssueKeepsAttempts(db: Db, plan: IssuePlan, db': Db)
    requires AttemptsOk(db) && IssueWrite(db, plan) == Ok(db')
    ensures AttemptsOk(db')
  {
    forall a | 0 <= a < |db'.attempts| ensures HasPayment(db', a) <==> HasPayment(db, a) {
      if HasPayment(db, a) {
        var k :| 0 <= k < |db.payments| && db.payments[k].attempt == Some(a);
        assert db'.payments[k].attempt == Some(a);
      }
    }
  }

  lemma IssueKeepsWorkOrders(db: Db, plan: IssuePlan, db': Db)
    requires InvoicesOk(db) && WorkOrdersOk(db) && IssuePlanOk(db, plan) && IssueWrite(db, plan) == Ok(db')
    ensures WorkOrdersOk(db')
  {
    assert db'.invoices == db.invoices + [NewInvoice(db, plan)];
    forall i | 0 <= i < |db.invoices| && plan.workOrder.Some? ensures db.invoices[i].workOrder != plan.workOrder {
      assert InvoiceOk(db.invoices[i]);
    }
  }

  lemma IssueKeepsNumbers(db: Db, plan: IssuePlan, db': Db)
    requires NumbersOk(db) && IssueWrite(db, plan) == Ok(db')
    ensures NumbersOk(db')
  {
    var inv := NewInvoice(db, plan);
    assert db'.invoices == db.invoices + [inv];
    assert !NumberTaken(db, inv.number);
    forall year: nat ensures SerialsOf(db'.invoices, year) == OneTo(LastNumber(db', year)) {
      assert db'.invoices[..|db.invoices|] == db.invoices;
      assert SerialsOf(db.invoices, year) == OneTo(LastNumber(db, year));
      assert OneTo(LastNumber(db, year) + 1) == OneTo(LastNumber(db, year)) + [LastNumber(db, year) + 1];
    }
  }

  lemma IssueKeepsInv(db: Db, plan: IssuePlan)
    requires Inv(db) && IssuePlanOk(db, plan) && IssueWrite(db, plan).Ok?
    ensures Inv(IssueWrite(db, plan).value)
  {
    var db' := IssueWrite(db, plan).value;
    BalanceIsOpenLessAdvance(db, plan.customer);
    forall c: CustomerId ensures AccountOk(db', c) && LogOk(db', c) {
      IssueKeepsAccount(db, plan, db', c);
      IssueKeepsGross(db, plan, db', c);
    }
    IssueKeepsRows(db, plan, db');
    IssueKeepsPaid(db, plan, db');
    LogNetIsBalance(db, plan.customer);
    IssueKeepsLog(db, plan, db');
    IssueKeepsAttempts(db, plan, db');
    IssueKeepsWorkOrders(db, plan, db');
    IssueKeepsNumbers(db, plan, db');
  }

  // ---- Paying keeps the invariant ---------------------------------------------------------

  lemma PayKeepsInvoiceSums(db: Db, plan: PayPlan, c: CustomerId)
    requires PayPlanOk(db, plan) && plan.Fresh?
    ensures var invoices := PayWrite(db, plan).invoices;
      && SumBy(invoices, LiveGrand(c)) == SumBy(db.invoices, LiveGrand(c))
      && SumBy(invoices, VoidGrand(c)) == SumBy(db.invoices, VoidGrand(c))
      && SumBy(invoices, LivePaid(c)) == SumBy(db.invoices, LivePaid(c))
        + (if plan.row.Some? && plan.customer == c then plan.req.amount else 0)
  {
    if plan.row.Some? {
      var i := plan.req.invoice.value;
      InvoiceReplaced(db.invoices, i, Settle(db.invoices[i], plan.row.value, plan.req.amount), c);
    }
  }

  lemma PayKeepsAccount(db: Db, plan: PayPlan, c: CustomerId)
    requires AccountOk(db, c) && PayPlanOk(db, plan) && plan.Fresh?
    ensures AccountOk(PayWrite(db, plan), c)
  {
    var req := plan.req;
    PayKeepsInvoiceSums(db, plan, c);
    MoneyAdded(db.payments,
      Payment(plan.customer, req.invoice, req.amount, req.paymentMethod, req.attempt, false), c);
  }

  lemma PayKeepsGross(db: Db, plan: PayPlan, c: CustomerId)
    requires LogOk(db, c) && PayPlanOk(db, plan) && plan.Fresh?
    ensures LogOk(PayWrite(db, plan), c)
  {
    var db', req := PayWrite(db, plan), plan.req;
    PayKeepsInvoiceSums(db, plan, c);
    MoneyAdded(db.payments,
      Payment(plan.customer, req.invoice, req.amount, req.paymentMethod, req.attempt, false), c);
    var m := Movement(plan.customer, 0, req.amount, AccountOf(db', plan.customer).balance);
    assert db'.movements == db.movements + [m];
    MovementAdded(db.movements, m, c);
  }

  lemma PayKeepsRows(db: Db, plan: PayPlan)
    requires InvoicesOk(db) && PaymentsOk(db) && PayPlanOk(db, plan) && plan.Fresh?
    ensures InvoicesOk(PayWrite(db, plan)) && PaymentsOk(PayWrite(db, plan))
  {
    var db' := PayWrite(db, plan);
    forall i | 0 <= i < |db'.invoices| ensures InvoiceOk(db'.invoices[i]) && db'.invoices[i].customer in db'.accounts {
      assert InvoiceOk(db.invoices[i]);
    }
    forall k | 0 <= k < |db'.payments| ensures PaymentOk(db', db'.payments[k]) {
      if k < |db.payments| {
        assert PaymentOk(db, db.payments[k]);
      }
    }
  }

  lemma PayKeepsPaid(db: Db, plan: PayPlan)
    requires PaidIsAttached(db) && PayPlanOk(db, plan) && plan.Fresh?
    ensures PaidIsAttached(PayWrite(db, plan))
  {
    var db' := PayWrite(db, plan);
    forall i | 0 <= i < |db'.invoices| ensures db'.invoices[i].paid == SumBy(db'.payments, Attached(i)) {
      SumAppend(db.payments, db'.payments[|db.payments|], Attached(i));
    }
  }

  lemma PayKeepsLog(db: Db, plan: PayPlan)
    requires LogReplays(db) && PayPlanOk(db, plan) && plan.Fresh?
    requires SumBy(db.movements, NetOf(plan.customer)) == AccountOf(db, plan.customer).balance
    ensures LogReplays(PayWrite(db, plan))
  {
    var db' := PayWrite(db, plan);
    LogGrows(db, Movement(plan.customer, 0, plan.req.amount, AccountOf(db', plan.customer).balance), db');
  }

  lemma PayKeepsAttempts(db: Db, plan: PayPlan)
    requires AttemptsOk(db) && PayPlanOk(db, plan) && plan.Fresh?
    ensures AttemptsOk(PayWrite(db, plan))
  {
    var db' := PayWrite(db, plan);
    forall a | 0 <= a < |db'.attempts| ensures db'.attempts[a].paid <==> HasPayment(db', a) {
      PaymentAdded(db, db', a);
    }
    forall j, k | 0 <= j < k < |db'.payments| && db'.payments[j].attempt.Some?
      ensures db'.payments[j].attempt != db'.payments[k].attempt
    {
      if k == |db.payments| && db'.payments[k].attempt.Some? {
        assert !HasPayment(db, plan.req.attempt.value);
      }
    }
  }

  lemma PayKeepsNumbers(db: Db, plan: PayPlan)
    requires WorkOrdersOk(db) && NumbersOk(db) && PayPlanOk(db, plan) && plan.Fresh?
    ensures WorkOrdersOk(PayWrite(db, plan)) && NumbersOk(PayWrite(db, plan))
  {
    var db' := PayWrite(db, plan);
    forall year: nat ensures SerialsOf(db'.invoices, year) == OneTo(LastNumber(db', year)) {
      assert SerialsOf(db.invoices, year) == OneTo(LastNumber(db, year));
      if plan.row.Some? {
        SerialsUpdate(db.invoices, plan.req.invoice.value, db'.invoices[plan.req.invoice.value], year);
      }
    }
  }

  lemma PaymentAdded(db: Db, db': Db, a: nat)
    requires |db'.payments| == |db.payments| + 1
    requires forall k :: 0 <= k < |db.payments| ==> db'.payments[k].attempt == db.payments[k].attempt
    ensures HasPayment(db', a) <==> HasPayment(db, a) || db'.payments[|db.payments|].attempt == Some(a)
  {
    if HasPayment(db, a) {
      var k :| 0 <= k < |db.payments| && db.payments[k].attempt == Some(a);
      assert db'.payments[k].attempt == Some(a);
    }
  }

  lemma PayKeepsInv(db: Db, plan: PayPlan)
    requires Inv(db) && PayPlanOk(db, plan)
    ensures Inv(PayWrite(db, plan))
  {
    if plan.Fresh? {
      var db' := PayWrite(db, plan);
      forall c: CustomerId ensures AccountOk(db', c) && LogOk(db', c) {
        PayKeepsAccount(db, plan, c);
        PayKeepsGross(db, plan, c);
      }
      PayKeepsRows(db, plan);
      PayKeepsPaid(db, plan);
      LogNetIsBalance(db, plan.customer);
      PayKeepsLog(db, plan);
      PayKeepsAttempts(db, plan);
      PayKeepsNumbers(db, plan);
    }
  }

  // ---- Cancelling keeps the invariant --------------------------------------------------------

  lemma CarryOverKeepsMoney(payments: seq<Payment>, i: nat, seen: nat, c: CustomerId)
    ensures SumBy(CarryOver(payments, i, seen), NewMoney(c)) == SumBy(payments, NewMoney(c))
  {
    SumCongruent(CarryOver(payments, i, seen), payments, NewMoney(c), NewMoney(c));
  }

  /** The account row a cancellation leaves, when the clamp has nothing to do. */
  lemma CancelledAccount(db: Db, plan: CancelPlan, c: CustomerId)
    requires CancelPlanOk(db, plan) && AccountOf(db, plan.row.customer).debits >= plan.row.grandTotal
    ensures var was, now := AccountOf(db, c), AccountOf(CancelWrite(db, plan), c);
      var reversed := if plan.row.customer == c then plan.row.grandTotal else 0;
      && now.debits == was.debits - reversed
      && now.credits == was.credits
      && (plan.row.customer == c ==> now.balance == now.debits - now.credits)
      && (plan.row.customer != c ==> now == was)
  {
  }

  lemma CancelKeepsAccount(db: Db, plan: CancelPlan, c: CustomerId)
    requires AccountOk(db, c) && CancelPlanOk(db, plan) && plan.row.paid >= 0
    requires AccountOf(db, plan.row.customer).debits >= plan.row.grandTotal
    ensures AccountOk(CancelWrite(db, plan), c)
  {
    CancelledAccount(db, plan, c);
    CarryOverKeepsMoney(db.payments, plan.invoice, plan.seen, c);
    InvoiceReplaced(db.invoices, plan.invoice, plan.row.(status := Cancelled, remaining := 0, workOrder := None), c);
  }

  lemma CancelKeepsGross(db: Db, plan: CancelPlan, c: CustomerId)
    requires LogOk(db, c) && CancelPlanOk(db, plan)
    ensures LogOk(CancelWrite(db, plan), c)
  {
    var db' := CancelWrite(db, plan);
    var m := Movement(plan.row.customer, 0, plan.row.grandTotal, AccountOf(db', plan.row.customer).balance);
    assert db'.movements == db.movements + [m];
    MovementAdded(db.movements, m, c);
    CarryOverKeepsMoney(db.payments, plan.invoice, plan.seen, c);
    InvoiceReplaced(db.invoices, plan.invoice, plan.row.(status := Cancelled, remaining := 0, workOrder := None), c);
  }

  lemma CancelKeepsRows(db: Db, plan: CancelPlan)
    requires Inv(db) && CancelPlanOk(db, plan)
    ensures InvoicesOk(CancelWrite(db, plan)) && PaymentsOk(CancelWrite(db, plan))
    ensures PaidIsAttached(CancelWrite(db, plan))
  {
    var db' := CancelWrite(db, plan);
    forall i | 0 <= i < |db'.invoices| ensures InvoiceOk(db'.invoices[i]) && db'.invoices[i].customer in db'.accounts {
      assert InvoiceOk(db.invoices[i]);
    }
    forall k | 0 <= k < |db'.payments| ensures PaymentOk(db', db'.payments[k]) {
      assert PaymentOk(db, db.payments[k]);
    }
    forall i | 0 <= i < |db'.invoices| ensures db'.invoices[i].paid == SumBy(db'.payments, Attached(i)) {
      SumCongruent(db.payments, db'.payments, Attached(i), Attached(i));
    }
  }

  lemma CancelKeepsLog(db: Db, plan: CancelPlan)
    requires LogReplays(db) && CancelPlanOk(db, plan)
    requires AccountOk(db, plan.row.customer)
    requires AccountOf(db, plan.row.customer).debits >= plan.row.grandTotal
    requires SumBy(db.movements, NetOf(plan.row.customer)) == AccountOf(db, plan.row.customer).balance
    ensures LogReplays(CancelWrite(db, plan))
  {
    var db' := CancelWrite(db, plan);
    var m := Movement(plan.row.customer, 0, plan.row.grandTotal, AccountOf(db', plan.row.customer).balance);
    LogGrows(db, m, db');
  }

  lemma CancelKeepsAttempts(db: Db, plan: CancelPlan)
    requires AttemptsOk(db) && CancelPlanOk(db, plan)
    ensures AttemptsOk(CancelWrite(db, plan))
  {
    var db' := CancelWrite(db, plan);
    forall a | 0 <= a < |db'.attempts| ensures HasPayment(db', a) <==> HasPayment(db, a) {
      if HasPayment(db, a) {
        var k :| 0 <= k < |db.payments| && db.payments[k].attempt == Some(a);
        assert db'.payments[k].attempt == Some(a);
      }
    }
  }

  lemma CancelKeepsNumbers(db: Db, plan: CancelPlan)
    requires WorkOrdersOk(db) && NumbersOk(db) && CancelPlanOk(db, plan)
    ensures WorkOrdersOk(CancelWrite(db, plan)) && NumbersOk(CancelWrite(db, plan))
  {
    var db', i := CancelWrite(db, plan), plan.invoice;
    forall year: nat ensures SerialsOf(db'.invoices, year) == OneTo(LastNumber(db', year)) {
      assert SerialsOf(db.invoices, year) == OneTo(LastNumber(db, year));
      SerialsUpdate(db.invoices, i, db'.invoices[i], year);
    }
  }

  lemma CancelKeepsInv(db: Db, plan: CancelPlan)
    requires Inv(db) && CancelPlanOk(db, plan)
    ensures Inv(CancelWrite(db, plan))
  {
    var db' := CancelWrite(db, plan);
    ClampNeverBites(db, plan.invoice);
    assert InvoiceOk(db.invoices[plan.invoice]);
    forall c: CustomerId ensures AccountOk(db', c) && LogOk(db', c) {
      CancelKeepsAccount(db, plan, c);
      CancelKeepsGross(db, plan, c);
    }
    CancelKeepsRows(db, plan);
    LogNetIsBalance(db, plan.row.customer);
    assert AccountOk(db, plan.row.customer);
    CancelKeepsLog(db, plan);
    CancelKeepsAttempts(db, plan);
    CancelKeepsNumbers(db, plan);
  }

  // ---- Opening an attempt keeps the invariant --------------------------------------------------

  lemma OpenAttemptKeepsInv(db: Db, i: nat, amount: int)
    requires Inv(db) && i < |db.invoices| && amount > 0
    ensures Inv(OpenAttempt(db, i, amount))
  {
    var db' := OpenAttempt(db, i, amount);
    forall c: CustomerId ensures AccountOk(db', c) && LogOk(db', c) {
      assert AccountOk(db, c) && LogOk(db, c);
    }
    forall k | 0 <= k < |db'.payments| ensures PaymentOk(db', db'.payments[k]) {
      assert PaymentOk(db, db.payments[k]);
    }
    forall a | 0 <= a < |db'.attempts| ensures db'.attempts[a].paid <==> HasPayment(db', a) {
      if HasPayment(db', a) {
        var k :| 0 <= k < |db.payments| && db.payments[k].attempt == Some(a);
        assert PaymentOk(db, db.payments[k]);
        assert HasPayment(db, a);
      }
      if a < |db.attempts| && HasPayment(db, a) {
        var k :| 0 <= k < |db.payments| && db.payments[k].attempt == Some(a);
        assert db'.payments[k].attempt == Some(a);
      }
    }
    forall year: nat ensures SerialsOf(db'.invoices, year) == OneTo(LastNumber(db', year)) {
      assert SerialsOf(db.invoices, year) == OneTo(LastNumber(db, year));
    }
  }
}
