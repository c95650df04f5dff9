/** What each money transaction accepts and what it leaves behind, written out column by column and
    without the steps that compute it. */
module MoneyEffects {
  import opened Outcomes
  import opened Rounding
  import opened Sums
  import opened InvoiceTotals
  import opened InvoiceNumbers
  import opened Ledger
  import opened LedgerInvariants

  // ---- Issuing --------------------------------------------------------------------------

  /** The lines an invoice is made of: those of the request, else those of its work order, else a
      single one for the claimed subtotal or, without it, for the claimed total less 20 percent tax. */
  function BilledLines(db: Db, req: IssueRequest): seq<Line> {
    if req.items != [] then req.items
    else if req.workOrder.Some? && req.workOrder.value in db.workOrders
      && db.workOrders[req.workOrder.value].items != []
    then db.workOrders[req.workOrder.value].items
    else
      var s, g := req.claim.subtotal, req.claim.grandTotal;
      var price :=
        if s.Finite? && s.value != 0.0 then s.value
        else if g.Finite? then (g.value / 1.2 * 100.0 + 0.5).Floor as real / 100.0
        else 0.0;
      [Line(Finite(1.0), Finite(price), Some(Finite(20.0)))]
  }

  predicate AboutRight(claimed: Num, cents: int) {
    claimed.Finite? ==> -3 <= (claimed.value * 100.0 + 0.5).Floor - cents <= 3
  }

  lemma BilledIsEffective(db: Db, req: IssueRequest)
    requires CheckWorkOrder(db, req).Ok?
    ensures EffectiveItems(req, CheckWorkOrder(db, req).value) == BilledLines(db, req)
  {
    if !req.claim.grandTotal.Finite? {
      assert 0.0 / 1.2 * 100.0 == 0.0;
      RoundInteger(0);
    }
  }

  /** The linked work order, if any, is the customer's, not void and without a live invoice. */
  predicate OrderBillable(db: Db, req: IssueRequest) {
    req.workOrder.Some? ==>
      && req.workOrder.value in db.workOrders
      && db.workOrders[req.workOrder.value].customer == req.customer
      && !db.workOrders[req.workOrder.value].status.Void?
      && forall i :: 0 <= i < |db.invoices| && db.invoices[i].workOrder == req.workOrder ==>
        db.invoices[i].status.Cancelled?
  }

  /** Every line is acceptable and every claimed amount within three cents of its sum. */
  predicate ClaimFits(claim: Claim, lines: seq<Line>) {
    var subtotal, tax := SumBy(lines, LineCents), SumBy(lines, LineTax);
    && (forall k :: 0 <= k < |lines| ==> ValidLine(lines[k]))
    && AboutRight(claim.subtotal, subtotal)
    && AboutRight(claim.tax, tax)
    && AboutRight(claim.grandTotal, subtotal + tax)
  }

  predicate NumberFree(db: Db, number: string) {
    forall i :: 0 <= i < |db.invoices| ==> db.invoices[i].number != number
  }

  lemma OrderChecked(db: Db, req: IssueRequest)
    ensures CheckWorkOrder(db, req).Ok? <==> OrderBillable(db, req)
  {
  }

  lemma ClaimChecked(claim: Claim, lines: seq<Line>)
    ensures ClaimFits(claim, lines) <==> TotalsOf(lines).Some? && WithinTolerance(claim, TotalsOf(lines).value)
  {
  }

  lemma NumberChecked(db: Db, plan: IssuePlan, number: string)
    requires number == NumberFor(db, plan) && (plan.workOrder.Some? ==> plan.workOrder.value in db.workOrders)
    ensures IssueWrite(db, plan).Ok? <==> NumberFree(db, number)
  {
  }

  lemma IssueChecked(db: Db, req: IssueRequest)
    ensures IssueRead(db, req).Ok? <==>
      && req.customer in db.customers && !AccountOf(db, req.customer).blocked
      && OrderBillable(db, req) && ClaimFits(req.claim, BilledLines(db, req))
    ensures IssueRead(db, req).Ok? ==>
      IssueRead(db, req).value.number == req.number && IssueRead(db, req).value.year == req.year
      && IssueRead(db, req).value.workOrder == req.workOrder
  {
    OrderChecked(db, req);
    if CheckWorkOrder(db, req).Ok? {
      BilledIsEffective(db, req);
      ClaimChecked(req.claim, BilledLines(db, req));
    }
  }

  /** An invoice is issued exactly when the customer is known and not blocked, the linked work order can
      be billed, the claim fits the lines, and the number is free. */
  lemma IssueAccepted(db: Db, req: IssueRequest)
    ensures Issue(db, req).Ok? <==>
      && req.customer in db.customers
      && (req.customer in db.accounts ==> !db.accounts[req.customer].blocked)
      && OrderBillable(db, req)
      && ClaimFits(req.claim, BilledLines(db, req))
      && NumberFree(db, if req.number == "" || req.number == "PENDING"
        then InvoiceNumber(req.year, LastNumber(db, req.year) + 1) else req.number)
  {
    IssueChecked(db, req);
    if IssueRead(db, req).Ok? {
      NumberChecked(db, IssueRead(db, req).value, NumberFor(db, IssueRead(db, req).value));
    }
  }

  /** Why an invoice is refused: the first of these that holds. */
  function IssueRefusal(db: Db, req: IssueRequest): LedgerError {
    if req.customer !in db.customers then CustomerNotFound
    else if req.workOrder.Some? && req.workOrder.value !in db.workOrders then WorkOrderNotFound
    else if req.workOrder.Some? && db.workOrders[req.workOrder.value].customer != req.customer then WorkOrderOfOther
    else if req.workOrder.Some? && db.workOrders[req.workOrder.value].status.Void? then WorkOrderVoid
    else if !OrderBillable(db, req) then WorkOrderInvoiced
    else if exists line :: line in BilledLines(db, req) && !ValidLine(line) then InvalidLine
    else if !ClaimFits(req.claim, BilledLines(db, req)) then TotalsMismatch
    else if req.customer in db.accounts && db.accounts[req.customer].blocked then AccountBlocked
    else DuplicateNumber
  }

  lemma IssueRefusedWhy(db: Db, req: IssueRequest)
    requires Issue(db, req).Err?
    ensures Issue(db, req).error == IssueRefusal(db, req)
  {
    OrderChecked(db, req);
    if CheckWorkOrder(db, req).Ok? {
      BilledIsEffective(db, req);
      ClaimChecked(req.claim, BilledLines(db, req));
      assert (exists line :: line in BilledLines(db, req) && !ValidLine(line)) <==> !AllValid(BilledLines(db, req));
    }
  }

  /** The row an issued invoice adds: amounts, offset, remainder and status. */
  lemma IssuedRow(db: Db, req: IssueRequest)
    requires Issue(db, req).Ok?
    ensures |Issue(db, req).value.invoices| == |db.invoices| + 1
    ensures Issue(db, req).value.invoices[..|db.invoices|] == db.invoices
    ensures var lines, row := BilledLines(db, req), Issue(db, req).value.invoices[|db.invoices|];
      var balance := AccountOf(db, req.customer).balance;
      && row.customer == req.customer && row.workOrder == req.workOrder
      && row.subtotal == SumBy(lines, LineCents) && row.tax == SumBy(lines, LineTax)
      && row.grandTotal == SumBy(lines, LineCents) + SumBy(lines, LineTax)
      && (if req.offset <= 0 || balance >= 0 then row.paid == 0
          else
            && row.paid <= row.grandTotal && row.paid <= -balance && row.paid <= req.offset
            && (row.paid == row.grandTotal || row.paid == -balance || row.paid == req.offset))
      && row.remaining == row.grandTotal - row.paid >= 0
      && (row.status == InvoiceStatus.Paid <==> row.remaining == 0)
      && (row.status == PartiallyPaid <==> row.remaining > 0 && row.paid > 0)
      && (row.status == Unpaid <==> row.remaining > 0 && row.paid == 0)
  {
    BilledIsEffective(db, req);
    TotalsNonNegative(BilledLines(db, req));
  }

  /** Its number: the next of the year when one is wanted, and the sequence then stands on it. */
  lemma IssuedNumber(db: Db, req: IssueRequest)
    requires Issue(db, req).Ok? && |Issue(db, req).value.invoices| > |db.invoices|
    ensures var row, db' := Issue(db, req).value.invoices[|db.invoices|], Issue(db, req).value;
      var n := LastNumber(db, req.year) + 1;
      if req.number == "" || req.number == "PENDING" then
        row.number == InvoiceNumber(req.year, n) && row.serial == Some(Serial(req.year, n))
        && db'.sequences == db.sequences[req.year := n]
      else
        row.number == req.number && row.serial == None && db'.sequences == db.sequences
  {
  }

  /** Everything else it changes: the account, one movement, one payment for an offset, and the linked
      work order, which is completed. */
  lemma IssuedMoney(db: Db, req: IssueRequest)
    requires Issue(db, req).Ok? && |Issue(db, req).value.invoices| > |db.invoices|
    ensures var row, db' := Issue(db, req).value.invoices[|db.invoices|], Issue(db, req).value;
      var c, was := req.customer, AccountOf(db, req.customer);
      && db'.accounts == db.accounts[c :=
        Account(was.debits + row.grandTotal, was.credits, was.balance + row.grandTotal, was.blocked)]
      && db'.movements == db.movements + [Movement(c, row.grandTotal, 0, was.balance + row.grandTotal)]
      && db'.payments == (if row.paid > 0
        then db.payments + [Payment(c, Some(|db.invoices|), row.paid, AdvanceOffset, None, false)] else db.payments)
      && db'.customers == db.customers && db'.attempts == db.attempts
      && (req.workOrder == None ==> db'.workOrders == db.workOrders)
      && (req.workOrder.Some? ==>
        && req.workOrder.value in db.workOrders
        && var was := db.workOrders[req.workOrder.value];
          db'.workOrders ==
            db.workOrders[req.workOrder.value := WorkOrder(was.customer, WorkOrderStatus.Completed, was.items)])
  {
  }

  // ---- Paying -------------------------------------------------------------------------------

  predicate Attempted(db: Db, req: PayRequest) {
    req.attempt.Some? && exists k :: 0 <= k < |db.payments| && db.payments[k].attempt == req.attempt
  }

  /** A payment is accepted exactly when its gateway attempt is already recorded, or it belongs to no
      invoice, or to a live one with at least that much remaining. */
  lemma PaymentAccepted(db: Db, req: PayRequest, c: CustomerId)
    requires req.attempt.Some? ==> req.attempt.value < |db.attempts|
    ensures RecordPayment(db, req, c).Ok? <==>
      || Attempted(db, req)
      || req.invoice == None
      || (&& req.invoice.value < |db.invoices|
          && !db.invoices[req.invoice.value].status.Cancelled?
          && req.amount <= db.invoices[req.invoice.value].remaining)
    ensures Attempted(db, req) ==> RecordPayment(db, req, c) == Ok(db)
  {
    if req.attempt.Some? {
      var found := FindPayment(db.payments, req.attempt.value);
      assert Attempted(db, req) <==> found.Some?;
    }
  }

  /** What an accepted payment leaves: one payment as requested, the account, one movement, the amounts
      and the status of the invoice, and the attempt marked as paid. */
  lemma PaymentLeaves(db: Db, req: PayRequest, c: CustomerId)
    requires InvoicesOk(db) && req.amount > 0 && (req.attempt.Some? ==> req.attempt.value < |db.attempts|)
    requires RecordPayment(db, req, c).Ok? && !Attempted(db, req)
    ensures var db', was := RecordPayment(db, req, c).value, AccountOf(db, c);
      && db'.payments == db.payments + [Payment(c, req.invoice, req.amount, req.paymentMethod, req.attempt, false)]
      && db'.accounts == db.accounts[c :=
        Account(was.debits, was.credits + req.amount, was.balance - req.amount, was.blocked)]
      && db'.movements == db.movements + [Movement(c, 0, req.amount, was.balance - req.amount)]
      && db'.customers == db.customers && db'.workOrders == db.workOrders && db'.sequences == db.sequences
    ensures var db' := RecordPayment(db, req, c).value;
      && (req.attempt == None ==> db'.attempts == db.attempts)
      && (req.attempt.Some? ==>
        var was := db.attempts[req.attempt.value];
        db'.attempts == db.attempts[req.attempt.value := Attempt(was.invoice, was.amount, true)])
    ensures var db' := RecordPayment(db, req, c).value;
      && (req.invoice == None ==> db'.invoices == db.invoices)
      && (req.invoice.Some? ==>
        && req.invoice.value < |db.invoices|
        && var was := db.invoices[req.invoice.value];
          var left := was.remaining - req.amount;
          left >= 0 && db'.invoices == db.invoices[req.invoice.value :=
            was.(paid := was.paid + req.amount, remaining := left,
                 status := if left == 0 then InvoiceStatus.Paid else PartiallyPaid)])
  {
    PaymentAccepted(db, req, c);
    if req.invoice.Some? {
      assert InvoiceOk(db.invoices[req.invoice.value]);
    }
  }

  // ---- Cancelling ---------------------------------------------------------------------------

  /** An invoice is cancelled exactly when it exists and is not yet. The row keeps its amounts, what was
      paid on it included, and lets go of its work order, which goes back to work. */
  lemma CancellationLeaves(db: Db, i: nat)
    requires Inv(db)
    ensures Cancel(db, i).Ok? <==> i < |db.invoices| && !db.invoices[i].status.Cancelled?
    ensures Cancel(db, i).Err? ==>
      Cancel(db, i).error == if i < |db.invoices| then AlreadyCancelled else InvoiceNotFound
    ensures Cancel(db, i).Ok? ==>
      var db', was := Cancel(db, i).value, db.invoices[i];
      && db'.invoices == db.invoices[i := Invoice(was.customer, None, was.number, was.serial, was.subtotal, was.tax,
        was.grandTotal, was.paid, 0, InvoiceStatus.Cancelled)]
      && db'.customers == db.customers && db'.attempts == db.attempts && db'.sequences == db.sequences
      && (was.workOrder == None ==> db'.workOrders == db.workOrders)
      && (was.workOrder.Some? ==>
        && was.workOrder.value in db.workOrders
        && var order := db.workOrders[was.workOrder.value];
          db'.workOrders == db.workOrders[was.workOrder.value := WorkOrder(order.customer, InProgress, order.items)])
  {
  }

  /** The payments are all there, unchanged but for the note on those of the invoice. */
  ghost predicate Noted(before: seq<Payment>, after: seq<Payment>, i: nat) {
    && |after| == |before|
    && forall k :: 0 <= k < |before| ==>
      after[k] == Payment(before[k].customer, before[k].invoice, before[k].amount, before[k].paymentMethod,
        before[k].attempt, before[k].carriedOver || before[k].invoice == Some(i))
  }

  lemma NotesOnly(payments: seq<Payment>, i: nat)
    ensures Noted(payments, CarryOver(payments, i, |payments|), i)
  {
  }

  lemma ReversalReady(db: Db, i: nat)
    requires Inv(db) && i < |db.invoices| && !db.invoices[i].status.Cancelled?
    ensures var c := db.invoices[i].customer;
      && c in db.accounts && db.accounts[c].debits >= db.invoices[i].grandTotal
      && db.accounts[c].balance == db.accounts[c].debits - db.accounts[c].credits
  {
    ClampNeverBites(db, i);
    assert AccountOk(db, db.invoices[i].customer);
  }

  lemma ReversalPosts(db: Db, i: nat, c: CustomerId)
    requires i < |db.invoices| && !db.invoices[i].status.Cancelled? && c == db.invoices[i].customer
    requires c in db.accounts && db.accounts[c].debits >= db.invoices[i].grandTotal
    requires db.accounts[c].balance == db.accounts[c].debits - db.accounts[c].credits
    ensures Cancel(db, i).Ok?
    ensures var db', was, grand := Cancel(db, i).value, db.accounts[c], db.invoices[i].grandTotal;
      && db'.accounts ==
        db.accounts[c := Account(was.debits - grand, was.credits, was.balance - grand, was.blocked)]
      && db'.movements == db.movements + [Movement(c, 0, grand, was.balance - grand)]
      && db'.payments == CarryOver(db.payments, i, |db.payments|)
  {
  }

  /** The account loses the invoice and nothing else, one movement says so, and the payments stay. */
  lemma CancellationMoney(db: Db, i: nat)
    requires Inv(db) && Cancel(db, i).Ok?
    ensures i < |db.invoices| && db.invoices[i].customer in db.accounts
    ensures var db', c, grand := Cancel(db, i).value, db.invoices[i].customer, db.invoices[i].grandTotal;
      var was := db.accounts[c];
      && db'.accounts ==
        db.accounts[c := Account(was.debits - grand, was.credits, was.balance - grand, was.blocked)]
      && db'.movements == db.movements + [Movement(c, 0, grand, was.balance - grand)]
      && Noted(db.payments, db'.payments, i)
  {
    ReversalReady(db, i);
    ReversalPosts(db, i, db.invoices[i].customer);
    NotesOnly(db.payments, i);
  }
}
