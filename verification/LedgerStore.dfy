/** The three transactions as the repositories run them: row by row, in place, on one tenant's
    tables. Each is proved to have exactly the effect of the step on values in `Ledger`, to keep
    every record in agreement, and to leave no trace when it is refused. */
module LedgerStore {
  import opened Outcomes
  import opened InvoiceTotals
  import opened InvoiceNumbers
  import opened Ledger
  import opened LedgerInvariants

  class Store {
    var customers: set<CustomerId>
    var workOrders: map<nat, WorkOrder>
    var invoices: seq<Invoice>
    var payments: seq<Payment>
    var accounts: map<CustomerId, Account>
    var movements: seq<Movement>
    var attempts: seq<Attempt>
    var sequences: map<nat, nat>

    constructor ()
      ensures State() == EMPTY && Valid()
    {
      customers, workOrders, invoices, payments := {}, map[], [], [];
      accounts, movements, attempts, sequences := map[], [], [], map[];
      new;
      EmptyOk();
    }

    ghost function State(): Db
      reads this
    {
      Db(customers, workOrders, invoices, payments, accounts, movements, attempts, sequences)
    }

    ghost predicate Valid()
      reads this
    {
      Inv(State())
    }

    /** Finds the account row of a customer, or the row of zeros that would be inserted. */
    method FindOrCreateAccount(c: CustomerId) returns (account: Account)
      ensures account == AccountOf(State(), c)
    {
      account := if c in accounts then accounts[c] else Account(0, 0, 0, false);
    }

    /** Writes an account row and the movement that explains it. */
    method PostMovement(c: CustomerId, debit: int, credit: int, account: Account)
      modifies this`accounts, this`movements
      ensures State() == Post(old(State()), c, debit, credit, account)
    {
      accounts := accounts[c := account];
      movements := movements + [Movement(c, debit, credit, account.balance)];
    }

    method CheckLinkedWorkOrder(req: IssueRequest) returns (r: Result<seq<Line>, LedgerError>)
      ensures r == CheckWorkOrder(State(), req)
    {
      if req.workOrder.None? {
        return Ok([]);
      }
      var w := req.workOrder.value;
      if w !in workOrders {
        return Err(WorkOrderNotFound);
      }
      if workOrders[w].customer != req.customer {
        return Err(WorkOrderOfOther);
      }
      if workOrders[w].status.Void? {
        return Err(WorkOrderVoid);
      }
      for i := 0 to |invoices|
        invariant forall k :: 0 <= k < i ==> invoices[k].workOrder != Some(w) || invoices[k].status.Cancelled?
      {
        if invoices[i].workOrder == Some(w) && !invoices[i].status.Cancelled? {
          return Err(WorkOrderInvoiced);
        }
      }
      return Ok(workOrders[w].items);
    }

    method CreateWithCariMovement(req: IssueRequest) returns (r: Result<nat, LedgerError>)
      requires Valid()
      modifies this
      ensures Valid()
      ensures r.Ok? ==> r.value == |old(invoices)| && Issue(old(State()), req) == Ok(State())
      ensures r.Err? ==> Issue(old(State()), req) == Err(r.error) && State() == old(State())
    {
      if req.customer !in customers {
        return Err(CustomerNotFound);
      }
      var ordered := CheckLinkedWorkOrder(req);
      if ordered.Err? {
        return Err(ordered.error);
      }
      var totals := CalculateInvoiceTotals(EffectiveItems(req, ordered.value));
      if totals.None? {
        return Err(InvalidLine);
      }
      if !WithinTolerance(req.claim, totals.value) {
        return Err(TotalsMismatch);
      }
      var account := FindOrCreateAccount(req.customer);
      if account.blocked {
        return Err(AccountBlocked);
      }
      var grand := totals.value.grandTotal;
      var advance := 0;
      if req.offset > 0 && account.balance < 0 {
        advance := Min(grand, Min(-account.balance, req.offset));
      }
      var plan := IssuePlan(req.customer, req.workOrder, totals.value, advance, req.number, req.year);
      assert IssueRead(State(), req) == Ok(plan);
      IssueReadOk(State(), req);
      r := InsertInvoice(plan, account);
      if r.Ok? {
        IssueKeepsInv(old(State()), plan);
      }
    }

    /** Upserts the sequence row of the year when a number is wanted. */
    method AllocateNumber(plan: IssuePlan) returns (number: string, serial: Option<Serial>)
      modifies this`sequences
      ensures number == NumberFor(old(State()), plan)
      ensures serial == NewInvoice(old(State()), plan).serial
      ensures sequences == if WantsNumber(plan.number)
        then old(sequences)[plan.year := LastNumber(old(State()), plan.year) + 1]
        else old(sequences)
    {
      number, serial := plan.number, None;
      if WantsNumber(plan.number) {
        var next := if plan.year in sequences then sequences[plan.year] + 1 else 1;
        sequences := sequences[plan.year := next];
        number, serial := InvoiceNumber(plan.year, next), Some(Serial(plan.year, next));
      }
    }

    /** The writing half: sequence, invoice, offset payment, account, movement, work order. */
    method InsertInvoice(plan: IssuePlan, account: Account) returns (r: Result<nat, LedgerError>)
      requires plan.workOrder.Some? ==> plan.workOrder.value in workOrders
      requires account == AccountOf(State(), plan.customer)
      modifies this
      ensures r.Ok? ==> r.value == |old(invoices)| && IssueWrite(old(State()), plan) == Ok(State())
      ensures r.Err? ==> IssueWrite(old(State()), plan) == Err(r.error) && State() == old(State())
    {
      var rollback := sequences;
      var number, serial := AllocateNumber(plan);
      // The unique constraint on (tenant, number) aborts the transaction.
      if exists i :: 0 <= i < |invoices| && invoices[i].number == number {
        sequences := rollback;
        return Err(DuplicateNumber);
      }
      assert !NumberTaken(old(State()), number);
      var grand, advance := plan.totals.grandTotal, plan.advance;
      var remaining := Max(0, grand - advance);
      var status := if remaining <= 0 then InvoiceStatus.Paid else if advance > 0 then PartiallyPaid else Unpaid;
      var id := |invoices|;
      invoices := invoices + [Invoice(
        plan.customer, plan.workOrder, number, serial,
        plan.totals.subtotal, plan.totals.tax, grand, advance, remaining, status)];
      if advance > 0 {
        payments := payments + [Payment(plan.customer, Some(id), advance, AdvanceOffset, None, false)];
      }
      PostMovement(plan.customer, grand, 0,
        account.(debits := account.debits + grand, balance := account.balance + grand));
      if plan.workOrder.Some? {
        workOrders := workOrders[plan.workOrder.value := workOrders[plan.workOrder.value].(status := Completed)];
      }
      return Ok(id);
    }

    /** The locked body of a payment for a customer found by the checks before it. */
    method CreatePayment(req: PayRequest, c: CustomerId) returns (r: Result<nat, LedgerError>)
      requires Valid() && PayRequestOk(State(), req, c)
      modifies this
      ensures Valid()
      ensures r.Ok? ==> r.value < |payments| && RecordPayment(old(State()), req, c) == Ok(State())
      ensures r.Ok? && req.attempt.Some? ==> payments[r.value].attempt == req.attempt
      ensures r.Err? ==> RecordPayment(old(State()), req, c) == Err(r.error) && State() == old(State())
    {
      ghost var was := State();
      if req.attempt.Some? {
        var existing := FindPayment(payments, req.attempt.value);
        if existing.Some? {
          return Ok(existing.value);
        }
      }
      if req.invoice.Some? {
        var current := invoices[req.invoice.value];
        if current.status.Cancelled? || req.amount > current.remaining {
          return Err(BalanceChanged);
        }
      }
      ghost var plan := PayRead(was, req, c).value;
      PayReadOk(was, req, c);
      PayKeepsInv(was, plan);
      r := InsertPayment(req, c);
    }

    /** The writing half: payment, invoice columns, account, movement, attempt. */
    method InsertPayment(req: PayRequest, c: CustomerId) returns (r: Result<nat, LedgerError>)
      requires req.invoice.Some? ==> req.invoice.value < |invoices|
      requires req.attempt.Some? ==> req.attempt.value < |attempts|
      modifies this
      ensures r == Ok(|old(payments)|)
      ensures var row := if req.invoice.Some? then Some(old(invoices)[req.invoice.value]) else None;
        State() == PayWrite(old(State()), Fresh(req, c, row))
    {
      var id := |payments|;
      payments := payments + [Payment(c, req.invoice, req.amount, req.paymentMethod, req.attempt, false)];
      if req.invoice.Some? {
        var row := invoices[req.invoice.value];
        var newPaid := row.paid + req.amount;
        var newRemaining := row.grandTotal - newPaid;
        var newStatus := if newRemaining <= 0 then InvoiceStatus.Paid else PartiallyPaid;
        invoices := invoices[req.invoice.value :=
          row.(paid := newPaid, remaining := Max(0, newRemaining), status := newStatus)];
      }
      var account := FindOrCreateAccount(c);
      PostMovement(c, 0, req.amount,
        account.(credits := account.credits + req.amount, balance := account.balance - req.amount));
      if req.attempt.Some? {
        attempts := attempts[req.attempt.value := attempts[req.attempt.value].(paid := true)];
      }
      return Ok(id);
    }

    method CancelWithCariReversal(i: nat) returns (r: Result<nat, LedgerError>)
      requires Valid()
      modifies this
      ensures Valid()
      ensures r.Ok? ==> r.value == i && Cancel(old(State()), i) == Ok(State())
      ensures r.Err? ==> Cancel(old(State()), i) == Err(r.error) && State() == old(State())
    {
      ghost var was := State();
      if i >= |invoices| {
        return Err(InvoiceNotFound);
      }
      var existing := invoices[i];
      if existing.status.Cancelled? {
        return Err(AlreadyCancelled);
      }
      ghost var plan := CancelRead(was, i).value;
      CancelReadOk(was, i);
      CancelKeepsInv(was, plan);
      ReverseInvoice(i);
      return Ok(i);
    }

    /** The writing half: invoice, account, movement, payment notes, work order. */
    method ReverseInvoice(i: nat)
      requires i < |invoices| && !invoices[i].status.Cancelled?
      requires invoices[i].workOrder.Some? ==> invoices[i].workOrder.value in workOrders
      modifies this
      ensures State() == CancelWrite(old(State()), CancelRead(old(State()), i).value)
    {
      var existing := invoices[i];
      invoices := invoices[i := existing.(status := Cancelled, remaining := 0, workOrder := None)];
      if existing.customer in accounts {
        var account := accounts[existing.customer];
        var newDebits := Max(0, account.debits - existing.grandTotal);
        var newBalance := newDebits - account.credits;
        PostMovement(existing.customer, 0, existing.grandTotal,
          account.(debits := newDebits, balance := newBalance));
        NoteCarriedOver(i);
      }
      if existing.workOrder.Some? {
        var w := existing.workOrder.value;
        workOrders := workOrders[w := workOrders[w].(status := InProgress)];
      }
    }

    /** Keeps the payments of a cancelled invoice and notes that they became an advance. */
    method NoteCarriedOver(i: nat)
      modifies this`payments
      ensures payments == CarryOver(old(payments), i, |old(payments)|)
    {
      for k := 0 to |payments|
        invariant payments == CarryOver(old(payments), i, k)
      {
        if payments[k].invoice == Some(i) {
          payments := payments[k := payments[k].(carriedOver := true)];
        }
        assert payments == CarryOver(old(payments), i, k + 1);
      }
    }

    /** Opens a gateway attempt for what is left of an invoice. */
    method CreatePayTrAttempt(i: nat) returns (r: Option<nat>)
      requires Valid()
      modifies this`attempts
      ensures Valid()
      ensures r.Some? <==> AttemptAmount(old(State()), i).Some?
      ensures r.Some? ==> State() == OpenAttempt(old(State()), i, AttemptAmount(old(State()), i).value)
      ensures r.Some? ==> r.value == |old(attempts)| && attempts[r.value].amount == invoices[i].remaining
      ensures r.None? ==> State() == old(State())
    {
      if i >= |invoices| || invoices[i].status.Cancelled? || invoices[i].status.Paid? {
        return None;
      }
      var amount := invoices[i].grandTotal - invoices[i].paid;
      if amount <= 0 {
        return None;
      }
      assert InvoiceOk(invoices[i]);
      OpenAttemptKeepsInv(State(), i, amount);
      attempts := attempts + [Attempt(i, amount, false)];
      assert State() == OpenAttempt(old(State()), i, amount);
      return Some(|attempts| - 1);
    }
  }
}
