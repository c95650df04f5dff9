/** What holds of the money rows after any run of the protocol: any number of payments,
    gateway callbacks, invoices and cancellations, in any interleaving, with crashes. */
module MoneyResults {
  import opened Outcomes
  import opened Sums
  import opened InvoiceNumbers
  import opened Ledger
  import opened LedgerInvariants
  import opened MoneyProtocol

  /** An advance is never spent twice, and the balance is open invoices less free advance. */
  lemma AdvanceNeverSpentTwice(key: CustomerId -> int, steps: seq<Step>, c: CustomerId)
    ensures var db := Exec(key, steps).db;
      && FreeAdvance(db, c) >= 0
      && AccountOf(db, c).balance == SumBy(db.invoices, LiveRemaining(c)) - FreeAdvance(db, c)
  {
    EveryRunOk(key, steps);
    BalanceIsOpenLessAdvance(Exec(key, steps).db, c);
  }

  /** Account totals are net of cancelled invoices; the log is gross on both sides. */
  lemma AccountsAndLogAgree(key: CustomerId -> int, steps: seq<Step>, c: CustomerId)
    ensures var db := Exec(key, steps).db;
      var account, voided := AccountOf(db, c), SumBy(db.invoices, VoidGrand(c));
      && account.debits == SumBy(db.invoices, LiveGrand(c))
      && account.credits == SumBy(db.payments, NewMoney(c))
      && account.balance == account.debits - account.credits
      && SumBy(db.movements, DebitOf(c)) == account.debits + voided
      && SumBy(db.movements, CreditOf(c)) == account.credits + voided
  {
    EveryRunOk(key, steps);
    assert AccountOk(Exec(key, steps).db, c) && LogOk(Exec(key, steps).db, c);
  }

  /** In commit order every balance in the log is the running net, and the last is the balance. */
  lemma LogReplaysToBalance(key: CustomerId -> int, steps: seq<Step>, c: CustomerId)
    ensures var db := Exec(key, steps).db;
      && (forall k :: 0 <= k < |db.movements| ==>
        db.movements[k].balanceAfter == SumBy(db.movements[..k + 1], NetOf(db.movements[k].customer)))
      && SumBy(db.movements, NetOf(c)) == AccountOf(db, c).balance
  {
    EveryRunOk(key, steps);
    LogNetIsBalance(Exec(key, steps).db, c);
  }

  /** The columns of every invoice agree with its payments and with each other. */
  lemma InvoiceRowsAgree(key: CustomerId -> int, steps: seq<Step>, i: nat)
    requires i < |Exec(key, steps).db.invoices|
    ensures var db := Exec(key, steps).db;
      var row := db.invoices[i];
      && row.paid == SumBy(db.payments, Attached(i))
      && row.remaining >= 0
      && (!row.status.Cancelled? ==>
        && row.paid + row.remaining == row.grandTotal
        && (row.status == InvoiceStatus.Paid <==> row.remaining == 0)
        && (row.status == PartiallyPaid <==> 0 < row.paid < row.grandTotal))
      && (forall k :: 0 <= k < |db.payments| && db.payments[k].invoice == Some(i) ==>
        db.payments[k].customer == row.customer && (db.payments[k].carriedOver <==> row.status.Cancelled?))
  {
    EveryRunOk(key, steps);
    var db := Exec(key, steps).db;
    assert InvoiceOk(db.invoices[i]);
    forall k | 0 <= k < |db.payments| && db.payments[k].invoice == Some(i)
      ensures db.payments[k].customer == db.invoices[i].customer
      ensures db.payments[k].carriedOver <==> db.invoices[i].status.Cancelled?
    {
      assert PaymentOk(db, db.payments[k]);
    }
  }

  /** A gateway attempt is paid at most once, is marked paid exactly when its payment exists, and
      a success callback is answered OK only if it does, for the invoice and amount it names. */
  lemma CallbackExactlyOnce(key: CustomerId -> int, steps: seq<Step>, a: nat)
    requires a < |Exec(key, steps).db.attempts|
    ensures var m := Exec(key, steps);
      && (forall j, k :: 0 <= j < k < |m.db.payments| && m.db.payments[j].attempt == Some(a) ==>
        m.db.payments[k].attempt != Some(a))
      && (m.db.attempts[a].paid <==> HasPayment(m.db, a))
      && (forall pid :: 0 <= pid < |m.procs| && m.procs[pid] == Finished(Acknowledged(a, true)) ==> HasPayment(m.db, a))
      && (forall k :: 0 <= k < |m.db.payments| && m.db.payments[k].attempt == Some(a) ==>
        && m.db.payments[k].invoice == Some(m.db.attempts[a].invoice)
        && m.db.payments[k].amount == m.db.attempts[a].amount)
  {
    EveryRunOk(key, steps);
    var m := Exec(key, steps);
    forall pid | 0 <= pid < |m.procs| && m.procs[pid] == Finished(Acknowledged(a, true)) ensures HasPayment(m.db, a) {
      assert ProcOk(key, m, pid);
    }
    forall k | 0 <= k < |m.db.payments| && m.db.payments[k].attempt == Some(a)
      ensures m.db.payments[k].invoice == Some(m.db.attempts[a].invoice)
      ensures m.db.payments[k].amount == m.db.attempts[a].amount
    {
      assert PaymentOk(m.db, m.db.payments[k]);
    }
  }

  /** The invoices that asked for a number carry 1, 2, ..., k of their year, in commit order. */
  lemma NumbersHaveNoGaps(key: CustomerId -> int, steps: seq<Step>, year: nat)
    ensures var db := Exec(key, steps).db;
      && SerialsOf(db.invoices, year) == OneTo(LastNumber(db, year))
      && (forall i, j :: 0 <= i < j < |db.invoices| ==> db.invoices[i].number != db.invoices[j].number)
      && (forall i :: 0 <= i < |db.invoices| && db.invoices[i].serial.Some? ==>
        db.invoices[i].number == InvoiceNumber(db.invoices[i].serial.value.year, db.invoices[i].serial.value.n))
  {
    EveryRunOk(key, steps);
  }

  lemma OneLiveInvoicePerWorkOrder(key: CustomerId -> int, steps: seq<Step>, i: nat, j: nat)
    requires i < |Exec(key, steps).db.invoices| && j < |Exec(key, steps).db.invoices|
    requires Exec(key, steps).db.invoices[i].workOrder == Exec(key, steps).db.invoices[j].workOrder
    requires Exec(key, steps).db.invoices[i].workOrder.Some?
    ensures i == j && !Exec(key, steps).db.invoices[i].status.Cancelled?
  {
    EveryRunOk(key, steps);
    assert InvoiceOk(Exec(key, steps).db.invoices[i]);
  }

  predicate IsOpen(inv: Invoice, c: CustomerId) {
    inv.customer == c && !inv.status.Paid? && !inv.status.Cancelled?
  }

  predicate HasOpenInvoice(db: Db, c: CustomerId) {
    exists i :: 0 <= i < |db.invoices| && IsOpen(db.invoices[i], c)
  }

  /** A customer who owes money always has an open invoice to show for it, so the refusal to
      anonymise a customer with a debt is covered by the refusal for open invoices. */
  lemma DebtHasOpenInvoice(key: CustomerId -> int, steps: seq<Step>, c: CustomerId)
    requires AccountOf(Exec(key, steps).db, c).balance > 0
    ensures HasOpenInvoice(Exec(key, steps).db, c)
  {
    var db := Exec(key, steps).db;
    AdvanceNeverSpentTwice(key, steps, c);
    EveryRunOk(key, steps);
    if !HasOpenInvoice(db, c) {
      SettledOwesNothing(db, c);
    }
  }

  lemma SettledOwesNothing(db: Db, c: CustomerId)
    requires InvoicesOk(db) && !HasOpenInvoice(db, c)
    ensures SumBy(db.invoices, LiveRemaining(c)) == 0
  {
    forall i | 0 <= i < |db.invoices| ensures LiveRemaining(c)(db.invoices[i]) == 0 {
      assert InvoiceOk(db.invoices[i]) && !IsOpen(db.invoices[i], c);
    }
    SumZero(db.invoices, LiveRemaining(c));
  }

  // ---- The locked transactions behave as if they ran at once ----------------------------

  /** A payment commits what a single uninterrupted transaction would commit at that moment. */
  lemma PaymentCommitIsAtomic(
    key: CustomerId -> int, steps: seq<Step>, pid: nat, req: PayRequest, c: CustomerId, plan: PayPlan)
    requires pid < |Exec(key, steps).procs|
    requires Exec(key, steps).procs[pid] == Planned(PayTx(req), c, PayPlanned(plan))
    ensures var m := Exec(key, steps);
      && (req.attempt.Some? ==> req.attempt.value < |m.db.attempts|)
      && RecordPayment(m.db, req, c) == Ok(Next(key, m, Run(pid)).db)
  {
    EveryRunOk(key, steps);
    var m := Exec(key, steps);
    assert ProcOk(key, m, pid);
    PayRereads(m.db, req, c, plan);
  }

  lemma PayRereads(db: Db, req: PayRequest, c: CustomerId, plan: PayPlan)
    requires PlanOk(db, PayTx(req), c, PayPlanned(plan))
    ensures plan.Fresh? ==> PayRead(db, req, c) == Ok(plan)
    ensures plan.Existing? ==> PayRead(db, req, c).Ok? && PayRead(db, req, c).value.Existing?
  {
    if req.attempt.Some? {
      var found := FindPayment(db.payments, req.attempt.value);
      if plan.Fresh? {
        assert found.None?;
      } else {
        assert db.payments[plan.payment].attempt == Some(req.attempt.value);
      }
    }
  }

  /** So does a cancellation, although it overwrites the totals with values it read earlier. */
  lemma CancelCommitIsAtomic(
    key: CustomerId -> int, steps: seq<Step>, pid: nat, i: nat, c: CustomerId, plan: CancelPlan)
    requires pid < |Exec(key, steps).procs|
    requires Exec(key, steps).procs[pid] == Planned(CancelTx(i), c, CancelPlanned(plan))
    ensures var m := Exec(key, steps); Cancel(m.db, i) == Ok(Next(key, m, Run(pid)).db)
  {
    EveryRunOk(key, steps);
    var m := Exec(key, steps);
    assert ProcOk(key, m, pid);
    CancelRereads(m.db, plan);
  }

  lemma CancelRereads(db: Db, plan: CancelPlan)
    requires CancelPlanOk(db, plan)
    ensures Cancel(db, plan.invoice) == Ok(CancelWrite(db, plan))
  {
    assert CarryOver(db.payments, plan.invoice, plan.seen) == CarryOver(db.payments, plan.invoice, |db.payments|);
  }

  /** And an invoice, unless the rows around it (blocking, customer, work order) were edited. */
  lemma IssueCommitIsAtomic(
    key: CustomerId -> int, steps: seq<Step>, pid: nat, req: IssueRequest, c: CustomerId, plan: IssuePlan)
    requires pid < |Exec(key, steps).procs|
    requires Exec(key, steps).procs[pid] == Planned(IssueTx(req), c, IssuePlanned(plan))
    ensures var db := Exec(key, steps).db;
      IssueRead(db, req).Ok? && IssueRead(db, req).value.totals == plan.totals ==>
        Issue(db, req) == IssueWrite(db, plan)
        && (IssueWrite(db, plan).Ok? ==> Issue(db, req) == Ok(Next(key, Exec(key, steps), Run(pid)).db))
  {
    EveryRunOk(key, steps);
    assert ProcOk(key, Exec(key, steps), pid);
  }

  /** The clamp at zero never takes effect: a cancellation lowers the balance by exactly the
      invoice total, keeps the credits, and touches no other customer's account. */
  lemma CancellationIsExact(
    key: CustomerId -> int, steps: seq<Step>, pid: nat, i: nat, c: CustomerId, plan: CancelPlan, other: CustomerId)
    requires pid < |Exec(key, steps).procs| && other != c
    requires Exec(key, steps).procs[pid] == Planned(CancelTx(i), c, CancelPlanned(plan))
    ensures plan.account.Some? && plan.account.value.debits >= plan.row.grandTotal
    ensures var m := Exec(key, steps);
      var db' := Next(key, m, Run(pid)).db;
      var was, now, grand := AccountOf(m.db, c), AccountOf(db', c), plan.row.grandTotal;
      && now.debits == was.debits - grand && now.balance == was.balance - grand && now.credits == was.credits
      && AccountOf(db', other) == AccountOf(m.db, other)
  {
    EveryRunOk(key, steps);
    var m := Exec(key, steps);
    assert ProcOk(key, m, pid);
    ClampNeverBites(m.db, i);
    assert AccountOk(m.db, c);
  }

  // ---- The advance taken for a new invoice -------------------------------------------------

  /** The advance is the largest amount within the request, the invoice and the credit balance. */
  lemma AdvanceIsLargest(offset: int, balance: int, grandTotal: int, amount: int)
    requires grandTotal >= 0 && 0 <= amount <= grandTotal && amount <= offset && amount <= -balance
    ensures var advance := AdvanceFor(offset, balance, grandTotal);
      && amount <= advance <= grandTotal
      && (advance > 0 ==> advance <= offset && advance <= -balance)
  {
  }

  // ---- Numbers handed out against numbers chosen by hand -------------------------------------

  lemma {:induction false} SerialListed(invoices: seq<Invoice>, i: nat, year: nat)
    requires i < |invoices| && invoices[i].serial.Some? && invoices[i].serial.value.year == year
    ensures invoices[i].serial.value.n in SerialsOf(invoices, year)
  {
    if i < |invoices| - 1 {
      SerialListed(invoices[..|invoices| - 1], i, year);
    }
  }

  /** A number already handed out, of this year or another, is not the next one. */
  lemma NextNumberUnused(invoices: seq<Invoice>, i: nat, year: nat, last: nat, number: string)
    requires i < |invoices| && invoices[i].serial.Some? && invoices[i].number == number
    requires FourDigitYear(year) && FourDigitYear(invoices[i].serial.value.year)
    requires number == InvoiceNumber(invoices[i].serial.value.year, invoices[i].serial.value.n)
    requires SerialsOf(invoices, year) == OneTo(last)
    ensures number != InvoiceNumber(year, last + 1)
  {
    var serial := invoices[i].serial.value;
    if InvoiceNumber(serial.year, serial.n) == InvoiceNumber(year, last + 1) {
      InvoiceNumberInjective(serial.year, serial.n, year, last + 1);
      SerialListed(invoices, i, year);
    }
  }

  predicate FourDigitYears(db: Db) {
    forall i :: 0 <= i < |db.invoices| && db.invoices[i].serial.Some? ==>
      FourDigitYear(db.invoices[i].serial.value.year)
  }

  lemma HandedOutNumbersDiffer(db: Db, year: nat)
    requires NumbersOk(db) && FourDigitYears(db) && FourDigitYear(year)
    ensures forall i :: 0 <= i < |db.invoices| && db.invoices[i].serial.Some? ==>
      db.invoices[i].number != InvoiceNumber(year, LastNumber(db, year) + 1)
  {
    forall i | 0 <= i < |db.invoices| && db.invoices[i].serial.Some?
      ensures db.invoices[i].number != InvoiceNumber(year, LastNumber(db, year) + 1)
    {
      NextNumberUnused(db.invoices, i, year, LastNumber(db, year), db.invoices[i].number);
    }
  }

  predicate NumberedByHand(db: Db, number: string) {
    exists i :: 0 <= i < |db.invoices| && db.invoices[i].serial.None? && db.invoices[i].number == number
  }

  lemma TakenByHand(db: Db, number: string)
    requires forall i :: 0 <= i < |db.invoices| && db.invoices[i].serial.Some? ==> db.invoices[i].number != number
    ensures NumberTaken(db, number) <==> NumberedByHand(db, number)
  {
  }

  lemma RefusedWhenTaken(db: Db, plan: IssuePlan, number: string)
    requires number == NumberFor(db, plan)
    ensures IssueWrite(db, plan) == Err(DuplicateNumber) <==> NumberTaken(db, number)
  {
  }

  lemma NextNumberTaken(db: Db, year: nat)
    requires NumbersOk(db) && FourDigitYears(db) && FourDigitYear(year)
    ensures var next := InvoiceNumber(year, LastNumber(db, year) + 1);
      NumberTaken(db, next) <==> NumberedByHand(db, next)
  {
    HandedOutNumbersDiffer(db, year);
    TakenByHand(db, InvoiceNumber(year, LastNumber(db, year) + 1));
  }

  /** In every reachable state (`EveryRunOk` gives `NumbersOk`) a request for a number is refused by
      the unique constraint exactly when an invoice numbered by hand already carries it; the
      sequence then stays where it is. */
  lemma NextNumberRefused(db: Db, plan: IssuePlan, number: string)
    requires NumbersOk(db) && FourDigitYears(db) && WantsNumber(plan.number) && FourDigitYear(plan.year)
    requires number == NumberFor(db, plan)
    ensures IssueWrite(db, plan) == Err(DuplicateNumber) <==> NumberedByHand(db, number)
  {
    NextNumberTaken(db, plan.year);
    RefusedWhenTaken(db, plan, number);
  }

  predicate Allocated(inv: Invoice) {
    inv.serial.Some? && FourDigitYear(inv.serial.value.year)
  }

  /** The numbers for the tax administration handed out with them differ as well, over all years of four
      digits, although nothing in the database says so. */
  lemma GibNumbersDiffer(key: CustomerId -> int, steps: seq<Step>, i: nat, j: nat)
    requires i < |Exec(key, steps).db.invoices| && j < |Exec(key, steps).db.invoices| && i != j
    requires Allocated(Exec(key, steps).db.invoices[i]) && Allocated(Exec(key, steps).db.invoices[j])
    ensures var a, b := Exec(key, steps).db.invoices[i].serial.value, Exec(key, steps).db.invoices[j].serial.value;
      GibNumber(a.year, a.n) != GibNumber(b.year, b.n)
  {
    EveryRunOk(key, steps);
    SerialsDiffer(Exec(key, steps).db, i, j);
    var a, b := Exec(key, steps).db.invoices[i].serial.value, Exec(key, steps).db.invoices[j].serial.value;
    if GibNumber(a.year, a.n) == GibNumber(b.year, b.n) {
      GibNumberInjective(a.year, a.n, b.year, b.n);
    }
  }

  lemma SerialsDiffer(db: Db, i: nat, j: nat)
    requires NumbersOk(db) && i < |db.invoices| && j < |db.invoices| && i != j
    requires db.invoices[i].serial.Some?
    ensures db.invoices[i].serial != db.invoices[j].serial
  {
    var first, second := if i < j then i else j, if i < j then j else i;
    assert db.invoices[first].number != db.invoices[second].number;
  }

  // ---- Requests as they reach the application -----------------------------------------------

  /** No request that reaches the application chooses its number. */
  predicate AsksForNumber(tx: Tx) {
    tx.IssueTx? ==> WantsNumber(tx.issue.number) && FourDigitYear(tx.issue.year)
  }

  predicate Asking(proc: Proc) {
    proc.Waiting? || proc.Locked? || proc.Planned? ==> AsksForNumber(proc.tx)
  }

  predicate AskingSteps(steps: seq<Step>) {
    forall k :: 0 <= k < |steps| && steps[k].Start? ==> Asking(steps[k].proc)
  }

  predicate AllAllocated(db: Db) {
    forall i :: 0 <= i < |db.invoices| ==> Allocated(db.invoices[i])
  }

  lemma WriteAllocates(db: Db, tx: Tx, c: CustomerId, plan: Plan)
    requires AllAllocated(db) && AsksForNumber(tx) && PlanOk(db, tx, c, plan) && WriteTx(db, plan).Ok?
    ensures AllAllocated(WriteTx(db, plan).value)
  {
    var db' := WriteTx(db, plan).value;
    forall i | 0 <= i < |db'.invoices| ensures Allocated(db'.invoices[i]) {
      assert i < |db.invoices| ==> Allocated(db.invoices[i]);
    }
  }

  lemma StepAllocates(key: CustomerId -> int, m: Machine, step: Step)
    requires MachineOk(key, m) && AllAllocated(m.db)
    requires forall p :: 0 <= p < |m.procs| ==> Asking(m.procs[p])
    ensures AllAllocated(Next(key, m, step).db)
  {
    if step.Run? && step.pid < |m.procs| && m.procs[step.pid].Planned? {
      assert ProcOk(key, m, step.pid) && Asking(m.procs[step.pid]);
      var Planned(tx, c, plan) := m.procs[step.pid];
      if WriteTx(m.db, plan).Ok? {
        WriteAllocates(m.db, tx, c, plan);
      }
    } else if step.Run? && step.pid < |m.procs| {
      assert ProcOk(key, m, step.pid);
    }
  }

  lemma StepAsks(key: CustomerId -> int, m: Machine, step: Step)
    requires forall p :: 0 <= p < |m.procs| ==> Asking(m.procs[p])
    requires step.Start? ==> Asking(step.proc)
    ensures forall p :: 0 <= p < |Next(key, m, step).procs| ==> Asking(Next(key, m, step).procs[p])
  {
    var m' := Next(key, m, step);
    forall p | 0 <= p < |m'.procs| ensures Asking(m'.procs[p]) {
      assert p < |m.procs| ==> Asking(m.procs[p]);
    }
  }

  lemma {:induction false} AskingRunsAllocate(key: CustomerId -> int, steps: seq<Step>)
    requires AskingSteps(steps)
    ensures AllAllocated(Exec(key, steps).db)
    ensures forall p :: 0 <= p < |Exec(key, steps).procs| ==> Asking(Exec(key, steps).procs[p])
  {
    if steps != [] {
      var front := steps[..|steps| - 1];
      EveryRunOk(key, front);
      AskingRunsAllocate(key, front);
      StepAllocates(key, Exec(key, front), steps[|steps| - 1]);
      StepAsks(key, Exec(key, front), steps[|steps| - 1]);
    }
  }

  /** When no request chooses its number, no invoice is ever refused for its number. */
  lemma AllocatedNumbersNeverCollide(
    key: CustomerId -> int, steps: seq<Step>, pid: nat, req: IssueRequest, c: CustomerId, plan: IssuePlan)
    requires AskingSteps(steps) && pid < |Exec(key, steps).procs|
    requires Exec(key, steps).procs[pid] == Planned(IssueTx(req), c, IssuePlanned(plan))
    ensures IssueWrite(Exec(key, steps).db, plan) != Err(DuplicateNumber)
  {
    EveryRunOk(key, steps);
    AskingRunsAllocate(key, steps);
    var m := Exec(key, steps);
    assert ProcOk(key, m, pid) && Asking(m.procs[pid]);
    assert FourDigitYears(m.db) by {
      forall i | 0 <= i < |m.db.invoices| ensures Allocated(m.db.invoices[i]) {
      }
    }
    NextNumberRefused(m.db, plan, NumberFor(m.db, plan));
  }
}
