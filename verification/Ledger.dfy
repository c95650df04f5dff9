/** The money rows of one tenant and the three transactions that change them.
    Row ids are positions in the table, in commit order; amounts are whole cents.

    Each transaction has a read part, run after the customer lock is taken, and a write part
    that commits. What the read part saw travels in a plan, as it does in the local variables
    of the source, so that the two parts can be interleaved with other transactions. */
module Ledger {
  import opened Outcomes
  import opened Rounding
  import opened InvoiceTotals
  import opened InvoiceNumbers

  type CustomerId = nat

  datatype InvoiceStatus = Unpaid | PartiallyPaid | Paid | Cancelled

  datatype PaymentMethod = Cash | Pos | BankTransfer | Online | AdvanceOffset

  /** The sequence number an invoice was given, when it asked for one. */
  datatype Serial = Serial(year: nat, n: nat)

  datatype Invoice = Invoice(
    customer: CustomerId, workOrder: Option<nat>, number: string, serial: Option<Serial>,
    subtotal: int, tax: int, grandTotal: int, paid: int, remaining: int, status: InvoiceStatus)

  /** carriedOver: the note that a cancellation turned this payment into an advance. */
  datatype Payment = Payment(
    customer: CustomerId, invoice: Option<nat>, amount: int, paymentMethod: PaymentMethod,
    attempt: Option<nat>, carriedOver: bool)

  datatype Account = Account(debits: int, credits: int, balance: int, blocked: bool)

  datatype Movement = Movement(customer: CustomerId, debit: int, credit: int, balanceAfter: int)

  datatype Attempt = Attempt(invoice: nat, amount: int, paid: bool)

  datatype WorkOrderStatus = InProgress | Completed | Void

  datatype WorkOrder = WorkOrder(customer: CustomerId, status: WorkOrderStatus, items: seq<Line>)

  datatype Db = Db(
    customers: set<CustomerId>,
    workOrders: map<nat, WorkOrder>,
    invoices: seq<Invoice>,
    payments: seq<Payment>,
    accounts: map<CustomerId, Account>,
    movements: seq<Movement>,
    attempts: seq<Attempt>,
    sequences: map<nat, nat>)

  const EMPTY := Db({}, map[], [], [], map[], [], [], map[])

  datatype LedgerError =
    | CustomerNotFound | WorkOrderNotFound | WorkOrderOfOther | WorkOrderVoid | WorkOrderInvoiced
    | InvalidLine | TotalsMismatch | AccountBlocked | DuplicateNumber
    | InvoiceNotFound | AlreadyCancelled | BalanceChanged

  /** A customer without an account row is read as a row of zeros. */
  function AccountOf(db: Db, c: CustomerId): Account {
    if c in db.accounts then db.accounts[c] else Account(0, 0, 0, false)
  }

  function LastNumber(db: Db, year: nat): nat {
    if year in db.sequences then db.sequences[year] else 0
  }

  function Min(a: int, b: int): int {
    if a < b then a else b
  }

  function Max(a: int, b: int): int {
    if a < b then b else a
  }

  // ---- Issuing an invoice ------------------------------------------------------

  /** number is "PENDING" or empty when a sequence number is wanted; offset is 0 when absent. */
  datatype IssueRequest = IssueRequest(
    customer: CustomerId, workOrder: Option<nat>, items: seq<Line>, claim: Claim,
    number: string, offset: int, year: nat)

  datatype IssuePlan = IssuePlan(
    customer: CustomerId, workOrder: Option<nat>, totals: Totals, advance: int, number: string, year: nat)

  predicate WantsNumber(number: string) {
    number == "" || number == "PENDING"
  }

  /** The price of the single stand-in line, from the claimed amounts. */
  function FallbackPrice(claim: Claim): real {
    if claim.subtotal.Finite? && claim.subtotal.value != 0.0 then claim.subtotal.value
    else
      var grand := if claim.grandTotal.Finite? then claim.grandTotal.value else 0.0;
      Round(grand / 1.2 * 100.0) as real / 100.0
  }

  function EffectiveItems(req: IssueRequest, ordered: seq<Line>): seq<Line> {
    if req.items != [] then req.items
    else if ordered != [] then ordered
    else [Line(Finite(1.0), Finite(FallbackPrice(req.claim)), Some(Finite(20.0)))]
  }

  predicate HasLiveInvoice(db: Db, workOrder: nat) {
    exists i :: 0 <= i < |db.invoices|
      && db.invoices[i].workOrder == Some(workOrder) && !db.invoices[i].status.Cancelled?
  }

  function CheckWorkOrder(db: Db, req: IssueRequest): Result<seq<Line>, LedgerError> {
    if req.workOrder.None? then Ok([])
    else
      var w := req.workOrder.value;
      if w !in db.workOrders then Err(WorkOrderNotFound)
      else if db.workOrders[w].customer != req.customer then Err(WorkOrderOfOther)
      else if db.workOrders[w].status.Void? then Err(WorkOrderVoid)
      else if HasLiveInvoice(db, w) then Err(WorkOrderInvoiced)
      else Ok(db.workOrders[w].items)
  }

  /** The part of an existing credit balance that pays for the new invoice. */
  function AdvanceFor(offset: int, balance: int, grandTotal: int): int {
    if offset > 0 && balance < 0 then Min(grandTotal, Min(-balance, offset)) else 0
  }

  function IssueRead(db: Db, req: IssueRequest): Result<IssuePlan, LedgerError> {
    if req.customer !in db.customers then Err(CustomerNotFound)
    else
      var ordered := CheckWorkOrder(db, req);
      if ordered.Err? then Err(ordered.error)
      else
        var totals := TotalsOf(EffectiveItems(req, ordered.value));
        if totals.None? then Err(InvalidLine)
        else if !WithinTolerance(req.claim, totals.value) then Err(TotalsMismatch)
        else
          var account := AccountOf(db, req.customer);
          if account.blocked then Err(AccountBlocked)
          else
            var advance := AdvanceFor(req.offset, account.balance, totals.value.grandTotal);
            Ok(IssuePlan(req.customer, req.workOrder, totals.value, advance, req.number, req.year))
  }

  predicate NumberTaken(db: Db, number: string) {
    exists i :: 0 <= i < |db.invoices| && db.invoices[i].number == number
  }

  function NumberFor(db: Db, plan: IssuePlan): string {
    if WantsNumber(plan.number) then InvoiceNumber(plan.year, LastNumber(db, plan.year) + 1) else plan.number
  }

  function StatusFor(paid: int, remaining: int): InvoiceStatus {
    if remaining <= 0 then Paid else if paid > 0 then PartiallyPaid else Unpaid
  }

  function NewInvoice(db: Db, plan: IssuePlan): Invoice {
    var remaining := Max(0, plan.totals.grandTotal - plan.advance);
    Invoice(
      plan.customer, plan.workOrder, NumberFor(db, plan),
      if WantsNumber(plan.number) then Some(Serial(plan.year, LastNumber(db, plan.year) + 1)) else None,
      plan.totals.subtotal, plan.totals.tax, plan.totals.grandTotal,
      plan.advance, remaining, StatusFor(plan.advance, remaining))
  }

  function Post(db: Db, c: CustomerId, debit: int, credit: int, account: Account): Db {
    db.(accounts := db.accounts[c := account],
        movements := db.movements + [Movement(c, debit, credit, account.balance)])
  }

  /** The sequence row is only locked by the upsert here, so its number is read at commit. */
  function IssueWrite(db: Db, plan: IssuePlan): Result<Db, LedgerError> {
    if NumberTaken(db, NumberFor(db, plan)) then Err(DuplicateNumber)
    else if plan.workOrder.Some? && plan.workOrder.value !in db.workOrders then Err(WorkOrderNotFound)
    else
      var account := AccountOf(db, plan.customer);
      var grand := plan.totals.grandTotal;
      var posted := Post(db, plan.customer, grand, 0,
        account.(debits := account.debits + grand, balance := account.balance + grand));
      Ok(posted.(
        invoices := db.invoices + [NewInvoice(db, plan)],
        payments := if plan.advance > 0
          then db.payments + [Payment(plan.customer, Some(|db.invoices|), plan.advance, AdvanceOffset, None, false)]
          else db.payments,
        sequences := if WantsNumber(plan.number)
          then db.sequences[plan.year := LastNumber(db, plan.year) + 1]
          else db.sequences,
        workOrders := if plan.workOrder.Some?
          then db.workOrders[plan.workOrder.value := db.workOrders[plan.workOrder.value].(status := Completed)]
          else db.workOrders))
  }

  function Issue(db: Db, req: IssueRequest): Result<Db, LedgerError> {
    var plan := IssueRead(db, req);
    if plan.Err? then Err(plan.error) else IssueWrite(db, plan.value)
  }

  // ---- Recording a payment -------------------------------------------------------

  datatype PayRequest = PayRequest(
    invoice: Option<nat>, customer: Option<CustomerId>, amount: int, paymentMethod: PaymentMethod,
    referenced: bool, attempt: Option<nat>)

  datatype PayPlan =
    | Existing(payment: nat)
    | Fresh(req: PayRequest, customer: CustomerId, row: Option<Invoice>)

  /** The first payment recorded for a gateway attempt. */
  function FindPayment(payments: seq<Payment>, attempt: nat): (r: Option<nat>)
    ensures r.Some? ==> r.value < |payments| && payments[r.value].attempt == Some(attempt)
    ensures r.None? ==> forall k :: 0 <= k < |payments| ==> payments[k].attempt != Some(attempt)
  {
    if payments == [] then None
    else
      var earlier := FindPayment(payments[..|payments| - 1], attempt);
      if earlier.Some? then earlier
      else if payments[|payments| - 1].attempt == Some(attempt) then Some(|payments| - 1)
      else None
  }

  function Recorded(db: Db, req: PayRequest): Option<nat> {
    if req.attempt.Some? then FindPayment(db.payments, req.attempt.value) else None
  }

  function PayRead(db: Db, req: PayRequest, c: CustomerId): Result<PayPlan, LedgerError> {
    var recorded := Recorded(db, req);
    if recorded.Some? then Ok(Existing(recorded.value))
    else if req.invoice.None? then Ok(Fresh(req, c, None))
    else
      var i := req.invoice.value;
      if i >= |db.invoices| || db.invoices[i].status.Cancelled? || req.amount > db.invoices[i].remaining
      then Err(BalanceChanged)
      else Ok(Fresh(req, c, Some(db.invoices[i])))
  }

  /** The invoice row after a payment, computed from the row that was read. */
  function Settle(row: Invoice, seen: Invoice, amount: int): Invoice {
    var newPaid := seen.paid + amount;
    var newRemaining := seen.grandTotal - newPaid;
    row.(paid := newPaid,
         remaining := Max(0, newRemaining),
         status := if newRemaining <= 0 then Paid else PartiallyPaid)
  }

  function PayWrite(db: Db, plan: PayPlan): Db
    requires plan.Fresh? && plan.row.Some? ==> plan.req.invoice.Some? && plan.req.invoice.value < |db.invoices|
    requires plan.Fresh? && plan.req.attempt.Some? ==> plan.req.attempt.value < |db.attempts|
  {
    if plan.Existing? then db
    else
      var req, account := plan.req, AccountOf(db, plan.customer);
      var posted := Post(db, plan.customer, 0, req.amount,
        account.(credits := account.credits + req.amount, balance := account.balance - req.amount));
      posted.(
        invoices := if plan.row.Some?
          then db.invoices[req.invoice.value := Settle(db.invoices[req.invoice.value], plan.row.value, req.amount)]
          else db.invoices,
        payments := db.payments +
          [Payment(plan.customer, req.invoice, req.amount, req.paymentMethod, req.attempt, false)],
        attempts := if req.attempt.Some?
          then db.attempts[req.attempt.value := db.attempts[req.attempt.value].(paid := true)]
          else db.attempts)
  }

  function RecordPayment(db: Db, req: PayRequest, c: CustomerId): Result<Db, LedgerError>
    requires req.attempt.Some? ==> req.attempt.value < |db.attempts|
  {
    var plan := PayRead(db, req, c);
    if plan.Err? then Err(plan.error) else Ok(PayWrite(db, plan.value))
  }

  // ---- Cancelling an invoice -----------------------------------------------------

  datatype CancelPlan = CancelPlan(invoice: nat, row: Invoice, account: Option<Account>, seen: nat)

  function CancelRead(db: Db, i: nat): Result<CancelPlan, LedgerError> {
    if i >= |db.invoices| then Err(InvoiceNotFound)
    else if db.invoices[i].status.Cancelled? then Err(AlreadyCancelled)
    else
      var c := db.invoices[i].customer;
      Ok(CancelPlan(i, db.invoices[i], if c in db.accounts then Some(db.accounts[c]) else None, |db.payments|))
  }

  /** The first `seen` payments, with the note added to those attached to the invoice. */
  function CarryOver(payments: seq<Payment>, i: nat, seen: nat): (r: seq<Payment>)
    ensures |r| == |payments|
  {
    seq(|payments|, k requires 0 <= k < |payments| =>
      if k < seen && payments[k].invoice == Some(i) then payments[k].(carriedOver := true) else payments[k])
  }

  /** The account totals are overwritten with values computed from the row that was read. */
  function CancelWrite(db: Db, plan: CancelPlan): Db
    requires plan.invoice < |db.invoices|
  {
    var c, grand := plan.row.customer, plan.row.grandTotal;
    var row := db.invoices[plan.invoice];
    var reversed := if plan.account.None? then db
      else
        var debits := Max(0, plan.account.value.debits - grand);
        Post(db, c, 0, grand,
          AccountOf(db, c).(debits := debits, balance := debits - plan.account.value.credits))
          .(payments := CarryOver(db.payments, plan.invoice, plan.seen));
    reversed.(
      invoices := db.invoices[plan.invoice := row.(status := Cancelled, remaining := 0, workOrder := None)],
      workOrders := if plan.row.workOrder.Some? && plan.row.workOrder.value in db.workOrders
        then var w := plan.row.workOrder.value; db.workOrders[w := db.workOrders[w].(status := InProgress)]
        else db.workOrders)
  }

  function Cancel(db: Db, i: nat): Result<Db, LedgerError> {
    var plan := CancelRead(db, i);
    if plan.Err? then Err(plan.error) else Ok(CancelWrite(db, plan.value))
  }

  // ---- Opening a gateway attempt ---------------------------------------------------

  /** The amount of a new attempt, when the invoice can still be paid. */
  function AttemptAmount(db: Db, i: nat): Option<int> {
    if i >= |db.invoices| || db.invoices[i].status.Cancelled? || db.invoices[i].status.Paid? then None
    else
      var amount := db.invoices[i].grandTotal - db.invoices[i].paid;
      if amount <= 0 then None else Some(amount)
  }

  function OpenAttempt(db: Db, i: nat, amount: int): Db {
    db.(attempts := db.attempts + [Attempt(i, amount, false)])
  }
}
