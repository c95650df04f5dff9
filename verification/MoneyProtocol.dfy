/** Requests against the money rows, interleaved step by step.

    A payment, a gateway callback, an invoice, a cancellation and a gateway attempt each run as
    a process. Checks before the transaction are steps of their own and may read rows that are
    stale by the time they matter. A transaction takes the advisory lock of its customer, reads,
    and commits in three further steps; between them any process not waiting for the same lock
    may run. Nothing here is atomic beyond a single read or a single commit. */
module MoneyProtocol {
  import opened Outcomes
  import opened InvoiceTotals
  import opened Ledger
  import opened LedgerInvariants

  datatype Tx = PayTx(pay: PayRequest) | IssueTx(issue: IssueRequest) | CancelTx(invoice: nat)

  datatype Plan = PayPlanned(pay: PayPlan) | IssuePlanned(issue: IssuePlan) | CancelPlanned(cancel: CancelPlan)

  datatype Outcome =
    | Failed
    | Done
    | Booked(payment: nat)
    | Acknowledged(attempt: nat, success: bool)

  datatype Proc =
    // payments.service.ts create, before the transaction
    | PayStart(req: PayRequest)
    | PayInvoice(req: PayRequest)
    | PayCustomer(req: PayRequest, customer: CustomerId)
    // payments.service.ts handlePayTrWebhook
    | HookStart(attempt: nat, success: bool, total: int)
    | HookInvoice(attempt: nat, success: bool, total: int)
    // payments.service.ts createPayTrPaymentToken
    | TokenStart(invoice: nat)
    | TokenOpen(invoice: nat, amount: int)
    // the owner lookup of a cancellation
    | CancelStart(invoice: nat)
    // the three transactions
    | Waiting(tx: Tx, customer: CustomerId)
    | Locked(tx: Tx, customer: CustomerId)
    | Planned(tx: Tx, customer: CustomerId, plan: Plan)
    | Finished(outcome: Outcome)

  /** Advisory locks by key; the key is a hash of the customer and may collide. */
  datatype Machine = Machine(db: Db, locks: map<int, nat>, procs: seq<Proc>)

  const INITIAL := Machine(EMPTY, map[], [])

  datatype Step =
    | Start(proc: Proc)
    | Run(pid: nat)
    | Crash(pid: nat)
    | AddCustomer(customer: CustomerId)
    | RemoveCustomer(customer: CustomerId)
    | OpenAccount(customer: CustomerId)
    | SetBlocked(customer: CustomerId, blocked: bool)
    | AddWorkOrder(id: nat, workOrder: WorkOrder)
    | EditWorkOrder(id: nat, status: WorkOrderStatus, items: seq<Line>)

  /** How a request enters; a cashier cannot name a gateway attempt or the offset method. */
  predicate Enters(proc: Proc) {
    match proc
    case PayStart(req) => req.attempt.None? && !req.paymentMethod.AdvanceOffset?
    case HookStart(_, _, _) => true
    case TokenStart(_) => true
    case CancelStart(_) => true
    case Waiting(tx, customer) => tx.IssueTx? && tx.issue.customer == customer
    case _ => false
  }

  // ---- One step of one process -----------------------------------------------------

  /** The steps that only read, and the insert of a gateway attempt. */
  function RunUnlocked(db: Db, proc: Proc): (Db, Proc) {
    match proc
    case PayStart(req) =>
      if req.amount <= 0 then (db, Finished(Failed))
      else if Recorded(db, req).Some? then (db, Finished(PaidOutcome(req, Recorded(db, req).value)))
      else if req.invoice.Some? then (db, PayInvoice(req))
      else if req.customer.None? || !req.referenced then (db, Finished(Failed))
      else (db, PayCustomer(req, req.customer.value))
    case PayInvoice(req) =>
      if req.invoice.None? || req.invoice.value >= |db.invoices| then (db, Finished(Failed))
      else
        var row := db.invoices[req.invoice.value];
        if row.status.Cancelled? || row.status.Paid? || row.remaining <= 0 || req.amount > row.remaining
          || (req.customer.Some? && req.customer.value != row.customer)
        then (db, Finished(Failed))
        else (db, PayCustomer(req, row.customer))
    case PayCustomer(req, c) =>
      if c in db.customers then (db, Waiting(PayTx(req), c)) else (db, Finished(Failed))
    case HookStart(a, success, total) =>
      if a >= |db.attempts| then (db, Finished(Failed))
      else if db.attempts[a].paid then (db, Finished(Acknowledged(a, success)))
      else (db, HookInvoice(a, success, total))
    case HookInvoice(a, success, total) =>
      if a >= |db.attempts| || db.attempts[a].invoice >= |db.invoices| then (db, Finished(Failed))
      else if !success then (db, Finished(Acknowledged(a, false)))
      else
        var i, amount := db.attempts[a].invoice, db.attempts[a].amount;
        if db.invoices[i].status.Paid? || total != amount then (db, Finished(Failed))
        else (db, PayStart(PayRequest(Some(i), Some(db.invoices[i].customer), total, Online, true, Some(a))))
    case TokenStart(i) =>
      var amount := AttemptAmount(db, i);
      if amount.None? then (db, Finished(Failed)) else (db, TokenOpen(i, amount.value))
    case TokenOpen(i, amount) => (OpenAttempt(db, i, amount), Finished(Done))
    case CancelStart(i) =>
      if i < |db.invoices| then (db, Waiting(CancelTx(i), db.invoices[i].customer)) else (db, Finished(Failed))
    case _ => (db, proc)
  }

  /** A payment made for a gateway attempt is what lets the callback answer OK. */
  function PaidOutcome(req: PayRequest, payment: nat): Outcome {
    if req.attempt.Some? then Acknowledged(req.attempt.value, true) else Booked(payment)
  }

  function ReadTx(db: Db, tx: Tx, c: CustomerId): Result<Plan, LedgerError> {
    match tx
    case PayTx(req) =>
      var r := PayRead(db, req, c);
      if r.Ok? then Ok(PayPlanned(r.value)) else Err(r.error)
    case IssueTx(req) =>
      var r := IssueRead(db, req);
      if r.Ok? then Ok(IssuePlanned(r.value)) else Err(r.error)
    case CancelTx(i) =>
      var r := CancelRead(db, i);
      if r.Ok? then Ok(CancelPlanned(r.value)) else Err(r.error)
  }

  /** The commit; an update of a row that does not exist fails the transaction. */
  function WriteTx(db: Db, plan: Plan): Result<Db, LedgerError> {
    match plan
    case PayPlanned(p) =>
      if p.Fresh? && p.row.Some? && !(p.req.invoice.Some? && p.req.invoice.value < |db.invoices|)
      then Err(InvoiceNotFound)
      else if p.Fresh? && p.req.attempt.Some? && p.req.attempt.value >= |db.attempts| then Err(InvoiceNotFound)
      else Ok(PayWrite(db, p))
    case IssuePlanned(p) => IssueWrite(db, p)
    case CancelPlanned(p) => if p.invoice < |db.invoices| then Ok(CancelWrite(db, p)) else Err(InvoiceNotFound)
  }

  function CommitOutcome(db: Db, tx: Tx, plan: Plan): Outcome {
    match tx
    case PayTx(req) =>
      PaidOutcome(req, if plan.PayPlanned? && plan.pay.Existing? then plan.pay.payment else |db.payments|)
    case IssueTx(_) => Done
    case CancelTx(_) => Done
  }

  function Release(locks: map<int, nat>, pid: nat): map<int, nat> {
    map k | k in locks && locks[k] != pid :: locks[k]
  }

  function RunProc(key: CustomerId -> int, m: Machine, pid: nat): Machine
    requires pid < |m.procs|
  {
    match m.procs[pid]
    case Waiting(tx, c) =>
      if key(c) in m.locks then m
      else m.(locks := m.locks[key(c) := pid], procs := m.procs[pid := Locked(tx, c)])
    case Locked(tx, c) =>
      var plan := ReadTx(m.db, tx, c);
      if plan.Ok? then m.(procs := m.procs[pid := Planned(tx, c, plan.value)])
      else m.(locks := Release(m.locks, pid), procs := m.procs[pid := Finished(Failed)])
    case Planned(tx, c, plan) =>
      var written := WriteTx(m.db, plan);
      Machine(
        if written.Ok? then written.value else m.db,
        Release(m.locks, pid),
        m.procs[pid := Finished(if written.Ok? then CommitOutcome(m.db, tx, plan) else Failed)])
    case _ =>
      var (db, proc) := RunUnlocked(m.db, m.procs[pid]);
      m.(db := db, procs := m.procs[pid := proc])
  }

  /** Changes made by the rest of the application to rows the transactions only look at. */
  function Elsewhere(db: Db, step: Step): Db {
    match step
    case AddCustomer(c) => db.(customers := db.customers + {c})
    case RemoveCustomer(c) => db.(customers := db.customers - {c})
    case OpenAccount(c) => if c in db.accounts then db else db.(accounts := db.accounts[c := AccountOf(db, c)])
    case SetBlocked(c, b) => db.(accounts := db.accounts[c := AccountOf(db, c).(blocked := b)])
    case AddWorkOrder(w, row) => if w in db.workOrders then db else db.(workOrders := db.workOrders[w := row])
    case EditWorkOrder(w, status, items) =>
      if w in db.workOrders
      then db.(workOrders := db.workOrders[w := db.workOrders[w].(status := status, items := items)])
      else db
    case _ => db
  }

  function Next(key: CustomerId -> int, m: Machine, step: Step): Machine {
    match step
    case Start(proc) => if Enters(proc) then m.(procs := m.procs + [proc]) else m
    case Run(pid) => if pid < |m.procs| then RunProc(key, m, pid) else m
    case Crash(pid) =>
      if pid < |m.procs| && !m.procs[pid].Finished?
      then m.(locks := Release(m.locks, pid), procs := m.procs[pid := Finished(Failed)])
      else m
    case _ => m.(db := Elsewhere(m.db, step))
  }

  function Exec(key: CustomerId -> int, steps: seq<Step>): Machine {
    if steps == [] then INITIAL else Next(key, Exec(key, steps[..|steps| - 1]), steps[|steps| - 1])
  }

  // ---- What changes and what does not ------------------------------------------------

  /** Rows are never removed, and the columns a plan relies on for good are never rewritten. */
  ghost predicate Extends(db: Db, db': Db) {
    && |db.invoices| <= |db'.invoices| && |db.payments| <= |db'.payments| && |db.attempts| <= |db'.attempts|
    && (forall i :: 0 <= i < |db.invoices| ==> db'.invoices[i].customer == db.invoices[i].customer)
    && (forall k :: 0 <= k < |db.payments| ==>
      db'.payments[k].attempt == db.payments[k].attempt && db'.payments[k].invoice == db.payments[k].invoice)
    && (forall a :: 0 <= a < |db.attempts| ==>
      db'.attempts[a].invoice == db.attempts[a].invoice && db'.attempts[a].amount == db.attempts[a].amount)
    && (forall w :: w in db.workOrders ==>
      w in db'.workOrders && db'.workOrders[w].customer == db.workOrders[w].customer)
  }

  /** The money rows of one customer are the same in both states. */
  ghost predicate SameFor(db: Db, db': Db, c: CustomerId) {
    && (forall i :: 0 <= i < |db'.invoices| && db'.invoices[i].customer == c ==>
      i < |db.invoices| && db'.invoices[i] == db.invoices[i])
    && (forall k :: 0 <= k < |db'.payments| && db'.payments[k].customer == c ==> k < |db.payments|)
    && AccountOf(db', c).debits == AccountOf(db, c).debits
    && AccountOf(db', c).credits == AccountOf(db, c).credits
    && AccountOf(db', c).balance == AccountOf(db, c).balance
    && (c in db.accounts ==> c in db'.accounts)
  }

  ghost predicate ChangesOnly(db: Db, db': Db, d: CustomerId) {
    Extends(db, db') && forall c: CustomerId :: c != d ==> SameFor(db, db', c)
  }

  ghost predicate ChangesNobody(db: Db, db': Db) {
    Extends(db, db') && forall c: CustomerId :: SameFor(db, db', c)
  }

  ghost predicate TxOk(db: Db, tx: Tx, c: CustomerId) {
    match tx
    case PayTx(req) => PayRequestOk(db, req, c)
    case IssueTx(req) => req.customer == c
    case CancelTx(i) => i < |db.invoices| && db.invoices[i].customer == c
  }

  ghost predicate PlanOk(db: Db, tx: Tx, c: CustomerId, plan: Plan) {
    match tx
    case PayTx(req) =>
      && plan.PayPlanned? && PayPlanOk(db, plan.pay)
      && (plan.pay.Existing? ==> db.payments[plan.pay.payment].attempt == req.attempt && req.attempt.Some?)
      && (plan.pay.Fresh? ==> plan.pay.req == req && plan.pay.customer == c)
    case IssueTx(req) =>
      && plan.IssuePlanned? && IssuePlanOk(db, plan.issue)
      && plan.issue.customer == c && plan.issue.workOrder == req.workOrder
      && plan.issue.number == req.number && plan.issue.year == req.year
      && plan.issue.advance == AdvanceFor(req.offset, AccountOf(db, c).balance, plan.issue.totals.grandTotal)
    case CancelTx(i) =>
      && plan.CancelPlanned? && CancelPlanOk(db, plan.cancel)
      && plan.cancel.invoice == i && plan.cancel.row.customer == c
  }

  /** What a plan saw is still what the rows say, as long as its customer's rows are untouched. */
  lemma PlanStable(db: Db, db': Db, tx: Tx, c: CustomerId, plan: Plan)
    requires PaymentsOk(db') && WorkOrdersOk(db') && TxOk(db, tx, c) && PlanOk(db, tx, c, plan)
    requires Extends(db, db') && SameFor(db, db', c)
    ensures PlanOk(db', tx, c, plan)
  {
    match tx
    case PayTx(req) => PayPlanStable(db, db', req, c, plan.pay);
    case IssueTx(req) => IssuePlanStable(db, db', plan.issue);
    case CancelTx(i) => CancelPlanStable(db, db', plan.cancel);
  }

  lemma PayPlanStable(db: Db, db': Db, req: PayRequest, c: CustomerId, plan: PayPlan)
    requires PaymentsOk(db') && PayRequestOk(db, req, c) && PayPlanOk(db, plan)
    requires plan.Fresh? ==> plan.req == req && plan.customer == c
    requires Extends(db, db') && SameFor(db, db', c)
    ensures PayPlanOk(db', plan)
  {
    forall k | 0 <= k < |db'.payments| && plan.Fresh? && req.attempt.Some?
      ensures db'.payments[k].attempt != req.attempt
    {
      assert PaymentOk(db', db'.payments[k]);
      assert k < |db.payments| ==> db'.payments[k].attempt == db.payments[k].attempt;
    }
  }

  lemma IssuePlanStable(db: Db, db': Db, plan: IssuePlan)
    requires WorkOrdersOk(db') && IssuePlanOk(db, plan)
    requires Extends(db, db') && SameFor(db, db', plan.customer)
    ensures IssuePlanOk(db', plan)
  {
    forall i | 0 <= i < |db'.invoices| && plan.workOrder.Some?
      ensures db'.invoices[i].workOrder != plan.workOrder || db'.invoices[i].status.Cancelled?
    {
      if db'.invoices[i].customer == plan.customer {
        assert db'.invoices[i] == db.invoices[i];
      }
    }
  }

  lemma CancelPlanStable(db: Db, db': Db, plan: CancelPlan)
    requires PaymentsOk(db') && CancelPlanOk(db, plan)
    requires Extends(db, db') && SameFor(db, db', plan.row.customer)
    ensures CancelPlanOk(db', plan)
  {
    assert db'.invoices[plan.invoice].customer == plan.row.customer;
    forall k | plan.seen <= k < |db'.payments| ensures db'.payments[k].invoice != Some(plan.invoice) {
      assert PaymentOk(db', db'.payments[k]);
    }
  }

  lemma PaymentsStay(db: Db, db': Db, a: nat)
    requires Extends(db, db') && HasPayment(db, a)
    ensures HasPayment(db', a)
  {
    var k :| 0 <= k < |db.payments| && db.payments[k].attempt == Some(a);
    assert db'.payments[k].attempt == Some(a);
  }

  lemma IssueChangesOnly(db: Db, plan: IssuePlan)
    requires IssueWrite(db, plan).Ok?
    ensures ChangesOnly(db, IssueWrite(db, plan).value, plan.customer)
  {
  }

  lemma PayChangesOnly(db: Db, plan: PayPlan, c: CustomerId)
    requires PayPlanOk(db, plan) && (plan.Fresh? ==> plan.customer == c)
    ensures ChangesOnly(db, PayWrite(db, plan), c)
  {
  }

  lemma CancelChangesOnly(db: Db, plan: CancelPlan)
    requires CancelPlanOk(db, plan)
    ensures ChangesOnly(db, CancelWrite(db, plan), plan.row.customer)
  {
  }

  /** A commit touches the rows of its own customer only. */
  lemma WriteChangesOnly(db: Db, tx: Tx, c: CustomerId, plan: Plan)
    requires PlanOk(db, tx, c, plan) && WriteTx(db, plan).Ok?
    ensures ChangesOnly(db, WriteTx(db, plan).value, c)
  {
    match plan
    case PayPlanned(p) => PayChangesOnly(db, p, c);
    case IssuePlanned(p) => IssueChangesOnly(db, p);
    case CancelPlanned(p) => CancelChangesOnly(db, p);
  }

  lemma WriteKeepsInv(db: Db, tx: Tx, c: CustomerId, plan: Plan)
    requires Inv(db) && PlanOk(db, tx, c, plan) && WriteTx(db, plan).Ok?
    ensures Inv(WriteTx(db, plan).value)
  {
    match plan
    case PayPlanned(p) => PayKeepsInv(db, p);
    case IssuePlanned(p) => IssueKeepsInv(db, p);
    case CancelPlanned(p) => CancelKeepsInv(db, p);
  }

  lemma ReadGivesPlan(db: Db, tx: Tx, c: CustomerId)
    requires Inv(db) && TxOk(db, tx, c) && ReadTx(db, tx, c).Ok?
    ensures PlanOk(db, tx, c, ReadTx(db, tx, c).value)
  {
    match tx
    case PayTx(req) => PayReadOk(db, req, c);
    case IssueTx(req) => IssueReadOk(db, req);
    case CancelTx(i) => CancelReadOk(db, i);
  }

  /** The money tables are the same, and what surrounds them keeps its shape. */
  ghost predicate SameMoney(db: Db, db': Db) {
    && db'.invoices == db.invoices && db'.payments == db.payments && db'.attempts == db.attempts
    && db'.movements == db.movements && db'.sequences == db.sequences
    && (forall c: CustomerId ::
      AccountOf(db', c) == AccountOf(db, c).(blocked := AccountOf(db', c).blocked)
      && (c in db.accounts ==> c in db'.accounts))
    && (forall w :: w in db.workOrders ==>
      w in db'.workOrders && db'.workOrders[w].customer == db.workOrders[w].customer)
  }

  lemma SameMoneyChangesNobody(db: Db, db': Db)
    requires SameMoney(db, db')
    ensures ChangesNobody(db, db')
  {
  }

  lemma SameMoneyKeepsInv(db: Db, db': Db)
    requires Inv(db) && SameMoney(db, db')
    ensures Inv(db')
  {
    forall c: CustomerId ensures AccountOk(db', c) && LogOk(db', c) {
      assert AccountOk(db, c) && LogOk(db, c);
    }
    forall k | 0 <= k < |db'.payments| ensures PaymentOk(db', db'.payments[k]) {
      assert PaymentOk(db, db.payments[k]);
    }
    forall a | 0 <= a < |db'.attempts| ensures HasPayment(db', a) <==> HasPayment(db, a) {
    }
    forall year: nat ensures SerialsOf(db'.invoices, year) == OneTo(LastNumber(db', year)) {
      assert SerialsOf(db.invoices, year) == OneTo(LastNumber(db, year));
    }
  }

  lemma ElsewhereSameMoney(db: Db, step: Step)
    ensures SameMoney(db, Elsewhere(db, step))
  {
  }

  // ---- The invariant of the machine -----------------------------------------------------

  ghost predicate HoldsLock(key: CustomerId -> int, m: Machine, pid: nat, c: CustomerId) {
    key(c) in m.locks && m.locks[key(c)] == pid
  }

  ghost predicate AttemptIs(db: Db, req: PayRequest) {
    req.attempt.Some? ==>
      && req.attempt.value < |db.attempts|
      && req.invoice == Some(db.attempts[req.attempt.value].invoice)
      && req.amount == db.attempts[req.attempt.value].amount
  }

  /** What a process may rely on, whatever the others have done since it last looked. */
  ghost predicate Knows(db: Db, proc: Proc) {
    match proc
    case PayStart(req) => !req.paymentMethod.AdvanceOffset? && AttemptIs(db, req)
    case PayInvoice(req) => !req.paymentMethod.AdvanceOffset? && AttemptIs(db, req) && req.amount > 0
    case PayCustomer(req, c) => PayRequestOk(db, req, c)
    case TokenOpen(i, amount) => i < |db.invoices| && amount > 0
    case Waiting(tx, c) => TxOk(db, tx, c)
    case Locked(tx, c) => TxOk(db, tx, c)
    case Planned(tx, c, plan) => TxOk(db, tx, c) && PlanOk(db, tx, c, plan)
    case Finished(outcome) =>
      && (outcome.Acknowledged? && outcome.success ==> HasPayment(db, outcome.attempt))
      && (outcome.Booked? ==> outcome.payment < |db.payments|)
    case _ => true
  }

  predicate InTransaction(proc: Proc) {
    proc.Locked? || proc.Planned?
  }

  ghost predicate ProcOk(key: CustomerId -> int, m: Machine, pid: nat)
    requires pid < |m.procs|
  {
    var proc := m.procs[pid];
    Knows(m.db, proc) && (InTransaction(proc) ==> HoldsLock(key, m, pid, proc.customer))
  }

  ghost predicate MachineOk(key: CustomerId -> int, m: Machine) {
    Inv(m.db) && forall pid :: 0 <= pid < |m.procs| ==> ProcOk(key, m, pid)
  }

  /** Another process keeps what it knows when the rows of its customer are left alone. */
  lemma KnowsStable(db: Db, db': Db, proc: Proc)
    requires PaymentsOk(db') && WorkOrdersOk(db') && Knows(db, proc) && Extends(db, db')
    requires proc.Planned? ==> SameFor(db, db', proc.customer)
    ensures Knows(db', proc)
  {
    match proc
    case Planned(tx, c, plan) => PlanStable(db, db', tx, c, plan);
    case Finished(outcome) =>
      if outcome.Acknowledged? && outcome.success {
        PaymentsStay(db, db', outcome.attempt);
      }
    case _ =>
  }

  lemma UnlockedKnows(db: Db, proc: Proc)
    requires Knows(db, proc) && !proc.Waiting? && !InTransaction(proc)
    requires forall a :: 0 <= a < |db.attempts| && db.attempts[a].paid ==> HasPayment(db, a)
    requires forall a :: 0 <= a < |db.attempts| ==> db.attempts[a].amount > 0
    ensures Knows(db, RunUnlocked(db, proc).1) || proc.TokenOpen?
  {
    match proc
    case PayStart(req) =>
      if req.amount > 0 && Recorded(db, req).Some? {
        assert HasPayment(db, req.attempt.value) by {
          assert db.payments[Recorded(db, req).value].attempt == req.attempt;
        }
      }
    case _ =>
  }

  lemma OpenAttemptChangesNobody(db: Db, i: nat, amount: int)
    ensures ChangesNobody(db, OpenAttempt(db, i, amount))
  {
  }

  predicate Writes(proc: Proc) {
    proc.Planned? || proc.TokenOpen?
  }

  /** Every step but a commit and the insert of an attempt leaves the rows alone. */
  lemma ReadingStep(key: CustomerId -> int, m: Machine, pid: nat)
    requires Inv(m.db) && pid < |m.procs| && ProcOk(key, m, pid) && !Writes(m.procs[pid])
    ensures RunProc(key, m, pid).db == m.db && Knows(m.db, RunProc(key, m, pid).procs[pid])
  {
    var proc := m.procs[pid];
    if proc.Locked? {
      if ReadTx(m.db, proc.tx, proc.customer).Ok? {
        ReadGivesPlan(m.db, proc.tx, proc.customer);
      }
    } else if !proc.Waiting? {
      UnlockedKnows(m.db, proc);
    }
  }

  /** What one step of a process does to the rows, and what the process knows afterwards. */
  lemma StepFrame(key: CustomerId -> int, m: Machine, pid: nat)
    requires Inv(m.db) && pid < |m.procs| && ProcOk(key, m, pid)
    ensures var db' := RunProc(key, m, pid).db;
      && Inv(db') && Extends(m.db, db') && Knows(db', RunProc(key, m, pid).procs[pid])
      && (m.procs[pid].Planned? ==> ChangesOnly(m.db, db', m.procs[pid].customer))
      && (!m.procs[pid].Planned? ==> ChangesNobody(m.db, db'))
  {
    var proc := m.procs[pid];
    if proc.Planned? {
      CommitStep(key, m, pid);
    } else if proc.TokenOpen? {
      OpenAttemptKeepsInv(m.db, proc.invoice, proc.amount);
      OpenAttemptChangesNobody(m.db, proc.invoice, proc.amount);
    } else {
      ReadingStep(key, m, pid);
      SameMoneyChangesNobody(m.db, m.db);
    }
  }

  /** The committing process ends knowing that its payment exists. */
  lemma CommitStep(key: CustomerId -> int, m: Machine, pid: nat)
    requires Inv(m.db) && pid < |m.procs| && m.procs[pid].Planned? && ProcOk(key, m, pid)
    ensures var m' := RunProc(key, m, pid);
      && Inv(m'.db) && Knows(m'.db, m'.procs[pid]) && m'.procs[pid].Finished?
      && ChangesOnly(m.db, m'.db, m.procs[pid].customer)
  {
    var Planned(tx, c, plan) := m.procs[pid];
    if WriteTx(m.db, plan).Ok? {
      WriteKeepsInv(m.db, tx, c, plan);
      WriteChangesOnly(m.db, tx, c, plan);
      var db' := WriteTx(m.db, plan).value;
      if tx.PayTx? && tx.pay.attempt.Some? {
        var k := if plan.pay.Existing? then plan.pay.payment else |m.db.payments|;
        assert db'.payments[k].attempt == tx.pay.attempt;
        assert HasPayment(db', tx.pay.attempt.value);
      }
    } else {
      SameMoneyChangesNobody(m.db, m.db);
    }
  }

  lemma LocksKept(key: CustomerId -> int, m: Machine, pid: nat, q: nat)
    requires pid < |m.procs| && q < |m.procs| && ProcOk(key, m, q)
    requires q != pid && InTransaction(m.procs[q])
    ensures HoldsLock(key, RunProc(key, m, pid), q, m.procs[q].customer)
  {
  }

  /** A process that did not run keeps what it knows: two holders have two customers. */
  lemma OtherKeeps(key: CustomerId -> int, m: Machine, pid: nat, q: nat)
    requires pid < |m.procs| && q < |m.procs| && q != pid && ProcOk(key, m, pid) && ProcOk(key, m, q)
    requires var db' := RunProc(key, m, pid).db;
      && PaymentsOk(db') && WorkOrdersOk(db') && Extends(m.db, db')
      && (m.procs[pid].Planned? ==> ChangesOnly(m.db, db', m.procs[pid].customer))
      && (!m.procs[pid].Planned? ==> ChangesNobody(m.db, db'))
    ensures ProcOk(key, RunProc(key, m, pid), q)
  {
    var other := m.procs[q];
    if InTransaction(other) {
      LocksKept(key, m, pid, q);
      assert m.procs[pid].Planned? ==> m.procs[pid].customer != other.customer;
    }
    KnowsStable(m.db, RunProc(key, m, pid).db, other);
  }

  /** A process inside its transaction after the step holds the lock of its customer. */
  lemma RunnerLocks(key: CustomerId -> int, m: Machine, pid: nat)
    requires pid < |m.procs| && ProcOk(key, m, pid)
    ensures var proc := RunProc(key, m, pid).procs[pid];
      InTransaction(proc) ==> HoldsLock(key, RunProc(key, m, pid), pid, proc.customer)
  {
  }

  lemma OthersKeep(key: CustomerId -> int, m: Machine, pid: nat)
    requires MachineOk(key, m) && pid < |m.procs|
    requires var db' := RunProc(key, m, pid).db;
      && PaymentsOk(db') && WorkOrdersOk(db') && Extends(m.db, db')
      && (m.procs[pid].Planned? ==> ChangesOnly(m.db, db', m.procs[pid].customer))
      && (!m.procs[pid].Planned? ==> ChangesNobody(m.db, db'))
    ensures forall q :: 0 <= q < |m.procs| && q != pid ==> ProcOk(key, RunProc(key, m, pid), q)
  {
    assert ProcOk(key, m, pid);
    forall q | 0 <= q < |m.procs| && q != pid ensures ProcOk(key, RunProc(key, m, pid), q) {
      assert ProcOk(key, m, q);
      OtherKeeps(key, m, pid, q);
    }
  }

  lemma RunKeeps(key: CustomerId -> int, m: Machine, pid: nat)
    requires MachineOk(key, m) && pid < |m.procs|
    ensures MachineOk(key, RunProc(key, m, pid))
  {
    assert ProcOk(key, m, pid);
    StepFrame(key, m, pid);
    RunnerLocks(key, m, pid);
    OthersKeep(key, m, pid);
  }

  lemma StartKeeps(key: CustomerId -> int, m: Machine, proc: Proc)
    requires MachineOk(key, m) && Enters(proc)
    ensures MachineOk(key, m.(procs := m.procs + [proc]))
  {
    var m' := m.(procs := m.procs + [proc]);
    forall q | 0 <= q < |m'.procs| ensures ProcOk(key, m', q) {
      if q < |m.procs| {
        assert ProcOk(key, m, q);
      }
    }
  }

  lemma CrashKeeps(key: CustomerId -> int, m: Machine, pid: nat)
    requires MachineOk(key, m) && pid < |m.procs|
    ensures MachineOk(key, m.(locks := Release(m.locks, pid), procs := m.procs[pid := Finished(Failed)]))
  {
    var m' := m.(locks := Release(m.locks, pid), procs := m.procs[pid := Finished(Failed)]);
    forall q | 0 <= q < |m'.procs| ensures ProcOk(key, m', q) {
      assert ProcOk(key, m, q);
    }
  }

  lemma ElsewhereKeeps(key: CustomerId -> int, m: Machine, step: Step)
    requires MachineOk(key, m)
    ensures MachineOk(key, m.(db := Elsewhere(m.db, step)))
  {
    var m' := m.(db := Elsewhere(m.db, step));
    ElsewhereSameMoney(m.db, step);
    SameMoneyKeepsInv(m.db, m'.db);
    SameMoneyChangesNobody(m.db, m'.db);
    forall q | 0 <= q < |m'.procs| ensures ProcOk(key, m', q) {
      assert ProcOk(key, m, q);
      KnowsStable(m.db, m'.db, m.procs[q]);
    }
  }

  lemma NextKeeps(key: CustomerId -> int, m: Machine, step: Step)
    requires MachineOk(key, m)
    ensures MachineOk(key, Next(key, m, step))
  {
    match step
    case Start(proc) =>
      if Enters(proc) {
        StartKeeps(key, m, proc);
      }
    case Run(pid) =>
      if pid < |m.procs| {
        RunKeeps(key, m, pid);
      }
    case Crash(pid) =>
      if pid < |m.procs| {
        CrashKeeps(key, m, pid);
      }
    case _ => ElsewhereKeeps(key, m, step);
  }

  /** Every interleaving of every set of requests keeps the invariant, whatever the hash. */
  lemma {:induction false} EveryRunOk(key: CustomerId -> int, steps: seq<Step>)
    ensures MachineOk(key, Exec(key, steps))
  {
    if steps == [] {
      EmptyOk();
    } else {
      EveryRunOk(key, steps[..|steps| - 1]);
      NextKeeps(key, Exec(key, steps[..|steps| - 1]), steps[|steps| - 1]);
    }
  }
}
