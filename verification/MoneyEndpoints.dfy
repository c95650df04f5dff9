/** What each request against the money rows answers when nothing runs between its steps, from every
    reachable state. Here the protocol and the transactions are held against the conditions a caller
    could check beforehand. */
module MoneyEndpoints {
  import opened Iteration
  import opened Outcomes
  import opened Ledger
  import opened LedgerInvariants
  import opened MoneyProtocol
  import opened MoneyEffects

  function Turn(key: CustomerId -> int, pid: nat): Machine -> Machine {
    (m: Machine) => Next(key, m, Run(pid))
  }

  /** n steps of one process in a row. */
  function Runs(key: CustomerId -> int, m: Machine, pid: nat, n: nat): Machine {
    Iterate(Turn(key, pid), m, n)
  }

  /** The machine with this database and this process as its last one. */
  function With(m: Machine, db: Db, proc: Proc): Machine {
    Machine(db, m.locks, m.procs + [proc])
  }

  predicate LocksBelow(m: Machine) {
    forall k :: k in m.locks ==> m.locks[k] < |m.procs|
  }

  lemma {:induction false} LocksHaveOwners(key: CustomerId -> int, steps: seq<Step>)
    ensures LocksBelow(Exec(key, steps))
  {
    if steps != [] {
      LocksHaveOwners(key, steps[..|steps| - 1]);
    }
  }

  lemma StartAppends(key: CustomerId -> int, m: Machine, proc: Proc)
    requires Enters(proc)
    ensures Next(key, m, Start(proc)) == With(m, m.db, proc)
  {
  }

  /** The first of n steps, outside the transaction. */
  lemma UnlockedStep(key: CustomerId -> int, m: Machine, db: Db, proc: Proc, n: nat)
    requires !proc.Waiting? && !InTransaction(proc) && n > 0
    ensures Runs(key, With(m, db, proc), |m.procs|, n) ==
      Runs(key, With(m, RunUnlocked(db, proc).0, RunUnlocked(db, proc).1), |m.procs|, n - 1)
  {
    assert (m.procs + [proc])[|m.procs| := RunUnlocked(db, proc).1] == m.procs + [RunUnlocked(db, proc).1];
  }

  lemma {:induction false} FinishedStays(key: CustomerId -> int, m: Machine, db: Db, outcome: Outcome, n: nat)
    ensures Runs(key, With(m, db, Finished(outcome)), |m.procs|, n) == With(m, db, Finished(outcome))
  {
    if n > 0 {
      UnlockedStep(key, m, db, Finished(outcome), n);
      FinishedStays(key, m, db, outcome, n - 1);
    }
  }

  lemma LockStep(key: CustomerId -> int, m: Machine, db: Db, tx: Tx, c: CustomerId)
    requires key(c) !in m.locks
    ensures Next(key, With(m, db, Waiting(tx, c)), Run(|m.procs|)) ==
      With(m.(locks := m.locks[key(c) := |m.procs|]), db, Locked(tx, c))
  {
    var pid := |m.procs|;
    assert (m.procs + [Waiting(tx, c)])[pid := Locked(tx, c)] == m.procs + [Locked(tx, c)];
  }

  lemma ReleaseOwn(m: Machine, k: int)
    requires LocksBelow(m) && k !in m.locks
    ensures Release(m.locks[k := |m.procs|], |m.procs|) == m.locks
  {
    var released := Release(m.locks[k := |m.procs|], |m.procs|);
    forall j ensures j in released <==> j in m.locks {
      assert j in m.locks ==> m.locks[j] < |m.procs|;
    }
    assert released.Keys == m.locks.Keys;
  }

  /** What a transaction run without a break ends with. */
  function TxResult(db: Db, tx: Tx, c: CustomerId): (Db, Outcome) {
    var plan := ReadTx(db, tx, c);
    if plan.Err? || WriteTx(db, plan.value).Err? then (db, Failed)
    else (WriteTx(db, plan.value).value, CommitOutcome(db, tx, plan.value))
  }

  lemma ReadAndCommit(key: CustomerId -> int, m: Machine, db: Db, tx: Tx, c: CustomerId)
    requires LocksBelow(m) && key(c) !in m.locks
    ensures Runs(key, With(m.(locks := m.locks[key(c) := |m.procs|]), db, Locked(tx, c)), |m.procs|, 2) ==
      With(m, TxResult(db, tx, c).0, Finished(TxResult(db, tx, c).1))
  {
    var pid, locked := |m.procs|, m.(locks := m.locks[key(c) := |m.procs|]);
    ReleaseOwn(m, key(c));
    var plan := ReadTx(db, tx, c);
    if plan.Err? {
      assert (m.procs + [Locked(tx, c)])[pid := Finished(Failed)] == m.procs + [Finished(Failed)];
      assert Next(key, With(locked, db, Locked(tx, c)), Run(pid)) == With(m, db, Finished(Failed));
      FinishedStays(key, m, db, Failed, 1);
    } else {
      var planned := Planned(tx, c, plan.value);
      assert (m.procs + [Locked(tx, c)])[pid := planned] == m.procs + [planned];
      assert Next(key, With(locked, db, Locked(tx, c)), Run(pid)) == With(locked, db, planned);
      CommitAlone(key, m, db, tx, c, plan.value);
    }
  }

  lemma CommitAlone(key: CustomerId -> int, m: Machine, db: Db, tx: Tx, c: CustomerId, plan: Plan)
    requires LocksBelow(m) && key(c) !in m.locks && ReadTx(db, tx, c) == Ok(plan)
    ensures Runs(key, With(m.(locks := m.locks[key(c) := |m.procs|]), db, Planned(tx, c, plan)), |m.procs|, 1) ==
      With(m, TxResult(db, tx, c).0, Finished(TxResult(db, tx, c).1))
  {
    ReleaseOwn(m, key(c));
    var result := Finished(TxResult(db, tx, c).1);
    assert (m.procs + [Planned(tx, c, plan)])[|m.procs| := result] == m.procs + [result];
  }

  lemma TxAlone(key: CustomerId -> int, m: Machine, db: Db, tx: Tx, c: CustomerId)
    requires LocksBelow(m) && key(c) !in m.locks
    ensures Runs(key, With(m, db, Waiting(tx, c)), |m.procs|, 3) ==
      With(m, TxResult(db, tx, c).0, Finished(TxResult(db, tx, c).1))
  {
    LockStep(key, m, db, tx, c);
    ReadAndCommit(key, m, db, tx, c);
  }

  // ---- Issuing and cancelling -----------------------------------------------------------------

  /** A request for an invoice is done exactly when it is acceptable (`MoneyEffects.IssueAccepted`), with
      the effect of the transaction, and otherwise fails and changes no row; no lock is left behind. */
  lemma IssueAnswers(key: CustomerId -> int, steps: seq<Step>, req: IssueRequest)
    requires key(req.customer) !in Exec(key, steps).locks
    ensures var m := Exec(key, steps);
      var started := Next(key, m, Start(Waiting(IssueTx(req), req.customer)));
      Runs(key, started, |m.procs|, 3) ==
        if Issue(m.db, req).Ok? then With(m, Issue(m.db, req).value, Finished(Done))
        else With(m, m.db, Finished(Failed))
  {
    var m := Exec(key, steps);
    LocksHaveOwners(key, steps);
    StartAppends(key, m, Waiting(IssueTx(req), req.customer));
    TxAlone(key, m, m.db, IssueTx(req), req.customer);
  }

  /** A look at the rows that leads to a transaction, and the transaction. */
  lemma LookThenTx(key: CustomerId -> int, m: Machine, proc: Proc, tx: Tx, c: CustomerId)
    requires LocksBelow(m) && key(c) !in m.locks && !proc.Waiting? && !InTransaction(proc)
    requires RunUnlocked(m.db, proc) == (m.db, Waiting(tx, c))
    ensures Runs(key, With(m, m.db, proc), |m.procs|, 4) ==
      With(m, TxResult(m.db, tx, c).0, Finished(TxResult(m.db, tx, c).1))
  {
    UnlockedStep(key, m, m.db, proc, 4);
    TxAlone(key, m, m.db, tx, c);
  }

  lemma CancelNothing(key: CustomerId -> int, m: Machine, i: nat)
    requires i >= |m.db.invoices|
    ensures Runs(key, With(m, m.db, CancelStart(i)), |m.procs|, 4) == With(m, m.db, Finished(Failed))
  {
    UnlockedStep(key, m, m.db, CancelStart(i), 4);
    FinishedStays(key, m, m.db, Failed, 3);
  }

  lemma CancelResult(db: Db, i: nat)
    requires i < |db.invoices|
    ensures TxResult(db, CancelTx(i), db.invoices[i].customer) ==
      if Cancel(db, i).Ok? then (Cancel(db, i).value, Done) else (db, Failed)
  {
  }

  /** A cancellation is done exactly when the invoice exists and is live, with the effect of the
      transaction. */
  lemma CancelAnswers(key: CustomerId -> int, steps: seq<Step>, i: nat)
    requires var m := Exec(key, steps); i < |m.db.invoices| ==> key(m.db.invoices[i].customer) !in m.locks
    ensures var m := Exec(key, steps);
      var m' := Runs(key, Next(key, m, Start(CancelStart(i))), |m.procs|, 4);
      if i < |m.db.invoices| && !m.db.invoices[i].status.Cancelled?
      then Cancel(m.db, i).Ok? && m' == With(m, Cancel(m.db, i).value, Finished(Done))
      else m' == With(m, m.db, Finished(Failed))
  {
    var m := Exec(key, steps);
    EveryRunOk(key, steps);
    LocksHaveOwners(key, steps);
    StartAppends(key, m, CancelStart(i));
    CancellationLeaves(m.db, i);
    if i < |m.db.invoices| {
      LookThenTx(key, m, CancelStart(i), CancelTx(i), m.db.invoices[i].customer);
      CancelResult(m.db, i);
    } else {
      CancelNothing(key, m, i);
    }
  }

  lemma TokenAlone(key: CustomerId -> int, m: Machine, i: nat)
    requires i < |m.db.invoices| ==> InvoiceOk(m.db.invoices[i])
    ensures var open := i < |m.db.invoices| && !m.db.invoices[i].status.Cancelled? && m.db.invoices[i].remaining > 0;
      Runs(key, With(m, m.db, TokenStart(i)), |m.procs|, 2) ==
        if open
        then With(m, m.db.(attempts := m.db.attempts + [Attempt(i, m.db.invoices[i].remaining, false)]), Finished(Done))
        else With(m, m.db, Finished(Failed))
  {
    UnlockedStep(key, m, m.db, TokenStart(i), 2);
    UnlockedStep(key, m, m.db, RunUnlocked(m.db, TokenStart(i)).1, 1);
  }

  /** A gateway attempt is opened exactly for a live invoice with something remaining, for all of it. */
  lemma TokenAnswers(key: CustomerId -> int, steps: seq<Step>, i: nat)
    ensures var m := Exec(key, steps);
      var open := i < |m.db.invoices| && !m.db.invoices[i].status.Cancelled? && m.db.invoices[i].remaining > 0;
      Runs(key, Next(key, m, Start(TokenStart(i))), |m.procs|, 2) ==
        if open
        then With(m, m.db.(attempts := m.db.attempts + [Attempt(i, m.db.invoices[i].remaining, false)]), Finished(Done))
        else With(m, m.db, Finished(Failed))
  {
    var m := Exec(key, steps);
    EveryRunOk(key, steps);
    StartAppends(key, m, TokenStart(i));
    TokenAlone(key, m, i);
  }

  // ---- Paying -----------------------------------------------------------------------------------

  /** The customer a payment is for, once its checks have found one. */
  function Payer(db: Db, req: PayRequest): Option<CustomerId> {
    if req.invoice == None then req.customer
    else if req.invoice.value < |db.invoices| then Some(db.invoices[req.invoice.value].customer)
    else None
  }

  /** Whether a payment without a recorded gateway attempt can be booked. */
  predicate Payable(db: Db, req: PayRequest) {
    && req.amount > 0
    && Payer(db, req).Some? && Payer(db, req).value in db.customers
    && (req.invoice == None ==> req.referenced)
    && (req.invoice.Some? ==>
      && !db.invoices[req.invoice.value].status.Cancelled?
      && req.amount <= db.invoices[req.invoice.value].remaining
      && (req.customer == None || req.customer == Payer(db, req)))
  }

  lemma PayChecks(key: CustomerId -> int, m: Machine, req: PayRequest)
    requires InvoicesOk(m.db) && Recorded(m.db, req).None?
    ensures var n := if req.invoice.Some? then 3 else 2;
      Runs(key, With(m, m.db, PayStart(req)), |m.procs|, n) ==
        With(m, m.db, if Payable(m.db, req) then Waiting(PayTx(req), Payer(m.db, req).value) else Finished(Failed))
  {
    var db, n := m.db, if req.invoice.Some? then 3 else 2;
    UnlockedStep(key, m, db, PayStart(req), n);
    var second := RunUnlocked(db, PayStart(req)).1;
    if second.Finished? {
      FinishedStays(key, m, db, Failed, n - 1);
    } else if req.invoice.Some? {
      InvoiceChecks(key, m, req);
    } else {
      UnlockedStep(key, m, db, second, 1);
    }
  }

  lemma InvoiceChecks(key: CustomerId -> int, m: Machine, req: PayRequest)
    requires InvoicesOk(m.db) && req.invoice.Some? && req.amount > 0
    ensures Runs(key, With(m, m.db, PayInvoice(req)), |m.procs|, 2) ==
      With(m, m.db, if Payable(m.db, req) then Waiting(PayTx(req), Payer(m.db, req).value) else Finished(Failed))
  {
    var third := RunUnlocked(m.db, PayInvoice(req)).1;
    if req.invoice.value < |m.db.invoices| {
      assert InvoiceOk(m.db.invoices[req.invoice.value]);
    }
    UnlockedStep(key, m, m.db, PayInvoice(req), 2);
    UnlockedStep(key, m, m.db, third, 1);
  }

  /** The whole of a payment from its first check. */
  lemma PayAlone(key: CustomerId -> int, m: Machine, req: PayRequest)
    requires InvoicesOk(m.db) && LocksBelow(m) && Recorded(m.db, req).None?
    requires req.attempt.Some? ==> req.attempt.value < |m.db.attempts|
    requires Payer(m.db, req).Some? ==> key(Payer(m.db, req).value) !in m.locks
    ensures var n := if req.invoice.Some? then 6 else 5;
      Runs(key, With(m, m.db, PayStart(req)), |m.procs|, n) ==
        if Payable(m.db, req) && RecordPayment(m.db, req, Payer(m.db, req).value).Ok?
        then With(m, RecordPayment(m.db, req, Payer(m.db, req).value).value,
          Finished(PaidOutcome(req, |m.db.payments|)))
        else With(m, m.db, Finished(Failed))
    ensures Payable(m.db, req) ==> RecordPayment(m.db, req, Payer(m.db, req).value).Ok?
  {
    var k := if req.invoice.Some? then 3 else 2;
    PayChecks(key, m, req);
    IterateSplit(Turn(key, |m.procs|), With(m, m.db, PayStart(req)), k, 3);
    if Payable(m.db, req) {
      TxAlone(key, m, m.db, PayTx(req), Payer(m.db, req).value);
    } else {
      FinishedStays(key, m, m.db, Failed, 3);
    }
  }

  /** A payment at the till is booked exactly when the amount is positive, the customer is known, and it
      either pays at most what remains of a live invoice, of the customer named if one is, or carries a
      reference; it then has the effect of the transaction. Otherwise it fails and changes no row. */
  lemma PaymentAnswers(key: CustomerId -> int, steps: seq<Step>, req: PayRequest)
    requires req.attempt == None && !req.paymentMethod.AdvanceOffset?
    requires var m := Exec(key, steps); Payer(m.db, req).Some? ==> key(Payer(m.db, req).value) !in m.locks
    ensures var m := Exec(key, steps);
      var m' := Runs(key, Next(key, m, Start(PayStart(req))), |m.procs|, if req.invoice.Some? then 6 else 5);
      if Payable(m.db, req) then
        && RecordPayment(m.db, req, Payer(m.db, req).value).Ok?
        && m' == With(m, RecordPayment(m.db, req, Payer(m.db, req).value).value, Finished(Booked(|m.db.payments|)))
      else m' == With(m, m.db, Finished(Failed))
  {
    var m := Exec(key, steps);
    EveryRunOk(key, steps);
    LocksHaveOwners(key, steps);
    StartAppends(key, m, PayStart(req));
    PayAlone(key, m, req);
  }

  // ---- The gateway callback -----------------------------------------------------------------------

  /** Whether the money a success callback reports can be booked. */
  predicate Bookable(db: Db, a: nat, total: int)
    requires a < |db.attempts| && db.attempts[a].invoice < |db.invoices|
  {
    var row := db.invoices[db.attempts[a].invoice];
    total == db.attempts[a].amount && !row.status.Cancelled? && total <= row.remaining && row.customer in db.customers
  }

  /** The payment a success callback asks for. */
  function CallbackPayment(db: Db, a: nat, total: int): PayRequest
    requires a < |db.attempts| && db.attempts[a].invoice < |db.invoices|
  {
    var i := db.attempts[a].invoice;
    PayRequest(Some(i), Some(db.invoices[i].customer), total, Online, true, Some(a))
  }

  lemma CallbackChecks(key: CustomerId -> int, m: Machine, a: nat, total: int)
    requires InvoicesOk(m.db) && a < |m.db.attempts| && !m.db.attempts[a].paid
    requires m.db.attempts[a].invoice < |m.db.invoices| && m.db.attempts[a].amount > 0
    ensures var req := CallbackPayment(m.db, a, total);
      var i := m.db.attempts[a].invoice;
      Runs(key, With(m, m.db, HookStart(a, true, total)), |m.procs|, 2) ==
        With(m, m.db,
          if m.db.invoices[i].status.Paid? || total != m.db.attempts[a].amount then Finished(Failed) else PayStart(req))
    ensures Bookable(m.db, a, total) <==>
      && !m.db.invoices[m.db.attempts[a].invoice].status.Paid? && total == m.db.attempts[a].amount
      && Payable(m.db, CallbackPayment(m.db, a, total))
  {
    UnlockedStep(key, m, m.db, HookStart(a, true, total), 2);
    UnlockedStep(key, m, m.db, HookInvoice(a, true, total), 1);
    assert InvoiceOk(m.db.invoices[m.db.attempts[a].invoice]);
  }

  /** The last payment of the state after, when the callback booked it. */
  ghost predicate BookedFor(before: Db, after: Db, a: nat)
    requires a < |before.attempts| && before.attempts[a].invoice < |before.invoices|
  {
    var i := before.attempts[a].invoice;
    && var req := CallbackPayment(before, a, before.attempts[a].amount);
    && RecordPayment(before, req, before.invoices[i].customer) == Ok(after)
    && after.payments == before.payments +
      [Payment(before.invoices[i].customer, Some(i), before.attempts[a].amount, Online, Some(a), false)]
    && |after.attempts| == |before.attempts| && after.attempts[a].paid
    && |after.invoices| == |before.invoices|
    && after.invoices[i].paid == before.invoices[i].paid + before.attempts[a].amount
  }

  /** A success callback for an open attempt, run without a break: it is acknowledged exactly when the
      total is the attempt's amount, the invoice is live with at least that much remaining, and the
      customer is known; the payment, of this attempt, invoice and amount, is then the last one booked.
      In every other case it fails and changes no row. */
  lemma SuccessCallbackAnswers(key: CustomerId -> int, steps: seq<Step>, a: nat, total: int)
    requires a < |Exec(key, steps).db.attempts| && !Exec(key, steps).db.attempts[a].paid
    requires var m := Exec(key, steps);
      m.db.attempts[a].invoice < |m.db.invoices| ==>
        key(m.db.invoices[m.db.attempts[a].invoice].customer) !in m.locks
    ensures var m := Exec(key, steps);
      var m' := Runs(key, Next(key, m, Start(HookStart(a, true, total))), |m.procs|, 8);
      && m.db.attempts[a].invoice < |m.db.invoices|
      && m'.locks == m.locks && |m'.procs| == |m.procs| + 1
      && (if Bookable(m.db, a, total)
          then m'.procs[|m.procs|] == Finished(Acknowledged(a, true)) && BookedFor(m.db, m'.db, a)
          else m'.procs[|m.procs|] == Finished(Failed) && m'.db == m.db)
  {
    var m := Exec(key, steps);
    EveryRunOk(key, steps);
    LocksHaveOwners(key, steps);
    StartAppends(key, m, HookStart(a, true, total));
    CallbackAlone(key, m, a, total);
  }

  lemma CallbackAlone(key: CustomerId -> int, m: Machine, a: nat, total: int)
    requires Inv(m.db) && LocksBelow(m) && a < |m.db.attempts| && !m.db.attempts[a].paid
    requires m.db.attempts[a].invoice < |m.db.invoices|
    requires key(m.db.invoices[m.db.attempts[a].invoice].customer) !in m.locks
    ensures var m' := Runs(key, With(m, m.db, HookStart(a, true, total)), |m.procs|, 8);
      && m'.locks == m.locks && |m'.procs| == |m.procs| + 1
      && (if Bookable(m.db, a, total)
          then m'.procs[|m.procs|] == Finished(Acknowledged(a, true)) && BookedFor(m.db, m'.db, a)
          else m'.procs[|m.procs|] == Finished(Failed) && m'.db == m.db)
  {
    var req, i := CallbackPayment(m.db, a, total), m.db.attempts[a].invoice;
    NotRecorded(m.db, req, a);
    CallbackChecks(key, m, a, total);
    IterateSplit(Turn(key, |m.procs|), With(m, m.db, HookStart(a, true, total)), 2, 6);
    if m.db.invoices[i].status.Paid? || total != m.db.attempts[a].amount {
      FinishedStays(key, m, m.db, Failed, 6);
    } else {
      PayAlone(key, m, req);
      if Payable(m.db, req) {
        PaymentLeaves(m.db, req, m.db.invoices[i].customer);
      }
    }
  }

  lemma NotRecorded(db: Db, req: PayRequest, a: nat)
    requires AttemptsOk(db) && a < |db.attempts| && !db.attempts[a].paid && req.attempt == Some(a)
    ensures Recorded(db, req).None? && !Attempted(db, req)
  {
    assert !HasPayment(db, a);
  }

  lemma OtherCallbackAlone(key: CustomerId -> int, m: Machine, a: nat, success: bool, total: int)
    requires a < |m.db.attempts| ==> m.db.attempts[a].invoice < |m.db.invoices| && (m.db.attempts[a].paid || !success)
    ensures Runs(key, With(m, m.db, HookStart(a, success, total)), |m.procs|, 2) ==
      With(m, m.db, Finished(if a < |m.db.attempts| then Acknowledged(a, success) else Failed))
  {
    UnlockedStep(key, m, m.db, HookStart(a, success, total), 2);
    UnlockedStep(key, m, m.db, RunUnlocked(m.db, HookStart(a, success, total)).1, 1);
  }

  /** Every other callback changes no row: one for an attempt already paid and one that reports a failure
      are acknowledged, one for an unknown attempt fails. */
  lemma OtherCallbackAnswers(key: CustomerId -> int, steps: seq<Step>, a: nat, success: bool, total: int)
    requires var db := Exec(key, steps).db; a < |db.attempts| ==> db.attempts[a].paid || !success
    ensures var m := Exec(key, steps);
      Runs(key, Next(key, m, Start(HookStart(a, success, total))), |m.procs|, 2) ==
        With(m, m.db, Finished(if a < |m.db.attempts| then Acknowledged(a, success) else Failed))
  {
    var m := Exec(key, steps);
    EveryRunOk(key, steps);
    StartAppends(key, m, HookStart(a, success, total));
    OtherCallbackAlone(key, m, a, success, total);
  }

  /** A request that dies leaves no row changed and no lock behind. */
  lemma CrashLeavesNothing(key: CustomerId -> int, m: Machine, pid: nat)
    requires pid < |m.procs| && !m.procs[pid].Finished?
    ensures var m' := Next(key, m, Crash(pid));
      && m'.db == m.db && m'.procs[pid] == Finished(Failed)
      && forall k :: k in m'.locks <==> k in m.locks && m.locks[k] != pid
  {
  }
}
