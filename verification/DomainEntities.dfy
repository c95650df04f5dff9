/** The in-memory invoice and current account, and how far the stored rows agree with them. */
module DomainEntities {
  import opened Outcomes
  import opened Sums
  import opened Ledger
  import opened LedgerInvariants

  datatype EntityError = NonPositive | MoreThanRemaining | NotCancellable | Blocked

  // ---- Invoice --------------------------------------------------------------------

  /** The invoice after a payment, as the entity computes it. */
  function EntityPay(row: Invoice, amount: int): Result<Invoice, EntityError> {
    if amount <= 0 then Err(NonPositive)
    else if amount > row.remaining then Err(MoreThanRemaining)
    else
      var paid := row.paid + amount;
      var remaining := row.grandTotal - paid;
      Ok(row.(paid := paid, remaining := remaining, status := if remaining <= 0 then Paid else PartiallyPaid))
  }

  function EntityCancel(row: Invoice): Result<Invoice, EntityError> {
    if row.status.Cancelled? then Err(NotCancellable) else Ok(row.(status := Cancelled))
  }

  class InvoiceEntity {
    ghost const loaded: Invoice
    const grandTotal: int
    var paidAmount: int
    var remainingAmount: int
    var status: InvoiceStatus

    constructor (row: Invoice)
      ensures Row() == row && loaded == row
    {
      loaded := row;
      grandTotal, paidAmount, remainingAmount, status := row.grandTotal, row.paid, row.remaining, row.status;
    }

    ghost function Row(): Invoice
      reads this
    {
      loaded.(grandTotal := grandTotal, paid := paidAmount, remaining := remainingAmount, status := status)
    }

    method RecordPayment(amount: int) returns (r: Option<EntityError>)
      modifies this
      ensures r.None? ==> EntityPay(old(Row()), amount) == Ok(Row())
      ensures r.Some? ==> EntityPay(old(Row()), amount) == Err(r.value) && Row() == old(Row())
    {
      if amount <= 0 {
        return Some(NonPositive);
      }
      if amount > remainingAmount {
        return Some(MoreThanRemaining);
      }
      paidAmount := paidAmount + amount;
      remainingAmount := grandTotal - paidAmount;
      status := if remainingAmount <= 0 then Paid else PartiallyPaid;
      return None;
    }

    method Cancel() returns (r: Option<EntityError>)
      modifies this`status
      ensures r.None? ==> EntityCancel(old(Row())) == Ok(Row())
      ensures r.Some? ==> EntityCancel(old(Row())) == Err(r.value) && Row() == old(Row())
    {
      if status.Cancelled? {
        return Some(NotCancellable);
      }
      status := Cancelled;
      return None;
    }
  }

  /** A payment attached to an invoice is accepted under the lock exactly when the entity accepts
      it, and leaves the same row; a gateway attempt already recorded is answered before that. */
  lemma PaymentAgreesWithEntity(db: Db, req: PayRequest, c: CustomerId)
    requires InvoicesOk(db) && PayRequestOk(db, req, c) && req.invoice.Some?
    requires Recorded(db, req).None?
    ensures var row := db.invoices[req.invoice.value];
      && (RecordPayment(db, req, c).Ok? <==> EntityPay(row, req.amount).Ok?)
      && (RecordPayment(db, req, c).Ok? ==>
        RecordPayment(db, req, c).value.invoices[req.invoice.value] == EntityPay(row, req.amount).value)
  {
    assert InvoiceOk(db.invoices[req.invoice.value]);
  }

  /** The entity keeps the remaining amount when it is cancelled, so it still takes payments, and
      one brings it back to life; the stored row never does. */
  lemma EntityForgetsCancellation(row: Invoice)
    requires !row.status.Cancelled?
    ensures (exists amount :: EntityPay(EntityCancel(row).value, amount).Ok?) <==> row.remaining > 0
    ensures forall amount :: EntityPay(EntityCancel(row).value, amount).Ok? ==>
      !EntityPay(EntityCancel(row).value, amount).value.status.Cancelled?
  {
    if row.remaining > 0 {
      assert EntityPay(EntityCancel(row).value, 1).Ok?;
    }
  }

  lemma CancelledRowTakesNoPayment(db: Db, i: nat, amount: int)
    requires InvoicesOk(db) && i < |db.invoices| && db.invoices[i].status.Cancelled?
    ensures EntityPay(db.invoices[i], amount).Err?
  {
    assert InvoiceOk(db.invoices[i]);
  }

  // ---- Current account --------------------------------------------------------------

  /** movements is newest first. */
  datatype EntityAccount = EntityAccount(
    totalDebits: int, totalCredits: int, balance: int, blocked: bool, movements: seq<Movement>)

  function Posted(a: EntityAccount, c: CustomerId, debit: int, credit: int): EntityAccount {
    var balance := a.balance + debit - credit;
    EntityAccount(a.totalDebits + debit, a.totalCredits + credit, balance, a.blocked,
      [Movement(c, debit, credit, balance)] + a.movements)
  }

  class CurrentAccountEntity {
    const customer: CustomerId
    var totalDebits: int
    var totalCredits: int
    var balance: int
    var isBlocked: bool
    var movements: seq<Movement>

    constructor (customer: CustomerId)
      ensures this.customer == customer && State() == EntityAccount(0, 0, 0, false, []) && Valid()
    {
      this.customer := customer;
      totalDebits, totalCredits, balance, isBlocked, movements := 0, 0, 0, false, [];
    }

    ghost function State(): EntityAccount
      reads this
    {
      EntityAccount(totalDebits, totalCredits, balance, isBlocked, movements)
    }

    ghost predicate Valid()
      reads this
    {
      balance == totalDebits - totalCredits && (movements != [] ==> movements[0].balanceAfter == balance)
    }

    method AddDebit(amount: int) returns (r: Option<EntityError>)
      requires Valid()
      modifies this
      ensures Valid()
      ensures r.None? <==> amount > 0 && !old(isBlocked)
      ensures State() == if r.None? then Posted(old(State()), customer, amount, 0) else old(State())
    {
      if amount <= 0 {
        return Some(NonPositive);
      }
      if isBlocked {
        return Some(Blocked);
      }
      totalDebits := totalDebits + amount;
      balance := balance + amount;
      movements := [Movement(customer, amount, 0, balance)] + movements;
      return None;
    }

    method AddCredit(amount: int) returns (r: Option<EntityError>)
      requires Valid()
      modifies this
      ensures Valid()
      ensures r.None? <==> amount > 0
      ensures State() == if r.None? then Posted(old(State()), customer, 0, amount) else old(State())
    {
      if amount <= 0 {
        return Some(NonPositive);
      }
      totalCredits := totalCredits + amount;
      balance := balance - amount;
      movements := [Movement(customer, 0, amount, balance)] + movements;
      return None;
    }

    /** The balance kept by the postings is the one that would be recomputed. */
    method RecalculateBalance()
      requires Valid()
      modifies this`balance
      ensures Valid() && State() == old(State())
    {
      balance := totalDebits - totalCredits;
    }
  }

  /** The account that receives, one by one, the movements of a customer. */
  function Fed(movements: seq<Movement>, c: CustomerId): EntityAccount {
    if movements == [] then EntityAccount(0, 0, 0, false, [])
    else
      var last := movements[|movements| - 1];
      var earlier := Fed(movements[..|movements| - 1], c);
      if last.customer == c then Posted(earlier, c, last.debit, last.credit) else earlier
  }

  /** The movements of a customer, newest first. */
  function Newest(movements: seq<Movement>, c: CustomerId): seq<Movement> {
    if movements == [] then []
    else
      var last := movements[|movements| - 1];
      (if last.customer == c then [last] else []) + Newest(movements[..|movements| - 1], c)
  }

  lemma {:induction false} FedTotals(rows: seq<Movement>, c: CustomerId)
    ensures var fed := Fed(rows, c);
      && fed.totalDebits == SumBy(rows, DebitOf(c))
      && fed.totalCredits == SumBy(rows, CreditOf(c))
      && fed.balance == SumBy(rows, NetOf(c))
  {
    if rows != [] {
      FedTotals(rows[..|rows| - 1], c);
    }
  }

  /** The newest entry of the fed account, when the last movement is its own. */
  lemma {:induction false} FedOne(rows: seq<Movement>, c: CustomerId)
    requires rows != [] && rows[|rows| - 1].customer == c
    requires rows[|rows| - 1].balanceAfter == SumBy(rows, NetOf(c))
    ensures Fed(rows, c).movements == [rows[|rows| - 1]] + Fed(rows[..|rows| - 1], c).movements
  {
    FedTotals(rows, c);
  }

  lemma {:induction false} FedLog(db: Db, c: CustomerId, n: nat)
    requires LogReplays(db) && n <= |db.movements|
    ensures Fed(db.movements[..n], c).movements == Newest(db.movements[..n], c)
  {
    if n > 0 {
      var rows := db.movements[..n];
      assert rows[..n - 1] == db.movements[..n - 1];
      FedLog(db, c, n - 1);
      if rows[n - 1].customer == c {
        FedOne(rows, c);
      }
    }
  }

  /** The stored log is entry by entry, balances included, the log of an in-memory account that
      received the same movements. The balances agree too; the totals of the entity exceed the
      stored ones by the invoices cancelled since, on both sides. */
  lemma LogIsEntityLog(db: Db, c: CustomerId)
    requires Inv(db)
    ensures var fed, account, voided := Fed(db.movements, c), AccountOf(db, c), SumBy(db.invoices, VoidGrand(c));
      && fed.movements == Newest(db.movements, c)
      && fed.balance == account.balance
      && fed.totalDebits == account.debits + voided
      && fed.totalCredits == account.credits + voided
  {
    FedTotals(db.movements, c);
    FedLog(db, c, |db.movements|);
    assert db.movements[..|db.movements|] == db.movements;
    LogNetIsBalance(db, c);
    assert AccountOk(db, c) && LogOk(db, c);
  }
}
