# Verified model of the WorksAuto money, token, calendar and stock logic

This project models the server of a garage management system in Dafny and proves what its
transactions and small protocols keep. Amounts are whole cents, quantities whole numbers, rates and
prices exact rationals; `Math.round` is floor(x + 1/2), so a half goes up (section 21.3.2.28 of
ECMA-262). One tenant is modelled, except for the chain of redactions: the query at
`src/modules/customers/infrastructure/prisma-customer.repository.ts:798` takes the newest record of
any tenant, so there is one chain for all.

`dafny verify dfyconfig.toml` checks the whole project.

## How it is organised

* `Sums`, `Rounding`, `Decimal`, `Iteration`, `Outcomes` are shared: sums over table columns, rounding
  once against rounding often, `String(n)` and `padStart`, steps in a row, `Option` and `Result`.
* `InvoiceTotals`, `WorkOrderTotals`, `InvoiceNumbers` are the arithmetic of an invoice: tax per
  line, tax over the sum, the three-cent tolerance between them, and the printed numbers.
* `Ledger` holds the money rows as values and the three transactions (issue, pay, cancel) as a read
  part and a write part. `LedgerInvariants` says what the redundant records agree on and that each
  write keeps it. `MoneyEffects` says what each transaction accepts and leaves behind, in terms a
  caller can check. `MoneyProtocol` interleaves payments, gateway callbacks, invoices, cancellations
  and gateway attempts step by step: checks before the transaction may see stale rows, advisory
  locks are taken by a hash that may collide, a process may crash anywhere. `MoneyEndpoints` says
  what each request answers from every reachable state when nothing interrupts it, `MoneyResults`
  are the consequences for every run, `MoneyRoundTrips` what one transaction undoes or frees.
  `LedgerStore` is the same transactions row by row on a class, proved equal to the values;
  `DomainEntities` are the in-memory invoice and account, compared with the stored rows.
* `TokenFamilies` is refresh token rotation, query by query. `Idempotency` is the Redis lock with
  time, expiry and failing commands. Each also has the code in place, without interference, and a
  lemma that the machine run back to back is that code.
* `Appointments` is the calendar with the exclusion constraints of the database, one use case at a
  time; `AppointmentProtocol` interleaves bookings (checks, lock, checks again, insert) with
  reschedules and changes of status (load, check, overwrite), and `AppointmentEndpoints` shows that
  each of these run alone is its use case. `Inventory` is the stock column and its log; `Shelves`, `Slugs`, `Base64` with `RedactionChain`, and `FinancialReport` are smaller algorithms.

The main theorems have the form "for every list of steps, the state reached satisfies ...", so they
quantify over all runs, all interleavings and any number of requests.

## Where the code and what is said about it differ

* The warning at `src/modules/auth/auth.service.ts:399` announces that reuse of a token closes its
  family. It does so for good exactly when no refresh of that family is between its claim and its
  insert: `TokenFamilies.ReuseHoldsIffNothingInFlight`, with a run in `ReuseDetectionCanMiss`. The same
  holds of a logout (`LogoutHoldsIffNothingInFlight`).
* The same check takes an expired row for a reused token. An expired token is rejected by its signature
  (`src/modules/auth/auth.service.ts:370`) before any row is read, and changes nothing
  (`TokenFamilies.TokenLastsThirtyDays`); only one that expires between the two looks at the clock gets
  as far as that check (`ExpiredTokenTouchesNothing`).
* The work order treats a rate of 0 as 20 percent, the invoice as 0. `WorkOrderTotals.AcceptedExactly`
  says for every list of lines when the invoice still accepts the work order's totals, and
  `ToleranceCoversMix` how many lines with and without a rate are always safe.
* With no lines and a subtotal of 0, the stand-in line is priced from the grand total and the subtotal
  of 0 is then compared with it: the request is refused from 4.2 cents on
  (`MoneyRoundTrips.StandInFromGrandTotal`).
* The in-memory invoice keeps its remaining amount when it is cancelled, so it can still be paid;
  the stored row cannot (`DomainEntities.EntityForgetsCancellation`, `CancelledRowTakesNoPayment`).
* Rescheduling checks the trimmed lift name and stores the name as given; the exact case in which
  the database constraint then fires is `Appointments.UntrimmedLiftFires`. It does not check that the end
  follows the start; `ReversedSlot` says when such a slot is stored. Approving a no-show, or
  setting its status back, can be stopped by the constraint as well (`ReactivationFires`).
* The advisory lock of a booking covers bookings of the same resource and the same start only.
  `AppointmentProtocol.ChecksAloneRace` says exactly which pairs of bookings that passed every check
  the constraint still has to stop.
* A manual stock movement reads the quantity, saves the whole column and appends its log entry in
  three accesses, without a lock. For any number of them among any other requests,
  `Inventory.GapIsDebt` says how far the column is ahead of the log, `ManualMovementsAgree` exactly when
  the log replays to it once they have finished, and `AdjustmentHidesWindow` and `GapSinceAdjustment` what
  an adjustment changes about that. `LostDecrement`, `TwoExitsLoseDecrement` and
  `AdjustmentHidesDecrement` are runs in which it does not.
* The repository accepts a number chosen by hand, and a number handed out by the sequence is refused
  exactly when such an invoice already has it (`MoneyResults.NextNumberRefused`). No request can choose
  one: `CreateInvoiceDto` has no such field, `src/main.ts:64-73` refuses unknown fields and the automatic
  invoice passes none. Then no number is ever refused (`MoneyResults.AllocatedNumbersNeverCollide`).
* The lock of the idempotency interceptor lasts 60 seconds. When exactly a handler that runs longer lets
  another request in is `Idempotency.LateHolderLetsIn`; when its late unlock lets a third one in is
  `LateUnlockLetsThirdIn`; one such run is `LateHandlerLetsOthersIn`.

## Model

| member | source | states |
|---|---|---|
| InvoiceTotals.CalculateInvoiceTotals | src/modules/invoices/domain/invoice-totals.ts:1-30 | The loop returns the exact column sums of base cents and per-line rounded tax, refuses exactly when some line is invalid, and the grand total is subtotal plus tax. |
| InvoiceTotals.TotalsNonNegative | src/modules/invoices/domain/invoice-totals.ts:9-30 | Accepted lines never give a negative subtotal, tax or grand total. |
| InvoiceTotals.LineAccepted | src/modules/invoices/domain/invoice-totals.ts:1-20 | A line is accepted if and only if its quantity is a whole number from 1 on, its price is finite and not negative, and its rate, if given, is finite and from 0 to 100. |
| InvoiceTotals.LineComesTo | src/modules/invoices/domain/invoice-totals.ts:9-23 | A line of n pieces at price p comes to n times p in rounded cents, taxed r percent of that, rounded once; without a rate, a fifth. |
| InvoiceTotals.TotalsAdd | src/modules/invoices/domain/invoice-totals.ts:21-30 | Totals add up line by line, and one refused line refuses the list. |
| InvoiceTotals.MissingRateIsTwenty | src/modules/invoices/domain/invoice-totals.ts:9 | Writing 20 percent into every line without a rate changes no total, for every list. |
| WorkOrderTotals.WorkOrderEntity.RecalculateTotals | src/modules/work-orders/domain/entities/work-order.entity.ts:125-149 | The three totals become the once-rounded sums of bases, taxes and both. |
| WorkOrderTotals.TaxGap | src/modules/invoices/domain/invoice-totals.ts:21-23 | For n cent-priced lines the subtotals agree and the tax rounded per line differs from the tax rounded once by strictly less than (n+1)/2 cents, after the tax that only the work order charges on zero rates. |
| WorkOrderTotals.AcceptanceIsTaxGap | src/modules/invoices/infrastructure/prisma-invoice.repository.ts:228-243 | An invoice with the work order's own totals passes the check on all three totals exactly when the two taxes are at most 3 cents apart. |
| WorkOrderTotals.ToleranceCoversSevenLines | src/modules/invoices/infrastructure/prisma-invoice.repository.ts:228-243 | Every invoice of n lines without zero rates is accepted if and only if n is at most 7. |
| WorkOrderTotals.HalfCentGap | src/modules/work-orders/domain/entities/work-order.entity.ts:133-142 | n lines of one cent at 50 percent are exactly floor(n/2) cents apart, so the bound is attained for every n. |
| WorkOrderTotals.AcceptedExactly | src/modules/invoices/infrastructure/prisma-invoice.repository.ts:228-243 | For any lines, with or without a rate, the totals are accepted if and only if 20 percent of the zero-rated base, less the drift of rounding line by line, lies in [-3.5, 3.5) cents. |
| WorkOrderTotals.ToleranceCoversMix | src/modules/work-orders/domain/entities/work-order.entity.ts:133-142 | Every work order of n lines with a rate and z cents without one is accepted if and only if 5n + 2z is at most 35. |
| WorkOrderTotals.ZeroRatedLinesAccepted | src/modules/work-orders/domain/entities/work-order.entity.ts:133-142 | A list of zero-rated lines of any length is accepted if and only if they cost at most 17 cents together. |
| Rounding.RoundOnceGap | src/modules/dashboard/dashboard.service.ts:500-515 | Rounding n terms one by one and rounding their sum once differ by less than (n+1)/2. |
| Rounding.RoundOnceGapIsTight | src/modules/dashboard/dashboard.service.ts:537 | n halves reach floor(n/2). |
| InvoiceNumbers.InvoiceNumberInjective | src/modules/invoices/infrastructure/prisma-invoice.repository.ts:315 | A printed number determines year and sequence for four-digit years, also past the padding width. |
| InvoiceNumbers.GibNumberInjective | src/modules/invoices/infrastructure/prisma-invoice.repository.ts:316 | The same for the tax administration's number, which has no separator. |
| InvoiceNumbers.GibNumberHasSixteen | src/modules/invoices/infrastructure/prisma-invoice.repository.ts:315-316 | That number has 16 characters exactly below ten digits, the invoice number 14 exactly below six. |
| InvoiceNumbers.PrintedForm | src/modules/invoices/infrastructure/prisma-invoice.repository.ts:315-316 | Below the padding width, prefix, four digits of the year and five (nine) digits of the sequence, digit by digit. |
| Decimal.ParsePadded | src/modules/invoices/infrastructure/prisma-invoice.repository.ts:315-316 | A padded number reads back as itself for every width. |
| LedgerInvariants.IssueKeepsInv | src/modules/invoices/infrastructure/prisma-invoice.repository.ts:280-417 | The commit of an invoice keeps invoices, payments, account totals, log, attempts, work orders and numbers in agreement. |
| LedgerInvariants.PayKeepsInv | src/modules/payments/payments.service.ts:177-297 | So does the commit of a payment. |
| LedgerInvariants.CancelKeepsInv | src/modules/invoices/infrastructure/prisma-invoice.repository.ts:477-562 | So does the commit of a cancellation, which overwrites the account totals. |
| LedgerInvariants.OpenAttemptKeepsInv | src/modules/payments/payments.service.ts:521-528 | So does opening a gateway attempt. |
| LedgerInvariants.ClampNeverBites | src/modules/invoices/infrastructure/prisma-invoice.repository.ts:504-509 | The total debits are at least the grand total of any live invoice, so the clamp at 0 has no effect. |
| LedgerInvariants.BalanceIsOpenLessAdvance | src/modules/invoices/infrastructure/prisma-invoice.repository.ts:265-289 | The free advance is not negative, the balance is open invoices less free advance, and a credit balance never exceeds the free advance. |
| MoneyEffects.IssueAccepted | src/modules/invoices/infrastructure/prisma-invoice.repository.ts:134-340 | An invoice is issued if and only if the customer is known and not blocked, the linked work order is the customer's, not void and without a live invoice, every line is acceptable, each claimed amount is within 3 cents of its sum, and the number is free. The lines are those of the request, else of the work order, else one stand-in line. |
| MoneyEffects.IssueRefusedWhy | src/modules/invoices/infrastructure/prisma-invoice.repository.ts:134-340 | Every refusal carries the first of those reasons in the order in which they are checked. |
| MoneyEffects.IssuedRow | src/modules/invoices/infrastructure/prisma-invoice.repository.ts:265-345 | The added row: subtotal and tax are the column sums of base cents and line taxes, the grand total their sum, paid the largest offset within request, invoice and credit balance, then remainder and status. |
| MoneyEffects.IssuedNumber | src/modules/invoices/infrastructure/prisma-invoice.repository.ts:291-317 | Its number is the next of the year when one is wanted, and the one given otherwise. |
| MoneyEffects.IssuedMoney | src/modules/invoices/infrastructure/prisma-invoice.repository.ts:347-417 | Account, log, offset payment and work order after the commit, column by column; nothing else changes. |
| MoneyEffects.PaymentAccepted | src/modules/payments/payments.service.ts:177-206 | A payment is accepted under the lock if and only if its attempt is already recorded, or it names no invoice, or a live one with at least that much remaining. |
| MoneyEffects.PaymentLeaves | src/modules/payments/payments.service.ts:192-295 | The payment row with its method and attempt, the account, the log, the invoice amounts and status and the attempt afterwards; nothing else changes. |
| MoneyEffects.CancellationLeaves | src/modules/invoices/infrastructure/prisma-invoice.repository.ts:449-562 | A cancellation succeeds exactly once; the row keeps its amounts and what was paid, loses remainder and work order, and the work order goes back to work. |
| MoneyEffects.CancellationMoney | src/modules/invoices/infrastructure/prisma-invoice.repository.ts:500-551 | The account loses exactly the invoice, one movement says so, and the payments stay with a note on those attached. |
| MoneyEndpoints.IssueAnswers | src/modules/invoices/infrastructure/prisma-invoice.repository.ts:130-447 | From every reachable state a request for an invoice that nothing interrupts is done with the effect of the transaction, or fails and changes no row; its lock is released. |
| MoneyEndpoints.CancelAnswers | src/modules/invoices/infrastructure/prisma-invoice.repository.ts:449-566 | So is a cancellation, done if and only if the invoice exists and is live. |
| MoneyEndpoints.TokenAnswers | src/modules/payments/payments.service.ts:467-528 | A gateway attempt is opened if and only if the invoice is live with something remaining, for exactly that amount, unpaid. |
| MoneyEndpoints.PaymentAnswers | src/modules/payments/payments.service.ts:68-297 | A payment at the till is booked if and only if the amount is positive, the customer known, and it pays at most what remains of a live invoice of that customer or carries a reference; otherwise no row changes. |
| MoneyEndpoints.SuccessCallbackAnswers | src/modules/payments/payments.service.ts:559-602 | From every reachable state a success callback for an open attempt is acknowledged if and only if the total is the attempt's amount, the invoice is live with at least that much remaining and the customer exists; the last payment then has that attempt, invoice and amount. Otherwise it fails and changes no row. |
| MoneyEndpoints.OtherCallbackAnswers | src/modules/payments/payments.service.ts:559-602 | A callback for a paid attempt or of a failure is acknowledged, one for an unknown attempt fails, and none changes a row. |
| MoneyProtocol.PlanStable | src/modules/payments/payments.service.ts:164-176 | What a transaction read under its lock still holds at its commit, whatever other customers' transactions did in between. |
| MoneyProtocol.EveryRunOk | src/modules/payments/payments.service.ts:68-384 | Every interleaving of every set of requests, with crashes, stale checks and colliding lock keys, keeps the whole invariant. |
| MoneyResults.AdvanceNeverSpentTwice | src/modules/invoices/infrastructure/prisma-invoice.repository.ts:265-289 | In every run new money less money on live invoices is at least 0, and the balance is open invoices less that. |
| MoneyResults.AccountsAndLogAgree | src/modules/invoices/infrastructure/prisma-invoice.repository.ts:378-406 | In every run debits are the live grand totals, credits the non-offset payments, balance their difference; the log has the same plus the cancelled totals on both sides. |
| MoneyResults.LogReplaysToBalance | src/modules/invoices/infrastructure/prisma-invoice.repository.ts:524-536 | In every run each logged balance is the running debit less credit of its customer, and the last is the account balance. |
| MoneyResults.InvoiceRowsAgree | src/modules/payments/payments.service.ts:207-230 | In every run paid is the sum of the attached payments; on live invoices paid plus remaining is the grand total and the status follows; payments of cancelled invoices, and only those, carry the advance note. |
| MoneyResults.CallbackExactlyOnce | src/modules/payments/payments.service.ts:559-602 | In every run a gateway attempt has at most one payment, is PAID exactly when it exists, its payment has its invoice and amount, and a success callback answered OK has it. |
| MoneyResults.NumbersHaveNoGaps | src/modules/invoices/infrastructure/prisma-invoice.repository.ts:291-317 | In every run, aborted transactions included, the invoices that asked for a number carry 1 to k of the year in commit order, and all printed numbers differ. |
| MoneyResults.GibNumbersDiffer | src/modules/invoices/infrastructure/prisma-invoice.repository.ts:316 | In every run the tax administration's numbers handed out, over all four-digit years, are pairwise different. |
| MoneyResults.OneLiveInvoicePerWorkOrder | src/modules/invoices/infrastructure/prisma-invoice.repository.ts:186-198 | In every run two invoices naming the same work order are the same invoice, and it is live. |
| MoneyResults.DebtHasOpenInvoice | src/modules/customers/infrastructure/prisma-customer.repository.ts:737-758 | In every run a positive balance comes with an open invoice, so the second refusal to anonymise covers the first. |
| MoneyResults.PaymentCommitIsAtomic | src/modules/payments/payments.service.ts:164-297 | The commit of an interleaved payment is what the whole transaction run at that moment would do. |
| MoneyResults.CancelCommitIsAtomic | src/modules/invoices/infrastructure/prisma-invoice.repository.ts:449-566 | The same for a cancellation. |
| MoneyResults.IssueCommitIsAtomic | src/modules/invoices/infrastructure/prisma-invoice.repository.ts:134-417 | The same for an invoice whose surrounding rows (blocking, customer, work order lines) were not edited meanwhile. |
| MoneyResults.CancellationIsExact | src/modules/invoices/infrastructure/prisma-invoice.repository.ts:500-517 | In every run a cancellation lowers debits and balance by exactly the grand total, keeps the credits and leaves every other account as it was. |
| MoneyResults.AdvanceIsLargest | src/modules/invoices/infrastructure/prisma-invoice.repository.ts:265-278 | The offset taken is the largest amount within the request, the invoice and the credit balance. |
| MoneyResults.NextNumberRefused | src/modules/invoices/infrastructure/prisma-invoice.repository.ts:295-340 | A number from the sequence is refused exactly when an invoice numbered by hand carries it. |
| MoneyResults.AllocatedNumbersNeverCollide | src/modules/invoices/application/use-cases/create-invoice.use-case.ts:60 | In every run whose requests leave the number open, as all that reach the application do, no invoice is refused for its number (four-digit years). |
| MoneyRoundTrips.CancelUndoesIssue | src/modules/invoices/infrastructure/prisma-invoice.repository.ts:449-566 | Cancelling an invoice just issued restores every account, and the same request is planned the same way again; only a hand-chosen number is then refused. |
| MoneyRoundTrips.CancellationFreesPaid | src/modules/invoices/infrastructure/prisma-invoice.repository.ts:500-551 | A cancellation raises the customer's free advance by exactly the payments attached to the invoice, and nobody else's. |
| MoneyRoundTrips.ReissuePaidByAdvance | src/modules/invoices/infrastructure/prisma-invoice.repository.ts:265-289 | A paid invoice cancelled and issued again for the same total, with the offset asked for and nothing else open, becomes a new row that is PAID with nothing remaining, and the balance is as at first. |
| MoneyRoundTrips.IssueClosesWorkOrder | src/modules/invoices/infrastructure/prisma-invoice.repository.ts:408-417 | Issuing completes the linked work order and closes it to every further invoice. |
| MoneyRoundTrips.CancelReopensWorkOrder | src/modules/invoices/infrastructure/prisma-invoice.repository.ts:553-562 | Cancelling reopens the work order with its lines untouched, and no live invoice names it any more. |
| MoneyRoundTrips.StandInFromSubtotal | src/modules/invoices/infrastructure/prisma-invoice.repository.ts:205-243 | Without lines and with a positive subtotal, a claim is accepted exactly when its tax and grand total are within 3 cents of 20 percent on it. |
| MoneyRoundTrips.StandInFromGrandTotal | src/modules/invoices/infrastructure/prisma-invoice.repository.ts:207-243 | Without lines and with a subtotal of 0, a claim is accepted exactly when its grand total is below 4.2 cents and its tax within 3 cents of the line's. |
| MoneyRoundTrips.StandInFromTotalAlone | src/modules/invoices/infrastructure/prisma-invoice.repository.ts:205-232 | A grand total in whole cents without the other two amounts is always accepted, within one cent of it. |
| LedgerStore.Store.CreateWithCariMovement | src/modules/invoices/infrastructure/prisma-invoice.repository.ts:130-447 | In place: the new tables are those of the issue step, or the error is its error and nothing changed; the invariant holds. |
| LedgerStore.Store.CheckLinkedWorkOrder | src/modules/invoices/infrastructure/prisma-invoice.repository.ts:159-203 | The lookups over the rows give the order's lines or the specified refusal. |
| LedgerStore.Store.AllocateNumber | src/modules/invoices/infrastructure/prisma-invoice.repository.ts:291-317 | The upsert hands out the next number of the year, and only when one is wanted. |
| LedgerStore.Store.InsertInvoice | src/modules/invoices/infrastructure/prisma-invoice.repository.ts:319-417 | The writes one by one amount to the commit of the plan; a duplicate number leaves no trace, the sequence included. |
| LedgerStore.Store.CreatePayment | src/modules/payments/payments.service.ts:164-297 | In place: the new tables are those of the payment step; an attempt already recorded gives back its payment; a refusal changes nothing. |
| LedgerStore.Store.InsertPayment | src/modules/payments/payments.service.ts:192-295 | The writes to payment, invoice, account, log and attempt amount to the commit of the plan. |
| LedgerStore.Store.CancelWithCariReversal | src/modules/invoices/infrastructure/prisma-invoice.repository.ts:449-566 | In place: the new tables are those of the cancel step, or a refusal that changes nothing. |
| LedgerStore.Store.ReverseInvoice | src/modules/invoices/infrastructure/prisma-invoice.repository.ts:486-562 | The writes to invoice, account, log, payments and work order amount to the commit of the cancellation. |
| LedgerStore.Store.NoteCarriedOver | src/modules/invoices/infrastructure/prisma-invoice.repository.ts:538-550 | The loop notes exactly the payments attached to the invoice and keeps every amount. |
| LedgerStore.Store.CreatePayTrAttempt | src/modules/payments/payments.service.ts:486-528 | An attempt is opened exactly for a live unpaid invoice and for exactly its remaining amount. |
| DomainEntities.InvoiceEntity.RecordPayment | src/modules/invoices/domain/invoice.entity.ts:98-113 | The entity's columns become those of the payment step, or it refuses unchanged. |
| DomainEntities.InvoiceEntity.Cancel | src/modules/invoices/domain/invoice.entity.ts:87-96 | The entity changes its status once and nothing else. |
| DomainEntities.PaymentAgreesWithEntity | src/modules/payments/payments.service.ts:177-230 | The locked payment is accepted exactly when the entity accepts it, and leaves the same row. |
| DomainEntities.EntityForgetsCancellation | src/modules/invoices/domain/invoice.entity.ts:91-113 | A cancelled entity still takes some payment exactly when something remained, and the payment revives it. |
| DomainEntities.CancelledRowTakesNoPayment | src/modules/invoices/infrastructure/prisma-invoice.repository.ts:486-493 | The stored cancelled row, loaded into the entity, refuses every payment. |
| DomainEntities.CurrentAccountEntity.AddDebit | src/modules/current-accounts/domain/current-account.entity.ts:64-91 | A debit is posted exactly when positive and unblocked, with totals, balance and newest movement in step. |
| DomainEntities.CurrentAccountEntity.AddCredit | src/modules/current-accounts/domain/current-account.entity.ts:93-117 | A credit is posted exactly when positive, also on a blocked account. |
| DomainEntities.CurrentAccountEntity.RecalculateBalance | src/modules/current-accounts/domain/current-account.entity.ts:119-121 | Recalculating changes nothing: the kept balance is the recomputed one. |
| DomainEntities.LogIsEntityLog | src/modules/current-accounts/domain/current-account.entity.ts:64-117 | The stored log is, entry by entry, that of an entity fed the same movements; balances agree and totals differ by the cancelled invoices on both sides. |
| TokenFamilies.EveryRunOk | src/modules/auth/auth.service.ts:368-441 | Every interleaving of logins, refreshes and logouts keeps the family invariant. |
| TokenFamilies.RotationConserves | src/modules/auth/auth.service.ts:411-435 | In every run live tokens plus refreshes between claim and insert are at most 1 in each family. |
| TokenFamilies.RotatedAtMostOnce | src/modules/auth/auth.service.ts:411-416 | In every run a token is claimed by at most one refresh, has at most one successor, and a token with a successor is revoked. |
| TokenFamilies.RevocationHoldsIffNothingInFlight | src/modules/auth/auth.service.ts:397-408 | After reuse detection or logout the family never has a live token again if and only if no refresh was in flight. |
| TokenFamilies.LogoutRevokesFamily | src/modules/auth/auth.service.ts:446-470 | From its first query a logout with a known token leaves every token of the family revoked and every other row as it was; an unknown token changes nothing. |
| TokenFamilies.ReuseRevokesFamily | src/modules/auth/auth.service.ts:368-408 | So does a refresh whose signature is good and whose row is revoked, or expired by the time it is read. |
| TokenFamilies.LogoutHoldsIffNothingInFlight | src/modules/auth/auth.service.ts:446-470 | In every run a logout ends its family for good if and only if no refresh of it is between claim and insert when the logout looks its token up. |
| TokenFamilies.ReuseHoldsIffNothingInFlight | src/modules/auth/auth.service.ts:397-408 | In every run so does a refresh that finds its token revoked or expired, under the same condition. |
| TokenFamilies.LoginOpensFamily | src/modules/auth/auth.service.ts:475-527 | A login adds one live token for thirty days in a family that no token was in. |
| TokenFamilies.RefreshAnswers | src/modules/auth/auth.service.ts:368-441 | What the endpoint answers and leaves in each case, in the columns of the row. |
| TokenFamilies.DeadForGood | src/modules/auth/auth.service.ts:411-435 | A family with no live token and no refresh in flight stays that way through every continuation. |
| TokenFamilies.InFlightRevives | src/modules/auth/auth.service.ts:418-435 | A refresh in flight can always still insert a live token. |
| TokenFamilies.ReuseDetectionCanMiss | src/modules/auth/auth.service.ts:397-435 | A concrete run in which reuse is detected and the family lives on. |
| TokenFamilies.TokenLastsThirtyDays | src/modules/auth/auth.service.ts:370-441 | For 30 days from its issue a token refreshes or, once revoked, takes its family down; after that using it changes no row. |
| TokenFamilies.ExpiredTokenTouchesNothing | src/modules/auth/auth.service.ts:370-397 | In the machine a token is denied without touching a row exactly when its signature has expired; an unrevoked row is taken for reused only if it expires between the two looks at the clock. |
| TokenFamilies.RefreshTokenTable.ClaimRow | src/modules/auth/auth.service.ts:411-416 | The conditional update changes one row if it was not revoked, and reports how many. |
| TokenFamilies.RefreshTokenTable.RefreshToken | src/modules/auth/auth.service.ts:368-441 | The endpoint run alone rotates, revokes the family, or refuses, as specified on the whole table. |
| TokenFamilies.MachineRunsEndpoint | src/modules/auth/auth.service.ts:368-441 | The machine's queries run back to back are the endpoint. |
| Idempotency.AtMostOneInHandler | src/shared/interceptors/idempotency.interceptor.ts:69-109 | On time, at most one living lock holder and at most one financial request in its handler, with Redis failing and requests dying anywhere. |
| Idempotency.OneHandlerPerKey | src/shared/interceptors/idempotency.interceptor.ts:69-109 | On time and with Redis up, at most one request of the key is in its handler, on any route. |
| Idempotency.FinancialRoutesFailClosed | src/shared/interceptors/idempotency.interceptor.ts:72-109 | In any run a financial request runs its handler only after its own SET NX succeeded, and every replay repeats an execution of the same payload. |
| Idempotency.CachedAnswerIsFinal | src/shared/interceptors/idempotency.interceptor.ts:112-155 | Once cached by an on-time run and until it expires, the answer stays, nobody holds the lock, and a request not answered before gets it or a conflict; if Redis fails, it may instead be refused or, on an ordinary route, run without the lock. |
| Idempotency.CachedAnswerIsGiven | src/shared/interceptors/idempotency.interceptor.ts:112-155 | With Redis up, every later request on any route and in any interleaving gets exactly the stored status and body for the same payload and a conflict for another, and no handler runs. |
| Idempotency.AnswerLastsADay | src/shared/interceptors/idempotency.interceptor.ts:157-186 | Both hold for the 24 hours after a success is cached. |
| Idempotency.CachedRequestServed | src/shared/interceptors/idempotency.interceptor.ts:112-155 | With Redis up, the same payload gets the stored status and body and another payload a conflict. |
| Idempotency.LateHolderLetsIn | src/shared/interceptors/idempotency.interceptor.ts:72-97 | In every on-time run a request that comes while a holder is busy enters its handler exactly when the holder's 60 seconds have passed, with the holder still inside. |
| Idempotency.LateUnlockLetsThirdIn | src/shared/interceptors/idempotency.interceptor.ts:157-186 | When a late holder then fails, its unlock frees the second holder's key: a third request enters exactly when the unlock took effect or the second is late too. |
| Idempotency.DeadHolderExpires | src/shared/interceptors/idempotency.interceptor.ts:72-97 | The lock of a holder that dies keeps the key closed exactly until its 60 seconds are over. |
| Idempotency.LateHandlerLetsOthersIn | src/shared/interceptors/idempotency.interceptor.ts:157-186 | A concrete run of both kinds. |
| Idempotency.RedisKey.SetNxEx | src/shared/interceptors/idempotency.interceptor.ts:72-97 | SET NX takes the key exactly when absent or expired, also when its answer is lost. |
| Idempotency.RedisKey.Intercept | src/shared/interceptors/idempotency.interceptor.ts:69-186 | One request run alone, under any failures, has the specified effect on the key and the specified answer. |
| Idempotency.MachineRunsInterceptor | src/shared/interceptors/idempotency.interceptor.ts:69-186 | The machine's steps run back to back are that interceptor. |
| Idempotency.RequestAnswers | src/shared/interceptors/idempotency.interceptor.ts:69-186 | One request that nothing interrupts, whatever fails: it runs its handler if and only if it took the key or lost the lock service on an ordinary route; it replays exactly a stored answer it can read for its own payload; a financial request is refused as unavailable exactly when the lock attempt failed; any other held key, one still being processed included, is a conflict. |
| Idempotency.RequestLeavesKey | src/shared/interceptors/idempotency.interceptor.ts:72-186 | And what it leaves in the key: a held key unchanged, a free one taken for 60 seconds, a success for 24 hours, nothing after a failure. |
| Appointments.ChecksImplyConstraints | src/modules/appointments/infrastructure/prisma-appointment.repository.ts:187-221 | A use case run alone is never stopped by an exclusion constraint and keeps the calendar disjoint, unless it reactivates a released slot or stores an untrimmed lift name. |
| Appointments.SerialRunsStayDisjoint | prisma/migrations/20260915090000_payment_attempts_and_rls/migration.sql:37-42 | In every such serial run no two active appointments overlap on a mechanic or a lift. |
| Appointments.ReactivationFires | src/modules/appointments/application/use-cases/update-appointment-status.use-case.ts:97-108 | Giving a released slot an active status fires a constraint exactly when another active appointment has taken its mechanic or lift. |
| Appointments.ApprovedNoShowCollides | src/modules/appointments/application/use-cases/update-appointment-status.use-case.ts:22-33 | For any lift and slot: book, no-show, book again, approve the first; the constraint fires. |
| Appointments.UntrimmedLiftFires | src/modules/appointments/application/use-cases/reschedule-appointment.use-case.ts:74-133 | A reschedule that passed its checks, with any change of mechanic or lift, fires the constraint exactly when its lift name is untrimmed and another active appointment holds it. |
| Appointments.ReversedSlot | src/modules/appointments/application/use-cases/reschedule-appointment.use-case.ts:63-133 | A reschedule to a reversed slot that passed its checks is an error exactly when the row is active and named, and otherwise stored. |
| Appointments.UntrimmedLiftCollides | src/modules/appointments/application/use-cases/reschedule-appointment.use-case.ts:107-133 | Two reschedules onto the same untrimmed name collide, for every such name and slot. |
| Appointments.CreateRefusedExactly | src/modules/appointments/application/use-cases/create-appointment.use-case.ts:60-133 | A staff booking is refused if and only if the slot is not in order or an appointment that is neither cancelled nor a no-show starts before its end and ends after its start on the mechanic, or on the lift under the given or the trimmed name; otherwise the row is saved as confirmed. |
| Appointments.RescheduleRefusedExactly | src/modules/appointments/application/use-cases/reschedule-appointment.use-case.ts:52-133 | A reschedule is refused if and only if the appointment is completed, cancelled or unknown, or another one so meets the new slot; a slot in order on a trimmed name is then saved with its status. |
| Appointments.PublicRefusedExactly | src/modules/appointments/application/use-cases/create-public-appointment.use-case.ts:55-126 | A public booking is refused if and only if every bay, of those given or of the three standard ones, is met; otherwise the first one that is not is booked as pending. |
| Appointments.StatusAnswers | src/modules/appointments/application/use-cases/update-appointment-status.use-case.ts:22-108 | Cancelling, approving, marking and setting a status: the statuses each refuses and the row each saves. |
| Appointments.TrimMeans | src/modules/appointments/infrastructure/prisma-appointment.repository.ts:404-408 | The trimmed name is what is left between the outermost characters that are not space. |
| AppointmentProtocol.EveryRunOk | src/modules/appointments/infrastructure/prisma-appointment.repository.ts:180-347 | Every interleaving of bookings, public bookings, reschedules and changes of status, with crashes, keeps the calendar disjoint and what each request relies on. |
| AppointmentProtocol.InsertStoppedExactly | src/modules/appointments/infrastructure/prisma-appointment.repository.ts:187-260 | In every run a booking past its checks is stopped by a constraint exactly when a row blocks it, every such row was written after the checks under the lock and is no booking of the same lock key, and otherwise it is stored. |
| AppointmentProtocol.LockCovers | src/modules/appointments/infrastructure/prisma-appointment.repository.ts:181-186 | Which pairs of bookings share their lock: those of one lift and start always, those of one mechanic and start only on the same lift or on none. |
| AppointmentProtocol.OneKeyNeverStopped | src/modules/appointments/infrastructure/prisma-appointment.repository.ts:182-221 | Any number of bookings that can only come to one lock key, by staff or by the public over bays of that lift, however interleaved: none is ever stopped by a constraint. |
| AppointmentProtocol.SaveStoppedExactly | src/modules/appointments/infrastructure/prisma-appointment.repository.ts:310-346 | In every run an overwrite is stopped exactly when its range can be built and another row blocks it; after a reschedule whose lift name equals its trimmed form, and after a change of status that does not make a released row active, every such row was written since the request looked. |
| AppointmentProtocol.SecondInsertStopped | src/modules/appointments/infrastructure/prisma-appointment.repository.ts:182-260 | In every run two bookings past their checks have different locks, and once one is stored the other is stopped exactly when they overlap on a mechanic or lift or a third row blocks it. |
| AppointmentProtocol.ChecksAloneRace | src/modules/appointments/infrastructure/prisma-appointment.repository.ts:182-260 | From every reachable calendar any two bookings, by staff or by the public over any list of bays, that pass the checks and whose locks differ and are free can both reach their inserts; the second is then stopped exactly when they overlap on a mechanic or lift. |
| AppointmentProtocol.RescheduleRace | src/modules/appointments/application/use-cases/reschedule-appointment.use-case.ts:52-133 | From every reachable calendar a reschedule and a booking that pass their checks can both reach their writes; the booking is stored and the reschedule stopped exactly when its range can be built and they overlap on a mechanic or lift. |
| AppointmentProtocol.PassesIsApply | src/modules/appointments/application/use-cases/create-appointment.use-case.ts:60-133 | The checks of the interleaved booking are those of the use case run alone. |
| AppointmentEndpoints.StaffBookingAlone | src/modules/appointments/infrastructure/prisma-appointment.repository.ts:180-260 | From every reachable calendar the interleaved staff booking, not interrupted and with its lock free, ends with the rows and the answer of the use case, and leaves the locks as they were. |
| AppointmentEndpoints.PublicBookingAlone | src/modules/appointments/application/use-cases/create-public-appointment.use-case.ts:55-126 | So does the public booking over any bays. |
| AppointmentEndpoints.RescheduleAlone | src/modules/appointments/application/use-cases/reschedule-appointment.use-case.ts:52-133 | So does the reschedule. |
| AppointmentEndpoints.StatusAlone | src/modules/appointments/application/use-cases/update-appointment-status.use-case.ts:22-108 | So does every change of status. |
| Appointments.FirstFreeIsFirst | src/modules/appointments/application/use-cases/create-public-appointment.use-case.ts:79-90 | The bay found is the first in list order without a conflict. |
| Appointments.FirstFitIsComplete | src/modules/appointments/application/use-cases/create-public-appointment.use-case.ts:73-96 | With named bays, booking refuses exactly when every bay conflicts, and otherwise the bay passes the second check and the constraint. |
| Appointments.NoBayFound | src/modules/appointments/application/use-cases/create-public-appointment.use-case.ts:79-96 | For any names, no bay is found exactly when all conflict or an empty name precedes every free bay. |
| Appointments.AppointmentEntity.HasTimeConflictWith | src/modules/appointments/domain/appointment.entity.ts:131-136 | The entity's test: neither cancelled nor a no-show, and the half-open slots share an instant. |
| Appointments.AppointmentEntity.Reschedule | src/modules/appointments/domain/appointment.entity.ts:95-112 | Times always change, mechanic and lift only when given, nothing when refused. |
| Appointments.AppointmentEntity.Confirm | src/modules/appointments/domain/appointment.entity.ts:114-119 | Everything but a cancelled appointment is confirmed, a no-show included. |
| Appointments.AppointmentEntity.MarkNoShow | src/modules/appointments/domain/appointment.entity.ts:121-126 | Completed and cancelled appointments are left alone. |
| Appointments.Calendar.Create | src/modules/appointments/infrastructure/prisma-appointment.repository.ts:180-260 | In place: the second checks, then the guarded insert; the calendar stays disjoint. |
| Appointments.Calendar.Save | src/modules/appointments/infrastructure/prisma-appointment.repository.ts:310-346 | The guarded overwrite of one row; the calendar stays disjoint. |
| Appointments.Calendar.AllocateBay | src/modules/appointments/application/use-cases/create-public-appointment.use-case.ts:77-90 | The loop stops on the first free bay. |
| Appointments.Calendar.CreatePublicAppointment | src/modules/appointments/application/use-cases/create-public-appointment.use-case.ts:55-126 | In place: allocation and creation have the effect of the use case on values. |
| Appointments.Calendar.RescheduleAppointment | src/modules/appointments/application/use-cases/reschedule-appointment.use-case.ts:52-133 | In place: checks excluding the appointment itself, change of the entity, save. |
| Inventory.LogReplaysToStock | src/modules/inventory/application/use-cases/add-stock-movement.use-case.ts:39-70 | In every serial run folding the movement log gives the stock quantity, which is never negative. |
| Inventory.OperationLeaves | src/modules/inventory/application/use-cases/add-stock-movement.use-case.ts:39-70 | After every serial run: which operations refuse, and the quantity and the log entry each other one leaves. |
| Inventory.LastPieceGoesOut | src/modules/inventory/domain/stock-item.entity.ts:72-87 | The whole stock can be taken out once, and never one piece more. |
| Inventory.DecrementAlone | src/modules/inventory/infrastructure/prisma-inventory.repository.ts:250-288 | An interleaved decrement that nothing interrupts is the serial operation. |
| Inventory.IncrementAlone | src/modules/inventory/infrastructure/prisma-inventory.repository.ts:290-327 | So is an increment. |
| Inventory.MovementAlone | src/modules/inventory/application/use-cases/add-stock-movement.use-case.ts:44-70 | So is a manual movement with its three accesses. |
| Inventory.StockConserved | src/modules/inventory/infrastructure/prisma-inventory.repository.ts:250-327 | For every interleaving with stale first looks and crashes, the stock is the opening quantity plus what each request gained (decrements and increments their own amount) and never negative; with decrements and increments alone the log replays to it. |
| Inventory.GapIsDebt | src/modules/inventory/application/use-cases/add-stock-movement.use-case.ts:39-70 | In every run in which no adjustment is logged, with any number of manual movements in flight or dead, the column is ahead of the log by what they saved and have not logged, less the changes their saves overwrote. |
| Inventory.ManualMovementsAgree | src/modules/inventory/application/use-cases/add-stock-movement.use-case.ts:44-70 | In every such run, once all manual movements have finished, the log replays to the column if and only if the changes that their saves overwrote, each from its read to its save, add up to zero, and otherwise is ahead by that sum. |
| Inventory.AdjustmentHidesWindow | src/modules/inventory/application/use-cases/add-stock-movement.use-case.ts:57-70 | The log entry of an adjustment leaves the log behind the column by exactly the net change of the column since the adjustment's save, whoever made it and whatever the gap was before. |
| Inventory.GapSinceAdjustment | src/modules/inventory/application/use-cases/add-stock-movement.use-case.ts:57-70 | From the last logged adjustment of a run on, the gap is what its entry left plus the debts of manual movements since, and the log replays if and only if the two cancel. |
| Inventory.LostDecrement | src/modules/inventory/infrastructure/prisma-inventory.repository.ts:201-230 | A concrete decrement that the save of a manual exit overwrites. |
| Inventory.TwoExitsLoseDecrement | src/modules/inventory/application/use-cases/add-stock-movement.use-case.ts:44-70 | A concrete run in which a second exit sees nothing change before its save and the log is still off, because the first one overwrote a decrement. |
| Inventory.AdjustmentHidesDecrement | src/modules/inventory/infrastructure/prisma-inventory.repository.ts:329-358 | A concrete decrement that the log entry of an adjustment hides. |
| Inventory.StockItemEntity.Decrement | src/modules/inventory/domain/stock-item.entity.ts:72-87 | The entity subtracts exactly when the amount is positive and in stock. |
| Inventory.Product.constructor | src/modules/inventory/infrastructure/prisma-inventory.repository.ts:150-161 | A new product logs its opening stock when there is any. |
| Inventory.Product.DecrementAtomic | src/modules/inventory/infrastructure/prisma-inventory.repository.ts:250-288 | The guarded update subtracts and logs exactly when enough is in stock. |
| Inventory.Product.IncrementAtomic | src/modules/inventory/infrastructure/prisma-inventory.repository.ts:290-327 | The update adds and logs a return. |
| Inventory.Product.AddStockMovement | src/modules/inventory/application/use-cases/add-stock-movement.use-case.ts:39-70 | In place: load, change the entity, save the column, append the movement, as the step on values. |
| Shelves.CreateShelfCells | src/modules/inventory/infrastructure/prisma-shelf.repository.ts:35-51 | The nested loops give exactly rows times columns cells, row by row, and none for an empty shelf. |
| Shelves.GridIsBijection | src/modules/inventory/infrastructure/prisma-shelf.repository.ts:42-51 | The cells are in bijection with the rows and columns, and no two share a code. |
| Shelves.DecodeCellCode | src/modules/inventory/infrastructure/prisma-shelf.repository.ts:46 | Reading a code from its end recovers shelf, row and column for every shelf code. |
| Shelves.CodeOf | src/modules/inventory/infrastructure/prisma-shelf.repository.ts:46 | The documented example, RAF-A01-K1-G1, and the form of every code. |
| Shelves.CellCodeInjective | src/modules/inventory/infrastructure/prisma-shelf.repository.ts:46 | Two cells of any shelves have the same code exactly when they are the same place. |
| Slugs.FindSlug | src/modules/admin/services/admin-tenant.service.ts:305-310 | The loop ends, after at most one lookup more than there are slugs, on the first free candidate. |
| Slugs.Pigeonhole | src/modules/admin/services/admin-tenant.service.ts:307-310 | As many first candidates as are all taken, so many slugs exist at least. |
| Slugs.FirstFreeIsUnique | src/modules/admin/services/admin-tenant.service.ts:305-310 | The result does not depend on the search: exactly one candidate is the first free one. |
| Slugs.NamesakesAreNumbered | src/modules/admin/services/admin-tenant.service.ts:305-310 | Tenants of one name get base, base-1, base-2 and so on; the lookup bound is reached. |
| Base64.DecodeEncode | src/modules/customers/infrastructure/prisma-customer.repository.ts:805-807 | Encoding (section 4 of RFC 4648) loses nothing. |
| Base64.EncodedAlphabet | src/modules/customers/infrastructure/prisma-customer.repository.ts:804 | No encoding contains an underscore, unlike the genesis text. |
| Base64.ExamplesOfTheStandard | src/modules/customers/infrastructure/prisma-customer.repository.ts:805-807 | The encoder gives the examples of section 10 of RFC 4648. |
| RedactionChain.TipCommitsToHistory | src/modules/customers/infrastructure/prisma-customer.repository.ts:798-819 | Two serially built chains have the same last hash if and only if they agree record by record on previous hash, customer, authoriser and time. |
| RedactionChain.HashDecodes | src/modules/customers/infrastructure/prisma-customer.repository.ts:798-819 | In every chain the first record follows the genesis text, every other the hash before it, and each hash decodes to previous hash, customer, authoriser and time joined by hyphens. |
| RedactionChain.TipIgnoresLegalReference | src/modules/customers/infrastructure/prisma-customer.repository.ts:805-818 | Rewriting the legal reference or the affected entries of any record leaves a valid chain with the same last hash. |
| RedactionChain.RedactionLog.Append | src/modules/customers/infrastructure/prisma-customer.repository.ts:798-819 | Appending keeps the chain, the earlier records and the given fields. |
| FinancialReport.AccumulateItems | src/modules/dashboard/dashboard.service.ts:357-381 | The loop over an order's items gives its labour, parts and cost sums, and their total when the order has none. |
| FinancialReport.ItemsSplit | src/modules/dashboard/dashboard.service.ts:362-377 | Labour and parts split the items without loss. |
| FinancialReport.OneMoreItem | src/modules/dashboard/dashboard.service.ts:362-384 | How each item adds to the figures: a service to the labour, anything else to the parts, its cost the purchase price times the quantity or, unrecorded, three quarters of the price. |
| FinancialReport.EstimatedProfit | src/modules/dashboard/dashboard.service.ts:374-385 | An order without recorded costs makes a profit of its labour and a quarter of its parts. |
| FinancialReport.RowsAndSummary | src/modules/dashboard/dashboard.service.ts:404-421 | Every column of every row and of the summary is the matching figure, rounded once. |
| FinancialReport.ProcessOrders | src/modules/dashboard/dashboard.service.ts:350-421 | The loop gives one rounded row per order and the once-rounded summary, net profit included. |
| FinancialReport.NetProfitIsSumOfProfits | src/modules/dashboard/dashboard.service.ts:421 | The net profit from the three totals is the sum of the orders' profits. |
| FinancialReport.GroupByDay | src/modules/dashboard/dashboard.service.ts:490-515 | The map holds exactly the days that occur, each with its own sums and count. |
| FinancialReport.GroupingConserves | src/modules/dashboard/dashboard.service.ts:517-532 | For every listing of the days, summing by day and by order agree in every column. |
| FinancialReport.ReportConserves | src/modules/dashboard/dashboard.service.ts:537 | Daily counts sum to n, daily revenues to the rounded rows, and daily revenue and profit differ from the summary by less than (n+1)/2. |
| FinancialReport.ReportGapIsTight | src/modules/dashboard/dashboard.service.ts:537 | n orders of half a lira on one day reach the bound. |

## Left out

- Floating point: prices and rates are exact rationals and stored money is whole cents; binary rounding inside JavaScript numbers is not modelled.
- Column limits: overflow of the decimal columns is not modelled, so amounts are unbounded.
- The work order status machine and stock bookings from work orders: their value object and repository are not part of this model; only `recalculateTotals` and the statuses an invoice sets are.
- `OVERDUE`: no transaction modelled here writes it, so the invoice status has four values.
- Invoice due dates, movement and payment texts, notifications, audit entries: text and I/O around the money rows.
- E-invoice columns: the provider's answer may overwrite them later (`src/modules/invoices/infrastructure/prisma-invoice.repository.ts:568-592`), so `GibNumbersDiffer` speaks of the numbers handed out and not of a column.
- `getNextInvoiceNumber`: nothing calls it; each call would leave a gap in the sequence.
- The account repository's absolute `save`: nothing calls it on the modelled paths.
- Gateway HTTP, signatures and token creation at the gateway: a callback is a step with its amount and result; a failed call after the attempt was inserted is a crash of that process.
- Row-level security and the tenant proxy: the rows modelled are those of one tenant.
- Thirty days of a refresh token are 30 times 24 hours and the stored expiry is the signed one, although the source computes it a moment later in calendar days; legacy unhashed tokens are not modelled.
- Inserts not yet committed: a booking inserts and commits in one step, as the constraint makes a conflicting insert wait for the commit.
- Token hashing, JWT signing and the user lookup: tokens are table positions, and whether user and tenant are active is an input of the step.
- Redis keys are independent, so one key is modelled; response streams have one emission.
- Appointment checks against the clock and staff leave: they only refuse more.
- Direct edits of a stock quantity: they write no movement, so the log does not replay after one (`src/modules/inventory/application/use-cases/update-stock-item.use-case.ts:31-32`).
- Concurrent anonymisations: two of them can read the same last hash and fork the chain; the chain is proved for serial ones.
- The order of the daily rows: `GroupingConserves` holds for every order, so the sort is not modelled; the other parts of the report (payment breakdown, receivables, averages) are easy sums.
- Search filters, CRUD for customers, vehicles and staff, batch import counters, provider stubs: easy or textual.
- MoneyResults.IssueCommitIsAtomic: assumes the rows an invoice only looks at were not edited between its read and its commit, because the source does not lock them.
