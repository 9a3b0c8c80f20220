# Verification of the finance service

A Dafny model of the two parts of the service that money depends on, and proofs about all their runs.

**The money machine.** An append-only journal log with unique keys `(ref_type, ref_id)`, and the tables of escrows, payment
orders, withdrawals and credit grants beside it. No balance is stored: each is a sum over the log. `Machine` gives every use
case as a function from state to state and answer; `Run` strings them together in any order with any arguments. `Moves`
names the legal moves behind the use cases and the invariant, `Effects` what a move does to balances, stories, keys and
refund legs, `Preservation` and `Bookkeeping` that every move keeps the invariant, `Steps` that every use case is a move.
The guarantees follow for every reachable state: `Balances`, `Treasury`, `Guarantees`, `Refunds`, `Success`, `Progress`.
`EscrowOutcomes`, `OrderOutcomes` and `PayoutOutcomes` state what each use case does to every row and every account.
`Witnesses` runs from empty tables into each state where a promise fails.

**The use cases as they run.** `Databases` holds the tables as mutable fields, the ledger as the two flat tables it is
stored in, with transactions that roll back all but what the program writes through the connection pool, on an error and on a
commit that fails. `LedgerService`, `EscrowService`, `PaymentService`, `PayoutService` and `CreditService` are the use cases
step by step, each proved to have exactly the effect and answer of its function in `Machine`.

**Payments and withdrawals in pieces.** `PaymentRaces` splits verification into load, provider, transaction, and failure into
load and update, and lets any number of them interleave with each other and with everything else. `WithdrawalRaces` does the
same for the six status changes of a withdrawal, each a load and a later write by id.

**The idempotency protocol.** `Idempotency` is the interceptor, guard, table and cache as a state machine with concurrent
callers, crashes, evictions, and stores and handlers that fail before or after taking effect; `Deduplication` states what it
guarantees, with the money machine as the handler; `Guards` is the same code as classes; `Answers` says what a call is told,
and `StuckKeys` which keys can never be used again.

`dafny verify dfyconfig.toml` checks the whole project.

## Assumptions

- Serial steps: except in `PaymentRaces`, `WithdrawalRaces` and `Idempotency`, a use case is one atomic step. The program reads
  balances through the pool and, for withdrawals, before its transaction, so serial execution is an assumption about how it is
  deployed. In the interleaved models each transaction body and each handler is atomic.
- The provider's replies, the fee product, the KYC and activity flags, generated ids, and whether a commit succeeds are
  parameters that may be anything. In the money machine a commit takes effect or reports its failure; one that does both is a
  fault of the handler in `Idempotency`. A use case of a single statement fails as a commit does.
- Each idempotency key is used with one method, so the stored method never differs from the asked one.

## Where code and documentation differ

- The comment on ReverseCreditGrant (internal/usecase/credit/reverse_credit.go:24) says "if not consumed"; the code has no such
  check. `Success.ReverseSucceeds` states what the code does. So promo balances can go negative
  (`Witnesses.NegativePromoReached`), exactly when `Success.PromoGoesNegativeIff` says, by at most what was reversed
  (`Balances.PromoNeverBelowReversals`), and a user with a negative one cannot pay, however full the wallet
  (`Success.NegativePromoRefused`).
- Refund keys carry shipment and amount only, so equal refund legs of one escrow collide: `Witnesses.EqualRefundRefused` is an
  input, `Success.PartialRefundSucceeds` the exact condition.
- A fee of zero, or of the whole balance, makes a zero line, which the journal check refuses: `Witnesses.SmallReleaseRefused`,
  and exactly when in `Success.ReleaseAtPercent`.
- Shipment and order ids with colons make keys collide: `Witnesses.CollisionReached`, `Success.ColonsCollide`; without them
  they never do (`Success.PaySucceeds`, `Success.FundSucceeds`).
- The double-entry check sums in int64, which wraps: `Ledger.AcceptedUnbalanced` is a list of debits alone that it accepts,
  `Ledger.AcceptedIffBalancedModulo` the exact condition. No use case posts such a list (`Bookkeeping.MoveKeeps`).
- LOCKED is never assigned (`Guarantees.StatusFixesBalance`).
- Credit grant rows are written outside the transaction, so a failed commit leaves the row without its journal:
  `Witnesses.LostGrantReached`, exactly when in `Balances.GrantLosesJournalIff` and `Balances.GrantWholeIff`, and with what
  effect on balances in `Balances.PromoEquation`.
- FailPaymentOrder writes by id whatever the row has become, so a credited order can end FAILED for good:
  `PaymentRaces.LateFailureWitness`, and exactly when a confirmation is safe in `PaymentRaces.ConfirmedForGoodIff`.
- Status changes of a withdrawal write by id whatever the row has become, so its reserve can be given back by a rejection and by
  a failure: `Witnesses.ReturnedTwiceReached`, and exactly when in `WithdrawalRaces.ReturnedTwiceIff`.
- A handler whose reply cannot be converted, or that takes effect and reports a failure, is rolled back in the table, and its
  retry takes effect again: `Deduplication.LostWitness`, and exactly when in `Deduplication.RetryRunsIff`; when no success is
  lost it never does (`Deduplication.SureSucceedOnce`).
- A conflict is documented as an in-flight duplicate (docs/tasks/F8-idempotency-report.md:60), but the row of a caller that crashed,
  or whose row could be neither stored nor deleted, stays PROCESSING, and its key is answered as a conflict for good:
  `StuckKeys.CrashSticks`, and exactly when in `StuckKeys.GetsStuckIff` and `StuckKeys.StuckForGoodIff`.

## Model

| member | source | states |
|---|---|---|
| Ledger.ValidateLines | internal/domain/ledger/journal.go:51-78 | the loop over int64 totals answers the first of: empty list, a line that is not one-sided, sides that differ after wrap-around |
| Ledger.AcceptedIffBalancedModulo | internal/domain/ledger/journal.go:51-78 | for every list of lines, accepted exactly when non-empty, one-sided and balanced modulo 2^64 |
| Ledger.AcceptedIffBalanced | internal/domain/ledger/journal.go:51-78 | as long as the sides differ by less than 2^64, accepted exactly when balanced over the integers |
| Ledger.AcceptedUnbalanced | internal/domain/ledger/journal.go:59-75 | beyond that the check is fooled: a list of debits alone that is accepted |
| Ledger.Balance | internal/infrastructure/postgres/repository/ledger.go:82-94 | a balance that can be read is credits minus debits of the selected lines and cannot have wrapped |
| Ledger.SumByCodeIsSumByAccount | internal/infrastructure/postgres/repository/ledger.go:82-94 | summing by stored account code is summing the account, whatever the ids contain |
| Accounts.CodeInjective | internal/domain/ledger/account.go:37-58 | no two accounts share a code, for arbitrary user and shipment ids |
| Accounts.ParseWalletRoundTrip | internal/domain/ledger/account.go:61-77 | parsing recognises exactly the wallet codes of non-empty user ids and returns the id |
| Accounts.ParsePromoRoundTrip | internal/domain/ledger/account.go:80-96 | the same for promo credit codes |
| Like.MatchesAround | internal/domain/ledger/account.go:15-27 | a LIKE pattern prefix%suffix selects exactly the texts that start and end as required without overlap, wildcards included (section 8.5 of ISO/IEC 9075-2) |
| Like.WalletPatternExact | internal/domain/ledger/account.go:15-17 | the wallet pattern selects exactly the wallet accounts although its underscore is a wildcard |
| Like.PromoPatternExact | internal/domain/ledger/account.go:25-27 | the promo pattern selects exactly the promo credit accounts |
| Like.EscrowPatternExact | internal/domain/ledger/account.go:20-22 | the escrow pattern selects exactly the escrow accounts |
| Refs.DecimalInjective | internal/usecase/escrow/amount.go:23-25 | printed amounts are different when the amounts are |
| Refs.RefundRefsInjective | internal/usecase/escrow/payer_funding.go:98-119 | a refund key determines shipment and amount, for arbitrary shipment ids |
| Refs.OneIdRefsInjective | internal/usecase/withdrawal/lifecycle_withdrawal.go:159-161 | keys made of one id and a fixed tail determine the id, and a failure key is never a rejection key |
| Refs.FundingRefsInjective | internal/usecase/escrow/fund_escrow.go:74-88 | funding keys determine shipment and order when either kind of id is free of colons |
| Refs.WalletPayCollision | internal/usecase/escrow/pay_from_wallet.go:93-95 | with colons in ids a funding key equals the wallet payment key of another shipment |
| Postings.PaymentAccepted | internal/usecase/escrow/payer_funding.go:21-67 | for all int64 balances, wrapped splits included: the split resolves and its journal validates exactly when promo is not negative and the wallet covers the rest, and the journal is then balanced over the integers |
| Postings.ReleaseSound | internal/usecase/escrow/release_escrow.go:73-85 | a release journal validates exactly when 0 < fee < balance, and moves the balance to fee revenue and carrier |
| Postings.RefundPostsBoth | internal/usecase/escrow/refund_escrow.go:113-125 | posting the refund legs one by one succeeds with both or fails on the first duplicate key |
| Domain.PercentFee | internal/domain/escrow/fee.go:4-16 | for a percentage from 0 to 100, in exact arithmetic: the fee is the largest integer not above that share of the amount, lies in [0, amount], and the clamp leaves it alone |
| Domain.RoundedFee | internal/domain/escrow/fee.go:4-16 | the same computed in float64, for any monotone rounding that is exact on integers up to 2^53 and amounts up to a hundredth of that: the exact fee or one more, and never more than the amount |
| Tables.FlatSums | internal/infrastructure/postgres/repository/ledger.go:82-123 | summing the flat entry table under any condition is summing the log journal by journal |
| Tables.HeaderKeys | internal/infrastructure/postgres/migrations/00002_ledger.sql:9 | the unique constraint on headers refuses exactly the keys of the log |
| Databases.Database.CreateJournal | internal/infrastructure/postgres/repository/ledger.go:45-79 | inserts header and entry rows in a loop, for any one-sided lines, wallets registered or not: the log grows by exactly this journal, or the key is a duplicate and nothing changes |
| Databases.Database.SumBalance | internal/infrastructure/postgres/repository/ledger.go:82-123 | the two table sums give the balance of the log, or an error when one exceeds int64 |
| Databases.Database.End | internal/infrastructure/postgres/tx.go:13-25 | the end of a transaction: on an error, and on a commit that fails, every transactional table is as it was at the begin; grants and the wallet registry, written through the pool, keep what was written |
| Databases.Database.EnsureForLines | internal/usecase/wallet/ensure_for_lines.go:10-30 | the loop with its seen set registers exactly the users of the parsed wallet lines |
| Databases.Database.CreateGrant | internal/infrastructure/postgres/repository/credit.go:52-90 | inserts the grant unless id or idempotency key is taken |
| Databases.Database.MarkReversed | internal/infrastructure/postgres/repository/credit.go:139-159 | the conditional update reverses only an active grant and tells a missing grant from a reversed one |
| LedgerService.LedgerUseCases.NewJournal | internal/domain/ledger/journal.go:81-104 | a journal with exactly the given lines, or the validation error |
| LedgerService.LedgerUseCases.PostJournal | internal/usecase/ledger/post_journal.go:31-46 | validate, register wallets, persist: the log is that of the specification, and a refused journal leaves it alone |
| EscrowService.EscrowUseCases.CreateEscrow | internal/usecase/escrow/create_escrow.go:31-55 | new state and answer are those of Machine.CreateEscrow |
| EscrowService.EscrowUseCases.MarkDelivered | internal/usecase/escrow/mark_delivered.go:27-46 | refines Machine.MarkDelivered |
| EscrowService.EscrowUseCases.FreezeEscrow | internal/usecase/escrow/freeze_escrow.go:27-46 | refines Machine.FreezeEscrow |
| EscrowService.EscrowUseCases.PayFromWallet | internal/usecase/escrow/pay_from_wallet.go:56-122 | refines Machine.PayFromWallet; on any error the transaction leaves the state as it was |
| EscrowService.EscrowUseCases.FundEscrow | internal/usecase/escrow/fund_escrow.go:35-108 | refines Machine.FundEscrow with its two journals, alone or nested in a caller's transaction, which then does the rollback |
| EscrowService.EscrowUseCases.ReleaseEscrow | internal/usecase/escrow/release_escrow.go:50-104 | refines Machine.ReleaseEscrow |
| EscrowService.EscrowUseCases.PostRefundJournals | internal/usecase/escrow/refund_escrow.go:113-125 | the posting loop agrees with posting the whole list and stops at the first refusal |
| EscrowService.EscrowUseCases.RefundEscrow | internal/usecase/escrow/refund_escrow.go:49-98 | refines Machine.RefundEscrow; a second leg that is refused undoes the first |
| EscrowService.EscrowUseCases.PartialRefundEscrow | internal/usecase/escrow/partial_refund_escrow.go:50-106 | refines Machine.PartialRefundEscrow |
| PaymentService.PaymentUseCases.CreatePaymentOrder | internal/usecase/payment/create_payment_order.go:61-139 | refines Machine.CreatePaymentOrder: the row left FAILED when the provider refuses, and PENDING without an authority when the second statement fails |
| PaymentService.PaymentUseCases.CreateWalletTopupOrder | internal/usecase/payment/create_wallet_topup_order.go:49-108 | refines Machine.CreateWalletTopupOrder in the same way |
| PaymentService.PaymentUseCases.VerifyOrder | internal/usecase/payment/verify_order.go:60-158 | refines Machine.VerifyOrder for a given order id, with FundEscrow nested in its transaction; an error or a failed commit undoes both legs |
| PaymentService.PaymentUseCases.VerifyByAuthority | internal/usecase/payment/verify_order.go:156-165 | the same by authority: for whichever row of that authority the lookup returns, unknown and empty authorities included |
| PaymentService.PaymentUseCases.FailPaymentOrder | internal/usecase/payment/verify_order.go:230-267 | refines Machine.FailPaymentOrder on whichever row of the authority the lookup returns; unknown and empty authorities are errors |
| PaymentService.PaymentUseCases.HandleCallback | internal/usecase/payment/handle_callback.go:44-82 | refines Machine.HandleCallback: any verify error fails the order, which is looked up a second time and may be another row of the same authority |
| PayoutService.WithdrawalUseCases.CreateWithdrawal | internal/usecase/withdrawal/create_withdrawal.go:53-106 | refines Machine.CreateWithdrawal |
| PayoutService.WithdrawalUseCases.Approve | internal/usecase/withdrawal/lifecycle_withdrawal.go:32-49 | refines Machine.ApproveWithdrawal |
| PayoutService.WithdrawalUseCases.MarkSent | internal/usecase/withdrawal/lifecycle_withdrawal.go:68-88 | refines Machine.MarkWithdrawalSent |
| PayoutService.WithdrawalUseCases.Settle | internal/usecase/withdrawal/lifecycle_withdrawal.go:100-119 | refines Machine.SettleWithdrawal |
| PayoutService.WithdrawalUseCases.Fail | internal/usecase/withdrawal/lifecycle_withdrawal.go:143-186 | refines Machine.FailWithdrawal |
| PayoutService.WithdrawalUseCases.Process | internal/usecase/withdrawal/process_withdrawal.go:30-54 | refines Machine.ProcessWithdrawal |
| PayoutService.WithdrawalUseCases.Reject | internal/usecase/withdrawal/reject_withdrawal.go:45-88 | refines Machine.RejectWithdrawal |
| CreditService.CreditUseCases.GrantCredit | internal/usecase/credit/grant_credit.go:55-101 | refines Machine.GrantCredit; a refused journal or a failed commit is rolled back while the grant row stays |
| CreditService.CreditUseCases.ReverseCreditGrant | internal/usecase/credit/reverse_credit.go:48-96 | refines Machine.ReverseCreditGrant; a failed commit undoes the journal and leaves the row REVERSED |
| CreditService.CreditUseCases.ReverseLoaded | internal/usecase/credit/reverse_credit.go:65-83 | the reversal transaction for a row read earlier, which another call may have reversed since |
| Effects.EffectNet | internal/usecase/escrow/payer_funding.go:50-121 | the journals of a step change every account by exactly the step's amounts and no other account |
| Bookkeeping.MoveKeeps | internal/usecase/escrow/partial_refund_escrow.go:65-101 | every legal move keeps the whole invariant: balanced log with unique keys, tables that explain every balance, status fixing balance, solvency, orders, keys, refund legs, promo floor |
| Steps.ConfirmOrderStep | internal/usecase/payment/verify_order.go:84-150 | the confirming transaction is a legal move on whatever the row has become |
| Steps.ClampNeverTaken | internal/usecase/escrow/partial_refund_escrow.go:84-87 | the promo counter never goes below zero, so its clamp is dead and its int64 subtraction exact |
| Steps.ExecuteStep | internal/usecase/escrow/refund_escrow.go:49-98 | every call of a use case, failing commits and statements included, is one legal move; on an error that move is none at all, an order whose creation got past its first statement, or the grant row of a commit that failed; on success of an escrow use case it writes that escrow |
| Steps.RunGood | internal/infrastructure/postgres/tx.go:13-25 | every state that any serial run of use cases with any arguments reaches keeps the invariant |
| Balances.WalletEquation | internal/usecase/wallet/get_balance.go:25-31 | wallet = confirmed topups - withdrawals not given back - wallet legs paid + wallet refunds + carrier income, for every user in every reachable state; PSP funding nets to zero |
| Balances.PromoEquation | internal/usecase/credit/get_balance.go:25-31 | promo = active grants - promo spent + promo refunded, shifted by exactly the grants and reversals whose commit failed after their row was written |
| Balances.PspEquation | internal/usecase/escrow/fund_escrow.go:64-101 | net debit of PSP clearing = confirmed topups + PSP-funded escrows |
| Balances.PayoutEquation | internal/usecase/withdrawal/create_withdrawal.go:80-101 | payout clearing = withdrawals not failed or rejected |
| Balances.PromoNeverBelowReversals | internal/usecase/credit/reverse_credit.go:53-83 | a promo balance is at least minus the sum of the user's reversed grants |
| Balances.CommittedPromoEquation | internal/usecase/credit/get_balance.go:25-31 | when every commit succeeds nothing is lost: promo = active grants - promo spent + promo refunded |
| Balances.GrantLosesJournalIff | internal/usecase/credit/grant_credit.go:55-101 | exactly when a grant with all its journals loses one: the call grants or reverses it with accepted arguments, and its commit fails |
| Balances.GrantWholeIff | internal/usecase/credit/reverse_credit.go:48-96 | after any run a grant has all its journals if and only if no call that wrote it failed to commit; what is lost stays lost |
| Treasury.QueriesPartition | internal/domain/ledger/account.go:14-58 | the five codes and three LIKE patterns partition all accounts |
| Treasury.WriteLine | internal/usecase/treasury/get_treasury_summary.go:95-125 | one query and one line: the signed balance of exactly one family, or an overflow error |
| Treasury.GetTreasurySummary | internal/usecase/treasury/get_treasury_summary.go:34-93 | the map filled line by line is the summary, or the first unreadable sum or unsupported currency fails it |
| Treasury.SummaryReports | internal/usecase/treasury/get_treasury_summary.go:42-92 | each of the eight lines survives the later writes and reports its family |
| Treasury.TreasuryEquation | internal/usecase/treasury/get_treasury_summary.go:42-125 | PSP + bank + payout + promo expense = fee revenue + wallets + escrows + promo credit in every reachable state |
| Treasury.ClearingLines | internal/usecase/treasury/get_treasury_summary.go:95-125 | the signs: the PSP line is confirmed topups + PSP-funded escrows, the payout line minus the standing withdrawals |
| Guarantees.StatusFixesBalance | internal/domain/escrow/transitions.go:4-41 | each status fixes the ledger balance, LOCKED is unreachable, 0 <= promo counter <= balance until release |
| Guarantees.EscrowReadable | internal/usecase/escrow/balance.go:15-21 | the balance of an escrow can always be read |
| Guarantees.NoOverdraft | internal/usecase/escrow/fund_escrow.go:72-93 | no prefix of the log overdraws a wallet or an escrow, between two legs included |
| Guarantees.ConfirmedOrderPaid | internal/usecase/payment/verify_order.go:94-124 | a CONFIRMED shipment order is the payment of its escrow, equal in payer and amount, with both legs posted |
| Guarantees.OneConfirmedPerShipment | internal/usecase/payment/create_payment_order.go:72-84 | at most one order of a shipment is ever CONFIRMED |
| Guarantees.ConfirmedTopupPosted | internal/usecase/payment/verify_order.go:101-117 | a topup is CONFIRMED exactly when its journal is posted |
| Guarantees.WithdrawalJournals | internal/usecase/withdrawal/reject_withdrawal.go:51-83 | exactly one reserve per withdrawal, and exactly one reversal exactly when it failed or was rejected, never both |
| Guarantees.GrantJournals | internal/usecase/credit/reverse_credit.go:65-83 | at most one grant journal and one reversal per grant, each with the amount and user of its row, the reversal only for a REVERSED one |
| Guarantees.AllOrNothing | internal/infrastructure/postgres/tx.go:13-25 | a call that fails, at its commit included, leaves ledger, escrows, withdrawals and verify events as they were, orders but for one that the provider refused or whose second statement failed, grants but for one whose commit failed |
| Guarantees.LogGrows | internal/infrastructure/postgres/repository/ledger.go:45-79 | the log is append-only |
| Guarantees.EscrowLifecycle | internal/domain/escrow/transitions.go:4-41 | an escrow moves only along the edges of its lifecycle; its parties and amount never change |
| Guarantees.WithdrawalLifecycle | internal/usecase/withdrawal/lifecycle_withdrawal.go:32-186 | so does a withdrawal; settled, completed, failed and rejected are final |
| Guarantees.OrderLifecycle | internal/usecase/payment/verify_order.go:60-154 | in serial runs CONFIRMED and FAILED orders are never written again |
| Refunds.RefundProvenance | internal/usecase/escrow/payer_funding.go:81-90 | promo refunded plus promo counter = promo paid; the split refunded so far is the split of one refund of the total; REFUNDED returned exactly the original split |
| Refunds.RefundMoves | internal/usecase/escrow/partial_refund_escrow.go:76-93 | an accepted refund moves the promo part and the wallet part to the payer and changes no other account |
| Refunds.SeriesGivesOneSplit | internal/usecase/escrow/partial_refund_escrow.go:76-93 | any accepted series of partial refunds totalling R gives the split of one refund of R |
| Refunds.RefundLegBound | internal/usecase/escrow/payer_funding.go:109-118 | n wallet refunds of an escrow need n(n+1)/2 within its non-promo part, n promo refunds within its promo part |
| Success.ReleaseSucceeds | internal/usecase/escrow/release_escrow.go:56-85 | a release succeeds exactly in DISPUTE_WINDOW and PARTIALLY_REFUNDED and when 0 < fee < balance; what a refused one is told, and that an empty or unreadable balance or a duplicate release never is the reason |
| Success.ReleaseAtPercent | internal/usecase/escrow/release_escrow.go:73-85 | with a fee of p percent, in exact arithmetic: exactly when balance * p >= 100 and p < 100 |
| Success.ReleaseRounded | internal/usecase/escrow/release_escrow.go:73-85 | with the float64 fee, however it rounds: a release succeeds whenever the exact share leaves something on both sides, and never at zero or one hundred percent |
| Success.PartialRefundSucceeds | internal/usecase/escrow/partial_refund_escrow.go:50-80 | a partial refund succeeds exactly in FUNDED, DISPUTE_WINDOW, FROZEN and PARTIALLY_REFUNDED, for a positive amount within the balance, when no earlier leg of the same kind had the same amount; what a refused one is told |
| Success.RefundSucceeds | internal/usecase/escrow/refund_escrow.go:49-85 | the same for a full refund, of the promo counter and the rest of the balance |
| Success.PayIff | internal/usecase/escrow/pay_from_wallet.go:56-101 | a payment succeeds exactly when the escrow is CREATED and asked for by its payer for its amount, both balances can be read, promo is not negative, the wallet covers the rest and the key is free |
| Success.PayRefused | internal/usecase/escrow/pay_from_wallet.go:56-101 | what every refused payment is told, in every reachable state |
| Success.PaySucceeds | internal/usecase/escrow/pay_from_wallet.go:56-101 | with colon-free shipment ids the key always is free: exactly when the escrow awaits this payment and the balances can be read and cover it |
| Success.NegativePromoRefused | internal/usecase/escrow/payer_funding.go:26-35 | with a negative promo balance no payment succeeds |
| Success.FundIff | internal/usecase/escrow/fund_escrow.go:35-101 | PSP funding succeeds exactly in CREATED with both keys free; what a refused one is told |
| Success.FundSucceeds | internal/usecase/escrow/fund_escrow.go:59-101 | with colon-free shipment ids exactly in CREATED |
| Success.ColonsCollide | internal/usecase/escrow/fund_escrow.go:86-88 | with colons a funding can take the key of another shipment's wallet payment: that escrow, CREATED and covered by its payer's wallet, is refused as a duplicate |
| Success.VerifyTopupSucceeds | internal/usecase/payment/verify_order.go:76-130 | a pending topup is credited exactly when the verified amount is its own |
| Success.VerifyShipmentSucceeds | internal/usecase/payment/verify_order.go:76-130 | a pending shipment order confirms exactly when the amount matches and its escrow is still CREATED |
| Success.VerifyAgain | internal/usecase/payment/verify_order.go:68-70 | once an order is verified, verifying it again after any further run answers the same row and changes nothing, whatever provider and database say |
| Success.WithdrawalSucceeds | internal/usecase/withdrawal/create_withdrawal.go:53-101 | a withdrawal is accepted exactly when its gates are open, its id is new and the wallet can be read and covers it; what a refused one is told, which is never a duplicate journal |
| Success.ReversalSucceeds | internal/usecase/withdrawal/lifecycle_withdrawal.go:143-170 | failing succeeds exactly in APPROVED and SENT_TO_BANK, rejecting exactly in PENDING: the reversal is never a duplicate |
| Success.ReverseSucceeds | internal/usecase/credit/reverse_credit.go:48-83 | reversing a grant depends on its status alone, not on what was spent since; what a refused reversal is told |
| Success.ReversedOnce | internal/infrastructure/postgres/repository/credit.go:139-159 | of any number of reversals holding the same active row only one posts; the others are refused after any further run |
| Success.PromoGoesNegativeIff | internal/usecase/credit/reverse_credit.go:48-83 | exactly when a call takes a promo balance below zero: it commits a reversal of an active grant of that user for more than the balance |
| EscrowOutcomes.EscrowOpens | internal/usecase/escrow/create_escrow.go:31-55 | an escrow is opened exactly when it is filled in and its shipment has none: CREATED, unfunded, and with nothing in its account |
| EscrowOutcomes.DeliveryOpensWindow | internal/usecase/escrow/mark_delivered.go:27-46 | a delivery is accepted exactly in FUNDED; the row differs only in its status DISPUTE_WINDOW, and the escrow holds its whole amount |
| EscrowOutcomes.DisputeFreezes | internal/usecase/escrow/freeze_escrow.go:27-46 | a dispute freezes exactly in DISPUTE_WINDOW (or LOCKED, which does not occur); the escrow holds its whole amount |
| EscrowOutcomes.PaymentSpendsPromoFirst | internal/usecase/escrow/pay_from_wallet.go:77-116 | an accepted payment takes min(promo balance, amount) from promo credit, the rest from the wallet and all of it into the escrow, changes no other account, and the row records the split and its source |
| EscrowOutcomes.FundingPassesThrough | internal/usecase/escrow/fund_escrow.go:59-101 | an accepted funding moves the amount from PSP clearing to the escrow, leaves the payer's wallet as it was, and the row names the order |
| EscrowOutcomes.ReleasePaysCarrier | internal/usecase/escrow/release_escrow.go:73-98 | an accepted release adds the fee to fee revenue, balance - fee to the wallet of the carrier, empties the escrow, changes no other account, and the row differs only in its status RELEASED |
| EscrowOutcomes.PartialRefundGivesBack | internal/usecase/escrow/partial_refund_escrow.go:76-100 | an accepted partial refund gives back promo credit up to the counter and the rest to the wallet, and changes no other account; REFUNDED exactly when nothing is left |
| EscrowOutcomes.RefundGivesBack | internal/usecase/escrow/refund_escrow.go:64-98 | an accepted full refund gives back the promo counter to promo credit and the rest of the balance to the wallet, and leaves the escrow REFUNDED and empty |
| EscrowOutcomes.CommandTakesEdge | internal/domain/escrow/transitions.go:4-41 | every accepted call of an escrow use case takes exactly its own edge of the lifecycle, with the balance that belongs to it before and after |
| OrderOutcomes.PaymentOrderPlaced | internal/usecase/payment/create_payment_order.go:61-139 | an order is accepted exactly when its escrow is CREATED for this payer and amount, an agreed price agrees and the id is new; the row it leaves, with authority, FAILED, or PENDING without one; and what a refused one is told |
| OrderOutcomes.TopupOrderPlaced | internal/usecase/payment/create_wallet_topup_order.go:49-108 | the same for a topup order, which needs no escrow |
| OrderOutcomes.CreditableIff | internal/usecase/escrow/fund_escrow.go:74-88 | with colon-free shipment ids the money of an order can be posted exactly when it is a topup or its escrow is CREATED |
| OrderOutcomes.VerifyDecides | internal/usecase/payment/verify_order.go:60-154 | a pending order is CONFIRMED exactly when purpose and verified amount are its own, its money can be posted and the transaction commits; then its journals are posted, PSP clearing and the wallet or escrow change by the amount and nothing else does; otherwise nothing changes, and why |
| OrderOutcomes.FailDecides | internal/usecase/payment/verify_order.go:230-267 | failing an order writes FAILED unless it is CONFIRMED, and moves no money |
| OrderOutcomes.CallbackDecides | internal/usecase/payment/handle_callback.go:44-82 | a pending order that is reported paid is CONFIRMED with its journals exactly when the verified amount is its own, its money can be posted and the transaction commits; reported unpaid, or not confirmed, it is FAILED and no money moves, whatever the provider would have said |
| OrderOutcomes.CallbackRepeats | internal/usecase/payment/handle_callback.go:44-82 | a callback for an order that is no longer pending changes nothing |
| OrderOutcomes.OrderFundsEscrow | internal/usecase/payment/handle_callback.go:73-82 | from order to escrow: an accepted order that is reported paid and verified funds its escrow, which then holds the amount |
| PayoutOutcomes.WithdrawalReserves | internal/usecase/withdrawal/create_withdrawal.go:72-106 | an accepted withdrawal is PENDING and its amount has gone from the wallet to payout clearing, and nothing else has changed |
| PayoutOutcomes.StatusMoves | internal/usecase/withdrawal/lifecycle_withdrawal.go:32-119 | approving, sending, settling and processing change a withdrawal exactly in PENDING, APPROVED, SENT_TO_BANK and PENDING, to the next status, and move no money |
| PayoutOutcomes.FailureGivesBack | internal/usecase/withdrawal/lifecycle_withdrawal.go:143-186 | an accepted failure gives the whole amount back from payout clearing to the wallet |
| PayoutOutcomes.RejectionGivesBack | internal/usecase/withdrawal/reject_withdrawal.go:45-88 | so does a rejection |
| PayoutOutcomes.GrantGives | internal/usecase/credit/grant_credit.go:55-101 | a grant is accepted exactly when it is filled in and no row has its id or its idempotency key; it is then ACTIVE and its amount has gone from promo expense to promo credit |
| PayoutOutcomes.ReversalTakesBack | internal/usecase/credit/reverse_credit.go:48-96 | an accepted reversal marks an ACTIVE row and takes its amount back from promo credit to promo expense |
| PayoutOutcomes.KeyGrantsOnce | internal/infrastructure/postgres/repository/credit.go:52-90 | once a grant has written its row, under a failed commit too, every later grant under its idempotency key is refused and changes nothing, after any further run |
| Witnesses.NegativePromoReached | internal/usecase/credit/reverse_credit.go:24-83 | from empty tables, for any user and amount: grant, spend and reverse leaves a promo balance of minus the amount |
| Witnesses.EqualRefundRefused | internal/usecase/escrow/payer_funding.go:98-119 | from empty tables: the second of two equal partial refunds is refused as a duplicate although the balance covers it |
| Witnesses.SmallReleaseRefused | internal/usecase/escrow/release_escrow.go:73-85 | from empty tables: a delivered escrow whose fee rounds down to zero is refused its release |
| Witnesses.CollisionReached | internal/delivery/grpc/handlers/escrow.go:77-81 | from empty tables, for any b and c: a covered CREATED escrow whose payment is refused because another shipment's funding took its key |
| Witnesses.LostGrantReached | internal/usecase/credit/grant_credit.go:55-101 | from empty tables: a grant whose commit fails stays active without a journal |
| Witnesses.ReturnedTwiceReached | internal/usecase/withdrawal/lifecycle_withdrawal.go:32-49 | from empty tables: an amount topped up and withdrawn comes back twice when an approval writes after a rejection |
| Progress.StepDescends | internal/domain/escrow/transitions.go:4-41 | a call leaves an escrow alone or makes (status rank, balance) lexicographically smaller; a successful use case on it, or the confirmation of its order, makes it smaller; a failing call leaves it alone |
| Progress.FewActions | internal/domain/escrow/transitions.go:4-41 | in a run of any length at most A + 4 calls succeed on an escrow of amount A, equal-looking partial refunds counted, and only they change its row or balance |
| PaymentRaces.InterleavingOk | internal/usecase/payment/verify_order.go:60-154 | every interleaving of split verifications, split failures and all use cases keeps the invariant |
| PaymentRaces.VerifyIsPieces | internal/usecase/payment/verify_order.go:60-154 | a verification that nothing interrupts is that of the money machine |
| PaymentRaces.FailIsPieces | internal/usecase/payment/verify_order.go:230-267 | so is a failure |
| PaymentRaces.ConfirmedIsPosted | internal/usecase/payment/verify_order.go:94-124 | in every interleaving CONFIRMED implies the order's journals, each exactly once |
| PaymentRaces.CreditedAtMostOnce | internal/usecase/payment/verify_order.go:101-150 | a topup is credited exactly once after its verify event and never before |
| PaymentRaces.ShipmentCreditedOnce | internal/usecase/payment/verify_order.go:94-100 | once a shipment order has its verify event both legs of its funding are posted, each exactly once, also when it was overwritten to FAILED since |
| PaymentRaces.OneCreditPerShipment | internal/usecase/payment/verify_order.go:94-100 | of all orders of a shipment at most one is credited |
| PaymentRaces.ConfirmedUnlessOverwritten | internal/usecase/payment/verify_order.go:230-247 | a CONFIRMED order loses that status exactly when a failure that loaded it earlier writes over it |
| PaymentRaces.ConfirmedForGoodIff | internal/usecase/payment/verify_order.go:230-247 | a CONFIRMED order stays CONFIRMED in every continuation if and only if no failure of it is parked between its load and its update |
| PaymentRaces.FailedForGood | internal/usecase/payment/verify_order.go:68-73 | a credited order that is FAILED stays FAILED in every continuation, verifications parked before their transaction included |
| PaymentRaces.LateFailureLoses | internal/usecase/payment/verify_order.go:230-247 | after any interleaving with a pending topup these actions leave it credited and FAILED, and so does every continuation, with the topup posted exactly once |
| PaymentRaces.LateFailureWitness | internal/usecase/payment/verify_order.go:230-247 | such an interleaving from empty tables |
| WithdrawalRaces.WholeIsPieces | internal/usecase/withdrawal/lifecycle_withdrawal.go:32-186 | every status change of a withdrawal, with its checks, is its load and its write by id run one after the other |
| WithdrawalRaces.OthersApart | internal/usecase/escrow/fund_escrow.go:35-108 | no use case on escrows, orders or grants writes a withdrawal or posts a reserve reversal, from any state whatever |
| WithdrawalRaces.InterleavingOk | internal/usecase/withdrawal/lifecycle_withdrawal.go:32-186 | in every interleaving of split status changes and all use cases: amounts positive, keys unique, no reversal while pending, and every reversal is one of an existing withdrawal for its user and amount |
| WithdrawalRaces.ReturnedTwiceIff | internal/usecase/withdrawal/reject_withdrawal.go:45-88 | after any interleaving some continuation gives the reserve back twice if and only if the rejection is posted, possible or parked, and so is the failure |
| WithdrawalRaces.TwiceIsTwice | internal/usecase/withdrawal/lifecycle_withdrawal.go:143-186 | then both reversals are in the ledger, each exactly once and for the whole amount |
| Idempotency.ServeSafe | internal/usecase/idempotency/guard.go:28-82 | every interleaving of calls, retries, crashes, evictions and failing stores keeps one owner per key, at most one kept run, and cache and answers in step with the rows |
| Deduplication.AtMostOnce | internal/delivery/grpc/idempotency/interceptor.go:31-63 | never two handlers in flight for a key and never two recorded runs |
| Deduplication.KeptOnce | internal/delivery/grpc/idempotency/interceptor.go:31-63 | two recorded runs of one key are the same run |
| Deduplication.OneSuccessPerKey | internal/delivery/grpc/idempotency/interceptor.go:43-62 | a key's handler succeeds at most once more than its successes were lost, by a reply that did not convert or did not arrive |
| Deduplication.SureSucceedOnce | internal/delivery/grpc/idempotency/interceptor.go:43-62 | when no success is lost each key succeeds at most once |
| Deduplication.AllKeptIffSure | internal/delivery/grpc/idempotency/interceptor.go:43-62 | a run keeps all successes if and only if each step that ran a handler successfully also heard its reply and converted it |
| Deduplication.ReplaysAreStable | internal/usecase/idempotency/guard.go:33-64 | every replay and the first answer are the reply of the one recorded run of the key, which is what the use case answers at that run's place in the serial run |
| Deduplication.CacheCoherent | internal/usecase/idempotency/guard.go:52-77 | a cached snapshot is that of the COMPLETED row of its key and never null |
| Deduplication.LookUpIsKept | internal/infrastructure/redis/idempotency_cache.go:28-42 | in every interleaving a look at the cache that finds a snapshot finds that of the one recorded run of its key, and never runs the handler |
| Deduplication.SetIsFound | internal/infrastructure/redis/idempotency_cache.go:45-51 | what is in the cache is what every sound look at the key replays, through any further actions, until it is evicted |
| Deduplication.CompletedForever | internal/infrastructure/postgres/repository/idempotency.go:103-132 | a COMPLETED row is never changed or deleted, whatever happens after |
| Deduplication.DeduplicationRefines | internal/delivery/grpc/idempotency/interceptor.go:21-64 | the finance state is that of a serial run of the recorded handler runs, and every recorded reply is the answer of its run at its place there, so all serial guarantees hold behind the protocol |
| Deduplication.HistoryIsEffects | internal/delivery/grpc/idempotency/interceptor.go:43-48 | every recorded run succeeded, or is one that leaves a row when it fails |
| Deduplication.RunsOncePerKey | internal/delivery/grpc/idempotency/interceptor.go:21-64 | when no success is lost and commands leave nothing when they fail, in every interleaving with crashes, evictions and failing stores: the finance state is a serial run with at most one run per key, each succeeds at its place, and every fresh or replayed answer is the result of its key's run |
| Deduplication.RunsWereAsked | internal/delivery/grpc/idempotency/interceptor.go:29-43 | every recorded run of a key is the run of a command that came in under that key |
| Deduplication.LostRunsTwice | internal/delivery/grpc/idempotency/interceptor.go:49-59 | after any interleaving, for an unused key: a reply that does not convert, or a handler that takes effect and reports a failure, frees the key although the effect stays, and a retry takes effect again |
| Deduplication.LostWitness | internal/delivery/grpc/idempotency/interceptor.go:49-59 | such a run from an idle server: one key, two wallet topup orders |
| Deduplication.RetryRunsIff | internal/delivery/grpc/idempotency/interceptor.go:43-62 | exactly when a retry reaches the handler: the first call's was not run, or failed, or its reply did not convert or did not arrive |
| Guards.IdempotencyRepository.TryBeginProcessing | internal/infrastructure/postgres/repository/idempotency.go:27-52 | insert, else a separate read: acquired exactly when the key was absent |
| Guards.IdempotencyRepository.Complete | internal/infrastructure/postgres/repository/idempotency.go:103-123 | the conditional update, and failure when no PROCESSING row is there |
| Guards.IdempotencyRepository.DeleteProcessing | internal/infrastructure/postgres/repository/idempotency.go:126-132 | deletes only a PROCESSING row |
| Guards.Guard.Begin | internal/usecase/idempotency/guard.go:28-66 | cache, table and refill agree with the protocol's steps up to the handler |
| Guards.Guard.Complete | internal/usecase/idempotency/guard.go:69-77 | row first, cache second, as the protocol stores |
| Guards.Guard.Rollback | internal/usecase/idempotency/guard.go:80-82 | frees the key as the protocol does |
| Guards.Interceptor.Intercept | internal/delivery/grpc/idempotency/interceptor.go:21-64 | one guarded call under any faults of stores and handler, its reply converting, not a message, or failing to convert, has exactly the effect and answer of the protocol run without interruption |
| Guards.FinishIsServed | internal/delivery/grpc/idempotency/interceptor.go:21-64 | running a call without interruption is one of the protocol's interleavings |
| Answers.CompletedReplays | internal/usecase/idempotency/guard.go:33-58 | after any interleaving, a call whose key is COMPLETED is answered with the stored snapshot, cached or not, runs nothing and writes no row, and the snapshot is in the cache afterwards unless that write fails |
| Answers.ToldIsReplayed | internal/delivery/grpc/idempotency/interceptor.go:21-64 | once a caller has been told a reply under a key, every later call of that key with sound stores is told the same and has no effect, whatever happens in between |
| Answers.ProcessingConflicts | internal/usecase/idempotency/guard.go:52-60 | a call whose key is PROCESSING is answered as a conflict and does nothing |
| Answers.KeylessRefused | internal/usecase/idempotency/guard.go:29-31 | a call without a key is refused |
| Answers.NewKeyRuns | internal/delivery/grpc/idempotency/interceptor.go:43-63 | the first call of a key runs its command; a success that is stored is told, in the row, in the cache and in the history; after a failure, or a reply that is no message, the key is free again |
| Answers.FaultyBeginFails | internal/usecase/idempotency/guard.go:33-51 | when the cache, the insert or the read fails, the call fails and runs nothing |
| Answers.FaultyRunFails | internal/delivery/grpc/idempotency/interceptor.go:43-62 | when the handler's answer does not arrive, or its reply cannot be stored or cached, the caller is told of a failure although the command may have taken effect |
| Answers.NewCallIsServed | internal/delivery/grpc/idempotency/interceptor.go:21-64 | such a call is one of the interleavings: it comes in and takes its steps one after the other |
| StuckKeys.StuckForGoodIff | internal/infrastructure/postgres/repository/idempotency.go:103-132 | a PROCESSING key is PROCESSING in every continuation if and only if no call holds it |
| StuckKeys.StuckConflicts | internal/usecase/idempotency/guard.go:52-60 | every later call of such a key is answered as a conflict |
| StuckKeys.GetsStuckIff | internal/delivery/grpc/idempotency/interceptor.go:43-62 | exactly when an action leaves a key stuck: its owner crashes, its row can be neither stored nor deleted, or its insert takes effect and reports a failure |
| StuckKeys.CrashSticks | internal/delivery/grpc/idempotency/interceptor.go:43-47 | after any run, from an idle server too: a call that crashes in its handler leaves its key stuck |

## Left out

- gRPC and HTTP handlers, request decoding, error-to-status mapping, configuration and health: wiring.
- The Zibal client: its answer is a parameter, an error or an amount.
- Trimming of white space around an authority before it is looked up.
- Audit events, and provider-event rows other than the verify event: best-effort writes with ignored errors.
- Timestamps, descriptions, URLs, receipt and provider references, IBAN hashes, grant reasons and expiry dates: columns no
  decision depends on.
- Domain.PercentFee: exact arithmetic; what float64 rounding can change is in Domain.RoundedFee, for amounts up to a hundredth of
  2^53 rials. Machine.ReleaseEscrow takes the product as a parameter of any int64 value.
- Success.ReleaseAtPercent: exact arithmetic as well; Success.ReleaseRounded has the rounded fee.
- Ledger.Balance: sums are NUMERIC in the database and must fit an int64 to be read, so a balance never wraps; rows and lines
  hold unbounded integers, and int64 arithmetic is written out where it can leave its range.
- Databases.Database.CreateJournal: takes one-sided lines; what the CHECK constraints on entry rows answer to others is not
  modelled, because only validated journals reach it.
- The registry of promo credit accounts (EnsureCreditAccount): the same idea as the wallet registry, which is modelled.
- Machine.Execute: database errors other than constraint violations and failed commits are not modelled in the money machine;
  before the commit they undo the same as any other error.
- JSON and protojson encoding: a snapshot is the reply itself or nothing, and conversion may fail.
- List queries, pagination, reconciliation runs, amount parsing: easy members.
- Postgres isolation anomalies beyond the interleavings above, and other calls between the two statements that create an order.
