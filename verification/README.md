# Marketplace protocols, modelled and proved

A Dafny model of the row-level protocols of a CS2 peer-to-peer marketplace backend, with proofs of what
they keep over every run. The backend commits with conditional updates and row locks on a relational
database; here a call that reads before it commits is kept in flight with the row it read, any other call
may commit in between, and a call that throws changes nothing. Each state machine is a total function
`Step` over an action and `Run` over a sequence of actions, and the main results speak about every state
`Run` can reach. The code's own step-by-step form is kept beside it: classes whose methods update the rows
in the order of the source and are proved to perform exactly one action of the machine.

`dafny verify dfyconfig.toml` checks the whole project.

| file | what it holds |
|---|---|
| `TradeTasks.dfy`, `TradeTaskRetries.dfy`, `TradeTaskLaws.dfy` | leases on trade tasks, progress reports, sweeps, and the race with order cancellation; how often a task is retried; what each call requires of a row and leaves in it |
| `OrderStates.dfy`, `Market.dfy`, `MarketMoney.dfy`, `MarketSettlement.dfy`, `MarketOutcomes.dfy`, `MarketWitnesses.dfy`, `MarketService.dfy` | orders, lots, holds, disputes and money as one machine; its lot, money, eight-day and budget results; when each call takes effect and what it leaves; runs that need their conditions; the service methods |
| `Ledger.dfy`, `Settlement.dfy`, `SettlementGuard.dfy` | wallet operations under idempotency keys; delivery proofs and the settlement guard; the guard's exact condition |
| `Withdrawals.dfy`, `WithdrawalProofs.dfy`, `WithdrawalLaws.dfy`, `WithdrawalService.dfy` | withdrawals, deposits, webhooks and reconciliation |
| `BuyRequests.dfy`, `BuyRequestProofs.dfy`, `BuyRequestLaws.dfy`, `BuyRequestService.dfy` | buy requests and their reserves |
| `TtlCache.dfy`, `TtlCacheProofs.dfy`, `TtlCacheLaws.dfy`, `TtlCacheService.dfy` | the LRU cache with expiry and shared factories |
| `CanonicalJson.dfy`, `CanonicalJsonProofs.dfy` | the canonical JSON text that signatures cover, and a reader of it |
| `OrderBook.dfy`, `CatalogStats.dfy`, `Slugs.dfy` | bid depth, catalog aggregates, unique slugs |
| `Common.dfy`, `Runs.dfy` | optional values; pieces of runs, put together |

## Where the code needs a condition

Some expected properties do not hold of the code without a condition. For each there is a run in which it
fails, and a lemma that it holds exactly under the condition.

- Money goes one way over a step if and only if the step is `Fair` (`MoneyIsKeptExactlyByFairSteps`). Purchase,
  cancellation and resolution keys come from the caller and carry no order id: cancelling two orders under one
  key gives one refund (`ReusedKeyLosesARefund`), and two purchases that look up one key before either commits
  leave an order with nothing frozen (`SharedPurchaseKeyFreezesNothing`). A reversed hold that is settled for
  the seller spends another order's money (`SettledReversalSpendsAnotherOrder`). Release, reversal and
  safe-failure keys carry the order's id and need no condition (`OwnKeyIsFresh`).
- The attempt count is not compared by failure reports, and acknowledgements and refusals compare nothing.
  Failure reports that read one row count as one (`StaleFailuresCountOnce`), and refusals read on a fresh row
  revive a used-up task any number of times (`StaleRefusalsHaveNoBound`). `RetryBoundsNeedSoundCommits` gives the
  exact condition of every commit, and `RetriesAreBounded` the bound for runs that meet it.
- The daily settlement budget holds when the day reads never fall, across midnight too, or when each call reads
  the day once. `StraddlingPayoutNeedsRoom` is exact for any clocks, and `BackwardClockBreaksTheBudget` a run
  in which the clock goes back.
- The daily withdrawal cap holds when no guard reads a later day than its row is dated on.
  `CreateKeepsCapExactly` is exact for any two clocks, and `GuardAheadBreaksTheCap` a run in which the guard is
  past midnight and the row is not.
- A refusal with attempts left writes a time for the next attempt, but leaves the phase OFFER_FAILED, which polls pass
  over: no poll hands the task out until it has expired and was reopened (`RefusedTaskIsNotPolled`).
- A dispute cannot be resolved for the seller once its lot was unblocked and repriced or sold again, nor under a key
  that any earlier resolution for a seller used; it cannot be resolved for the buyer once its lot was canceled or
  sold. `ResolveSellerOutcome` and `ResolveBuyerOutcome` give the exact conditions.
- Creating an order does not look for orders in settlement hold. `OneOpenOrderPerLot` still holds, because
  every order in trade keeps its lot reserved.

`docs/payments-crypto-tron.md` names the deposit key `crypto:deposit:{txHash}`; the code prefixes the name
of the configured provider. The model follows the code.

## Model

| member | source | states |
|---|---|---|
| `TradeTasks.CommitKeepsLease` | backend/src/extension/extension-trade-task.service.ts:196-230 | no commit lowers a lease version or changes the device of an unchanged one; only a submit on a waiting order starts a send; a started send stays started under its version |
| `TradeTasks.StepKeepsInv` | backend/src/extension/extension-trade-task.service.ts:479-511 | every read, commit, lost call and cancellation step keeps: calls in flight are not ahead of the row, and a canceled or about-to-be-canceled order has no started send |
| `TradeTasks.LeaseVersionHasOneDevice` | backend/src/extension/extension-trade-task.service.ts:196-230 | over a whole run with reads and commits interleaved, versions never fall and one version belongs to one device |
| `TradeTasks.OnlyTheLeaseHolderCommits` | backend/src/extension/extension-trade-task.service.ts:337-356 | a session report other than OFFER_SENT commits only for the device that holds the lease now, at its current version, however old the read it was admitted on |
| `TradeTasks.SupersededDeviceNeverCommits` | backend/src/extension/extension-trade-task.service.ts:492-511 | once another device holds the lease or the version moved on, no such report of the earlier lease commits in any continuation |
| `TradeTasks.SendFreezesTheLease` | backend/src/extension/extension-trade-task.service.ts:144-223 | once a send has started, whatever follows: it stays started, version and device are frozen, no poll or reopen is admitted or commits, and every later session submit comes from that device |
| `TradeTasks.SubmitStartsTheSend` | backend/src/extension/extension-trade-task.service.ts:499-504 | a committed OFFER_SUBMITTED sets the send time and the device of the frozen lease is the reporter's |
| `TradeTasks.CanceledOrderNeverSends` | backend/src/orders/orders.service.ts:867-933 | in every reachable state a canceled order has no started send, and no continuation starts one or un-cancels the order |
| `TradeTasks.SentOrderIsNeverCanceled` | backend/src/orders/orders.service.ts:867-933 | an order whose send has started is never canceled afterwards |
| `TradeTasks.PollIsAdmittedExactly` | backend/src/extension/extension-trade-task.service.ts:144-175 | a poll takes up a row if and only if it is unsent, before item selection, on a waiting order, neither expired nor paused, and no other device holds a lease that has not ended |
| `TradeTasks.LiveLeaseIsNeverTaken` | backend/src/extension/extension-trade-task.service.ts:161-210 | while another device's lease lasts, no poll read then is admitted and none read then commits, in any state |
| `TradeTasks.FreeTaskIsGranted` | backend/src/extension/extension-trade-task.service.ts:196-223 | a dispatchable row that no other device holds is leased to the device that asks until 120 seconds later, under the same version if it renews its own live lease and under the next one otherwise |
| `TradeTasks.PollCommitsExactly` | backend/src/extension/extension-trade-task.service.ts:196-210 | a poll that read the row earlier commits if and only if the row is as it read it, unsent, unexpired, on a waiting order and not held by another device |
| `TradeTasks.PollIsFair` | backend/src/extension/extension-trade-task.service.ts:177-231 | over a whole poll no row under another device's live lease changes, and every found row still as it was read, dispatchable and free is leased to the device and claimed |
| `TradeTaskRetries.CountIsExact` | backend/src/extension/extension-trade-task.service.ts:570-593 | a committing failure report or reopen raises the attempt count by exactly one if and only if it is not a failure report that read another count |
| `TradeTaskRetries.RetryBoundsNeedSoundCommits` | backend/src/extension/extension-trade-task.service.ts:492-593 | a commit of any call, however old its read, keeps the retry bounds and the exact count if and only if it is sound: a failure report read the current count, an acknowledgement or a refusal with attempts left does not meet a used-up task, a reopen meets one with an attempt left |
| `TradeTaskRetries.RetriesAreBounded` | backend/src/extension/extension-trade-task.service.ts:570-593 | over a run with reads and commits interleaved whose commits are sound, the count equals the number of counted commits, there are at most maxAttempts + 1 of them, and at most maxAttempts while the task is CREATED, DISPATCHED or EXPIRED |
| `TradeTaskRetries.OneStepCallsAreBounded` | backend/src/extension/extension-trade-task.service.ts:825-1031 | when every commit meets the row it read, the bounds hold without any further condition |
| `TradeTaskRetries.StaleRefusalsHaveNoBound` | backend/src/extension/extension-trade-task.service.ts:825-850 | for every n, a run from a fresh task that allows one attempt reaches the count n + 1, because refusals revive a used-up task |
| `TradeTaskRetries.StaleFailuresCountOnce` | backend/src/extension/extension-trade-task.service.ts:492-506 | for every n, a run from a fresh task in which n failure reports that read the same row all commit and count as one |
| `TradeTaskLaws.ReportIsAdmittedExactly` | backend/src/extension/extension-trade-task.service.ts:337-420 | a report is taken up if and only if its event key is new and it is a trusted OFFER_SENT, or comes from the lease holder at the lease's version, on a live task, with a phase that repeats, goes forward in the protocol or fails |
| `TradeTaskLaws.FailedSendComesBack` | backend/src/extension/extension-trade-task.service.ts:560-600 | after a failed send a poll gets the task if and only if the send was worth retrying, the order still waits, the pause is over, the task has not expired, and the lease is the poller's or over; otherwise the task is failed for good |
| `TradeTaskLaws.BackoffIsExponential` | backend/src/extension/extension-trade-task.service.ts:1202-1204 | the pause is one second doubled with each attempt, one minute at most |
| `TradeTaskLaws.EventKeyIsSpentOnce` | backend/src/extension/extension-trade-task.service.ts:512-535 | after a report under a key committed, no report under that key commits in any continuation |
| `TradeTaskLaws.AckedTaskIsTaken` | backend/src/extension/extension-trade-task.service.ts:777-823 | an acknowledged task is out of reach of polls, reopens, expiry and fail-over |
| `TradeTaskLaws.RefusedTaskIsNotPolled` | backend/src/extension/extension-trade-task.service.ts:825-850 | a refused task is not handed out by any later poll, even with attempts left, although a time for the next attempt is written |
| `TradeTaskLaws.ReopenedTaskIsFree` | backend/src/extension/extension-trade-task.service.ts:890-955 | a committed reopen costs an attempt and ends the lease: any device gets the task at once if and only if the order waits and the task has not expired |
| `TradeTaskLaws.ExpiredTaskWaitsForReopen` | backend/src/extension/extension-trade-task.service.ts:912-985 | an expired task comes back if and only if it is reopened as expired, unsent, on a waiting order, with attempts left and before item selection |
| `TradeTaskLaws.FailedOverTaskWaitsForReopen` | backend/src/extension/extension-trade-task.service.ts:867-1031 | a task failed over comes back if and only if it is reopened as failed, for an error on the list and below that reopen's limit |
| `TradeTaskLaws.CommitsMeetFitRows` | backend/src/extension/extension-trade-task.service.ts:144-1031 | in every run, however old the reads, polls, reports, reopens, expiries and fail-overs take effect only on rows that are fit for them at that moment: polls never on a leased, sent or expired row, phases never backwards, expiry never early |
| `TradeTaskLaws.CancellationGoesThroughExactly` | backend/src/orders/orders.service.ts:867-933 | an uninterrupted cancellation succeeds if and only if the order waits, no offer is linked, no send has started, the task is not dispatched or acknowledged and no item is selected |
| `TradeTasks.SweepWritesEachRowOnce` | backend/src/extension/extension-trade-task.service.ts:960-1005 | a sweep writes every found row from its state before the sweep and leaves all other rows alone |
| `TradeTaskLaws.SweepReopensExpired` | backend/src/extension/extension-trade-task.service.ts:924-955 | the reopen loop brings a found row back if and only if it has attempts left, is before item selection, is unsent, and has the status and count that were read |
| `TradeTaskLaws.TriedAreCounted` | backend/src/extension/extension-trade-task.service.ts:924-958 | its answer is the number of rows it did not pass over, whether or not they came back |
| `TradeTaskLaws.UnchangedAreCounted` | backend/src/extension/extension-trade-task.service.ts:966-1050 | the answer of the expiry and fail-over loops is the number of found rows still as they were read |
| `TradeTasks.ClaimsAreLeased` | backend/src/extension/extension-trade-task.service.ts:196-260 | every claim a poll hands out names a row that the polling device leases at exactly that version when the poll ends |
| `TradeTasks.TradeTaskTable.ClaimRow` | backend/src/extension/extension-trade-task.service.ts:196-230 | the conditional update writes the row exactly when its condition holds, and the version reported is the version written; a row under another device's live lease is left alone, and a free one that is as it was read is granted |
| `TradeTasks.TradeTaskTable.PollTasks` | backend/src/extension/extension-trade-task.service.ts:133-260 | the claim loop performs the sweep of polls and returns exactly the claims that committed; it changes no row under another device's live lease and claims every found row that is still as it was read, dispatchable and free |
| `TradeTasks.TradeTaskTable.ReportProgress` | backend/src/extension/extension-trade-task.service.ts:479-630 | the transaction commits the phase, lease and event key together, or nothing at all |
| `TradeTasks.TradeTaskTable.ReopenFailedTasks` | backend/src/extension/extension-trade-task.service.ts:867-906 | the loop reopens exactly the rows still as they were read |
| `TradeTasks.TradeTaskTable.ReopenExpiredTasks` | backend/src/extension/extension-trade-task.service.ts:908-958 | the loop passes over unsafe and used-up rows and reopens the others that are still as they were read |
| `TradeTasks.TradeTaskTable.ExpireTasks` | backend/src/extension/extension-trade-task.service.ts:960-1005 | exactly the rows still as they were read expire, and the answer is their number |
| `TradeTasks.TradeTaskTable.FailOverRetriedTasks` | backend/src/extension/extension-trade-task.service.ts:1007-1050 | exactly the rows still as they were read fail for good, and the answer is their number |
| `OrderStates.MovesGoForward` | backend/src/orders/order-state.service.ts:154-187 | every allowed move goes forward in one ranking of the statuses, a status can be left if and only if it is open, and the table is exactly that of where each status may come from |
| `OrderStates.EventsAreMoves` | backend/src/orders/order-state.service.ts:35-152 | an event has a rule exactly where it is heard; its rule is an allowed move to the one status the event means, and exactly the two settlement events ask for the delivery |
| `Market.PutKeepsLotInv` | backend/src/orders/orders.service.ts:935-998 | a write of one order and its lot keeps orders and lots in agreement when the two fit |
| `Market.FreeLotKeepsLotInv` | backend/src/lots/lots.service.ts:868-982 | a lot that is not reserved has no order in trade, so repricing, blocking, unblocking and cancelling it keep the agreement |
| `Market.LotStepKeepsLotInv` | backend/src/lots/lots.service.ts:255-982 | listing, repricing, cancelling, blocking and unblocking a lot, by its seller or an administrator, each keep orders and lots in agreement |
| `Market.ListKeepsLotInv` | backend/src/lots/lots.service.ts:255-319 | listing and relisting keep the agreement; a reserved lot is never relisted |
| `Market.CreateKeepsLotInv` | backend/src/orders/orders.service.ts:139-190 | creating an order keeps it although the check omits orders in settlement hold |
| `Market.StepKeepsLotInv` | backend/src/lots/lot-state.service.ts:5-16 | every service call keeps: an order in trade has its lot reserved at its amount, a disputed one has it unreserved, and no two open orders share a lot |
| `Market.OneOpenOrderPerLot` | backend/src/orders/orders.service.ts:139-251 | in every run a lot has at most one open order, and while an order is in trade its lot is reserved at the order's amount |
| `Ledger.ReserveEffect` | backend/src/wallet/ledger.service.ts:321-403 | a reserve freezes exactly the amount, once per key: it leaves the buyer's available balance, enters the buyer's hold account, and no other wallet changes |
| `Ledger.RefundEffect` | backend/src/wallet/ledger.service.ts:718-800 | a refund returns exactly the amount from the buyer's hold account to the buyer's available balance, once per key, and no other wallet changes |
| `Ledger.SettleEffect` | backend/src/wallet/ledger.service.ts:574-716 | a settlement takes the amount from the hold account, once per key; the seller's available balance gains exactly the seller's share and the platform's exactly the commission, added up where the parties coincide, and no other wallet changes |
| `Ledger.RequestsConserve` | backend/src/wallet/ledger.service.ts:405-572 | buy-request reserves and releases go through exactly if balance and reserve cover them, move exactly the amount between the user's own accounts, and conserve the total |
| `MarketMoney.StepKeepsHeld` | backend/src/wallet/ledger.service.ts:321-403 | every call keeps each hold account equal to what its orders still freeze plus its buy-request reserves, and the total of all wallets |
| `MarketMoney.MoneyIsConserved` | backend/src/wallet/ledger.service.ts:574-800 | no run of any calls creates or destroys money |
| `MarketMoney.BalancesFollowTheOrders` | backend/src/wallet/ledger.service.ts:636-654 | in every run, fair or not, each user's available balance is the starting one less what purchases and requests froze, plus refunds, plus the recorded seller shares of orders the user sold, plus every recorded commission for the platform |
| `MarketMoney.NoWalletIsOverdrawn` | backend/src/wallet/ledger.service.ts:1006-1035 | in every run, fair or not, no available balance and no hold account goes below zero |
| `MarketMoney.OwnKeyIsFresh` | backend/src/settlement/settlement-hold.config.ts:30-40 | release, reversal and safe-failure keys carry the order's id, so they are unused while the order is still running |
| `MarketMoney.CreateMoney` | backend/src/orders/orders.service.ts:194-230 | a purchase leaves an order with its amount frozen if and only if its reserve key is new in the buyer's wallet |
| `MarketMoney.UnusedKeyIsFair` | backend/src/orders/orders.service.ts:86-96 | a purchase that commits while its key is still unknown always has a new reserve key |
| `MarketMoney.MoneyIsKeptExactlyByFairSteps` | backend/src/admin/admin.service.ts:862-978 | from a sound state, every order's money still goes one way after a step if and only if the step reuses no purchase, cancellation or resolution key and settles no reversed hold |
| `MarketMoney.MoneyGoesOneWay` | backend/src/settlement/settlement.service.ts:440-521 | in every fair run an open order has its amount frozen in full, and a finished one was either refunded in full or split into seller share and commission adding up to it, exactly once |
| `MarketMoney.HoldAccountSuffices` | backend/src/orders/orders.service.ts:943-958 | in a fair run refunding an open order never fails for lack of frozen money |
| `MarketMoney.HeldOrdersAreConsistent` | backend/src/settlement/settlement-guard.service.ts:164-247 | in a fair run an order in settlement hold always passes the guard's financial consistency check |
| `MarketOutcomes.CancelOutcome` | backend/src/orders/orders.service.ts:867-998 | in fair runs a cancellation takes effect if and only if the trade is not confirmed and the send has not begun; the buyer has the amount back, the order is canceled, the lot on sale |
| `MarketOutcomes.FailSafeOutcome` | backend/src/trades/trades.service.ts:985-1048 | in fair runs a safe failure takes effect if and only if the order waits for its trade; refund, failed order, lot on sale |
| `MarketOutcomes.ReverseOutcome` | backend/src/settlement/settlement.service.ts:202-310 | in fair runs a reversal takes effect if and only if the order is in settlement hold; refund, order in dispute, lot blocked |
| `MarketOutcomes.DisputeOutcome` | backend/src/admin/admin.service.ts:739-823 | a dispute opens if and only if a trade is running, by hand or by the system, and moves no money |
| `MarketOutcomes.ResolveBuyerOutcome` | backend/src/admin/admin.service.ts:878-923 | in fair runs a dispute is resolved for the buyer if and only if the money is still frozen and the lot was not sold or canceled meanwhile; refund, failed order, lot blocked |
| `MarketOutcomes.ResolveSellerOutcome` | backend/src/admin/admin.service.ts:924-978 | in fair runs a dispute is resolved for the seller if and only if the lot is still blocked at the order's price and the key is new for seller and platform; seller and platform get exactly the lot's share and commission |
| `MarketOutcomes.PayoutOutcome` | backend/src/settlement/settlement.service.ts:440-531 | in fair runs an order the service decides to pay is paid: seller and platform get exactly the lot's share and commission, order, hold, lot and the day's counters follow |
| `MarketOutcomes.CreateOutcome` | backend/src/orders/orders.service.ts:137-348 | in fair runs an admitted purchase goes through if and only if the lot is on sale by another user, no dispute over it is open, the id is new and the buyer can pay; the price is frozen, the lot reserved, the order waits |
| `MarketOutcomes.ListOutcome` | backend/src/lots/lots.service.ts:255-319 | listing takes effect if and only if the price splits and the asset is not on sale or reserved; it then has one lot on sale at that price, and no other lot changes |
| `MarketWitnesses.ReusedKeyLosesARefund` | backend/src/orders/orders.service.ts:943-958 | a run in which one key for two cancellations leaves the second order's money frozen for good |
| `MarketWitnesses.SettledReversalSpendsAnotherOrder` | backend/src/disputes/dispute-financial-guard.service.ts:30-42 | a run in which a reversed hold is then settled for the seller, out of the frozen money of the buyer's other order |
| `MarketWitnesses.SharedPurchaseKeyFreezesNothing` | backend/src/orders/orders.service.ts:86-96 | a run in which two purchases look up one key before either commits, and the second order has nothing frozen |
| `Settlement.ComputeEffectiveMaxOrder` | backend/src/settlement/settlement-guard.service.ts:376-387 | the loop yields the smallest of the configured limit and the allowlist limits that are set |
| `SettlementGuard.HeldOrderIsAllowedExactly` | backend/src/settlement/settlement-guard.service.ts:48-347 | the guard allows a held order if and only if: real and live mode; delivery verified; both parties known and allowed; a positive amount within every set limit; not settled; room in the day's count and volume; no review, other failure or conflict; consistent amounts; an own, founded, dated proof whose protection is over; and Steam's own proof within both risk limits where the proof window is on, else a fresh receipt of the stored trade that is accepted, verified, conflict-free and unreversed |
| `SettlementGuard.OtherOrderIsAllowedExactly` | backend/src/settlement/settlement-guard.service.ts:48-159 | any other order is allowed if and only if it is TRADE_CONFIRMED and meets what is asked of every order |
| `SettlementGuard.RefusalIsTrue` | backend/src/settlement/settlement-guard.service.ts:48-159 | the code of a refusal names something that is missing |
| `SettlementGuard.DeadlineExactly` | backend/src/settlement/settlement-proof-policy.ts:8-31 | a deadline exists if and only if the stored proof is one of this order, founded and dated, and is the end of its protection; exactly version 3 supports the proof window |
| `SettlementGuard.PaysExactly` | backend/src/settlement/settlement.service.ts:81-200 | through any entry point an order is paid if and only if it is in settlement hold, the guard's conditions hold, and its protection is over at the due check and at the release |
| `SettlementGuard.EntersExactly` | backend/src/settlement/settlement.service.ts:351-395 | a hold is entered if and only if the order is TRADE_CONFIRMED and delivered, a proof is stored or the hold window is on, and the guard agrees where it is asked; it ends with the proof's protection or after at least eight days |
| `Settlement.ProofIsBoundToOneOrder` | backend/src/trades/durable-delivery-proof.ts:36-72 | a proof accepted for two sets of anchors fixes order, offer, asset and both parties |
| `Settlement.GuardNeedsEightDays` | backend/src/settlement/settlement-guard.service.ts:164-347 | the guard allows a held order only with a proof bound to that order, eight days after its verification, within the day's budget and with consistent amounts (`SettlementGuard.HeldOrderIsAllowedExactly` gives the whole condition) |
| `Settlement.EveryPayoutIsProtected` | backend/src/settlement/settlement.service.ts:81-200 | through any of the three entry points and under any configuration a payout obeys the eight-day rule |
| `Settlement.GuardOpensAtTheDeadline` | backend/src/settlement/settlement-proof-policy.ts:8-31 | if the guard ever allows a held order as it stands, then it allows it exactly from its proof's deadline on |
| `Settlement.EntryPointsAgreeOnHolds` | backend/src/settlement/settlement.service.ts:312-349 | the other two entry points decide a held order exactly as the release worker does |
| `Settlement.EnteredHoldCoversTheProtection` | backend/src/settlement/settlement.service.ts:351-395 | a hold is entered only from TRADE_CONFIRMED and lasts at least eight days, from its proof's verification where there is a bound proof |
| `MarketSettlement.HoldToCompletedTakesEightDays` | backend/src/settlement/settlement.service.ts:104-195 | in every run, any move from SETTLEMENT_HOLD to COMPLETED is a settlement at least eight days after the verification of a proof that names this order, its offer, asset and parties |
| `MarketSettlement.HoldToCompletedNeedsAGoodReceipt` | backend/src/settlement/settlement-guard.service.ts:249-347 | in every run no order goes from SETTLEMENT_HOLD to COMPLETED on a reversed, conflicting, unverified, foreign or missing receipt, unless the proof window takes Steam's own proof within both risk limits; none under review; and none whose money was not frozen in full or was touched since |
| `MarketSettlement.DailyBudgetHolds` | backend/src/settlement/settlement-guard.service.ts:141-159 | in every run whose day reads never fall, also across midnight within a call, the orders settled on a day stay within its count and volume limits, and the counters are exactly that count and volume |
| `MarketSettlement.OneReadKeepsTheBudget` | backend/src/settlement/settlement-guard.service.ts:141-159 | with one day read per call the budget holds even if the clock runs backwards between calls |
| `MarketSettlement.StraddlingPayoutNeedsRoom` | backend/src/settlement/settlement.service.ts:641-659 | whatever the clocks, a payout keeps the budget if and only if the day it is counted on had room |
| `MarketWitnesses.BackwardClockBreaksTheBudget` | backend/src/settlement/settlement.service.ts:641-659 | a run under a limit of one order a day in which the clock goes back and forth and one day gets two |
| `MarketService.MarketTables.TransitionOrder` | backend/src/orders/order-state.service.ts:220-246 | the status moves if and only if the table allows it and the row still has the expected status |
| `MarketService.MarketTables.TransitionByEvent` | backend/src/orders/order-state.service.ts:248-274 | an event moves the order if and only if it has a rule, its guard holds and the status is still the expected one |
| `MarketService.MarketTables.TransitionLot` | backend/src/lots/lot-state.service.ts:44-58 | the lot status moves if and only if the table allows it and the row still has the expected status |
| `MarketService.MarketTables.CreateOrder` | backend/src/orders/orders.service.ts:137-348 | the steps of the transaction, after a key lookup that may be stale, together are the create action of the machine, or nothing when one of them throws |
| `MarketService.MarketTables.CancelOrder` | backend/src/orders/orders.service.ts:867-998 | the steps of the transaction together are the cancel action, or nothing |
| `MarketService.MarketTables.EnterSettlementHold` | backend/src/settlement/settlement.service.ts:351-438 | a hold is entered once, only with verified delivery, and the transition and the hold update happen together |
| `MarketService.MarketTables.ReleaseSettlementHold` | backend/src/settlement/settlement.service.ts:440-531 | settling, capturing, completing, selling and counting together are one payout, or nothing |
| `MarketService.MarketTables.SettleOrder` | backend/src/settlement/settlement.service.ts:81-200 | a settlement call performs exactly the verdict of the guard on the rows it loads |
| `MarketService.MarketTables.ReverseSettlementHold` | backend/src/settlement/settlement.service.ts:202-310 | the steps of the reversal together are the reverse action, or nothing |
| `MarketService.MarketTables.OpenDispute` | backend/src/admin/admin.service.ts:739-823 | order and lot move together into dispute, or neither does |
| `MarketService.MarketTables.OpenSystemDispute` | backend/src/disputes/dispute-ops.service.ts:290-334 | a system dispute opens only from the statuses of a running trade, order and lot together |
| `MarketService.MarketTables.ResolveDispute` | backend/src/admin/admin.service.ts:862-978 | a resolution is the resolve action for the buyer or for the seller |
| `MarketService.MarketTables.ResolveForBuyer` | backend/src/admin/admin.service.ts:878-923 | refund, hold, order and lot change together, or nothing does |
| `MarketService.MarketTables.ResolveForSeller` | backend/src/admin/admin.service.ts:924-978 | settlement, hold, order and lot change together, or nothing does |
| `MarketService.MarketTables.ConfirmDelivery` | backend/src/trades/trades.service.ts:757-865 | a waiting order becomes confirmed and its lot stays reserved |
| `MarketService.MarketTables.FailSafe` | backend/src/trades/trades.service.ts:985-1048 | refund, released hold, failed order and freed lot happen together, or not at all |
| `WithdrawalProofs.MoveKeepsTables` | backend/src/payments/payments.service.ts:454-480 | a status move of one request that changes its user's accounts by the right shares keeps all accounting invariants |
| `WithdrawalProofs.ApproveKeepsTables` | backend/src/payments/payments.service.ts:429-480 | a claimed approval debits exactly the amount from the account that holds it and writes payout and fee entries |
| `WithdrawalProofs.RejectKeepsTables` | backend/src/payments/payments.service.ts:533-556 | a claimed rejection releases exactly the frozen amount |
| `WithdrawalProofs.PaidKeepsTables` | backend/src/payments/payments.service.ts:744-763 | a paid webhook keeps all accounting invariants and moves at most the status of the request it found |
| `WithdrawalProofs.FailedKeepsTables` | backend/src/payments/payments.service.ts:765-807 | a failed webhook keeps them, with the refund of the request it found and nothing else |
| `WithdrawalProofs.DepositKeepsTables` | backend/src/payments/payments.service.ts:645-742 | a deposit keeps them and touches no request |
| `WithdrawalLaws.DepositIsExact` | backend/src/payments/payments.service.ts:645-703 | a deposit of at least the minimum under a new entry raises exactly its user's available balance by exactly its amount, under an entry that records it; below the minimum or under a used entry nothing changes; without an amount or a known user it is refused |
| `WithdrawalLaws.CreditedEventCreditsOnce` | backend/src/payments/payments.service.ts:564-620 | the first processing of a credited event credits its amount and marks the event; a refused one stays stored and unprocessed |
| `WithdrawalLaws.ConflictingEventChangesNothing` | backend/src/payments/payments.service.ts:602-618 | a copy of a processed event, or one that conflicts with the stored payload, changes no table |
| `WithdrawalLaws.LookupFindsTheNamed` | backend/src/payments/payments.service.ts:809-845 | a webhook's lookup answers with a request the webhook names, by id, reference or key, and with none only if it names none |
| `WithdrawalLaws.PaidEventSettles` | backend/src/payments/payments.service.ts:744-763 | a paid event marks the request it found PAID if it is its user's and processing, moves no money, and is refused for another user's request |
| `WithdrawalLaws.FailedEventRefunds` | backend/src/payments/payments.service.ts:765-807 | a failed event marks the request it found FAILED and returns exactly its amount under its refund entry, if it is its user's and processing, and changes nothing else |
| `WithdrawalLaws.WalletsAddUp` | backend/src/wallet/ledger.service.ts:939-990 | after any run a user's wallet plus the payouts made or on their way equal the starting balance, the user's deposit entries and what other services brought |
| `WithdrawalLaws.FundsAddUp` | backend/src/wallet/ledger.service.ts:939-990 | after any run the deposit entries of all users plus what other services brought are exactly what came into the wallets |
| `WithdrawalLaws.NoWalletIsOverdrawn` | backend/src/wallet/ledger.service.ts:1006-1035 | in every run no available and no frozen balance goes below zero |
| `WithdrawalProofs.EventKeepsTables` | backend/src/payments/payments.service.ts:602-626 | processing any event, credited, paid, failed or unknown, keeps all accounting invariants and moves at most one request |
| `WithdrawalProofs.CreateKeepsTables` | backend/src/payments/payments.service.ts:360-392 | a new request keeps them, with the daily cap |
| `WithdrawalLaws.NewRequestIsReviewed` | backend/src/payments/withdrawal-guard.service.ts:91-105 | a new request starts under review, with its money frozen, if and only if reviews are on and its user has fewer unrejected requests than configured; its row carries amount, fee and net as asked |
| `WithdrawalLaws.RequestsMeetTheTerms` | backend/src/payments/payments.service.ts:305-386 | in every run each request is of at least the minimum and pays out its amount less the fee, which is more than nothing, and no two have one key |
| `WithdrawalLaws.ReviewIsExact` | backend/src/payments/payments.service.ts:429-556 | in every run a review that takes effect moves exactly the request's amount: an approval debits the account that holds it under entries of net and fee, a rejection gives the frozen amount back |
| `WithdrawalLaws.WindowIsTheDay` | backend/src/payments/withdrawal-guard.service.ts:65-85 | where nothing is dated later, the guard's query is exactly the day's counted sum |
| `WithdrawalProofs.StepKeepsInv` | backend/src/payments/payments.service.ts:305-627 | every read, commit, webhook and other money movement keeps the invariants; requests keep their terms and only move along the status table |
| `WithdrawalProofs.WithdrawalAccounting` | backend/src/payments/payment-reconciliation.service.ts:230-254 | after any run the net debit is the amount in PROCESSING and PAID and zero otherwise, the frozen account holds exactly the amounts under review, and wallets plus outstanding payouts equal what came in |
| `WithdrawalProofs.PaidIsNeverRefunded` | backend/src/payments/payments.service.ts:744-807 | a payout once PAID stays PAID and unrefunded, and one once FAILED stays FAILED with exactly one full refund, whatever webhooks follow |
| `WithdrawalProofs.CreateKeepsCapExactly` | backend/src/payments/payments.service.ts:360-392 | a new request keeps the daily cap if and only if the day it is dated on still has room for it |
| `WithdrawalProofs.DayIsWithinWindow` | backend/src/payments/withdrawal-guard.service.ts:65-85 | the guard's query since its midnight covers everything counted on that day and on any later one |
| `WithdrawalProofs.DailyCapHolds` | backend/src/payments/withdrawal-guard.service.ts:65-89 | in every run in which no guard reads a later day than its row is dated on, a user's counted requests of one day stay within the cap |
| `WithdrawalProofs.GuardAheadBreaksTheCap` | backend/src/payments/withdrawal-guard.service.ts:66-67 | a run in which a guard past midnight lets two requests dated the day before exceed the cap |
| `WithdrawalProofs.ReviewsNeverLackMoney` | backend/src/wallet/ledger.service.ts:210-254 | an approval or rejection of a reviewed request goes through if and only if the request is still under review: insufficient frozen balance cannot happen |
| `WithdrawalProofs.ApprovalNeedsTheMoney` | backend/src/wallet/ledger.service.ts:97-104 | an approval without review goes through if and only if the request is still APPROVED and the available balance covers it |
| `WithdrawalProofs.ReplayedEventsChangeNothing` | backend/src/payments/payments.service.ts:564-607 | once an event was processed, later copies of it change no table, in any continuation |
| `WithdrawalProofs.JobIsARun` | backend/src/payments/payments.service.ts:73-116 | one row of the polling job is a run of ordinary steps from any state, whatever else is in flight, so all results about runs cover the job |
| `WithdrawalProofs.JobSettlesTheRow` | backend/src/payments/payments.service.ts:95-116 | an answer with the row's address and net amount about a PROCESSING request settles it, PAID or FAILED with the full refund, under an event that says so, if and only if that event is not processed and not stored for another payload |
| `WithdrawalService.PaymentTables.ApproveWithdrawal` | backend/src/payments/payments.service.ts:454-480 | claim and debit commit together or roll back |
| `WithdrawalService.PaymentTables.RejectWithdrawal` | backend/src/payments/payments.service.ts:533-556 | claim and release commit together or roll back |
| `WithdrawalService.PaymentTables.HandleWebhook` | backend/src/payments/payments.service.ts:564-627 | the event is stored once, processed once, and unclaimed again when its handler throws; a credited event that is due credits exactly its amount, and a copy or conflicting event changes nothing |
| `WithdrawalService.PaymentTables.ReconcileProcessing` | backend/src/payments/payments.service.ts:59-124 | the loop handles each polled row in turn as its own webhook |
| `WithdrawalService.ReconcileUserWithdrawals` | backend/src/payments/payment-reconciliation.service.ts:223-268 | the check reports exactly the requests whose ledger entries disagree with their status, in order |
| `WithdrawalService.ReconciliationIsSilent` | backend/src/payments/payment-reconciliation.service.ts:223-268 | in no reachable state does it find one |
| `BuyRequestProofs.FulfillEffect` | backend/src/buy-requests/buy-request-matching.service.ts:103-136 | a fulfilment whose claim succeeds always goes through and releases exactly one unit under a key never used before |
| `BuyRequestProofs.CloseEffect` | backend/src/buy-requests/buy-requests.service.ts:207-238 | a cancellation or expiry whose claim succeeds always goes through and releases exactly the unfilled rest |
| `BuyRequestProofs.CreateEffect` | backend/src/buy-requests/buy-requests.service.ts:68-111 | a new request reserves price times quantity, and only positive amounts get through |
| `BuyRequestProofs.StepKeepsInv` | backend/src/buy-requests/buy-requests.service.ts:188-299 | every interleaving of stale reads and claims keeps reserves, entries and hold accounts exact; a closed request never changes |
| `BuyRequestProofs.ReserveIsExact` | backend/src/buy-requests/buy-request-matching.service.ts:86-148 | in every run an open request reserves price times unfilled quantity and any other nothing, and releases recorded in the ledger plus the reserve equal the initial reserve |
| `BuyRequestProofs.ReserveIsNeverInconsistent` | backend/src/buy-requests/buy-request-matching.service.ts:105-126 | the inconsistency error is unreachable, and a fulfilment commits if and only if the request is still as it was read |
| `BuyRequestProofs.OneWinnerPerRead` | backend/src/buy-requests/buy-request-matching.service.ts:112-126 | of all fulfilments, cancellations and expiries that read the same fill level at most one ever commits |
| `BuyRequestLaws.BalancesStay` | backend/src/wallet/ledger.service.ts:405-572 | no run changes what a user has in both accounts together |
| `BuyRequestLaws.NoWalletIsOverdrawn` | backend/src/wallet/ledger.service.ts:405-572 | in every run no available balance and no hold account goes below zero |
| `BuyRequestLaws.NewRequestReserves` | backend/src/buy-requests/buy-requests.service.ts:89-111 | a new request goes through if and only if its buyer has the whole price, which is then reserved under its key |
| `BuyRequestLaws.PurchaseTakesTheBest` | backend/src/buy-requests/buy-request-matching.service.ts:86-104 | a purchase takes a request if and only if it is the buyer's, open, for the item, at that price or more, wants more, and none of those pays more |
| `BuyRequestLaws.SomeRequestIsBest` | backend/src/buy-requests/buy-request-matching.service.ts:86-104 | there is one to take whenever one is wanted |
| `BuyRequestLaws.PurchaseFillsOne` | backend/src/buy-requests/buy-request-matching.service.ts:105-136 | an uninterrupted purchase fills one unit: its reserve returns to the buyer, and the request stays open exactly while it wants more |
| `BuyRequestLaws.ClosingGivesTheRestBack` | backend/src/buy-requests/buy-requests.service.ts:188-299 | only its buyer cancels an open request, and any open request may expire; the rest of the reserve returns to the buyer |
| `BuyRequestService.RequestTables.Create` | backend/src/buy-requests/buy-requests.service.ts:90-111 | the row and its reserve commit together or not at all |
| `BuyRequestService.RequestTables.FulfillForPurchase` | backend/src/buy-requests/buy-request-matching.service.ts:99-148 | claim and release of one unit commit together or not at all |
| `BuyRequestService.RequestTables.Close` | backend/src/buy-requests/buy-requests.service.ts:209-238 | claim and release of the rest commit together or not at all |
| `TtlCache.EvictKeepsNewest` | backend/src/catalog/catalog-ttl-cache.ts:38-44 | eviction keeps the newest entries, as many as fit, also under a negative bound |
| `TtlCacheProofs.StepKeepsInv` | backend/src/catalog/catalog-ttl-cache.ts:19-80 | every call and callback keeps: distinct keys in order of last use within the bound, each entry the latest set, and promises in flight exactly the pending ones since the last clear |
| `TtlCacheProofs.NothingOldAfterClear` | backend/src/catalog/catalog-ttl-cache.ts:47-80 | what a getOrSet after a clear returns, joins or starts comes from no factory started before that clear, whatever settles in between |
| `TtlCacheProofs.OldPromisesWriteNothing` | backend/src/catalog/catalog-ttl-cache.ts:58-71 | a promise from before the last clear changes neither entries nor the promises in flight when it settles |
| `TtlCacheProofs.OneLiveFactoryPerKey` | backend/src/catalog/catalog-ttl-cache.ts:53-74 | since the last clear a key has at most one live factory, and no second one starts beside it |
| `TtlCacheProofs.CacheIsBoundedAndFresh` | backend/src/catalog/catalog-ttl-cache.ts:19-45 | entries never exceed the bound and stay in order of last use, and a hit is the unexpired value last set under its key since the clear |
| `TtlCacheProofs.EvictionTakesTheLeastRecentlyUsed` | backend/src/catalog/catalog-ttl-cache.ts:33-45 | a set evicts only when the cache is full, and only entries used before everything that stays |
| `TtlCacheLaws.ReadIsExact` | backend/src/catalog/catalog-ttl-cache.ts:19-31 | a read returns a value if and only if it is that of the unexpired entry under its key, which becomes the newest; an expired one is dropped, and nothing else changes |
| `TtlCacheLaws.GetOrSetIsExact` | backend/src/catalog/catalog-ttl-cache.ts:47-75 | a getOrSet yields the live entry's value, else the promise in flight for the key, else starts a new one, exactly |
| `TtlCacheLaws.SetThenHit` | backend/src/catalog/catalog-ttl-cache.ts:33-45 | a value just set is returned exactly until its time to live is over, in a cache that may hold anything |
| `TtlCacheLaws.SettledPromise` | backend/src/catalog/catalog-ttl-cache.ts:57-71 | a promise in flight that resolves stores its value and one that rejects stores nothing; neither is in flight afterwards |
| `TtlCacheLaws.EntryStays` | backend/src/catalog/catalog-ttl-cache.ts:19-80 | an entry goes only by a clear, by a read of its key after it expired, by a new value under its key, or as the least recently used of a full cache that takes in another |
| `TtlCacheLaws.EntryOutlivesFewOthers` | backend/src/catalog/catalog-ttl-cache.ts:19-75 | in every run, while fewer than maxEntries other keys are named and nothing clears or rewrites the key, every read of it returns the value set until its time is over |
| `TtlCacheService.TtlLruCache.Get` | backend/src/catalog/catalog-ttl-cache.ts:19-31 | the method is the get step, with its answer |
| `TtlCacheService.TtlLruCache.Set` | backend/src/catalog/catalog-ttl-cache.ts:33-45 | the method is the set step |
| `TtlCacheService.TtlLruCache.Store` | backend/src/catalog/catalog-ttl-cache.ts:33-45 | the eviction loop ends and leaves exactly the entries of the step |
| `TtlCacheService.TtlLruCache.GetOrSet` | backend/src/catalog/catalog-ttl-cache.ts:47-75 | the method is the getOrSet step, with its outcome |
| `TtlCacheService.TtlLruCache.OnResolved` | backend/src/catalog/catalog-ttl-cache.ts:58-65 | the then-callback is the resolve step |
| `TtlCacheService.TtlLruCache.OnRejected` | backend/src/catalog/catalog-ttl-cache.ts:66-71 | the catch-callback is the reject step |
| `TtlCacheService.TtlLruCache.Clear` | backend/src/catalog/catalog-ttl-cache.ts:77-80 | the method is the clear step |
| `CanonicalJsonProofs.UnquoteUndoesQuote` | backend/src/extension/extension-signature.util.ts:4-6 | a reader that takes each unit in its one canonical spelling reads a quoted string back, and goes on behind it, for every sequence of UTF-16 units, lone surrogates included |
| `CanonicalJsonProofs.SortIsAscending` | backend/src/extension/extension-signature.util.ts:11 | sorting puts distinct keys in strictly ascending order of code units |
| `CanonicalJsonProofs.LessIsLexicographic` | backend/src/extension/extension-signature.util.ts:11 | the order of keys is the lexicographic order of their code units |
| `CanonicalJsonProofs.TextDenotesValue` | backend/src/extension/extension-signature.util.ts:3-15 | the text denotes its value in JSON: a reader of the grammar, with code units of its own, finds in it the value printed with the keys of every object ascending, and goes on right behind it |
| `CanonicalJsonProofs.SamePrintEqually` | backend/src/extension/extension-signature.util.ts:3-15 | values equal up to the order of object keys, at every depth, print the same text |
| `CanonicalJsonProofs.TextTellsValue` | backend/src/extension/extension-signature.util.ts:3-15 | two texts that begin with values followed by delimiters and agree begin with the same value |
| `CanonicalJsonProofs.CanonicalTextIsExact` | backend/src/extension/extension-signature.util.ts:3-15 | two values have the same canonical text if and only if they are equal up to the order of object keys |
| `OrderBook.BooksAgree` | backend/src/order-book/order-book.util.ts:50-77 | the requests determine their book |
| `OrderBook.BookAddsUp` | backend/src/order-book/order-book.util.ts:50-77 | the quantities of a book add up to everything still wanted |
| `OrderBook.AggregateBidLevels` | backend/src/order-book/order-book.util.ts:50-77 | the loop and sort yield the book: strictly descending prices, each with its whole depth, no wanted price missing |
| `OrderBook.NextBestIsBest` | backend/src/inventory/inventory.service.ts:774-799 | one more request keeps the best bid of every name its best level |
| `OrderBook.LoadBestBids` | backend/src/inventory/inventory.service.ts:774-799 | for every name the one-pass answer is exactly the first level of the book of that name's requests, and there is none exactly when the book is empty |
| `CatalogStats.LotKeepsStats` | backend/src/catalog/catalog-lot-aggregates.util.ts:44-66 | one more lot keeps count, lowest price and latest date exact for every key, even when it counts twice under one |
| `CatalogStats.BaseKeysDiffer` | backend/src/catalog/catalog-lot-aggregates.util.ts:86-121 | base names share their key with no other base name |
| `CatalogStats.FeaturedIsCheapest` | backend/src/catalog/catalog-lot-aggregates.util.ts:82-118 | on lots in ascending price order the featured lot is a cheapest one that may be featured |
| `CatalogStats.BuildCatalogLotAggregates` | backend/src/catalog/catalog-lot-aggregates.util.ts:86-121 | after one pass every key has exactly its count, an attained lowest price and latest date over the lots that pass the filters, and its first lot that may be featured |
| `Slugs.DecimalIsInjective` | backend/src/item-definitions/item-slug.util.ts:41-45 | different numbers have different texts |
| `Slugs.DecimalReadsBack` | backend/src/item-definitions/item-slug.util.ts:41-45 | the text of a number reads back as it, in digits, without a leading zero |
| `Slugs.NumberedNameReads` | backend/src/item-definitions/item-slug.util.ts:41-45 | a numbered name is the base, a hyphen and the number |
| `Slugs.TriedCount` | backend/src/item-definitions/item-slug.util.ts:41-44 | the names tried so far are all different, which bounds the search by the size of the reserved set |
| `Slugs.ResolveUniqueItemSlug` | backend/src/item-definitions/item-slug.util.ts:32-46 | for every finite reserved set the search ends with an unused slug: the base if it is free, else its least free number from 2 on |
| `Slugs.SlugIsDetermined` | backend/src/item-definitions/item-slug.util.ts:32-46 | that description leaves exactly one slug |
| `Slugs.ItemTable.BackfillMissingSlugs` | backend/src/item-definitions/item-slug-backfill.service.ts:15-50 | afterwards every item has a slug, existing ones are kept, each new one was allocated for its item's own base among the slugs in use at its turn, and all are distinct if the existing ones were |

## Left out

- Each service call in `Market` is one atomic step; the rows a cancel or price change of a lot reads before its transaction are read in that step.
- Asset rows, audit and outbox rows, notifications, metrics, logging and rate limits: written along with the modelled rows, read by none of the modelled decisions.
- Seller ownership checks on tasks, lots and sessions: they only refuse calls.
- Reason codes of failed offers: whether a reason may be retried, and whether OFFER_SENT is trusted, are parameters of a report.
- Preparation of tasks during a poll in live mode, linking an offer after OFFER_SENT, and the dispute bridge after a failure: other calls on other rows; their effect on the order is an environment step.
- Task columns dispatchedAt, ackedAt and failedAt: never read by the modelled decisions.
- Steam, provider and chain reads: they enter as evidence, receipts, offers or answers that may be anything.
- The isolation of the database: a conditional update and a transaction are atomic; a transaction that throws leaves no trace.
- `MarketMoney.MoneyGoesOneWay`: an order whose hold was reversed is refunded while still in dispute, so the frozen amount is stated for holds that were not reversed.
- `TradeTasks.TradeTaskTable.PollTasks`: no other call writes between two rows of its loop; the machine of one task lets any call in between a read and its commit.
- `TradeTasks.TradeTaskTable.ReopenFailedTasks`: no other call writes between two rows of its loop, as in `PollTasks`.
- `TradeTasks.TradeTaskTable.ReopenExpiredTasks`: no other call writes between two rows of its loop, as in `PollTasks`.
- `TradeTasks.TradeTaskTable.ExpireTasks`: no other call writes between two rows of its loop, as in `PollTasks`.
- `TradeTasks.TradeTaskTable.FailOverRetriedTasks`: no other call writes between two rows of its loop, as in `PollTasks`.
- `WithdrawalService.PaymentTables.ReconcileProcessing`: no other call writes between two rows of its loop, and asking the provider again for a payout it does not know is part of the answer it gets.
- Keys as texts: `admin-resolve-seller:K` with its `:seller` entry is the same text as a resolution under `K:seller`; here the keys of the legs and of resolutions are always different.
- `WithdrawalProofs.WithdrawalAccounting`: assumes that no other service writes ledger entries under the withdraw, fee and refund keys of a request; the keys of manual adjustments and mock deposits are chosen freely by their callers.
- Payout addresses and payment methods of withdrawals, and user status, linking and sales checks: one eligibility parameter.
- Buy requests written before reserves existed, with no price or no reserve: the model starts from an empty table.
- Filling a buy request happens inside order creation in the source; here it is a call of its own on the same kind of hold account.
- Factories that call the cache while they are being started: the source stores the promise only after the factory returned, and the model starts and stores it in one step.
- Values that are not JSON (undefined, functions, dates) and the printing of numbers: a number carries the text that number printing gives it, so -0 and 0 are one number.
- SHA-256 and RSA over the canonical text.
- The regular expressions that turn an item name into a base slug, and those that derive base names and wear from item names: bases, filter results and featurability are inputs.
- Ask levels and the assembled order-book snapshot: the same aggregation counting lots instead of quantities.
- Wear floats and the 5 % commission: a listing splits its price into commission and seller share as given.
- Development-only reset routes and clearing an inventory after a change of Steam account.
