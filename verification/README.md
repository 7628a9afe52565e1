# Money-moving protocols of the coinos server

This project models how the coinos server moves money and proves what its protocols keep.
It has four parts.

**Lightning.** `Settlement.dfy` and `LightningSend.dfy` follow one lightning debit from the claim
on `pending` through `debit()` to `finalize()` or `reverse()`: the worker that pays through CLN
and then perhaps LND, the `check()` sweeps, the two Redis claims and the record.
`ReversalSafety.dfy` and `StrandedDebit.dfy` say exactly when a send is never reversed while it
can settle, and never left behind; `Progress.dfy` says what the worker and a sweep do with it.
`Listener.dfy` is the receive side: the `pay_index` cursor, overlapping listeners, `replay()`
and the claim inside `credit()`. A step is one await resolving together with the synchronous
code behind it, so every interleaving at awaits is a run. Each module's header lists what it
assumes of the environment.

**Ledger.** `Ledger.dfy` interprets TigerBeetle batches (linked chains are posted whole or
not at all, limited accounts cannot be overdrawn, house accounts can). `Operations.dfy` has
each `tb*` function as a client method over it, with what other requests do between its reads
and its batch as a parameter. `Reversal.dfy` (fee arithmetic), `Transfers.dfy` (internal
sends) and `Funds.dfy` (deposits, authorizations, takes) are built on it; `Confirmations.dfy`
counts how often one on-chain deposit is confirmed. `Sums.dfy` adds up finite
maps; `Runs.dfy` says what a run of a state machine and a reachable state are.

**Controls.** `Windows.dfy` is the rolling-window argument shared by the withdrawal breaker
(`Breaker.dfy`) and the wallet-connection budget (`NwcBudget.dfy`). `Locks.dfy` is the
promise-chain mutex, `Limits.dfy` and `CashPool.dfy` the withdrawal limit and the ecash pool it
guards. `RateLimiter.dfy` is the request limiter.

**Algorithms.** `Zmtp.dfy` and `RawBlock.dfy` (over `Bytes.dfy`) parse the ZMTP stream and
split raw blocks; `BookWalk.dfy` prices a USDT deposit off an order book; `BatchRead.dfy` is
the two-store batched read.

Where the code does not keep a property that its comments or the obvious reading promise, the
project keeps the code's behaviour, exhibits a run or an input that breaks the property, and
proves the exact condition under which every run keeps it:

- `reverse()` releases its claim on any error, also after the ledger write
  (lib/payments.ts:2631-2651), so one debit can be reversed twice: `ReversesOnceExactly`.
- `retryFor` may be up to 300 s (routes/payments.ts:102-107) but the sweep's guard is 120 s
  (lib/payments.ts:2443), so after a crash a payment that is still being tried can be
  reversed; and LND is asked for 50 payments only, with every status but two read as failed
  (lib/lnd.ts:73-84): `SafeReversalExactly`.
- The worker leaves `pending` before it calls `reverse()` (lib/payments.ts:1718-1720), so a
  failure inside that call leaves the debit to nobody; `debit()` may throw between the ledger
  and the record (540-574); a sweep that looks for the record before it is written drops
  the invoice, ahead of its age guard (2439-2443); and a retry of the invoice shares its entry
  with the earlier attempt, whose `reverse()` takes both entry and pointer away in the end
  (2633-2641): `NoStrandedDebitExactly`.
- `credit()` keeps its claim when `tbCredit` throws (lib/payments.ts:765-776) and the listener
  then moves past the settlement; it also moves past a request for which an internal send has
  stored a record, be it only `debit()`'s before a `credit()` that failed
  (lib/payments.ts:573-574, lib/lightning.ts:171-172), and past a preimage that another
  settlement has used (213-216): `NoSettlementLostExactly`.
- A transaction without inputs is taken for the witness form (lib/zmq.ts:40-43):
  `MeasuredExactly`.
- A `tbCredit` that throws because its receipt is refused may still have given fee credit:
  `ThrownCreditExactly`. A reversal may
  give more fee credit than the debit consumed: `RestoresExactly`. An on-chain deposit with a
  tip is not confirmed in full: `DepositConfirmedExactly`.
- A take that fails after its author was debited frees the authorization:
  `AuthorizationOnceExactly`.
- `/confirm` tests a copy read before it took its lock (routes/payments.ts:898, 964), and an
  error after the ledger write leaves the record unconfirmed: `ConfirmsOnceExactly`.
- A negative amount is reserved before its sign is checked (lib/payments.ts:406-414, 456) and
  raises the limit; `pay_keysend` passes on the amount it was sent (lib/nwc.ts:1041-1065,
  lib/payments.ts:1395): `WithinLimitExactly`.
- A spend that fails after its debit is not recorded against the budget
  (lib/nwc.ts:740-749), and `finalize()` lowers the recorded fee before it refunds the
  difference, or without (lib/payments.ts:2560-2577), so more than the budget can be taken:
  `NetDebitsExactly`.
- A mint of ecash that fails between its swap and the write of the list leaves spent proofs on
  it (lib/ecash.ts:180-182): `PoolConservedExactly`.

## Model

| member | source | states |
|---|---|---|
| Settlement.NextInv | lib/payments.ts:2474-2653 | every await of every concurrent finalize and reverse call keeps the record's versions, the two claims and the two ledger logs consistent, at most one call holding the reversing claim and at most one refunding |
| Settlement.SettlesOnce | lib/payments.ts:2474-2653 | for any number of concurrent calls on stale copies, tbRefund runs at most once and returns exactly the reserve of the copy its call was handed less the fee its node reported, each tbReverse returns exactly amount, fee and our fee, and without late faults there is at most one and any record stored again carries a preimage |
| Settlement.GivesBackTheRest | lib/payments.ts:2502-2569 | when the node reports one fee, any number of concurrent finalize calls give back exactly the debit's reserve less that fee, or nothing, and a settled record carries that fee |
| Settlement.Completes | lib/payments.ts:2474-2653 | from any point of any run, a finalize or reverse call that is left to itself returns, leaving the memory FinalizeAlone and ReverseAlone describe |
| Settlement.FinalizeAlone | lib/payments.ts:2499-2569 | on an open debit finalize leaves a paid record with the reported fee, the invoice out of pending, and the rest of the reserve given back |
| Settlement.ReverseAlone | lib/payments.ts:2586-2641 | on an open debit with the claim free reverse gives back amount, fee and our fee and leaves neither record nor entry |
| Settlement.LateFaultReversesTwice | lib/payments.ts:2630-2652 | a run in which an error after tbReverse's ledger write releases the claim and the debit is given back twice |
| Settlement.ReversesOnceExactly | lib/payments.ts:2586-2653 | tbReverse runs at most once per debit in every run if and only if no fault can hit between its ledger write and the deletion of the record |
| Settlement.DutyKept | lib/payments.ts:2474-2653 | whichever call attends to an unresolved debit still attends to it, or has resolved it, after its next await |
| LightningSend.ListPaysFailed | lib/payments.ts:119-120 | listpays shows nothing but failed if and only if every CLN part has failed, and a complete pay if and only if some part completed |
| LightningSend.ListSendPaysFailed | lib/payments.ts:110-113 | a per-part listing with nothing but failed means every part of every attempt has failed |
| LightningSend.NodeGrows | lib/payments.ts:87-107 | final statuses stay, and a node nobody is calling creates no part, so failed for good is never undone |
| LightningSend.NetInvNext | lib/payments.ts:108-163 | every step keeps LND unused until every CLN part has failed for good, and the in-flight set equal to the worker being inside outLn.xpay |
| LightningSend.SafeNext | lib/payments.ts:1633-1724 | under those two conditions every step keeps: a reverse call exists only when no part can still settle, a finalize call only when one has completed |
| ReversalSafety.SafeReversal | lib/payments.ts:2407-2470 | when the guard covers the retries and LND's listing shows the payment: in every run, with sweeps holding `pending` lists and records however old, once a reverse call or a ledger reversal exists, no part of the payment has completed or completes at any point |
| ReversalSafety.SingleSettlingNode | lib/payments.ts:108-163 | in every run, LND is being called or holds parts only when every CLN part has failed and CLN creates no more, so the two never both settle |
| ReversalSafety.GivenBack | lib/payments.ts:1633-1724 | under the same two conditions and without late faults, a send gives back the whole debit at most once and only if it failed for good, or at most once exactly the reserve a finalize call was handed less the fee its node reported, never both |
| Progress.WorkerResolves | lib/payments.ts:1649-1724 | from any point of any run at which the debit is open and its worker at work, the worker left to itself comes to an end, and whenever it does it has finalized a payment that completed, reversed one that failed for good (or, after an answer without preimage, left it to check()), and left a pending one as it is |
| Progress.SweepResolves | lib/payments.ts:2410-2465 | from any point of any run at which the debit is open, in pending, 120 s old and not in flight, an uninterrupted sweep comes to an end, and whenever it does it has finalized a payment that completed, with the rest of its reserve given back, reversed one that failed for good, and left a pending one as it is |
| Progress.DropsDead | lib/payments.ts:2439-2442 | a sweep takes an invoice that leads to no record out of pending |
| Progress.RefusedReleases | lib/payments.ts:1602-1612 | a send that debit() refused has taken its invoice back out of pending |
| Progress.TriesLnd | lib/payments.ts:142-152 | when xpay fails with every CLN part failed and the fallback allowed, LND is called |
| ReversalSafety.ReversedThenCompleted | lib/payments.ts:2443-2458 | when retries outlive the guard, a run in which the process dies, a sweep reverses the debit and the payment then completes |
| ReversalSafety.LeftOutThenCompleted | lib/lnd.ts:73-84 | a run without any fault in which LND's listing leaves the pending payment out, the worker reverses the debit and the payment then completes |
| ReversalSafety.SafeReversalExactly | lib/payments.ts:2407-2470 | no run has a debit reversed and its payment completed if and only if the process cannot die or no node retries past 120 s after the record's creation, and LND, when there is one, lists the payment with its status |
| StrandedDebit.FaultStrands | lib/payments.ts:1716-1721 | a crash or an early tbReverse failure inside the worker's reverse call leaves an open debit outside pending with nobody working on it |
| StrandedDebit.UnrecordedStrands | lib/payments.ts:511-574 | a throw in debit() between the ledger's debit and the record leaves a debit nobody can find |
| StrandedDebit.GapStrands | lib/payments.ts:2410-2441 | a run without any fault in which a sweep finds no record before debit() has written it, takes the invoice out of pending after it has, and the worker leaves a pending payment to check() |
| StrandedDebit.RetryStrands | lib/payments.ts:2633-2641 | a run without any fault in which the clean-up of an earlier attempt's reversal takes the invoice, which a retry has added again, and the retry's pointer away, and the retry's worker leaves a pending payment to check() |
| StrandedDebit.AlwaysAttended | lib/payments.ts:1590-1724 | under those five conditions an unresolved debit is, at every point, still inside debit(), in pending, or in the hands of a finalize or reverse call |
| StrandedDebit.LeftDebitResolved | lib/payments.ts:2410-2465 | under them, a debit everybody has left unresolved is brought to its end by the next sweep that finds it 120 s old: finalized, given back, or kept in pending while a part is pending |
| StrandedDebit.NoStrandedDebitExactly | lib/payments.ts:1590-1724 | no run strands a debit if and only if the process cannot die, no reversal fails before its ledger write, debit() does not throw between the ledger and the record, no sweep looks for the record in between, and nothing left of an earlier attempt on the invoice takes it out of pending |
| Listener.NextInv | lib/lightning.ts:66-241 | every await of every listener, replay and credit keeps the cursor behind handled settlements, the claims behind the credits and each preimage with at most one process about to credit it |
| Listener.PrefixHandled | lib/lightning.ts:66-241 | with overlapping listeners, replays, throws and crashes, every paid index at or below the stored cursor was skipped on purpose, claimed, or has had a record stored for its request by an internal send, and tbCredit runs at most once per preimage |
| Listener.SkippedOnPurpose | lib/lightning.ts:134-169 | nothing is skipped but a settlement without a preimage, one of the mint's, or one for which a lookup found no invoice or no user |
| Listener.MintLeftAlone | lib/lightning.ts:136-143 | without replays, which do not look at the label, no settlement of the mint's is ever credited |
| Listener.CreditsNext | lib/lightning.ts:66-241 | a listener left to itself credits the next settlement once, stores its record, gives the lock back and moves the cursor past it, when it has no record and its preimage is not claimed |
| Listener.LeavesAlone | lib/lightning.ts:134-143 | a settlement of the mint's or without a preimage is passed over uncredited |
| Listener.LoseSettlement | lib/payments.ts:765-776 | a run in which the claim is held, the ledger write never happens and the next listener moves the cursor past the settlement |
| Listener.LoseDoublePayment | lib/lightning.ts:171-172 | a run in which an internal send is debited and never credited, CLN settles its request, and the settlement is passed over with nobody credited |
| Listener.LoseReusedPreimage | lib/lightning.ts:209-218 | a run without any fault in which one of two settlements with the same preimage is passed over uncredited |
| Listener.NoSettlementLostExactly | lib/lightning.ts:66-241 | in every run every index behind the cursor was skipped on purpose, credited, or is about to be, if and only if nothing fails between the claim and tbCredit, CLN settles no request for which an internal send has stored a record, and no two settlements share a preimage |
| Operations.HistoryValid | lib/tb.ts:120-708 | no sequence of account creations and tb operations overdraws a balance, pending, fee-credit or fund account, and every ledger's signed total stays zero |
| Ledger.AllOrNothing | lib/tb.ts:306-313 | a batch linked up to its last transfer is posted whole or leaves the book as it was |
| Ledger.SubmitSound | lib/tb.ts:313-313 | any batch whatever keeps limited accounts non-negative and every ledger's total zero |
| Operations.Linked | lib/tb.ts:306-311 | the loop sets the linked flag on every transfer but the last |
| Operations.Client.constructor | lib/tb.ts:85-118 | initTigerBeetle leaves a sound book with exactly house accounts |
| Operations.OpensOnly | lib/tb.ts:120-178 | creating a user's accounts moves nothing and leaves existing ones as they are |
| Operations.Client.CreateBalanceAccount | lib/tb.ts:120-153 | the balance and pending accounts exist afterwards, and no amount has changed |
| Operations.Client.CreateCreditAccounts | lib/tb.ts:155-178 | the three fee-credit accounts exist afterwards, and no amount has changed |
| Operations.Client.SubmitDebit | lib/tb.ts:263-320 | the debit's batch is posted exactly when both the balance and the fee credit suffice at that moment, and otherwise changes nothing |
| Operations.Client.TbDebit | lib/tb.ts:225-326 | overtaken by others between its reads and its batch: on failure nothing of it is posted; on success exactly amount, tip, fee and the reduced fee leave the balance, and the least of the fee credit read and our fee leaves the user's own fee credit when the account is the user's, the zero UUID's otherwise, and no other; the reduction is exact to the sat rounded in the payer's favour, and the frozen part was covered; alone, it succeeds exactly when the balance does |
| Operations.Client.TbCredit | lib/tb.ts:328-404 | throws exactly when the credited account is missing; the fee credit, the rounded share of the receipt unless the rate is zero or the account lost its free tier, is given on its own, whether or not it throws |
| Operations.EarnsItsShare | lib/tb.ts:362-374 | the fee credit is the receipt's share at the rate to the nearest microsat, none for a lightning receipt without free tier |
| Operations.Client.TbConfirm | lib/tb.ts:406-451 | moves the amount from pending to balance with the house unchanged when pending covers it, and otherwise changes nothing |
| Operations.Client.TbReverse | lib/tb.ts:453-499 | balance and fee credit are restored together or not at all; a credit of zero or less is left out |
| Operations.Client.TbRefund | lib/tb.ts:501-528 | credits a positive amount to the balance and nothing else |
| Operations.Client.TbFundCredit | lib/tb.ts:656-680 | the fund exists afterwards with the amount more in it, no other user account touched |
| Operations.Client.TbFundDebit | lib/tb.ts:682-708 | pays exactly when the fund exists and covers the amount |
| Operations.DebitMoves | lib/tb.ts:263-320 | the debit batch, submitted on any book however stale its reads, posts exactly when balance and fee credit suffice, moves exactly the total and the covered part, and otherwise nothing |
| Operations.ReceiveMoves | lib/tb.ts:344-402 | the credit batch gives the amount exactly if the target exists and, independently, the bonus exactly if the fee-credit account exists |
| Operations.ConfirmMoves | lib/tb.ts:406-451 | a confirm keeps balance plus pending and the house unchanged, and posts exactly when pending covers the amount |
| Operations.ReverseMoves | lib/tb.ts:453-499 | a reversal restores balance and fee credit in full or, when an account it needs is missing, nothing |
| Operations.PendingBalances | lib/tb.ts:328-451 | over any history a pending account holds exactly what was pended less what was confirmed |
| Operations.NeverOverConfirmed | lib/tb.ts:406-451 | however often confirms are repeated or interleaved, they never move more than was pended |
| Operations.ThrownCreditExactly | lib/tb.ts:374-402 | a tbCredit that throws because its receipt is refused has moved nothing if and only if there was no fee credit to give or no account for it |
| Operations.ThrownCreditGives | lib/tb.ts:374-402 | a book and a receipt that is refused while its fee credit is given |
| Operations.DepositConfirmedExactly | lib/payments.ts:710-776 | a deposit's pended amount is confirmed in full if and only if the invoice carried no tip |
| Reversal.RestoresAtLeast | lib/payments.ts:2604-2612 | the fee credit reverse() restores is at least what the debit consumed and exceeds it by less than ourfee times the rate plus two sats |
| Reversal.RestoresExactly | lib/payments.ts:2604-2612 | it equals what was consumed if and only if that was whole sats and quoting on our fee as well does not round higher |
| Reversal.RestoresTooMuch | lib/payments.ts:2612-2612 | a debit that consumed no fee credit whose reversal gives one sat of it |
| Reversal.QuotesNearest | lib/payments.ts:473-475 | our fee is the rate's share of amount and fee to the nearest sat |
| Reversal.DebitThenReverse | lib/tb.ts:453-491 | a debit and its reversal, with any operations in between, leave the balance in sats as if neither had happened and the fee credit not lower, by less than ourfee times the rate plus two sats higher |
| Transfers.InternalConserves | lib/payments.ts:1726-1742 | with tips changed anywhere in between, each account has at every point exactly what the transfers paid and received, amount plus captured tip on both sides, and the users' total has not grown |
| Transfers.CompleteExactly | lib/payments.ts:1741-1742 | the users' total is back to what it was if and only if no transfer is between its debit and its credit |
| Transfers.TipCapturedOnce | lib/payments.ts:444-454 | a transfer keeps the tip debit() captured, whatever happens to the invoice afterwards |
| Transfers.TipWasAsked | lib/payments.ts:453-454 | and that tip is one the invoice held between the request and the capture |
| Funds.AuthorizationOnce | routes/payments.ts:617-677 | without late failures an authorization debits its author at most once, by at most its fiat value at a valid rate, for its own fund |
| Funds.DrawTwice | routes/payments.ts:642-675 | a run in which a failure behind the author's debit releases the claim and a second take debits the author again |
| Funds.AuthorizationOnceExactly | routes/payments.ts:642-675 | no author is debited twice for one authorization in any run if and only if there are no late failures |
| Funds.WholeAmounts | routes/payments.ts:601-692 | a deposit or a take moves what it was asked for, or the authorization's value where that is less, and each of its ledger writes the whole of it |
| Funds.MarkedOnceDrawn | routes/payments.ts:642-677 | a take that has drawn on an authorization and goes on to the fund has marked it claimed |
| Funds.FundsConserve | routes/payments.ts:601-692 | whatever is interleaved or fails, takers never receive more from a fund than was in it and was put in, and balances and funds together never grow |
| Confirmations.OverlapMovesTwice | routes/payments.ts:955-990 | a run in which two /confirm calls with copies read before either has written the record both confirm one deposit |
| Confirmations.FaultMovesTwice | routes/payments.ts:981-988 | runs, one call at a time, in which a deposit is confirmed again after an error or a crash between tbConfirm's ledger write and the record's |
| Confirmations.ConfirmsOnceExactly | lib/payments.ts:867-881 | with /confirm calls and watched-transaction callbacks, a deposit is confirmed at most once in every run if and only if no call reads the record between another's unconfirmed read and its write, none fails between the ledger write and the record's, and the process does not die |
| Confirmations.ConfirmedMeansMoved | lib/payments.ts:867-881 | under those conditions, when no call is under way the amount has been moved exactly if the record says confirmed |
| Confirmations.ConfirmsAlone | routes/payments.ts:955-990 | a /confirm call on an unconfirmed record, left to itself, moves the amount once, says so in the record and gives the lock back |
| Windows.PruneTwice | lib/withdraw-breaker.ts:72-72 | pruning and pruning again later is pruning later |
| Windows.EveryWindow | lib/withdraw-breaker.ts:72-74 | a bound kept by the window behind each record bounds every window of that length, wherever it starts |
| Windows.KeptIsWindow | lib/withdraw-breaker.ts:72-74 | what pruning keeps at a moment totals what falls into the window that ends with it: nothing older, and all of it |
| Breaker.WithdrawBreaker.Assert | lib/withdraw-breaker.ts:126-148 | passes exactly when what was ever recorded in the window that ends now plus the amount is within the cap and the file is readable; trips the lock exactly when it refuses with a readable file |
| Breaker.WithdrawBreaker.FileIsEnough | lib/withdraw-breaker.ts:153-158 | the pruned file gives at any later time what the full history gives |
| Breaker.WithdrawBreaker.Record | lib/withdraw-breaker.ts:153-171 | appends the send to the history while the file stays its pruning; an unreadable file loses the record without failing the send |
| Breaker.WithdrawBreaker.AllWindows | lib/withdraw-breaker.ts:126-171 | with at most k sends between check and record, each at most A, every window holds at most CAP + (k-1) * A |
| Breaker.TwoInFlight | lib/payments.ts:494-529 | the bound is reached: two sends between check and record withdraw twice the cap |
| NwcBudget.Connection.Pay | lib/nwc.ts:607-706 | with a positive limit and a known period, a spend is debited exactly when its amount is positive and what is recorded in the period that ends now plus its total, with the tip captured at debit, is within the limit; an unlimited one always; it is recorded with what was charged |
| NwcBudget.BudgetDecides | lib/nwc.ts:607-706 | checkBudget's verdict in every case: no creation date, blank, zero, negative or not a number, unknown period, and the window's total against the limit |
| NwcBudget.Connection.Settle | lib/nwc.ts:680-694 | lowering a recorded fee or deleting a reversed record keeps every window within the limit |
| NwcBudget.Connection.AllWindows | lib/nwc.ts:667-703 | for a positive limit and a known period, the recorded amount, tip, fee and our fee of every period-long window never exceed the limit |
| NwcBudget.ConcurrentSpends | lib/nwc.ts:56-70 | for any number of requests at once on one connection, any tips and any exceptions, and with finalize and reverse changing records at any moment without the lock, holding the lock from check to record keeps every window of the period within the limit |
| NwcBudget.TidyNext | lib/nwc.ts:607-706 | while every debit is listed and refunds are not overtaken, every step keeps the ledger's debits in the order of the list, none dated after its record, bounded in every window and covered by what the request inside had read |
| NwcBudget.UnrecordedSpend | lib/nwc.ts:740-749 | a run in which a debit goes unrecorded and the whole limit is taken twice in one window |
| NwcBudget.UnrefundedSpend | lib/payments.ts:2557-2577 | a run in which a request is decided on a lowered fee that the ledger has not given back, and the window holds twice the limit less one |
| NwcBudget.NetDebitsExactly | lib/nwc.ts:56-70 | what the ledger has taken and not given back stays within the limit in every window of the period, in every run, if and only if no debit goes unrecorded and no request is decided while a lowered fee is unrefunded, except that a limit of one sat leaves no room for a fee |
| Locks.OneAtATimeInOrder | lib/payments.ts:263-275 | for both forms of the chain and whoever throws, at most one caller is inside and none is past waiting before all earlier ones are through |
| Locks.FirstInLineEnters | lib/nwc.ts:56-70 | when nobody is inside, the first caller in line can enter: no exception leaves the lock stuck |
| Locks.Linearizes | lib/ecash.ts:114-127 | the guarded cell holds what the operations of the callers served give one after the other in order of arrival |
| Limits.LimitNeverNegative | lib/payments.ts:405-414 | a withdrawal limit never goes below zero |
| Limits.WithinWrittenLimit | lib/payments.ts:2695-2713 | between two freezeCheck writes the reservations granted never sum above the written limit, when none is negative |
| Limits.GrantedExactly | lib/payments.ts:405-414 | a reservation is granted exactly when what was granted before leaves room for it |
| Limits.WithinLimitExactly | lib/payments.ts:405-456 | a list of reservations stays within every written limit if and only if no negative amount in it is followed by a positive one |
| CashPool.PoolConserved | lib/ecash.ts:161-185 | when no mint's section ends between its swap and its write, and each wallet splits the very list its caller had read, what the mint still accepts of the list is what it was, plus claimed, less minted, whenever no section is under way: no swapped-in proof is lost to a concurrent write |
| CashPool.TornMint | lib/ecash.ts:176-183 | a run in which a mint throws between its swap and its write and the list is left with a spent proof |
| CashPool.PoolConservedExactly | lib/ecash.ts:161-185 | the list is worth what it should be in every run, whenever no section is under way, if and only if no mint's section ends between its swap and its write |
| RateLimiter.Limiter.Request | lib/app.ts:237-266 | decides as the fixed window prescribes and logs an admission exactly when the request goes on |
| RateLimiter.Limiter.Sweep | lib/app.ts:204-209 | deletes exactly the entries that have run out |
| RateLimiter.Limiter.AnyWindow | lib/app.ts:237-266 | any half-open interval of windowMs admits at most 2 * max - 1 of a key's requests |
| RateLimiter.TwiceMax | lib/app.ts:136-152 | a log of admissions in disjoint windows of at most max has at most 2 * max - 1 in any interval of the window's length |
| RateLimiter.Burst | lib/app.ts:237-266 | the bound 2 * max - 1 is reached for every max |
| RateLimiter.SweepInvisible | lib/app.ts:204-209 | deleting expired entries, whenever and how often, never changes a decision |
| Bytes.LittleRoundTrip | lib/zmq.ts:27-34 | a little-endian integer of any width reads back what was written |
| Bytes.BigRoundTrip | lib/zmq.ts:142-146 | a big-endian integer of any width reads back what was written |
| RawBlock.InputsEnd | lib/zmq.ts:45-51 | the input loop ends where skipping each outpoint, script and sequence in turn ends, or reads past the end exactly when that does |
| RawBlock.OutputsEnd | lib/zmq.ts:53-59 | the output loop likewise, over values and scripts |
| RawBlock.WitnessesEnd | lib/zmq.ts:61-70 | the nested witness loops likewise, over each input's stack |
| RawBlock.RawTxSize | lib/zmq.ts:36-74 | computes the size specified by TxSize, which TxSizeInverts ties to serialization |
| RawBlock.HandleRawBlock | lib/zmq.ts:98-119 | hands on every transaction found but the first, in order, and returns exactly when the walk got through the count |
| RawBlock.ReadCompactSize | lib/zmq.ts:27-34 | readVarInt inverts CompactSize encoding |
| RawBlock.TxSizeInverts | lib/zmq.ts:36-74 | for every transaction in the witness form, or in the legacy form with inputs or without outputs, the walk returns its exact length, whatever follows |
| RawBlock.InputlessMisread | lib/zmq.ts:40-43 | a 19-byte legacy transaction without inputs that is measured as 12 bytes |
| RawBlock.MeasuredExactly | lib/zmq.ts:36-74 | every transaction of a form is measured right if and only if the form is the witness form, has inputs or has no outputs |
| RawBlock.BlockSplitsExactly | lib/zmq.ts:98-119 | for every header, count and list of readable transactions the split finds exactly those transactions |
| Zmtp.FillFrame | lib/zmq.ts:133-147 | the array holds the frame's printed form, with the one-byte or the eight-byte length |
| Zmtp.Subscriber.OnData | lib/zmq.ts:183-227 | the data handler with its frame loop leaves exactly the state that feeding the chunk specifies |
| Zmtp.FeedSplit | lib/zmq.ts:183-221 | from any state two chunks leave the parser as their concatenation does |
| Zmtp.ChunkIndependence | lib/zmq.ts:183-221 | any split of a stream gives the same deliveries and the same residual state |
| Zmtp.HeadInvertsPrint | lib/zmq.ts:133-147 | a printed frame is read back with its body, its more and command flags, and the rest of the stream untouched |
| Zmtp.DeliversExactly | lib/zmq.ts:183-221 | after a 64-byte greeting, in whatever chunks, the k-th payload delivered is the second part of the k-th message that has two parts and the topic, perhaps behind a byte order mark, for its first, and there are no others; commands between and inside messages are ignored and an unfinished message is kept |
| BookWalk.Walk | routes/payments.ts:917-924 | the loop fills and buys what the greedy specification does and stops at the last ask needed, the average price between the cheapest and that ask's |
| BookWalk.WalkRate | routes/payments.ts:910-925 | the rate is USDT filled per BTC bought and lies between the cheapest and the last-touched ask |
| BookWalk.SortedIsBook | routes/payments.ts:913-916 | filtering and sorting keep every ask and put the cheapest first |
| BookWalk.AsksExactly | routes/payments.ts:913-915 | the asks are exactly the lines with a negative amount, with their price and the amount's size |
| BookWalk.WalkAllocates | routes/payments.ts:919-924 | some allocation within the asks' sizes spends and buys what the walk does |
| BookWalk.FillsDepth | routes/payments.ts:919-924 | the walk spends min(amount, depth of the book) |
| BookWalk.GreedyOptimal | routes/payments.ts:917-924 | no feasible allocation of the same USDT buys more BTC |
| BookWalk.LeastAverage | routes/payments.ts:925-925 | the rate is the least average price at which that much USDT can be spent on the book |
| BatchRead.Missing | lib/db.ts:122-125 | lists in order exactly the indices the main store had nothing for |
| BatchRead.FillIn | lib/db.ts:126-132 | overwrites exactly those indices in place |
| BatchRead.GfAll | lib/db.ts:119-140 | for every key list, with repeats, the result is gf of each key in order: the main store's value, else the archive's, else none |

## Left out

- Form: the lightning, listener, internal-transfer, fund and lock protocols are state machines over values, because their interleavings at awaits are the point; the order of steps is modelled, objects updated in place and aliasing are not.
- Lightning environment: statuses `complete` and `failed` are final, CLN's listings are faithful, what LND's listing shows complete is, a rejected call creates no further parts, Redis calls do not fail, claims outlive their holder, and the worker reaches `inFlight.add` within the 120 s guard.
- One attempt per invoice is followed from its claim on. Of the others the send model has what their clean-up does to the shared entry and pointer (`OtherClears`); two attempts' parts in one listing are not part of it.
- An open send's record is in the main store: moving records to the archive, which `reverse()` does not read, is not part of this model.
- Finalize's own lookup of the preimage when none is passed, the invoice update and `completePayment` (forwarding, autowithdrawal, webhooks, zaps).
- The listener's watchdog is only its epoch bump; timers, retry counters and socket state are not modelled.
- Operations.Client.TbDebit: the error text and the balance log are left out; amounts are natural numbers, as debit() has checked by then.
- RateLimiter.Limiter.AnyWindow: for a maximum of at least one, as every caller passes; key derivation from addresses and tokens is abstract.
- Breaker.WithdrawBreaker.AllWindows: bounds what is recorded; a send whose record fails on an unreadable file is not counted.
- Locks.OneAtATimeInOrder: one key's chain; chains of different keys share nothing.
- TigerBeetle is the batch interpreter; account-id derivation by XOR is replaced by distinct accounts, 128-bit overflow and negative amounts (which the client refuses to encode) are not modelled.
- NwcBudget.Connection.Pay: a stored renewal that happens to name a member every JavaScript object inherits is not modelled; any other unknown renewal is.
- The operator functions tbSetBalance, tbSetPending, tbSetCredit and the microsat migration.
- Floating point: rates and prices are exact reals with floor(x + 1/2) for Math.round, 64-bit sizes are exact integers.
- decodeTx drops outputs without an address, so output positions are not claimed to be preserved; the transactions handed on are byte ranges.
- The exchange's prices are assumed positive.
- sendKeysend, lnurlwCallback, on-chain transaction building, mint proxies, receipts, PINs, sessions and routing.
