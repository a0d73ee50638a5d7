# Claw Marketplace settlement, verified

A Dafny 4.11 model of how a Claw Marketplace booking becomes money and a machine: the `ClawEscrow` contract, the
settlement protocol that drives it, the public ledger computed from its log, the delivery of events to workers, the
worker that starts and stops sandboxes, and the shell quoting used on the way. `dafny verify dfyconfig.toml` checks
everything.

## What is modelled

* **The contract** (`EscrowMath`, `Escrow`, `EscrowInvariant`, `EscrowTheorems`, `EscrowHistory`, `EscrowEffects`,
  `EscrowExit`, `EscrowContract`). `Escrow` gives every external function on values, with its reverts in source order
  and its checked `uint256` arithmetic, and a machine that runs them. `deposit`, `withdrawUnused` and `claim` are
  split at their token transfer; before and after the balances move, any number of other calls may run, so the results
  hold inside reentrant transactions too. `EscrowContract` is the contract as a class with its mappings updated in
  place, each method proved against `Escrow`. `EscrowInvariant` holds what every step keeps, `EscrowTheorems` what it
  means over whole runs, `EscrowHistory` what the event log says about everybody's tokens and the settings,
  `EscrowEffects` what each function does for its caller in plain numbers, and `EscrowExit` that everybody can always
  be paid out.
* **The settlement protocol** (`Ledger`, `Settlement`, `SettlementInvariant`, `SettlementTheorems`, `BookingService`,
  `SettlementEffects`, `SettlementHistory`, `BookingLifecycle`, `TransitionTable`, `Stranding`, `Overtaking`). Each
  transition request is a handler that steps from one await to the next over the booking table, the settlement log and
  the contract; any number of handlers interleave, none takes a row lock, and everybody else's transactions and the
  clocks run in between. `BookingService` is the endpoint in its own imperative form, proved equal to its handler run
  alone; `SettlementEffects` says when its lock or charge is confirmed and what it costs, `SettlementHistory` where
  stamps and usage come from over every interleaving; `BookingLifecycle` is about requests served one after the other,
  `TransitionTable`, `Stranding` and `Overtaking` about what overlapping ones do to each other.
* **Delivery and the worker** (`Realtime`, `Worker`, `WorkerLoop`). Bounded best-effort queues per channel; the
  handler that keeps a row store, a port map and the running sandboxes; the serial event loop with its reconnect
  delay. Classes are proved against functions on values, and the results are about runs of those.
* **End to end** (`EndToEnd`, `Agreement`). The protocol and any number of workers together. In `EndToEnd` a worker
  may be handed anything that was ever published to it, in any order, repeatedly or never, which covers what the
  queues can do; in `Agreement` it is handed everything, once and in order.
* **Quoting and names** (`Shell`). The quoting loop, and a reader for the quoting and token rules of sections 2.2 and
  2.3 of the Shell Command Language volume of IEEE Std 1003.1 that undoes it.

`MapSums` has sums over Solidity mappings; a sum is the cardinality of a set of units, so that reordering is free.

## Assumptions

* The token moves exact amounts, its supply stays below 2^256, and nobody sends tokens to the contract outside
  `deposit`. Transfers between other accounts are part of every run, logged as the token's own event. Allowances are
  not modelled: a refused transfer covers a missing one.
* The zero address and the contract itself never sign a transaction. Roles are those granted at deployment.
* Booking ids map one to one to their on-chain keys (no hash collisions), so both sides share them.
* The chain client is honest: it returns a result with its decoded event exactly when the call took effect, and raises
  exactly when it did not. Only the backend holds the settler key.
* Wallets, offerings and settings of a booking's parties do not change; the hourly rate may, from request to request.
  The server clock never runs backwards. A row id is used once, and a new handler has a new id.
* `block.timestamp` never decreases; the `uint64` cast of it is modelled by its remainder.
* A stop that the backend reports as successful means that the sandbox is gone, and a start that it reports as failed
  that none was left behind. (`LimaBackend::stop` reports success whatever docker answered,
  `worker/src/sandbox/lima.rs` lines 133-137; the results about running sandboxes hold for it as far as docker does
  what it is told.)
* The answers of a worker's surroundings (start, stop, reads, writes, clock) are inputs of each event, so every
  combination of failures is covered.
* Strings are sequences of characters without the NUL character, which cannot be passed to a shell command.

## Where code, documentation and expectation differ

`docs/onchain-settlement.md` (lines 106-107) says that `cancelBooking` makes no charge; the contract charges the usage
it is given, and so does the model.

These expectations hold under a condition only, which is given exactly:

* Every party can be paid out, but tokens credited to the contract's own address, as supplier or treasury, can never
  leave; some run does credit it (`EscrowExit.SelfCreditHappens`), and the contract can be emptied exactly when
  nothing is credited there (`EscrowExit.EmptiesIff`).
* Overlapping requests keep the transition table exactly as long as no commit is stale
  (`TransitionTable.KeepsTableIff`). A stale commit takes another commit on the same booking since the request was
  checked (`TransitionTable.StaleMeansOverlap`), and overlap can bring one about
  (`BookingLifecycle.OverlapUndoesFinality`).
* A booking that settles on chain has a close attempt in the log, and its worker told, if and only if some close of it
  was requested while it was active (`Stranding.ChargedIff`). A cancellation checked while it was pending can close it
  after its activation without either, and some run does (`Overtaking.StrandingHappens`). Its lock then stays, short
  of a retry by hand, its worker is never told (`Stranding.StrandedForever`), and its machine keeps running
  (`EndToEnd.LeftBehindForever`, `EndToEnd.MachineLeftBehind`). Nothing else leaves a lock without an attempt
  (`Stranding.ClosedMeansCharged`).
* A worker's machines agree with the booking table exactly as long as no step parts a booking from the last word its
  worker is given (`Agreement.AgreesIff`, for bookings without stale commits): such a cancellation, or a close that
  tells the worker before the activation does, as in some run it does (`Agreement.CrossingHappens`).
* Worker bookkeeping is exact exactly as long as no event leaks a sandbox (`Worker.ExactThroughoutIff`).
* A forwarded port identifies its sandbox exactly as long as no start reports a port in use
  (`Worker.OnePerPortThroughoutIff`). The Lima and container backends report 8080 for every sandbox
  (`worker/src/sandbox/lima.rs` line 129, `worker/src/sandbox/container.rs` line 77), so with them two bookings share
  it (`Worker.BookingsCanShareAPort`).

## Model

| member | source | states |
|---|---|---|
| EscrowMath.CeilDivIsLeastCover | contracts/src/ClawEscrow.sol:263-265 | the ceiling division is the least integer whose multiple covers the dividend |
| EscrowMath.CostWithinLock | contracts/src/ClawEscrow.sol:215-221 | the quote grows with usage and inside the window never exceeds the lock, so the clamp never fires |
| EscrowMath.FullUsageResidue | contracts/src/ClawEscrow.sol:179-180 | at full usage lock minus cost is 0 when the division is exact and 1 otherwise |
| EscrowMath.SplitBillLosesAtMostOne | contracts/src/ClawEscrow.sol:129-131 | splitting usage over two bills gains nothing and loses at most one base unit |
| EscrowMath.CommissionBounds | contracts/src/ClawEscrow.sol:223-229 | under the cap the commission is part of the cost and the supplier keeps at least 80% |
| EscrowMath.ProductFits | contracts/src/ClawEscrow.sol:180-223 | no product on the open or settle path leaves uint256, for all rates, durations and commission rates |
| EscrowContract.ClawEscrow.constructor | contracts/src/ClawEscrow.sol:105-115 | a deployment with valid addresses and commission leaves empty mappings, the given treasury and the granted roles |
| EscrowContract.ClawEscrow.OpenBooking | contracts/src/ClawEscrow.sol:168-196 | storage after openBooking, or the revert of the first failing check with storage unchanged |
| EscrowContract.ClawEscrow.PriceUsage | contracts/src/ClawEscrow.sol:209-223 | the bounds check and the bill of _settle, read-only |
| EscrowContract.ClawEscrow.CreditEarnings | contracts/src/ClawEscrow.sol:229-230 | supplier credited before treasury, with both additions checked |
| EscrowContract.ClawEscrow.CloseBooking | contracts/src/ClawEscrow.sol:199-235 | storage after settleBooking or cancelBooking, or the revert with storage unchanged |
| EscrowContract.ClawEscrow.SetCommissionBps | contracts/src/ClawEscrow.sol:241-245 | the commission changes under the cap by an admin only, nothing else does |
| EscrowContract.ClawEscrow.SetTreasury | contracts/src/ClawEscrow.sol:247-251 | the treasury changes to a non-zero address by an admin only, nothing else does |
| EscrowContract.ClawEscrow.SetPaused | contracts/src/ClawEscrow.sol:253-259 | pause and unpause flip the flag and emit their event, by an admin and only from the other state |
| EscrowContract.ClawEscrow.CallBack | contracts/src/ClawEscrow.sol:135-163 | a call made inside a transfer is one step of the machine: the guard turns money-moving calls away |
| EscrowContract.ClawEscrow.Deposit | contracts/src/ClawEscrow.sol:135-140 | deposit with any callbacks before and after the token moves is a run of the machine, or reverts without a trace |
| EscrowContract.ClawEscrow.WithdrawUnused | contracts/src/ClawEscrow.sol:144-151 | the same for withdrawUnused, paused or not |
| EscrowContract.ClawEscrow.Claim | contracts/src/ClawEscrow.sol:157-163 | the same for claim, paused or not |
| EscrowInvariant.OpenWrites | contracts/src/ClawEscrow.sol:175-195 | a successful open locks exactly the rounded-up rate times window inside the free escrow and snapshots its terms |
| EscrowInvariant.BillIsExact | contracts/src/ClawEscrow.sol:209-223 | a successful bill is floor(rate times usage) and floor(cost times snapshot / 10000), within the lock |
| EscrowInvariant.CloseWrites | contracts/src/ClawEscrow.sol:226-234 | a close releases exactly the lock, debits exactly the cost, credits exactly the bill and changes nothing else |
| EscrowInvariant.CreditedAdds | contracts/src/ClawEscrow.sol:229-230 | each account's earnings grow by its share, also when supplier and treasury coincide, and all shares add up to the cost |
| EscrowInvariant.StepKeepsInv | contracts/src/ClawEscrow.sol:18-29 | every step of every call, reentrant or not, keeps solvency, lock accounting, conservation, and one open and one close per booking |
| EscrowInvariant.ReachableIsSound | contracts/src/ClawEscrow.sol:18-29 | the invariant holds in every state of every run of every deployment |
| EscrowTheorems.Solvency | contracts/src/ClawEscrow.sol:135-163 | at every point of every run, tokens plus the amount in flight equal total escrow plus total claimable |
| EscrowTheorems.LockAccounting | contracts/src/ClawEscrow.sol:180-228 | each lockedOf is the sum over that consumer's open bookings and at most the escrow |
| EscrowTheorems.Conservation | contracts/src/ClawEscrow.sol:135-230 | per account: deposited = escrow + withdrawn + charged, earned = claimable + claimed; volume = commission + supplier pay |
| EscrowTheorems.EveryCloseBillsItsOpen | contracts/src/ClawEscrow.sol:184-234 | every close ever emitted bills the rate, window and commission of its open, whatever admins did in between, and leaves the supplier 80% |
| EscrowTheorems.ChargedAtMostOnce | contracts/src/ClawEscrow.sol:177-226 | a booking is opened at most once, and charged once if closed and never otherwise |
| EscrowTheorems.ForwardOnly | contracts/src/ClawEscrow.sol:42-58 | over every run statuses only move from Open to a terminal one, terms never change, and the event log only grows |
| EscrowTheorems.OpenSucceedsIff | contracts/src/ClawEscrow.sol:168-184 | at every point of every run an open succeeds exactly when its checks pass and the lock fits the free escrow; arithmetic never fails |
| EscrowTheorems.ClosePossibleIff | contracts/src/ClawEscrow.sol:199-230 | anywhere in any run a close succeeds exactly when a settler makes it, the booking is open, the usage is at most its window and the time since it was opened plus 300 seconds, and the credited balances have room |
| EscrowTheorems.CloseSucceedsIff | contracts/src/ClawEscrow.sol:209-230 | why a close fails, anywhere in any run: BookingNotOpen or UsageOutOfBounds exactly when it should, or an overflow, which takes a deposit of tokens its sender does not hold and a credited balance without room |
| EscrowTheorems.AlwaysPayable | contracts/src/ClawEscrow.sol:18-29 | after any run of other steps an open booking can be closed exactly for the usages in bound that the credited balances have room for, as they always do outside an uncovered deposit, and pays the supplier from the consumer's escrow |
| EscrowTheorems.OthersUntouched | contracts/src/ClawEscrow.sol:184-230 | a step on one consumer's booking leaves every other consumer's escrow and lock unchanged |
| EscrowTheorems.AdminMovesNothing | contracts/src/ClawEscrow.sol:239-259 | no admin step moves money, touches a booking or lifts the cap |
| EscrowTheorems.TransactionIsReachable | contracts/src/ClawEscrow.sol:135-163 | a completed reentrant transaction of the class is a run of the machine, so all of the above holds after it |
| EscrowHistory.TokensFollowTheLog | contracts/src/ClawEscrow.sol:135-163 | at every point of every run, each account but the contract has the tokens it started with, less what it deposited and sent, plus what it withdrew, claimed and received, with the call in flight accounted for |
| EscrowHistory.FlagsFollowTheLog | contracts/src/ClawEscrow.sol:241-259 | at every point of every run the commission rate and the pause are those of the newest change in the log, every booking was opened at the rate in force at its place there, and none during a pause |
| EscrowEffects.DepositEffect | contracts/src/ClawEscrow.sol:135-140 | a deposit succeeds exactly when unpaused, positive, inside uint256 and held by its sender; it moves exactly its amount from the sender to the contract and into the sender's escrow, and nobody else's |
| EscrowEffects.WithdrawEffect | contracts/src/ClawEscrow.sol:144-151 | a withdrawal of any positive amount up to the free escrow succeeds, paused or not, and no other does; exactly that amount goes from the contract to its sender, and nobody else's tokens or escrow move |
| EscrowEffects.ClaimEffect | contracts/src/ClawEscrow.sol:157-163 | a claim succeeds exactly when something was earned, paused or not, and pays exactly all of it to its sender |
| EscrowEffects.TransactionMoves | contracts/src/ClawEscrow.sol:135-163 | the same amounts move between the same two accounts whatever the token calls back into, short of token transfers of others |
| EscrowEffects.DepositRefusal | contracts/src/ClawEscrow.sol:135-140 | the first failing check names the reason a deposit is refused |
| EscrowEffects.WithdrawRefusal | contracts/src/ClawEscrow.sol:144-151 | the same for a withdrawal, with the amount asked for and the escrow that was free |
| EscrowEffects.ClaimRefusal | contracts/src/ClawEscrow.sol:157-160 | the only reason a claim is refused between transactions is that nothing was earned |
| EscrowEffects.NestedRefusal | contracts/src/ClawEscrow.sol:135-163 | inside a transfer every call that moves money is turned away |
| EscrowEffects.OpenRefusal | contracts/src/ClawEscrow.sol:168-182 | the first failing check names the reason an open is refused, with the lock and the free escrow; no arithmetic fails |
| EscrowEffects.CommissionEffect | contracts/src/ClawEscrow.sol:241-245 | setCommissionBps succeeds exactly for an admin and up to 2000, and then the stored rate is the argument and nothing else changed |
| EscrowEffects.TreasuryEffect | contracts/src/ClawEscrow.sol:247-251 | setTreasury succeeds exactly for an admin and a non-zero address, and then the treasury is the argument |
| EscrowEffects.PauseEffect | contracts/src/ClawEscrow.sol:253-259 | pause and unpause succeed exactly for an admin from the other state, and set the flag accordingly |
| EscrowEffects.DeployEffect | contracts/src/ClawEscrow.sol:105-115 | a deployment succeeds exactly with non-zero addresses and a rate up to 2000, and has its two roles, its treasury, its rate and nothing else |
| EscrowEffects.EveryOpenLocksItsTerms | contracts/src/ClawEscrow.sol:179-195 | every open in the log of every run locked its rate, 10000 base units a cent, for its window, divided by 3600 and rounded up |
| EscrowEffects.EveryCloseIsPriced | contracts/src/ClawEscrow.sol:218-234 | every close in the log charged its usage at the rate of its open, rounded down, with the commission of its open, rounded down, out of it |
| EscrowExit.CancelAll | contracts/src/ClawEscrow.sol:205-235 | cancelling any list of open bookings with usage 0 never reverts and moves no money |
| EscrowExit.FullExit | contracts/src/ClawEscrow.sol:142-163 | from every reachable state, paused or not, cancel all, withdraw all, claim all never reverts and leaves every lock, escrow and claimable at zero and no tokens, but for credits to the contract's own address |
| EscrowExit.SelfCreditIsStuck | contracts/src/ClawEscrow.sol:157-163 | tokens credited to the contract's own address never leave, over every run |
| EscrowExit.SelfSupplierIsCredited | contracts/src/ClawEscrow.sol:175-230 | closing a booking whose supplier is the contract credits the contract whenever the supplier gets anything |
| EscrowExit.SelfCreditHappens | contracts/src/ClawEscrow.sol:175-230 | a run from deployment that leaves tokens no later run can take out |
| EscrowExit.NoSettlerNoBookings | contracts/src/ClawEscrow.sol:114 | a contract deployed without a settler never opens a booking, so the exit holds for it too |
| EscrowExit.EmptiesIff | contracts/src/ClawEscrow.sol:142-163 | from every state between transactions of every deployment, some run empties the contract if and only if nothing is credited to its own address |
| SettlementInvariant.OpenConfirmed | backend/src/claw_api/chain/service.py:72-100 | a confirmed openBooking took effect for this consumer, this supplier and this rate, with the lock that goes into the log |
| SettlementInvariant.CloseConfirmed | backend/src/claw_api/chain/service.py:128-144 | a confirmed close took effect with the cost and commission that go into the log |
| SettlementInvariant.LedgerMatchesLocks | backend/src/claw_api/api/v1/ledger.py:55-84 | the anti-join over log rows finds exactly the bookings open on chain, with their locks |
| SettlementInvariant.SettlementsMatchCloses | backend/src/claw_api/api/v1/ledger.py:59-67 | the number of confirmed closes is the number of closed on-chain bookings |
| SettlementInvariant.ForeignKeepsBooks | contracts/src/ClawEscrow.sol:174-207 | nobody without the settler role changes a booking, the volume or the commission, not even from inside a transfer |
| SettlementInvariant.ActionKeepsInv | backend/src/claw_api/chain/service.py:59-146 | every step of every handler and every foreign transaction keeps log, pending answers and contract in agreement |
| SettlementInvariant.HappensIsSound | backend/src/claw_api/chain/service.py:59-146 | that agreement holds after every interleaving |
| SettlementTheorems.AtMostOneEach | backend/src/claw_api/api/v1/bookings.py:95-145 | the log holds at most one confirmed open and one confirmed close per booking, although handlers take no lock |
| SettlementTheorems.CloseImpliesOpen | backend/src/claw_api/chain/service.py:128-146 | a confirmed close implies a confirmed open of the same booking in the log |
| SettlementTheorems.AnswersMatchChain | backend/src/claw_api/api/v1/ledger.py:55-101 | at every point the ledger of all answered calls equals the contract: locks, counts, volume, commission, supplier pay |
| SettlementTheorems.LedgerMatchesChain | backend/src/claw_api/api/v1/ledger.py:55-101 | so whenever no answer awaits its commit, the published ledger is exact |
| SettlementTheorems.SendCloseIff | contracts/src/ClawEscrow.sol:199-216 | between transactions a node that can be reached confirms a close exactly when the settler has its role, the booking is open, and the usage is at most its window and its age plus 300 seconds |
| SettlementTheorems.SendOpenIff | contracts/src/ClawEscrow.sol:168-184 | and it confirms an open exactly when the settler has its role, the contract is not paused, no address is zero, the booking is new, every argument fits its width, and the rate for the configured hours is in the free escrow |
| SettlementTheorems.InWindowClosesSettle | backend/src/claw_api/api/v1/bookings.py:114-145 | with clocks agreeing up to the grace, a close within the locked window succeeds exactly when nobody closed first; the usage check never rejects it |
| SettlementTheorems.OnChainBetweenItsParties | backend/src/claw_api/chain/service.py:72-88 | after every interleaving each on-chain booking locks its own consumer's escrow for its own supplier's payout wallet |
| SettlementTheorems.NoMessageBeforeMoney | backend/src/claw_api/api/v1/bookings.py:112-171 | a start message goes only to the booking's own worker under its own offering, and for parties settling on chain only after the confirmed lock of its own consumer for its own supplier, exactly the recorded rate for the configured hours, is in the log |
| BookingService.ConcludedIsAlone | backend/src/claw_api/api/v1/bookings.py:123-179 | status, stamp, charge and announcement in sequence are what the handler's steps leave when nothing runs in between |
| BookingService.TransitionPath | backend/src/claw_api/api/v1/bookings.py:95-179 | the whole path of an admitted request, with or without a lock |
| BookingService.TransitionOutcome | backend/src/claw_api/api/v1/bookings.py:87-199 | 404 exactly for unknown bookings and users who are neither consumer nor supplier, 400 exactly outside the four moves of the table, both without a trace; 402 leaves only the failed attempt; success exactly the new row with its stamp, its announcement, and exactly when one is due a log row with parties, rate, and the whole seconds between the two stamps |
| SettlementEffects.StartOutcome | backend/src/claw_api/chain/service.py:59-102 | at any point of any interleaving, a request served alone to start a booking that settles on chain is accepted exactly when everything a lock takes is there, and 402 otherwise; the rate for the configured hours is then locked for these parties, and logged |
| SettlementEffects.CloseOutcome | backend/src/claw_api/chain/service.py:105-146 | a request to close one is accepted, and its charge for the whole seconds since the start confirmed exactly when the chain can take it; the amounts logged are the price of those seconds under the terms of the open |
| SettlementEffects.EveryLockIsPriced | backend/src/claw_api/chain/service.py:72-102 | after every interleaving each confirmed open in the log carries exactly its rate, 10000 base units a cent, times the configured hours |
| SettlementEffects.EveryChargeIsPriced | backend/src/claw_api/chain/service.py:117-146 | after every interleaving each confirmed close carries the price of its own seconds at the rate its open recorded, and the commission the contract took down then |
| SettlementHistory.EveryUsageWasRead | backend/src/claw_api/chain/service.py:53-56 | over every interleaving the usage of every charge in the log, confirmed or not, is the whole seconds between the two stamps as its handler read them at some point of the run, and 0 if one was missing or they were out of order |
| SettlementHistory.EveryStampWasRead | backend/src/claw_api/api/v1/bookings.py:123-130 | over every interleaving the start of a booking is the time at which some handler that starts it read the clock, and its end that of one that completes or cancels it |
| BookingService.Service.CreateBooking | backend/src/claw_api/api/v1/bookings.py:29-53 | 404 without an active offering, 400 for a foreign worker, otherwise a pending booking without stamps of exactly this consumer, supplier, worker, offering and these wallets |
| BookingService.Service.SettleOnActivate | backend/src/claw_api/chain/service.py:59-102 | nothing for parties who do not settle on chain; otherwise the attempt is in the log either way and the activation goes on only if it was confirmed |
| BookingService.Service.SettleOnClose | backend/src/claw_api/chain/service.py:105-146 | nothing for parties who do not settle on chain; otherwise the charge's row, confirmed or failed, with chain and log as the handler steps leave them |
| BookingService.Service.TransitionBooking | backend/src/claw_api/api/v1/bookings.py:88-199 | 404 exactly for unknown bookings and users who are neither consumer nor supplier; reply and state equal the handler run alone from request to end |
| BookingLifecycle.LifecycleHolds | backend/src/claw_api/models/bookings.py:17-22 | over every sequence of requests served one at a time, bookings only move along the transition table, closed rows are final, and the stamps bracket the active time |
| BookingLifecycle.OnlyPartiesMoveRows | backend/src/claw_api/api/v1/bookings.py:182-199 | over every sequence of requests served one at a time, a booking's row only changes in a turn served for its consumer or its supplier |
| BookingLifecycle.OverlapUndoesFinality | backend/src/claw_api/api/v1/bookings.py:95-130 | two overlapping requests that take a booking from completed to cancelled |
| TransitionTable.KeepsTableIff | backend/src/claw_api/models/bookings.py:17-22 | over every interleaving from every state, each row stays as it is or makes a move of the table at every step if and only if no commit is stale: a target the row's status by then does not admit, that would change the row |
| TransitionTable.StaleNeedsIntrusion | backend/src/claw_api/api/v1/bookings.py:95-130 | until another handler commits on the same booking, the row keeps the status that was checked, so a stale commit needs one in between |
| TransitionTable.StaleMeansOverlap | backend/src/claw_api/api/v1/bookings.py:95-130 | in every run a stale commit points back to its own accepted request and to such a commit since then |
| Stranding.ClosedMeansCharged | backend/src/claw_api/api/v1/bookings.py:132-178 | in every run in which no cancellation checked while pending closes an active booking, a locked booking that nobody works on and that is not active has a close attempt in the log and its own worker told |
| Stranding.ChargedIff | backend/src/claw_api/api/v1/bookings.py:134-178 | after every interleaving, once no handler works on a booking that settles on chain, its close was attempted on chain, and its own worker told, if and only if one was requested while it was active |
| Stranding.LateCancelStrands | backend/src/claw_api/api/v1/bookings.py:134-178 | a cancellation in that place closes the row and leaves chain, log and messages as they were |
| Overtaking.OvertakingStrands | backend/src/claw_api/api/v1/bookings.py:95-178 | from every state in which a pending booking could be locked, an activation that overtakes a cancellation strands it, with its worker told to start |
| Overtaking.StrandingHappens | backend/src/claw_api/api/v1/bookings.py:95-178 | a run from deployment that ends with a stranded booking |
| Stranding.StrandedForever | backend/src/claw_api/models/bookings.py:17-22 | after it, whatever anyone does, the lock stays, nothing is charged and the worker is not told |
| Worker.ExactAfterIff | worker/src/booking/mod.rs:98-162 | from exact books, an event leaves exact books if and only if it does not leak: a started sandbox without its row, a displaced one, or a stopped one still active |
| Worker.ExactThroughoutIff | worker/src/booking/mod.rs:98-162 | a run is exact at every point if and only if none of its events leaks |
| Worker.OnceNeverLeaks | worker/src/booking/mod.rs:98-162 | with each booking activated at most once and rows written, no event leaks, whatever start, stop and reads answer |
| Worker.BooksStayExact | worker/src/booking/mod.rs:98-162 | then running sandboxes are exactly those of active rows at every point of every run |
| Worker.OrphanRunsForever | worker/src/booking/mod.rs:144-162 | a sandbox no active row names is never stopped, over every later run |
| Worker.RowsKeepTheirOffering | worker/src/state.rs:73-93 | over every run no row is lost or moves to another offering |
| Worker.RowsFollowStarts | worker/src/booking/mod.rs:126-143 | over every run a booking has a row exactly when a start of it was recorded, with the offering of the first such start and the time and sandbox of the last |
| Worker.ActivationEffect | worker/src/booking/mod.rs:101-143 | what a start leaves of rows, ports and sandboxes, field by field, for every combination of answers |
| Worker.CancellationEffect | worker/src/booking/mod.rs:144-162 | what a cancellation leaves of them, and when it fails |
| Worker.MessagesGoToOwnPort | worker/src/booking/mod.rs:176-190 | while nothing leaked, a message is posted to a port if and only if the worker is wired and the running sandbox of the message's own active booking reported that port |
| Worker.OnePerPortThroughoutIff | worker/src/booking/mod.rs:127-133 | over every run each port identifies its running sandbox if and only if no start reports a port in use |
| Worker.MessagesReachOwnSandbox | worker/src/booking/mod.rs:176-190 | then a message reaches the running sandbox of its own active booking and no other |
| Worker.BookingsCanShareAPort | worker/src/sandbox/lima.rs:127-130 | a backend with one port for all sandboxes leaks nothing, yet two bookings' messages go to the same port |
| WorkerLoop.State.UpsertBooking | worker/src/state.rs:73-93 | a conflicting row keeps its offering and takes status, start and sandbox; others are untouched |
| WorkerLoop.State.ListActiveBookings | worker/src/state.rs:95-114 | every active row exactly once, and no other |
| WorkerLoop.Find | worker/src/booking/mod.rs:147 | a row with the id is found exactly when one is listed |
| WorkerLoop.BookingHandler.Activated | worker/src/booking/mod.rs:101-143 | start, port and row as specified for every combination of answers |
| WorkerLoop.BookingHandler.Cancelled | worker/src/booking/mod.rs:144-162 | stop, row and port as specified, with early returns that keep the port |
| WorkerLoop.BookingHandler.Dispatch | worker/src/booking/mod.rs:98-174 | the handler's new state and result for every event equal the specification |
| WorkerLoop.Serve | worker/src/api/ws.rs:118-151 | a session leaves the handler as the run of what its frames deliver, which DeliveredAt and DeliveredOnly give frame by frame |
| WorkerLoop.DeliveredAt | worker/src/api/ws.rs:118-147 | the event of every text frame before the end, plain but for a ping, or inside an envelope but for an envelope, is handed over with that frame's answers, at the place given by the number of such frames before it |
| WorkerLoop.DeliveredOnly | worker/src/api/ws.rs:118-147 | and nothing else is |
| WorkerLoop.AllDeliveredAt | worker/src/api/ws.rs:99-160 | the same over all attempts, session after session |
| WorkerLoop.AllDeliveredOnly | worker/src/api/ws.rs:99-160 | and nothing else is, over all attempts |
| WorkerLoop.RunWs | worker/src/api/ws.rs:90-162 | a malformed address ends the loop at once; otherwise any finite part of it leaves the handler as the run of what all sessions deliver, with the delay after each attempt |
| WorkerLoop.EnvelopesNeverReachTheHandler | worker/src/api/ws.rs:82-86 | whatever arrives, no sealed envelope reaches the handler, not even one inside another |
| WorkerLoop.DelaySinceSession | worker/src/api/ws.rs:100-160 | the delay is the power of two of the attempts since the last session, capped at 60 seconds |
| Realtime.Broker.Register | backend/src/claw_api/realtime.py:16-20 | a fresh empty queue joins the channel |
| Realtime.Broker.Unregister | backend/src/claw_api/realtime.py:23-26 | the queue leaves the channel and an emptied channel disappears |
| Realtime.Broker.Publish | backend/src/claw_api/realtime.py:29-37 | every subscriber with room gets the message once, full queues drop it, nobody else changes |
| Realtime.Broker.Get | backend/src/claw_api/api/v1/workers.py:197-203 | the oldest queued message, removed |
| Realtime.DeliveredInOrder | backend/src/claw_api/realtime.py:29-37 | received followed by queued is a subsequence of what was published while registered, and all of it if and only if no publication met a full queue |
| Realtime.NoEmptyChannels | backend/src/claw_api/realtime.py:23-26 | after every run a channel exists exactly when someone is registered on it |
| Realtime.PublishReachesItsChannel | backend/src/claw_api/realtime.py:29-37 | after every run a publication is appended to the queues of its own subscribers that hold fewer than 64 messages, and changes no other |
| Shell.ShellEscape | worker/src/sandbox/lima.rs:78-90 | the loop computes the quoted form |
| Shell.EscapedReads | worker/src/sandbox/lima.rs:78-90 | at any place in any word, an escaped string reads as exactly itself |
| Shell.EscapedIsOneWord | worker/src/sandbox/lima.rs:78-90 | alone or before a blank or operator, an escaped string is exactly one word equal to the string |
| Shell.EscapeIsInjective | worker/src/sandbox/lima.rs:78-90 | different strings have different escaped forms |
| Shell.FullWordIsLiteral | worker/src/sandbox/lima.rs:107-111 | a word as long as its text was written without quoting or expansion |
| Shell.CommandTokens | worker/src/sandbox/lima.rs:108-111 | for every configuration the command is echo, the configuration itself, and a redirection to what the path reads as |
| Shell.ConfigWrittenIff | worker/src/sandbox/lima.rs:105-115 | the redirection goes to the sandbox's own file if and only if the id without dashes has no special character, as no canonical id has |
| Shell.DashesRestored | backend/src/claw_api/models/base.py:8-9 | the dashes of an id in the layout of section 4 of RFC 9562 can be put back |
| Shell.NamesNeverCollide | worker/src/sandbox/lima.rs:74-76 | canonical ids have the same sandbox name, and the same path, exactly when they are equal |
| Shell.NamesAreDashless | worker/src/sandbox/lima.rs:74-76 | for all ids, two names or paths are the same exactly when the ids are the same without their dashes |
| Shell.OnlyDashesGo | worker/src/sandbox/lima.rs:74-76 | for every id exactly the characters other than dashes are kept, in order |
| Shell.CanonicalNames | worker/src/sandbox/lima.rs:74-107 | the name and the path of a canonical id, written out |
| EndToEnd.NoMachineBeforeMoney | worker/src/booking/mod.rs:101-127 | in every run and interleaving, a worker starts a sandbox only for its own booking and, for parties settling on chain, only after the confirmed lock of that consumer for that supplier |
| EndToEnd.EveryMachineIsPaid | worker/src/booking/mod.rs:101-143 | at any time every running sandbox was started for such a booking |
| EndToEnd.OneWorkerPerBooking | backend/src/claw_api/api/v1/bookings.py:146-178 | no booking ever has a row, active or not, on two workers |
| EndToEnd.RowsAreOwn | worker/src/booking/mod.rs:126-143 | every row a worker keeps is of a booking of its own, under the booking's offering |
| EndToEnd.LeftBehindForever | worker/src/booking/mod.rs:144-162 | whatever anyone does and whatever is delivered, the machine of a stranded booking keeps running, given that the backend reuses no id of a running sandbox |
| EndToEnd.MachineLeftBehind | worker/src/booking/mod.rs:101-143 | a run from deployment that leaves such a machine behind |
| Agreement.SentIsPublished | backend/src/claw_api/api/v1/bookings.py:146-178 | the ordered messages of a run are exactly what it publishes |
| Agreement.RowsFollow | worker/src/booking/mod.rs:98-162 | a worker handed its messages in order, with good answers, has exactly those bookings active whose last message is a start |
| Agreement.AgreesIff | backend/src/claw_api/api/v1/bookings.py:123-178 | after every run without a stale commit on a booking, once nobody works on it and all is delivered, its worker runs it exactly when the table has it active, if and only if no step was a silent cancellation or a last close that told the worker ahead of an activation |
| Agreement.MachinesMatchTable | worker/src/booking/mod.rs:98-162 | then, when nothing leaked, a worker's running sandboxes are exactly those of its bookings active in the table, one each |
| Agreement.CrossingParts | backend/src/claw_api/api/v1/bookings.py:129-178 | from every state with an idle pending booking that does not settle on chain, a close that tells the worker before the activation leaves it told to run a completed booking |
| Agreement.CrossingHappens | backend/src/claw_api/api/v1/bookings.py:129-178 | a run from the start, without a stale commit on the booking, that does |
| EndToEnd.TransitionHappens | backend/src/claw_api/api/v1/bookings.py:87-179 | a request served alone is one of the interleavings, so everything proved of those holds after it |

## Left out

- SettlementTheorems.InWindowClosesSettle: speaks of a reachable node and of clocks whose difference varies by at most the five-minute grace; bookings longer than the locked window, whose close is rejected and recorded as failed, are outside it.
- BookingService.TransitionOutcome: is about a handler with no other in between, as are SettlementEffects.StartOutcome and CloseOutcome; TransitionTable, Stranding and SettlementHistory are about overlapping ones.
- Agreement.AgreesIff: is about bookings without a stale commit, and workers whose starts, stops, reads and writes succeed.
- WorkerLoop.RunWs: models any finite part of the endless loop.
- Worker.BooksStayExact: takes the backend not to hand out the id of a running sandbox, and says nothing of a start that fails halfway.
- Shell.EscapedIsOneWord: is about quoting; what echo itself does with backslashes differs between shells and is not modelled.
- OpenZeppelin internals and role changes after deployment: roles are sets, pause and the guard are flags.
- The web3 client, signing, receipts and error decoding; timeouts after broadcast and crashes between a chain call and its commit.
- The ledger's listing, joins and paging, and the column widths of the settlement table.
- Authentication, sealing, base64, JSON, tokens and passwords; who a user is comes as a parameter.
- Subprocess, Docker, Lima and model-host control, and the chat relay over HTTP: a sandbox is an id that a backend starts or stops, possibly failing.
- Reconciliation after a reconnect and cancellation of offline workers, which comments describe and no code implements.
- The web frontend, magic links, provisioning, heartbeats, offerings and supplier records: they would add only easy members.
