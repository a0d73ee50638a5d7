// What a transition request does to the money, in plain terms: when the chain confirms its lock or its charge, what
// the lock holds, and what the charge costs.
module SettlementEffects {
  import opened Wrappers
  import opened MapSums
  import opened EscrowMath
  import opened Escrow
  import opened EscrowInvariant
  import EscrowEffects
  import opened Ledger
  import opened Settlement
  import opened SettlementInvariant
  import opened SettlementTheorems
  import opened BookingService

  // ------------------------------------------------------------ the prices in the log

  // Cost and commission of some seconds at an hourly rate in cents: 10_000 base units a cent, both rounded down.
  predicate PriceOf(rate: nat, bps: nat, secs: nat, cost: nat, commission: nat) {
    && 3600 * cost <= rate * 10_000 * secs < 3600 * cost + 3600
    && 10_000 * commission <= cost * bps < 10_000 * commission + 10_000
  }

  lemma BillIsPrice(b: Booking, secs: nat)
    ensures var bill := BillFor(b, secs); PriceOf(b.ratePerHourCents, b.commissionBps, secs, bill.cost, bill.commission)
  {
    EscrowEffects.PriceInNumbers(b.ratePerHourCents, secs);
    EscrowEffects.ShareInNumbers(Cost(b.ratePerHourCents, secs), b.commissionBps);
  }

  // After every interleaving, each confirmed open in the log locked its own rate for the configured hours.
  lemma EveryLockIsPriced(s: System, k: TxId)
    requires Happens(s) && k in s.txs && IsOpen(s.txs[k])
    ensures s.txs[k].amountUsdc == Some(s.txs[k].ratePerHourCents * 10_000 * s.settings.maxBookingHours)
  {
    HappensIsSound(s);
    InLog(s, k);
    var rows, id := Rows(s.txs, s.handlers), s.txs[k].bookingId;
    ReachableIsSound(s.chain);
    assert OpenKnown(rows, s.openedBy, k);
    assert OpenRow(rows, s.chain.core.bookings, s.openedBy, MaxSecs(s.settings), id);
    assert BookingSound(s.chain.core.bookings[id], s.chain.now);
    LockOfHours(s.txs[k].ratePerHourCents, s.settings.maxBookingHours);
  }

  // And each confirmed close was charged for its own seconds at the rate its open recorded, whatever rate it carries
  // itself, with the commission the contract took down at that time.
  lemma EveryChargeIsPriced(s: System, k: TxId) returns (j: TxId)
    requires Happens(s) && k in s.txs && IsClose(s.txs[k])
    ensures j in s.txs && IsOpen(s.txs[j]) && s.txs[j].bookingId == s.txs[k].bookingId
    ensures var tx := s.txs[k];
            && tx.bookingId in s.chain.core.bookings
            && tx.usageSeconds.Some? && tx.amountUsdc.Some? && tx.commissionUsdc.Some?
            && PriceOf(s.txs[j].ratePerHourCents, s.chain.core.bookings[tx.bookingId].commissionBps,
                       tx.usageSeconds.value, tx.amountUsdc.value, tx.commissionUsdc.value)
  {
    j := CloseImpliesOpen(s, k);
    HappensIsSound(s);
    InLog(s, k);
    InLog(s, j);
    var rows, id := Rows(s.txs, s.handlers), s.txs[k].bookingId;
    assert CloseKnown(rows, s.closedBy, k) && CloseRow(rows, s.chain.core.bookings, s.closedBy, id);
    assert OpenKnown(rows, s.openedBy, j);
    assert OpenRow(rows, s.chain.core.bookings, s.openedBy, MaxSecs(s.settings), id);
    BillIsPrice(s.chain.core.bookings[id], s.txs[k].usageSeconds.value);
  }

  // ------------------------------------------------------------ one request

  // Everything a lock takes: the node, the settler's role, no pause, two addresses, a window, a new booking, arguments
  // inside their widths, and the rate for the configured hours free in the consumer's escrow.
  predicate CanLock(s: System, id: BookingId, b: BookingRow, rate: nat, rpcUp: bool) {
    && HasRails(s.settings, b)
    && var (c, consumer, hours) := (s.chain.core, b.consumerWallet.value, s.settings.maxBookingHours);
    && rpcUp && s.chain.call.None? && s.settings.settler.value in c.settlers && !c.paused
    && consumer != 0 && b.payoutWallet.value != 0 && 0 < hours && id !in c.bookings
    && rate < 0x1_0000_0000_0000_0000_0000_0000 && hours * 3600 < 0x1_0000_0000
    && Get(c.lockedOf, consumer) + rate * 10_000 * hours <= Get(c.escrow, consumer)
  }

  // Everything a charge takes: the node, the settler's role, an open booking, and a usage inside its window and at
  // most five minutes more than the time it has been open.
  predicate CanCharge(s: System, id: BookingId, usage: nat, rpcUp: bool) {
    var c := s.chain.core;
    && rpcUp && s.chain.call.None? && s.settings.settler.Some? && s.settings.settler.value in c.settlers
    && id in c.bookings && c.bookings[id].status == Status.Open
    && usage <= c.bookings[id].maxDurationSecs && usage <= s.chain.now - c.bookings[id].openedAt + 300
  }

  // The chain's answers to the two calls of a handler.
  lemma LockAnswer(s: System, id: BookingId, b: BookingRow, rate: nat, rpcUp: bool)
    requires Happens(s) && HasRails(s.settings, b)
    ensures var answer := SendOpen(s.settings, s.chain, id, b, rate, rpcUp);
            && (answer.Some? <==> CanLock(s, id, b, rate, rpcUp))
            && (answer.Some? ==>
                  && OpenTook(s.chain, answer.value, id, b, rate, MaxSecs(s.settings))
                  && answer.value.event.BookingOpened?
                  && answer.value.event.lockedAmount == rate * 10_000 * s.settings.maxBookingHours)
  {
    HappensIsSound(s);
    SendOpenIff(s, id, b, rate, rpcUp);
    if SendOpen(s.settings, s.chain, id, b, rate, rpcUp).Some? {
      OpenConfirmed(s, id, b, rate, rpcUp);
      LockOfHours(rate, s.settings.maxBookingHours);
    }
  }

  lemma ChargeAnswer(s: System, id: BookingId, usage: nat, cancelled: bool, rpcUp: bool)
    requires Happens(s) && s.settings.settler.Some?
    ensures SendClose(s.settings, s.chain, id, usage, cancelled, rpcUp).Some? <==> CanCharge(s, id, usage, rpcUp)
  {
    HappensIsSound(s);
    SendCloseIff(s, id, usage, cancelled, rpcUp);
  }

  lemma ChargePrice(s: System, id: BookingId, usage: nat, cancelled: bool, rpcUp: bool)
    requires Happens(s) && s.settings.settler.Some?
    requires SendClose(s.settings, s.chain, id, usage, cancelled, rpcUp).Some?
    ensures var r := SendClose(s.settings, s.chain, id, usage, cancelled, rpcUp).value;
            CloseTook(s.chain, r, id, usage, cancelled) && Priced(s.chain, r, id, usage)
  {
    HappensIsSound(s);
    CloseConfirmed(s, id, usage, cancelled, rpcUp);
    TookAtPrice(s.chain, SendClose(s.settings, s.chain, id, usage, cancelled, rpcUp).value, id, usage, cancelled);
  }

  // The answer charges what the booking prescribes for the usage.
  predicate Priced(w: World, r: ChainResult, id: BookingId, usage: nat) {
    && id in w.core.bookings && r.event.BookingSettled?
    && var b := w.core.bookings[id];
    PriceOf(b.ratePerHourCents, b.commissionBps, usage, r.event.cost, r.event.commission)
  }

  lemma TookAtPrice(w: World, r: ChainResult, id: BookingId, usage: nat, cancelled: bool)
    requires CloseTook(w, r, id, usage, cancelled)
    ensures Priced(w, r, id, usage)
  {
    BillIsPrice(w.core.bookings[id], usage);
  }

  // The lock's row and the chain are the answer's.
  lemma ActivatedByAnswer(s: System, h: TxId, rpcUp: bool)
    requires Known(s, h) && Applicable(s.settings, s.bookings[s.handlers[h].bookingId])
    ensures var me := s.handlers[h];
            var answer := SendOpen(s.settings, s.chain, me.bookingId, s.bookings[me.bookingId], me.rate, rpcUp);
            var s' := Activated(s, h, rpcUp);
            && Known(s', h) && (s'.handlers[h].phase.Assigning? <==> answer.Some?)
            && (answer.Some? && answer.value.event.BookingOpened? ==>
                  && s'.chain == answer.value.world
                  && h in s'.txs && s'.txs[h].amountUsdc == Some(answer.value.event.lockedAmount))
  {
  }

  lemma ChargedByAnswer(s: System, h: TxId, usage: nat, rpcUp: bool)
    requires Known(s, h) && s.settings.settler.Some?
    ensures var me := s.handlers[h];
            var answer := SendClose(s.settings, s.chain, me.bookingId, usage, me.to.Cancelled?, rpcUp);
            var s' := Publish(Charged(s, h, usage, rpcUp), h);
            && h in s'.txs && s'.txs[h].usageSeconds == Some(usage) && (s'.txs[h].confirmed <==> answer.Some?)
            && (answer.Some? && answer.value.event.BookingSettled? ==>
                  && s'.chain == answer.value.world
                  && s'.txs[h].amountUsdc == Some(answer.value.event.cost)
                  && s'.txs[h].commissionUsdc == Some(answer.value.event.commission))
  {
  }

  // After the lock, the conclusion of an activation leaves log and chain alone.
  lemma ActivationConcludes(s: System, h: TxId, rpcUp: bool)
    requires Known(s, h) && s.handlers[h].to.Active?
    ensures Concluded(s, h, rpcUp).txs == s.txs && Concluded(s, h, rpcUp).chain == s.chain
  {
    ConcludedShape(s, h, rpcUp);
  }

  lemma CloseConcludes(s: System, h: TxId, rpcUp: bool)
    requires Known(s, h) && ClosesActive(s.handlers[h]) && Applicable(s.settings, s.bookings[s.handlers[h].bookingId])
    ensures var stamped := Stamped(s, h);
            var b := Updated(s.bookings[s.handlers[h].bookingId], s.handlers[h].to, s.clock);
            && Known(stamped, h) && stamped.settings == s.settings && stamped.chain == s.chain
            && stamped.handlers[h] == s.handlers[h].(phase := stamped.handlers[h].phase)
            && Concluded(s, h, rpcUp) == Publish(Charged(stamped, h, UsageSeconds(b), rpcUp), h)
  {
    StampedShape(s, h);
  }

  // What the contract holds after a lock.
  predicate LockHeld(s: System, id: BookingId, b: BookingRow, rate: nat, s': System) {
    var (chain, chain', hours) := (s.chain.core.bookings, s'.chain.core.bookings, s.settings.maxBookingHours);
    && id in chain' && chain' == chain[id := chain'[id]]
    && b.consumerWallet == Some(chain'[id].consumer) && b.payoutWallet == Some(chain'[id].supplier)
    && chain'[id].ratePerHourCents == rate && chain'[id].lockedAmount == rate * 10_000 * hours
    && chain'[id].maxDurationSecs == hours * 3600 && chain'[id].status == Status.Open
  }

  // A request to start a pending booking that settles on chain, at any point of any interleaving and served alone, is
  // accepted exactly when everything a lock takes is there; the rate for the configured hours is then locked, and
  // logged.
  lemma StartOutcome(s: System, h: TxId, user: UserId, id: BookingId, rate: nat, rpcUp: bool)
    requires Happens(s) && h !in s.handlers && h !in s.txs && id in s.bookings
    requires user == s.bookings[id].consumerUser || user == s.bookings[id].supplierUser
    requires s.bookings[id].status == Pending && HasRails(s.settings, s.bookings[id])
    ensures var (r, s') := Transitioned(s, h, user, id, Active, rate, rpcUp);
            && r == (if CanLock(s, id, s.bookings[id], rate, rpcUp) then Accepted else PaymentRequired)
            && (r == Accepted ==>
                  && LockHeld(s, id, s.bookings[id], rate, s')
                  && h in s'.txs && s'.txs[h].amountUsdc == Some(rate * 10_000 * s.settings.maxBookingHours))
  {
    var first := Requested(s, h, id, Active, rate);
    TransitionPath(s, h, user, id, Active, rate, rpcUp);
    ActivatedByAnswer(first, h, rpcUp);
    LockAnswer(s, id, s.bookings[id], rate, rpcUp);
    ActivationConcludes(Activated(first, h, rpcUp), h, rpcUp);
  }

  // What the contract keeps of the booking after a charge.
  predicate ChargeTook(s: System, id: BookingId, to: BookingStatus, s': System) {
    var (chain, status) := (s.chain.core.bookings, if to == Completed then Settled else Status.Cancelled);
    id in chain && s'.chain.core.bookings == chain[id := chain[id].(status := status)]
  }

  // A request to close an active booking that settles on chain is accepted, and its charge, for the whole seconds from
  // the start of the booking to the present, is confirmed exactly when everything a charge takes is there; what is
  // logged is then the price of those seconds under the terms the contract took down when it was opened.
  lemma CloseOutcome(s: System, h: TxId, user: UserId, id: BookingId, to: BookingStatus, rate: nat, rpcUp: bool)
    requires Happens(s) && h !in s.handlers && h !in s.txs && id in s.bookings
    requires user == s.bookings[id].consumerUser || user == s.bookings[id].supplierUser
    requires s.bookings[id].status == Active && (to == Completed || to == BookingStatus.Cancelled)
    requires HasRails(s.settings, s.bookings[id])
    ensures var (r, s') := Transitioned(s, h, user, id, to, rate, rpcUp);
            && r == Accepted && h in s'.txs && s'.txs[h].usageSeconds.Some?
            && var (tx, usage) := (s'.txs[h], s'.txs[h].usageSeconds.value);
            && UsageBetween(s.bookings[id].startedAt, Some(s.clock), usage)
            && (tx.confirmed <==> CanCharge(s, id, usage, rpcUp))
            && (tx.confirmed ==>
                  && ChargeTook(s, id, to, s') && tx.amountUsdc.Some? && tx.commissionUsdc.Some?
                  && var b := s.chain.core.bookings[id];
                  PriceOf(b.ratePerHourCents, b.commissionBps, usage, tx.amountUsdc.value, tx.commissionUsdc.value))
  {
    var first := Requested(s, h, id, to, rate);
    var usage := UsageSeconds(Updated(s.bookings[id], to, s.clock));
    UsageIsWholeSeconds(Updated(s.bookings[id], to, s.clock));
    TransitionPath(s, h, user, id, to, rate, rpcUp);
    CloseConcludes(first, h, rpcUp);
    ChargedByAnswer(Stamped(first, h), h, usage, rpcUp);
    ChargeAnswer(s, id, usage, to.Cancelled?, rpcUp);
    if SendClose(s.settings, s.chain, id, usage, to.Cancelled?, rpcUp).Some? {
      ChargePrice(s, id, usage, to.Cancelled?, rpcUp);
    }
  }
}
