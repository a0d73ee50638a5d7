// What every step of the contract keeps: the global invariants the header of ClawEscrow.sol announces, in every
// control state, including inside a token transfer.
module EscrowInvariant {
  import opened Wrappers
  import opened MapSums
  import opened EscrowMath
  import opened Escrow

  // ------------------------------------------------------------ sums over the event log

  // A running total an indexer can compute from the emitted events alone.
  datatype Column =
    | DepositedBy(account: Address)
    | WithdrawnBy(account: Address)
    | ChargedTo(account: Address)
    | EarnedBy(account: Address)
    | ClaimedBy(account: Address)
    | SentBy(account: Address)
    | ReceivedBy(account: Address)
    | Volume
    | Commission
    | SupplierPay
    | OpensOf(id: BookingId)
    | ClosesOf(id: BookingId)

  function If(b: bool, n: nat): nat {
    if b then n else 0
  }

  function Monus(a: nat, b: nat): nat {
    if b <= a then a - b else 0
  }

  // What one event adds to a column while the given treasury is in office.
  function Weight(e: Event, treasury: Address, col: Column): nat {
    match e
    case Deposited(a, n) => If(col == DepositedBy(a), n)
    case Withdrawn(a, n) => If(col == WithdrawnBy(a), n)
    case Claimed(a, n) => If(col == ClaimedBy(a), n)
    case BookingOpened(id, _, _, _, _, _, _) => If(col == OpensOf(id), 1)
    case BookingSettled(id, consumer, supplier, _, cost, commission, _) =>
      (match col
       case ChargedTo(a) => If(a == consumer, cost)
       case EarnedBy(a) => If(a == supplier, Monus(cost, commission)) + If(a == treasury, commission)
       case Volume => cost
       case Commission => commission
       case SupplierPay => Monus(cost, commission)
       case ClosesOf(i) => If(i == id, 1)
       case _ => 0)
    case CommissionUpdated(_) => 0
    case TreasuryUpdated(_) => 0
    case Paused(_) => 0
    case Unpaused(_) => 0
    case Transferred(payer, payee, n) => If(col == SentBy(payer), n) + If(col == ReceivedBy(payee), n)
  }

  function TreasuryAt(log: EventLog, first: Address): Address {
    match log
    case NoEvents => first
    case Emit(past, e) => if e.TreasuryUpdated? then e.treasury else TreasuryAt(past, first)
  }

  function Tally(log: EventLog, first: Address, col: Column): nat {
    match log
    case NoEvents => 0
    case Emit(past, e) => Tally(past, first, col) + Weight(e, TreasuryAt(past, first), col)
  }

  predicate Emitted(log: EventLog, e: Event) {
    match log
    case NoEvents => false
    case Emit(past, newest) => newest == e || Emitted(past, e)
  }

  // ------------------------------------------------------------ the invariants

  function OpenLocks(bookings: map<BookingId, Booking>, consumer: Address): map<BookingId, nat> {
    map id | id in bookings && bookings[id].status.Open? && bookings[id].consumer == consumer ::
      bookings[id].lockedAmount
  }

  function AllOpenLocks(bookings: map<BookingId, Booking>): map<BookingId, nat> {
    map id | id in bookings && bookings[id].status.Open? :: bookings[id].lockedAmount
  }

  // Each consumer's lock is the sum over the open bookings, and never more than the escrow.
  ghost predicate LocksAgree(bookings: map<BookingId, Booking>, lockedOf: map<Address, nat>,
                             escrow: map<Address, nat>)
  {
    && (forall a: Address :: LockAgrees(bookings, lockedOf, escrow, a))
    && Sum(lockedOf) == Sum(AllOpenLocks(bookings))
  }

  ghost predicate LockAgrees(bookings: map<BookingId, Booking>, lockedOf: map<Address, nat>,
                             escrow: map<Address, nat>, a: Address)
  {
    Get(lockedOf, a) == Sum(OpenLocks(bookings, a)) <= Get(escrow, a)
  }

  ghost predicate TermsSound(bookings: map<BookingId, Booking>, now: nat) {
    forall id | id in bookings :: BookingSound(bookings[id], now)
  }

  predicate BookingSound(b: Booking, now: nat) {
    && b.status != Unset
    && b.consumer != ZERO_ADDRESS
    && b.supplier != ZERO_ADDRESS
    && b.maxDurationSecs > 0
    && b.lockedAmount == LockFor(b.ratePerHourCents, b.maxDurationSecs)
    && b.commissionBps <= MAX_COMMISSION_BPS
    && b.openedAt <= now
  }

  // The amount a call in flight has booked but not yet moved: positive when the contract is about to receive.
  function InFlight(call: Option<Call>): int {
    if call.None? || call.value.moved then 0
    else if call.value.kind.DepositCall? then call.value.amount
    else 0 - call.value.amount as int
  }

  ghost predicate Solvent(balance: nat, call: Option<Call>, escrow: map<Address, nat>, claimable: map<Address, nat>) {
    balance + InFlight(call) == Sum(escrow) + Sum(claimable)
  }

  // The amount of a call in flight whose event is not emitted yet.
  function Pending(call: Option<Call>, kind: Kind, a: Address): nat {
    if call.Some? && call.value.kind == kind && call.value.who == a then call.value.amount else 0
  }

  // What an account deposited is what it still has, withdrew, or was charged for closed bookings.
  ghost predicate EscrowConserved(log: EventLog, first: Address, call: Option<Call>, escrow: map<Address, nat>) {
    forall a: Address :: EscrowBalances(log, first, call, escrow, a)
  }

  predicate EscrowBalances(log: EventLog, first: Address, call: Option<Call>, escrow: map<Address, nat>, a: Address) {
    Tally(log, first, DepositedBy(a)) + Pending(call, DepositCall, a) ==
    Get(escrow, a) + Tally(log, first, WithdrawnBy(a)) + Pending(call, WithdrawCall, a)
    + Tally(log, first, ChargedTo(a))
  }

  // What an account earned is what it can still claim or has claimed.
  ghost predicate EarningsConserved(log: EventLog, first: Address, call: Option<Call>,
                                    claimable: map<Address, nat>)
  {
    forall a: Address :: EarningsBalance(log, first, call, claimable, a)
  }

  predicate EarningsBalance(log: EventLog, first: Address, call: Option<Call>, claimable: map<Address, nat>,
                            a: Address)
  {
    Tally(log, first, EarnedBy(a)) ==
    Get(claimable, a) + Tally(log, first, ClaimedBy(a)) + Pending(call, ClaimCall, a)
  }

  predicate Closed(bookings: map<BookingId, Booking>, id: BookingId) {
    id in bookings && !bookings[id].status.Open?
  }

  // Each booking was opened once and closed at most once.
  ghost predicate CountsAgree(log: EventLog, first: Address, bookings: map<BookingId, Booking>) {
    forall id :: CountAgrees(log, first, bookings, id)
  }

  predicate CountAgrees(log: EventLog, first: Address, bookings: map<BookingId, Booking>, id: BookingId) {
    && Tally(log, first, OpensOf(id)) == If(id in bookings, 1)
    && Tally(log, first, ClosesOf(id)) == If(Closed(bookings, id), 1)
  }

  // Every event agrees with the terms and the status of the booking it names.
  ghost predicate EventsAgree(log: EventLog, bookings: map<BookingId, Booking>) {
    forall e :: Emitted(log, e) ==> EventAgrees(bookings, e)
  }

  predicate EventAgrees(bookings: map<BookingId, Booking>, e: Event) {
    match e
    case BookingOpened(id, consumer, supplier, rate, maxSecs, lock, bps) =>
      id in bookings &&
      var b := bookings[id];
      b.consumer == consumer && b.supplier == supplier && b.ratePerHourCents == rate &&
      b.maxDurationSecs == maxSecs && b.lockedAmount == lock && b.commissionBps == bps
    case BookingSettled(id, consumer, supplier, usage, cost, commission, cancelled) =>
      id in bookings &&
      var b := bookings[id];
      b.consumer == consumer && b.supplier == supplier && usage <= b.maxDurationSecs &&
      b.status == (if cancelled then Cancelled else Settled) &&
      cost == Cost(b.ratePerHourCents, usage) && commission == CommissionOn(cost, b.commissionBps)
    case _ => true
  }

  // Accounts nobody can act for never hold escrow, and the zero address never earns.
  predicate NothingStranded(escrow: map<Address, nat>, claimable: map<Address, nat>, self: Address) {
    Get(escrow, ZERO_ADDRESS) == 0 && Get(escrow, self) == 0 && Get(claimable, ZERO_ADDRESS) == 0
  }

  // The guard is up exactly during a call, and the caller is neither the zero address nor the contract.
  predicate GuardAgrees(entered: bool, call: Option<Call>, self: Address) {
    && entered == call.Some?
    && (call.Some? ==> call.value.who != ZERO_ADDRESS && call.value.who != self)
  }

  // The clock and the token supply fit their machine integers.
  ghost predicate FitsMachine(usdc: map<Address, nat>, now: nat) {
    now + SETTLE_GRACE_SECS < UINT256_LIMIT && Sum(usdc) < UINT256_LIMIT
  }

  // The amounts.
  ghost predicate MoneySound(bookings: map<BookingId, Booking>, lockedOf: map<Address, nat>, escrow: map<Address, nat>,
                             claimable: map<Address, nat>, balance: nat, self: Address, log: EventLog,
                             first: Address, treasury: Address, call: Option<Call>)
  {
    && LocksAgree(bookings, lockedOf, escrow)
    && Solvent(balance, call, escrow, claimable)
    && EscrowConserved(log, first, call, escrow)
    && EarningsConserved(log, first, call, claimable)
    && NothingStranded(escrow, claimable, self)
    && treasury == TreasuryAt(log, first) != ZERO_ADDRESS
  }

  ghost predicate Money(c: Core, call: Option<Call>) {
    MoneySound(c.bookings, c.lockedOf, c.escrow, c.claimable, Get(c.usdc, c.self), c.self, c.log, c.initialTreasury,
               c.treasury, call)
  }

  // The bookings and their events.
  ghost predicate BookingsSound(bookings: map<BookingId, Booking>, log: EventLog, first: Address, now: nat) {
    && TermsSound(bookings, now)
    && CountsAgree(log, first, bookings)
    && EventsAgree(log, bookings)
  }

  ghost predicate Sound(c: Core, now: nat, call: Option<Call>) {
    && Money(c, call)
    && BookingsSound(c.bookings, c.log, c.initialTreasury, now)
    && c.commissionBps <= MAX_COMMISSION_BPS
    && GuardAgrees(c.entered, call, c.self)
    && FitsMachine(c.usdc, now)
  }

  ghost predicate Inv(w: World) {
    && Sound(w.core, w.now, w.call)
    && Sound(w.committed, w.now, None)
    && (w.call.None? ==> w.core == w.committed)
    && w.core.self == w.committed.self
  }

  // ------------------------------------------------------------ open

  lemma SumAfterOpen(bookings: map<BookingId, Booking>, id: BookingId, b: Booking, a: Address)
    requires id !in bookings && b.status.Open?
    ensures Sum(OpenLocks(bookings[id := b], a)) == Sum(OpenLocks(bookings, a)) + If(a == b.consumer, b.lockedAmount)
  {
    var locks := OpenLocks(bookings, a);
    if a == b.consumer {
      assert OpenLocks(bookings[id := b], a) == locks[id := b.lockedAmount];
      SumUpdate(locks, id, b.lockedAmount);
    } else {
      assert OpenLocks(bookings[id := b], a) == locks;
    }
  }

  lemma SumAllAfterOpen(bookings: map<BookingId, Booking>, id: BookingId, b: Booking)
    requires id !in bookings && b.status.Open?
    ensures Sum(AllOpenLocks(bookings[id := b])) == Sum(AllOpenLocks(bookings)) + b.lockedAmount
  {
    assert AllOpenLocks(bookings[id := b]) == AllOpenLocks(bookings)[id := b.lockedAmount];
    SumUpdate(AllOpenLocks(bookings), id, b.lockedAmount);
  }

  lemma LocksAfterOpen(bookings: map<BookingId, Booking>, lockedOf: map<Address, nat>, escrow: map<Address, nat>,
                       id: BookingId, b: Booking)
    requires LocksAgree(bookings, lockedOf, escrow) && id !in bookings && b.status.Open?
    requires Get(lockedOf, b.consumer) + b.lockedAmount <= Get(escrow, b.consumer)
    ensures LocksAgree(bookings[id := b],
                       lockedOf[b.consumer := Get(lockedOf, b.consumer) + b.lockedAmount], escrow)
  {
    var bookings' := bookings[id := b];
    var lockedOf' := lockedOf[b.consumer := Get(lockedOf, b.consumer) + b.lockedAmount];
    forall a: Address ensures LockAgrees(bookings', lockedOf', escrow, a) {
      assert LockAgrees(bookings, lockedOf, escrow, a);
      SumAfterOpen(bookings, id, b, a);
    }
    SumAllAfterOpen(bookings, id, b);
    SumUpdate(lockedOf, b.consumer, Get(lockedOf, b.consumer) + b.lockedAmount);
  }

  function OpenEvent(id: BookingId, b: Booking): Event {
    BookingOpened(id, b.consumer, b.supplier, b.ratePerHourCents, b.maxDurationSecs, b.lockedAmount,
                  b.commissionBps)
  }

  // An event that moves none of the contract's money leaves those columns alone.
  predicate Quiet(e: Event) {
    e.BookingOpened? || e.CommissionUpdated? || e.TreasuryUpdated? || e.Paused? || e.Unpaused? || e.Transferred?
  }

  lemma QuietTally(log: EventLog, first: Address, e: Event, col: Column)
    requires Quiet(e) && !col.OpensOf? && !col.ClosesOf? && !col.SentBy? && !col.ReceivedBy?
    ensures Tally(Emit(log, e), first, col) == Tally(log, first, col)
    ensures TreasuryAt(Emit(log, e), first) == if e.TreasuryUpdated? then e.treasury else TreasuryAt(log, first)
  {
  }

  lemma QuietEvent(log: EventLog, first: Address, call: Option<Call>, e: Event, escrow: map<Address, nat>,
                   claimable: map<Address, nat>)
    requires Quiet(e)
    requires EscrowConserved(log, first, call, escrow) && EarningsConserved(log, first, call, claimable)
    ensures EscrowConserved(Emit(log, e), first, call, escrow)
    ensures EarningsConserved(Emit(log, e), first, call, claimable)
    ensures TreasuryAt(Emit(log, e), first) == if e.TreasuryUpdated? then e.treasury else TreasuryAt(log, first)
  {
    forall a: Address
      ensures EscrowBalances(Emit(log, e), first, call, escrow, a)
      ensures EarningsBalance(Emit(log, e), first, call, claimable, a)
    {
      assert EscrowBalances(log, first, call, escrow, a) && EarningsBalance(log, first, call, claimable, a);
      QuietTally(log, first, e, DepositedBy(a));
      QuietTally(log, first, e, WithdrawnBy(a));
      QuietTally(log, first, e, ChargedTo(a));
      QuietTally(log, first, e, EarnedBy(a));
      QuietTally(log, first, e, ClaimedBy(a));
    }
  }

  lemma CountsAfterOpen(log: EventLog, first: Address, bookings: map<BookingId, Booking>, id: BookingId, b: Booking)
    requires CountsAgree(log, first, bookings) && EventsAgree(log, bookings)
    requires id !in bookings && b.status.Open?
    ensures CountsAgree(Emit(log, OpenEvent(id, b)), first, bookings[id := b])
    ensures EventsAgree(Emit(log, OpenEvent(id, b)), bookings[id := b])
  {
    var bookings' := bookings[id := b];
    var log' := Emit(log, OpenEvent(id, b));
    forall i ensures CountAgrees(log', first, bookings', i) {
      assert CountAgrees(log, first, bookings, i);
    }
    forall e | Emitted(log, e) ensures EventAgrees(bookings', e) {
      assert EventAgrees(bookings, e);
    }
  }

  // What a successful openBooking writes.
  lemma OpenWrites(c: Core, now: nat, sender: Address, id: BookingId, consumer: Address, supplier: Address,
                   rate: uint96, maxSecs: uint32)
    requires forall i | i in c.bookings :: c.bookings[i].status != Unset
    requires OpenBooking(c, now, sender, id, consumer, supplier, rate, maxSecs).Ok?
    ensures var b := Booking(consumer, supplier, rate, LockFor(rate, maxSecs), now % UINT64_LIMIT, maxSecs,
                             c.commissionBps, Status.Open);
            && id !in c.bookings && maxSecs > 0 && consumer != ZERO_ADDRESS && supplier != ZERO_ADDRESS
            && b.openedAt <= now
            && Get(c.lockedOf, consumer) + b.lockedAmount <= Get(c.escrow, consumer)
            && OpenBooking(c, now, sender, id, consumer, supplier, rate, maxSecs).value
               == c.(lockedOf := c.lockedOf[consumer := Get(c.lockedOf, consumer) + b.lockedAmount],
                     bookings := c.bookings[id := b], log := Emit(c.log, OpenEvent(id, b)))
  {
  }

  lemma MoneyAfterOpen(bookings: map<BookingId, Booking>, lockedOf: map<Address, nat>, escrow: map<Address, nat>,
                       claimable: map<Address, nat>, balance: nat, self: Address, log: EventLog, first: Address,
                       treasury: Address, call: Option<Call>, id: BookingId, b: Booking)
    requires MoneySound(bookings, lockedOf, escrow, claimable, balance, self, log, first, treasury, call)
    requires id !in bookings && b.status.Open? && Get(lockedOf, b.consumer) + b.lockedAmount <= Get(escrow, b.consumer)
    ensures MoneySound(bookings[id := b], lockedOf[b.consumer := Get(lockedOf, b.consumer) + b.lockedAmount], escrow,
                       claimable, balance, self, Emit(log, OpenEvent(id, b)), first, treasury, call)
  {
    LocksAfterOpen(bookings, lockedOf, escrow, id, b);
    QuietEvent(log, first, call, OpenEvent(id, b), escrow, claimable);
  }

  lemma OpenedKeepsSound(c: Core, now: nat, call: Option<Call>, id: BookingId, b: Booking)
    requires Sound(c, now, call) && id !in c.bookings && b.status.Open? && BookingSound(b, now)
    requires Get(c.lockedOf, b.consumer) + b.lockedAmount <= Get(c.escrow, b.consumer)
    ensures Sound(c.(lockedOf := c.lockedOf[b.consumer := Get(c.lockedOf, b.consumer) + b.lockedAmount],
                     bookings := c.bookings[id := b], log := Emit(c.log, OpenEvent(id, b))), now, call)
  {
    MoneyAfterOpen(c.bookings, c.lockedOf, c.escrow, c.claimable, Get(c.usdc, c.self), c.self, c.log,
                   c.initialTreasury, c.treasury, call, id, b);
    CountsAfterOpen(c.log, c.initialTreasury, c.bookings, id, b);
  }

  lemma OpenKeepsSound(c: Core, now: nat, call: Option<Call>, sender: Address, id: BookingId, consumer: Address,
                       supplier: Address, rate: uint96, maxSecs: uint32)
    requires Sound(c, now, call)
    requires OpenBooking(c, now, sender, id, consumer, supplier, rate, maxSecs).Ok?
    ensures Sound(OpenBooking(c, now, sender, id, consumer, supplier, rate, maxSecs).value, now, call)
  {
    OpenWrites(c, now, sender, id, consumer, supplier, rate, maxSecs);
    OpenedKeepsSound(c, now, call, id,
                     OpenBooking(c, now, sender, id, consumer, supplier, rate, maxSecs).value.bookings[id]);
  }

  // ------------------------------------------------------------ settle and cancel

  // On the close path the clamp never fires and the bill is what the terms say.
  lemma BillIsExact(c: Core, now: nat, id: BookingId, usage: nat)
    requires TermsSound(c.bookings, now) && MakeBill(c, now, id, usage).Ok?
    ensures id in c.bookings && c.bookings[id].status.Open?
    ensures var b := c.bookings[id];
            var bill := MakeBill(c, now, id, usage).value;
            usage <= b.maxDurationSecs && bill == BillFor(b, usage) && bill.commission <= bill.cost <= b.lockedAmount
  {
    var b := c.bookings[id];
    CostWithinLock(b.ratePerHourCents, usage, b.maxDurationSecs);
    CommissionBounds(Cost(b.ratePerHourCents, usage), b.commissionBps);
  }

  lemma SumAfterClose(bookings: map<BookingId, Booking>, id: BookingId, b: Booking, a: Address)
    requires id in bookings && bookings[id].status.Open? && !b.status.Open?
    ensures Sum(OpenLocks(bookings, a))
         == Sum(OpenLocks(bookings[id := b], a)) + If(a == bookings[id].consumer, bookings[id].lockedAmount)
  {
    var locks := OpenLocks(bookings, a);
    assert OpenLocks(bookings[id := b], a) == locks - {id};
    if a == bookings[id].consumer {
      SumRemove(locks, id);
    } else {
      assert locks - {id} == locks;
    }
  }

  lemma SumAllAfterClose(bookings: map<BookingId, Booking>, id: BookingId, b: Booking)
    requires id in bookings && bookings[id].status.Open? && !b.status.Open?
    ensures Sum(AllOpenLocks(bookings)) == Sum(AllOpenLocks(bookings[id := b])) + bookings[id].lockedAmount
  {
    assert AllOpenLocks(bookings[id := b]) == AllOpenLocks(bookings) - {id};
    SumRemove(AllOpenLocks(bookings), id);
  }

  lemma LocksAfterClose(bookings: map<BookingId, Booking>, lockedOf: map<Address, nat>, escrow: map<Address, nat>,
                        id: BookingId, b: Booking, cost: nat)
    requires LocksAgree(bookings, lockedOf, escrow)
    requires id in bookings && bookings[id].status.Open? && !b.status.Open?
    requires cost <= bookings[id].lockedAmount
    ensures var consumer := bookings[id].consumer;
            && cost <= bookings[id].lockedAmount <= Get(lockedOf, consumer) <= Get(escrow, consumer)
            && LocksAgree(bookings[id := b], lockedOf[consumer := Get(lockedOf, consumer) - bookings[id].lockedAmount],
                          escrow[consumer := Get(escrow, consumer) - cost])
  {
    var consumer := bookings[id].consumer;
    assert LockAgrees(bookings, lockedOf, escrow, consumer);
    SumAfterClose(bookings, id, b, consumer);
    var bookings' := bookings[id := b];
    var lockedOf' := lockedOf[consumer := Get(lockedOf, consumer) - bookings[id].lockedAmount];
    var escrow' := escrow[consumer := Get(escrow, consumer) - cost];
    forall a: Address ensures LockAgrees(bookings', lockedOf', escrow', a) {
      assert LockAgrees(bookings, lockedOf, escrow, a);
      SumAfterClose(bookings, id, b, a);
    }
    SumAllAfterClose(bookings, id, b);
    SumUpdate(lockedOf, consumer, Get(lockedOf, consumer) - bookings[id].lockedAmount);
  }

  // The claimable balances after a close: supplier first, then treasury.
  function Credited(claimable: map<Address, nat>, supplier: Address, treasury: Address, bill: Bill): map<Address, nat>
    requires bill.commission <= bill.cost
  {
    var paid := claimable[supplier := Get(claimable, supplier) + (bill.cost - bill.commission)];
    if bill.commission > 0 then paid[treasury := Get(paid, treasury) + bill.commission] else paid
  }

  lemma CreditedAdds(claimable: map<Address, nat>, supplier: Address, treasury: Address, bill: Bill)
    requires bill.commission <= bill.cost
    ensures Sum(Credited(claimable, supplier, treasury, bill)) == Sum(claimable) + bill.cost
    ensures forall a: Address ::
              Get(Credited(claimable, supplier, treasury, bill), a) ==
              Get(claimable, a) + If(a == supplier, bill.cost - bill.commission) + If(a == treasury, bill.commission)
  {
    var paid := claimable[supplier := Get(claimable, supplier) + (bill.cost - bill.commission)];
    SumUpdate(claimable, supplier, Get(claimable, supplier) + (bill.cost - bill.commission));
    SumUpdate(paid, treasury, Get(paid, treasury) + bill.commission);
  }

  function CloseEvent(id: BookingId, b: Booking, usage: nat, bill: Bill, cancelled: bool): Event {
    BookingSettled(id, b.consumer, b.supplier, usage, bill.cost, bill.commission, cancelled)
  }

  // What a close writes, field by field: c' is c with booking id closed for the given bill.
  predicate Closes(c: Core, c': Core, id: BookingId, usage: nat, bill: Bill, cancelled: bool) {
    && id in c.bookings
    && var b := c.bookings[id];
    && bill.commission <= bill.cost <= b.lockedAmount <= Get(c.lockedOf, b.consumer)
    && bill.cost <= Get(c.escrow, b.consumer)
    && c'.bookings == c.bookings[id := b.(status := if cancelled then Cancelled else Settled)]
    && c'.lockedOf == c.lockedOf[b.consumer := Get(c.lockedOf, b.consumer) - b.lockedAmount]
    && c'.escrow == c.escrow[b.consumer := Get(c.escrow, b.consumer) - bill.cost]
    && c'.claimable == Credited(c.claimable, b.supplier, c.treasury, bill)
    && c'.log == Emit(c.log, CloseEvent(id, b, usage, bill, cancelled))
    && c'.usdc == c.usdc
    && SameOffice(c, c')
  }

  predicate SameOffice(c: Core, c': Core) {
    && c'.self == c.self && c'.settlers == c.settlers && c'.admins == c.admins
    && c'.initialTreasury == c.initialTreasury && c'.treasury == c.treasury
    && c'.commissionBps == c.commissionBps && c'.paused == c.paused && c'.entered == c.entered
  }

  lemma CreditWrites(c: Core, supplier: Address, bill: Bill)
    requires Credit(c, supplier, bill).Ok?
    ensures bill.commission <= bill.cost
    ensures Credit(c, supplier, bill).value == Credited(c.claimable, supplier, c.treasury, bill)
  {
  }

  // A successful settleBooking or cancelBooking charges exactly what the terms say and writes nothing else.
  lemma CloseWrites(c: Core, now: nat, sender: Address, id: BookingId, usage: nat, cancelled: bool)
    requires TermsSound(c.bookings, now)
    requires Close(c, now, sender, id, usage, cancelled).Ok?
    ensures id in c.bookings && c.bookings[id].status.Open? && usage <= c.bookings[id].maxDurationSecs
    ensures Closes(c, Close(c, now, sender, id, usage, cancelled).value, id, usage,
                   BillFor(c.bookings[id], usage), cancelled)
  {
    BillIsExact(c, now, id, usage);
    CreditWrites(c, c.bookings[id].supplier, BillFor(c.bookings[id], usage));
  }

  // The bill the terms of a booking prescribe.
  function BillFor(b: Booking, usage: nat): Bill {
    var cost := Cost(b.ratePerHourCents, usage);
    Bill(cost, CommissionOn(cost, b.commissionBps))
  }

  lemma EscrowAfterClose(log: EventLog, first: Address, call: Option<Call>, escrow: map<Address, nat>, e: Event)
    requires EscrowConserved(log, first, call, escrow)
    requires e.BookingSettled? && e.cost <= Get(escrow, e.consumer)
    ensures EscrowConserved(Emit(log, e), first, call, escrow[e.consumer := Get(escrow, e.consumer) - e.cost])
  {
    var escrow' := escrow[e.consumer := Get(escrow, e.consumer) - e.cost];
    forall a: Address ensures EscrowBalances(Emit(log, e), first, call, escrow', a) {
      assert EscrowBalances(log, first, call, escrow, a);
    }
  }

  lemma EarningsAfterClose(log: EventLog, first: Address, call: Option<Call>, claimable: map<Address, nat>, e: Event)
    requires EarningsConserved(log, first, call, claimable)
    requires e.BookingSettled? && e.commission <= e.cost
    ensures EarningsConserved(Emit(log, e), first, call,
                              Credited(claimable, e.supplier, TreasuryAt(log, first), Bill(e.cost, e.commission)))
  {
    var bill := Bill(e.cost, e.commission);
    var treasury := TreasuryAt(log, first);
    CreditedAdds(claimable, e.supplier, treasury, bill);
    forall a: Address
      ensures EarningsBalance(Emit(log, e), first, call, Credited(claimable, e.supplier, treasury, bill), a)
    {
      assert EarningsBalance(log, first, call, claimable, a);
    }
  }

  lemma SolventAfterClose(balance: nat, call: Option<Call>, escrow: map<Address, nat>, claimable: map<Address, nat>,
                          consumer: Address, supplier: Address, treasury: Address, bill: Bill)
    requires Solvent(balance, call, escrow, claimable)
    requires bill.commission <= bill.cost <= Get(escrow, consumer)
    ensures Solvent(balance, call, escrow[consumer := Get(escrow, consumer) - bill.cost],
                    Credited(claimable, supplier, treasury, bill))
  {
    CreditedAdds(claimable, supplier, treasury, bill);
    SumUpdate(escrow, consumer, Get(escrow, consumer) - bill.cost);
  }

  // An event in the log counts at least once in its column.
  lemma {:induction false} TallyCounts(log: EventLog, first: Address, e: Event)
    requires Emitted(log, e)
    ensures e.BookingSettled? ==> Tally(log, first, ClosesOf(e.bookingId)) > 0
    ensures e.BookingOpened? ==> Tally(log, first, OpensOf(e.bookingId)) > 0
  {
    if e != log.event {
      TallyCounts(log.past, first, e);
    }
  }

  lemma CountsAfterClose(log: EventLog, first: Address, bookings: map<BookingId, Booking>, id: BookingId, usage: nat,
                         cancelled: bool)
    requires CountsAgree(log, first, bookings) && EventsAgree(log, bookings)
    requires id in bookings && bookings[id].status.Open? && usage <= bookings[id].maxDurationSecs
    ensures var b := bookings[id];
            var log' := Emit(log, CloseEvent(id, b, usage, BillFor(b, usage), cancelled));
            var bookings' := bookings[id := b.(status := if cancelled then Cancelled else Settled)];
            CountsAgree(log', first, bookings') && EventsAgree(log', bookings')
  {
    var b := bookings[id];
    var bookings' := bookings[id := b.(status := if cancelled then Cancelled else Settled)];
    var log' := Emit(log, CloseEvent(id, b, usage, BillFor(b, usage), cancelled));
    forall i ensures CountAgrees(log', first, bookings', i) {
      assert CountAgrees(log, first, bookings, i);
    }
    forall e | Emitted(log, e) ensures EventAgrees(bookings', e) {
      assert EventAgrees(bookings, e);
      if e.BookingSettled? && e.bookingId == id {
        assert CountAgrees(log, first, bookings, id);
        TallyCounts(log, first, e);
      }
    }
  }

  lemma StrandedAfterClose(escrow: map<Address, nat>, claimable: map<Address, nat>, self: Address, consumer: Address,
                           supplier: Address, treasury: Address, bill: Bill)
    requires NothingStranded(escrow, claimable, self) && supplier != ZERO_ADDRESS && treasury != ZERO_ADDRESS
    requires bill.commission <= bill.cost <= Get(escrow, consumer)
    ensures NothingStranded(escrow[consumer := Get(escrow, consumer) - bill.cost],
                            Credited(claimable, supplier, treasury, bill), self)
  {
  }

  lemma MoneyAfterClose(bookings: map<BookingId, Booking>, lockedOf: map<Address, nat>, escrow: map<Address, nat>,
                        claimable: map<Address, nat>, balance: nat, self: Address, log: EventLog, first: Address,
                        treasury: Address, call: Option<Call>, id: BookingId, b: Booking, e: Event)
    requires MoneySound(bookings, lockedOf, escrow, claimable, balance, self, log, first, treasury, call)
    requires id in bookings && bookings[id].status.Open? && !b.status.Open? && bookings[id].supplier != ZERO_ADDRESS
    requires e.BookingSettled? && e.consumer == bookings[id].consumer && e.supplier == bookings[id].supplier
    requires e.commission <= e.cost <= bookings[id].lockedAmount <= Get(lockedOf, e.consumer)
    requires e.cost <= Get(escrow, e.consumer)
    ensures MoneySound(bookings[id := b],
                       lockedOf[e.consumer := Get(lockedOf, e.consumer) - bookings[id].lockedAmount],
                       escrow[e.consumer := Get(escrow, e.consumer) - e.cost],
                       Credited(claimable, e.supplier, treasury, Bill(e.cost, e.commission)),
                       balance, self, Emit(log, e), first, treasury, call)
  {
    var bill := Bill(e.cost, e.commission);
    LocksAfterClose(bookings, lockedOf, escrow, id, b, e.cost);
    StrandedAfterClose(escrow, claimable, self, e.consumer, e.supplier, treasury, bill);
    EscrowAfterClose(log, first, call, escrow, e);
    EarningsAfterClose(log, first, call, claimable, e);
    SolventAfterClose(balance, call, escrow, claimable, e.consumer, e.supplier, treasury, bill);
  }

  lemma MoneyOfClose(c: Core, c': Core, call: Option<Call>, id: BookingId, usage: nat, bill: Bill, cancelled: bool)
    requires Money(c, call)
    requires id in c.bookings && c.bookings[id].status.Open? && c.bookings[id].supplier != ZERO_ADDRESS
    requires Closes(c, c', id, usage, bill, cancelled)
    ensures Money(c', call)
  {
    var b := c.bookings[id];
    MoneyAfterClose(c.bookings, c.lockedOf, c.escrow, c.claimable, Get(c.usdc, c.self), c.self, c.log,
                    c.initialTreasury, c.treasury, call, id, b.(status := if cancelled then Cancelled else Settled),
                    CloseEvent(id, b, usage, bill, cancelled));
  }

  lemma BookingsOfClose(c: Core, c': Core, now: nat, id: BookingId, usage: nat, cancelled: bool)
    requires BookingsSound(c.bookings, c.log, c.initialTreasury, now)
    requires id in c.bookings && c.bookings[id].status.Open? && usage <= c.bookings[id].maxDurationSecs
    requires Closes(c, c', id, usage, BillFor(c.bookings[id], usage), cancelled)
    ensures BookingsSound(c'.bookings, c'.log, c'.initialTreasury, now)
  {
    CountsAfterClose(c.log, c.initialTreasury, c.bookings, id, usage, cancelled);
  }

  lemma CloseKeepsSound(c: Core, now: nat, call: Option<Call>, sender: Address, id: BookingId, usage: nat,
                        cancelled: bool)
    requires Sound(c, now, call)
    requires Close(c, now, sender, id, usage, cancelled).Ok?
    ensures Sound(Close(c, now, sender, id, usage, cancelled).value, now, call)
  {
    CloseWrites(c, now, sender, id, usage, cancelled);
    var c' := Close(c, now, sender, id, usage, cancelled).value;
    MoneyOfClose(c, c', call, id, usage, BillFor(c.bookings[id], usage), cancelled);
    BookingsOfClose(c, c', now, id, usage, cancelled);
  }

  // ------------------------------------------------------------ admin and foreign token traffic

  lemma CountsAfterOther(log: EventLog, first: Address, bookings: map<BookingId, Booking>, e: Event)
    requires CountsAgree(log, first, bookings) && EventsAgree(log, bookings)
    requires !e.BookingOpened? && !e.BookingSettled?
    ensures CountsAgree(Emit(log, e), first, bookings) && EventsAgree(Emit(log, e), bookings)
  {
    forall i ensures CountAgrees(Emit(log, e), first, bookings, i) {
      assert CountAgrees(log, first, bookings, i);
    }
  }

  lemma AdminKeepsSound(c: Core, now: nat, call: Option<Call>, op: PlainOp)
    requires Sound(c, now, call)
    requires op.ChangeCommission? || op.ChangeTreasury? || op.Pause? || op.Unpause?
    requires Apply(c, now, op).Ok?
    ensures Sound(Apply(c, now, op).value, now, call)
  {
    var e := Apply(c, now, op).value.log.event;
    QuietEvent(c.log, c.initialTreasury, call, e, c.escrow, c.claimable);
    CountsAfterOther(c.log, c.initialTreasury, c.bookings, e);
  }

  lemma MoveKeepsSupply(c: Core, payer: Address, payee: Address, amount: nat)
    requires MoveTokens(c, payer, payee, amount).Ok?
    ensures Sum(MoveTokens(c, payer, payee, amount).value.usdc) == Sum(c.usdc)
  {
    var debited := c.usdc[payer := Get(c.usdc, payer) - amount];
    SumUpdateTwice(c.usdc, payer, Get(c.usdc, payer) - amount, payee, Get(debited, payee) + amount);
  }

  lemma TransferKeepsSound(c: Core, now: nat, call: Option<Call>, payer: Address, payee: Address, amount: nat)
    requires Sound(c, now, call) && payer != c.self && payee != c.self && MoveTokens(c, payer, payee, amount).Ok?
    ensures Sound(OutsideTransfer(c, payer, payee, amount).value, now, call)
  {
    var e := Transferred(payer, payee, amount);
    MoveKeepsSupply(c, payer, payee, amount);
    QuietEvent(c.log, c.initialTreasury, call, e, c.escrow, c.claimable);
    CountsAfterOther(c.log, c.initialTreasury, c.bookings, e);
  }

  lemma PlainKeepsSound(c: Core, now: nat, call: Option<Call>, op: PlainOp)
    requires Sound(c, now, call) && Admissible(c.self, Plain(op)) && Apply(c, now, op).Ok?
    ensures Sound(Apply(c, now, op).value, now, call)
  {
    match op
    case Open(sender, id, consumer, supplier, rate, maxSecs) =>
      OpenKeepsSound(c, now, call, sender, id, consumer, supplier, rate, maxSecs);
    case Settle(sender, id, usage) => CloseKeepsSound(c, now, call, sender, id, usage, false);
    case Cancel(sender, id, usage) => CloseKeepsSound(c, now, call, sender, id, usage, true);
    case ChangeCommission(_, _) => AdminKeepsSound(c, now, call, op);
    case ChangeTreasury(_, _) => AdminKeepsSound(c, now, call, op);
    case Pause(_) => AdminKeepsSound(c, now, call, op);
    case Unpause(_) => AdminKeepsSound(c, now, call, op);
    case Transfer(payer, payee, amount) => TransferKeepsSound(c, now, call, payer, payee, amount);
  }

  lemma PlainKeepsSelf(c: Core, now: nat, op: PlainOp)
    requires Apply(c, now, op).Ok?
    ensures Apply(c, now, op).value.self == c.self
  {
  }

  // ------------------------------------------------------------ the money-moving calls

  lemma EscrowAfterBegin(log: EventLog, first: Address, call: Call, escrow: map<Address, nat>,
                         escrow': map<Address, nat>)
    requires EscrowConserved(log, first, None, escrow)
    requires forall a: Address :: Get(escrow', a) + Pending(Some(call), WithdrawCall, a)
                               == Get(escrow, a) + Pending(Some(call), DepositCall, a)
    ensures EscrowConserved(log, first, Some(call), escrow')
  {
    forall a: Address ensures EscrowBalances(log, first, Some(call), escrow', a) {
      assert EscrowBalances(log, first, None, escrow, a);
    }
  }

  lemma EarningsAfterBegin(log: EventLog, first: Address, call: Call, claimable: map<Address, nat>,
                           claimable': map<Address, nat>)
    requires EarningsConserved(log, first, None, claimable)
    requires forall a: Address :: Get(claimable', a) + Pending(Some(call), ClaimCall, a) == Get(claimable, a)
    ensures EarningsConserved(log, first, Some(call), claimable')
  {
    forall a: Address ensures EarningsBalance(log, first, Some(call), claimable', a) {
      assert EarningsBalance(log, first, None, claimable, a);
    }
  }

  lemma LocksAfterBegin(bookings: map<BookingId, Booking>, lockedOf: map<Address, nat>, escrow: map<Address, nat>,
                        who: Address, balance: nat)
    requires LocksAgree(bookings, lockedOf, escrow) && Get(lockedOf, who) <= balance
    ensures LocksAgree(bookings, lockedOf, escrow[who := balance])
  {
    var escrow' := escrow[who := balance];
    forall a: Address ensures LockAgrees(bookings, lockedOf, escrow', a) {
      assert LockAgrees(bookings, lockedOf, escrow, a);
    }
  }

  lemma BeginKeepsSound(c: Core, now: nat, op: MoneyOp)
    requires Sound(c, now, None) && Admissible(c.self, Label.Money(op)) && Begin(c, op).Ok?
    ensures Sound(Begin(c, op).value, now, Some(CallOf(c, op)))
    ensures Begin(c, op).value.self == c.self
  {
    var call := CallOf(c, op);
    var c' := Begin(c, op).value;
    assert LockAgrees(c.bookings, c.lockedOf, c.escrow, op.sender);
    if !op.Claim? {
      LocksAfterBegin(c.bookings, c.lockedOf, c.escrow, op.sender, Get(c'.escrow, op.sender));
      SumUpdate(c.escrow, op.sender, Get(c'.escrow, op.sender));
    } else {
      SumUpdate(c.claimable, op.sender, 0);
    }
    EscrowAfterBegin(c.log, c.initialTreasury, call, c.escrow, c'.escrow);
    EarningsAfterBegin(c.log, c.initialTreasury, call, c.claimable, c'.claimable);
  }

  // Moving the tokens changes who holds them and which side of the call they are on, nothing else.
  lemma MovedFlag(log: EventLog, first: Address, call: Call, escrow: map<Address, nat>, claimable: map<Address, nat>)
    requires EscrowConserved(log, first, Some(call), escrow)
    requires EarningsConserved(log, first, Some(call), claimable)
    ensures EscrowConserved(log, first, Some(call.(moved := true)), escrow)
    ensures EarningsConserved(log, first, Some(call.(moved := true)), claimable)
  {
    var call' := call.(moved := true);
    forall a: Address
      ensures EscrowBalances(log, first, Some(call'), escrow, a)
      ensures EarningsBalance(log, first, Some(call'), claimable, a)
    {
      assert EscrowBalances(log, first, Some(call), escrow, a);
      assert EarningsBalance(log, first, Some(call), claimable, a);
    }
  }

  lemma PayKeepsSound(c: Core, now: nat, call: Call)
    requires Sound(c, now, Some(call)) && !call.moved && Pay(c, call).Ok?
    ensures Sound(Pay(c, call).value, now, Some(call.(moved := true)))
    ensures Pay(c, call).value.self == c.self
  {
    if call.kind.DepositCall? {
      MoveKeepsSupply(c, call.who, c.self, call.amount);
    } else {
      MoveKeepsSupply(c, c.self, call.who, call.amount);
    }
    MovedFlag(c.log, c.initialTreasury, call, c.escrow, c.claimable);
  }

  // The receipt a returning call emits takes over from the call in every balance equation.
  lemma ReceiptTakesOver(log: EventLog, first: Address, call: Call, escrow: map<Address, nat>,
                         claimable: map<Address, nat>)
    requires EscrowConserved(log, first, Some(call), escrow)
    requires EarningsConserved(log, first, Some(call), claimable)
    ensures EscrowConserved(Emit(log, Receipt(call)), first, None, escrow)
    ensures EarningsConserved(Emit(log, Receipt(call)), first, None, claimable)
  {
    var log' := Emit(log, Receipt(call));
    forall a: Address
      ensures EscrowBalances(log', first, None, escrow, a)
      ensures EarningsBalance(log', first, None, claimable, a)
    {
      assert EscrowBalances(log, first, Some(call), escrow, a);
      assert EarningsBalance(log, first, Some(call), claimable, a);
    }
  }

  lemma ReturnKeepsSound(c: Core, now: nat, call: Call)
    requires Sound(c, now, Some(call)) && call.moved
    ensures Sound(Return(c, call), now, None)
  {
    ReceiptTakesOver(c.log, c.initialTreasury, call, c.escrow, c.claimable);
    CountsAfterOther(c.log, c.initialTreasury, c.bookings, Receipt(call));
  }

  lemma TickKeepsSound(c: Core, now: nat, call: Option<Call>, time: nat)
    requires Sound(c, now, call) && now <= time && time + SETTLE_GRACE_SECS < UINT256_LIMIT
    ensures Sound(c, time, call)
  {
  }

  // ------------------------------------------------------------ every step, every run

  lemma StepKeepsInv(w: World, l: Label)
    requires Inv(w) && Admissible(w.core.self, l) && Step(w, l).Ok?
    ensures Inv(Step(w, l).value)
    ensures Step(w, l).value.core.self == w.core.self
  {
    match l
    case Money(op) => BeginKeepsSound(w.core, w.now, op);
    case Plain(op) =>
      PlainKeepsSound(w.core, w.now, w.call, op);
      PlainKeepsSelf(w.core, w.now, op);
    case TokenMoves => PayKeepsSound(w.core, w.now, w.call.value);
    case Finish => ReturnKeepsSound(w.core, w.now, w.call.value);
    case Revert =>
    case Tick(time) =>
      TickKeepsSound(w.core, w.now, w.call, time);
      TickKeepsSound(w.committed, w.now, None, time);
  }

  // Every run, with any calls nested inside transfers, keeps every invariant at every point.
  lemma {:induction false} RunKeepsInv(w: World, ls: seq<Label>)
    requires Inv(w)
    ensures Inv(Run(w, ls))
    ensures Run(w, ls).core.self == w.core.self
    decreases |ls|
  {
    if ls != [] {
      if Admissible(w.core.self, ls[0]) && Step(w, ls[0]).Ok? {
        StepKeepsInv(w, ls[0]);
      }
      RunKeepsInv(Next(w, ls[0]), ls[1..]);
    }
  }

  // A deployment starts sound.
  lemma GenesisIsSound(d: Deployment, w: World)
    requires Genesis(d, w)
    ensures Inv(w)
  {
    var none: map<BookingId, Booking> := map[];
    forall a: Address ensures LockAgrees(none, map[], map[], a) {
      assert OpenLocks(none, a) == map[];
      SumZero(OpenLocks(none, a));
    }
    assert AllOpenLocks(none) == map[];
    SumZero(AllOpenLocks(none));
    var nothing: map<Address, nat> := map[];
    SumZero(nothing);
  }

  // So every reachable state is sound, inside or outside a transfer.
  lemma ReachableIsSound(w: World)
    requires Reachable(w)
    ensures Inv(w)
  {
    var d, w0, ls :| Genesis(d, w0) && w == Run(w0, ls);
    GenesisIsSound(d, w0);
    RunKeepsInv(w0, ls);
  }
}
