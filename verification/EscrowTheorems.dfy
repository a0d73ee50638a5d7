// What the invariants mean for the parties, over every run of the contract.
module EscrowTheorems {
  import opened Wrappers
  import opened MapSums
  import opened EscrowMath
  import opened Escrow
  import opened EscrowInvariant

  // ------------------------------------------------------------ solvency, locks and conservation

  // At every point of every run, inside or outside a transfer: the contract's tokens plus what a call in flight
  // is about to move are exactly what it owes.
  lemma Solvency(w: World)
    requires Reachable(w)
    ensures Get(w.core.usdc, w.core.self) + InFlight(w.call) == Sum(w.core.escrow) + Sum(w.core.claimable)
  {
    ReachableIsSound(w);
  }

  // At every point each lock is the sum over the consumer's open bookings, inside the escrow.
  lemma LockAccounting(w: World, consumer: Address)
    requires Reachable(w)
    ensures var c := w.core;
            Get(c.lockedOf, consumer) == Sum(OpenLocks(c.bookings, consumer)) <= Get(c.escrow, consumer)
  {
    ReachableIsSound(w);
    var c := w.core;
    assert LockAgrees(c.bookings, c.lockedOf, c.escrow, consumer);
  }

  // Between transactions, every account's books balance, whatever roles it plays at once.
  lemma Conservation(w: World, a: Address)
    requires Reachable(w) && w.call.None?
    ensures var c := w.core;
            var total := (col: Column) => Tally(c.log, c.initialTreasury, col);
            && total(DepositedBy(a)) == Get(c.escrow, a) + total(WithdrawnBy(a)) + total(ChargedTo(a))
            && total(EarnedBy(a)) == Get(c.claimable, a) + total(ClaimedBy(a))
            && total(Volume) == total(Commission) + total(SupplierPay)
  {
    ReachableIsSound(w);
    var c := w.core;
    assert EscrowBalances(c.log, c.initialTreasury, None, c.escrow, a);
    assert EarningsBalance(c.log, c.initialTreasury, None, c.claimable, a);
    VolumeSplits(c.log, c.initialTreasury, c.bookings, w.now);
  }

  // The charged volume is the commission plus the suppliers' pay.
  lemma {:induction false} VolumeSplits(log: EventLog, first: Address, bookings: map<BookingId, Booking>, now: nat)
    requires EventsAgree(log, bookings) && TermsSound(bookings, now)
    ensures Tally(log, first, Volume) == Tally(log, first, Commission) + Tally(log, first, SupplierPay)
  {
    if log.Emit? {
      assert EventAgrees(bookings, log.event);
      if log.event.BookingSettled? {
        CommissionBounds(log.event.cost, bookings[log.event.bookingId].commissionBps);
      }
      forall e | Emitted(log.past, e) ensures EventAgrees(bookings, e) {
        assert Emitted(log, e);
      }
      VolumeSplits(log.past, first, bookings, now);
    }
  }

  // ------------------------------------------------------------ billing over whole runs

  lemma {:induction false} OpenWasEmitted(log: EventLog, first: Address, id: BookingId) returns (o: Event)
    requires Tally(log, first, OpensOf(id)) > 0
    ensures Emitted(log, o) && o.BookingOpened? && o.bookingId == id
  {
    if log.event.BookingOpened? && log.event.bookingId == id {
      o := log.event;
    } else {
      o := OpenWasEmitted(log.past, first, id);
    }
  }

  // Every close ever emitted bills the terms its booking was opened with: usage inside the window, the rate of
  // that time, the commission rate of that time under the cap, and at least 80% for the supplier.
  lemma EveryCloseBillsItsOpen(w: World, e: Event) returns (o: Event)
    requires Reachable(w) && Emitted(w.core.log, e) && e.BookingSettled?
    ensures Emitted(w.core.log, o) && o.BookingOpened? && o.bookingId == e.bookingId
    ensures e.consumer == o.consumer && e.supplier == o.supplier
    ensures e.usageSeconds <= o.maxDurationSecs
    ensures e.cost == Cost(o.ratePerHourCents, e.usageSeconds) <= o.lockedAmount
    ensures e.commission == CommissionOn(e.cost, o.commissionBps) && o.commissionBps <= MAX_COMMISSION_BPS
    ensures 5 * (e.cost - e.commission) >= 4 * e.cost
  {
    ReachableIsSound(w);
    var c := w.core;
    assert EventAgrees(c.bookings, e);
    assert CountAgrees(c.log, c.initialTreasury, c.bookings, e.bookingId);
    o := OpenWasEmitted(c.log, c.initialTreasury, e.bookingId);
    assert EventAgrees(c.bookings, o);
    CostWithinLock(o.ratePerHourCents, e.usageSeconds, o.maxDurationSecs);
    CommissionBounds(e.cost, o.commissionBps);
  }

  // A booking is opened at most once and charged at most once, and charged exactly when it is closed.
  lemma ChargedAtMostOnce(w: World, id: BookingId)
    requires Reachable(w)
    ensures var c := w.core;
            && Tally(c.log, c.initialTreasury, OpensOf(id)) == (if StatusOf(c, id) == Unset then 0 else 1)
            && Tally(c.log, c.initialTreasury, ClosesOf(id))
               == (if StatusOf(c, id) == Settled || StatusOf(c, id) == Cancelled then 1 else 0)
  {
    ReachableIsSound(w);
    var c := w.core;
    assert CountAgrees(c.log, c.initialTreasury, c.bookings, id);
  }

  // ------------------------------------------------------------ forward only

  predicate Extends(old_: EventLog, new_: EventLog) {
    old_ == new_ || (new_.Emit? && Extends(old_, new_.past))
  }

  lemma {:induction false} ExtendsTrans(a: EventLog, b: EventLog, c: EventLog)
    requires Extends(a, b) && Extends(b, c)
    ensures Extends(a, c)
  {
    if b != c {
      ExtendsTrans(a, b, c.past);
    }
  }

  // A booking's terms are written once; its status only moves from Open to a terminal one.
  predicate Forward(b: Booking, b': Booking) {
    b' == b || (b.status.Open? && (b' == b.(status := Settled) || b' == b.(status := Cancelled)))
  }

  ghost predicate Progress(c: Core, c': Core) {
    && (forall id | id in c.bookings :: id in c'.bookings && Forward(c.bookings[id], c'.bookings[id]))
    && Extends(c.log, c'.log)
    && SameDeployment(c, c')
    && Get(c.claimable, c.self) <= Get(c'.claimable, c.self) // the contract cannot claim its own credit
  }

  predicate SameDeployment(c: Core, c': Core) {
    && c'.self == c.self && c'.settlers == c.settlers && c'.admins == c.admins
    && c'.initialTreasury == c.initialTreasury
  }

  lemma ProgressTrans(a: Core, b: Core, c: Core)
    requires Progress(a, b) && Progress(b, c)
    ensures Progress(a, c)
  {
    ExtendsTrans(a.log, b.log, c.log);
  }

  lemma PlainProgress(c: Core, now: nat, op: PlainOp)
    requires TermsSound(c.bookings, now) && Apply(c, now, op).Ok?
    ensures Progress(c, Apply(c, now, op).value)
  {
    match op
    case Open(sender, id, consumer, supplier, rate, maxSecs) =>
      OpenWrites(c, now, sender, id, consumer, supplier, rate, maxSecs);
    case Settle(sender, id, usage) => CloseProgress(c, now, sender, id, usage, false);
    case Cancel(sender, id, usage) => CloseProgress(c, now, sender, id, usage, true);
    case _ =>
  }

  lemma CloseProgress(c: Core, now: nat, sender: Address, id: BookingId, usage: nat, cancelled: bool)
    requires TermsSound(c.bookings, now) && Close(c, now, sender, id, usage, cancelled).Ok?
    ensures Progress(c, Close(c, now, sender, id, usage, cancelled).value)
  {
    CloseWrites(c, now, sender, id, usage, cancelled);
    CreditedAdds(c.claimable, c.bookings[id].supplier, c.treasury, BillFor(c.bookings[id], usage));
  }

  lemma BeginProgress(c: Core, op: MoneyOp)
    requires op.sender != c.self && Begin(c, op).Ok?
    ensures Progress(c, Begin(c, op).value)
  {
  }

  lemma PayProgress(c: Core, call: Call)
    requires Pay(c, call).Ok?
    ensures Progress(c, Pay(c, call).value)
  {
    var c' := Pay(c, call).value;
    assert c' == c.(usdc := c'.usdc);
  }

  lemma CoreProgress(w: World, l: Label)
    requires TermsSound(w.core.bookings, w.now)
    requires Admissible(w.core.self, l) && Step(w, l).Ok? && !l.Revert?
    ensures Progress(w.core, Step(w, l).value.core)
  {
    match l
    case Money(op) => BeginProgress(w.core, op);
    case Plain(op) => PlainProgress(w.core, w.now, op);
    case TokenMoves => PayProgress(w.core, w.call.value);
    case Finish =>
    case Tick(_) =>
  }

  ghost predicate Advancing(w: World) {
    Inv(w) && Progress(w.committed, w.core)
  }

  // What the machine does with a core it has advanced.
  lemma CommitProgress(w: World, l: Label)
    requires Progress(w.committed, w.core) && Step(w, l).Ok?
    requires !l.Revert? ==> Progress(w.core, Step(w, l).value.core)
    requires w.call.None? ==> w.core == w.committed
    ensures Progress(Step(w, l).value.committed, Step(w, l).value.core)
    ensures Progress(w.committed, Step(w, l).value.committed)
  {
    var w' := Step(w, l).value;
    if !l.Revert? {
      ProgressTrans(w.committed, w.core, w'.core);
    }
    assert w'.committed == w.committed || w'.committed == w'.core;
  }

  lemma StepAdvances(w: World, l: Label)
    requires Advancing(w) && Admissible(w.core.self, l) && Step(w, l).Ok?
    ensures Advancing(Step(w, l).value)
    ensures Progress(w.committed, Step(w, l).value.committed)
  {
    StepKeepsInv(w, l);
    if !l.Revert? {
      CoreProgress(w, l);
    }
    CommitProgress(w, l);
  }

  lemma {:induction false} RunAdvances(w: World, ls: seq<Label>)
    requires Advancing(w)
    ensures Advancing(Run(w, ls))
    ensures Progress(w.committed, Run(w, ls).committed)
    decreases |ls|
  {
    if ls != [] {
      var w1 := Next(w, ls[0]);
      if Admissible(w.core.self, ls[0]) && Step(w, ls[0]).Ok? {
        StepAdvances(w, ls[0]);
      }
      RunAdvances(w1, ls[1..]);
      ProgressTrans(w.committed, w1.committed, Run(w, ls).committed);
    }
  }

  // Over every run, what finished transactions leave only moves forward: bookings from open to closed with
  // their terms unchanged, and the event log by extension. A call in flight is ahead of it, or is undone.
  lemma ForwardOnly(w: World, ls: seq<Label>)
    requires Reachable(w)
    ensures Progress(w.committed, Run(w, ls).committed)
    ensures Progress(Run(w, ls).committed, Run(w, ls).core)
  {
    var d, w0, before :| Genesis(d, w0) && w == Run(w0, before);
    GenesisIsSound(d, w0);
    RunAdvances(w0, before);
    RunAdvances(w, ls);
  }

  // ------------------------------------------------------------ payability

  // A deposit whose tokens have not arrived yet is backed when the depositor holds them.
  predicate Backed(w: World) {
    w.call.Some? && w.call.value.kind.DepositCall? && !w.call.value.moved ==>
      w.call.value.amount <= Get(w.core.usdc, w.call.value.who)
  }

  lemma LiabilitiesFit(w: World)
    requires Inv(w) && Backed(w)
    ensures Sum(w.core.escrow) + Sum(w.core.claimable) < UINT256_LIMIT
  {
    var c := w.core;
    SumAtLeast(c.usdc, c.self);
    if w.call.Some? {
      SumAtLeastTwo(c.usdc, c.self, w.call.value.who);
    }
  }

  // The usage the contract accepts for an open booking at a given time.
  function UsageBound(b: Booking, now: nat): nat
    requires b.openedAt <= now
  {
    var elapsed := now - b.openedAt + SETTLE_GRACE_SECS;
    if b.maxDurationSecs < elapsed then b.maxDurationSecs else elapsed
  }

  // No product on the billing path overflows, so the bill exists exactly for usage inside the bound.
  lemma BillExistsIff(c: Core, now: nat, id: BookingId, usage: nat)
    requires TermsSound(c.bookings, now) && now + SETTLE_GRACE_SECS < UINT256_LIMIT
    requires StatusOf(c, id) == Status.Open
    ensures MakeBill(c, now, id, usage)
         == if usage <= UsageBound(c.bookings[id], now) then Ok(BillFor(c.bookings[id], usage))
            else Err(UsageOutOfBounds(usage, UsageBound(c.bookings[id], now)))
  {
    var b := c.bookings[id];
    if usage <= UsageBound(b, now) {
      ProductFits(b.ratePerHourCents, usage);
      CostWithinLock(b.ratePerHourCents, usage, b.maxDurationSecs);
      var bps: uint16 := b.commissionBps;
      assert Cost(b.ratePerHourCents, usage) * bps < UINT256_LIMIT;
    }
  }

  // The two additions of _settle stay inside uint256.
  predicate Headroom(c: Core, supplier: Address, bill: Bill) {
    var earned := Get(c.claimable, supplier) + Monus(bill.cost, bill.commission);
    && earned < UINT256_LIMIT
    && (bill.commission > 0 ==> Get(c.claimable[supplier := earned], c.treasury) + bill.commission < UINT256_LIMIT)
  }

  lemma BackedHasHeadroom(c: Core, supplier: Address, consumer: Address, bill: Bill)
    requires bill.commission <= bill.cost <= Get(c.escrow, consumer)
    requires Sum(c.escrow) + Sum(c.claimable) < UINT256_LIMIT
    ensures Headroom(c, supplier, bill)
  {
    SumAtLeast(c.escrow, consumer);
    SumAtLeast(c.claimable, supplier);
    CreditedAdds(c.claimable, supplier, c.treasury, bill);
    SumAtLeast(Credited(c.claimable, supplier, c.treasury, bill), c.treasury);
  }

  // The bill of an open booking is covered by its lock, and the lock by the escrow.
  lemma BillIsCovered(w: World, id: BookingId, usage: nat)
    requires Inv(w) && StatusOf(w.core, id) == Status.Open && usage <= w.core.bookings[id].maxDurationSecs
    ensures var c, b := w.core, w.core.bookings[id];
            && BillFor(b, usage).commission <= BillFor(b, usage).cost <= b.lockedAmount
            && b.lockedAmount <= Get(c.lockedOf, b.consumer) <= Get(c.escrow, b.consumer)
  {
    var c := w.core;
    var b := c.bookings[id];
    CostWithinLock(b.ratePerHourCents, usage, b.maxDurationSecs);
    CommissionBounds(Cost(b.ratePerHourCents, usage), b.commissionBps);
    assert LockAgrees(c.bookings, c.lockedOf, c.escrow, b.consumer);
    SumRemove(OpenLocks(c.bookings, b.consumer), id);
  }

  lemma ChargeFitsIff(w: World, id: BookingId, usage: nat, cancelled: bool)
    requires Inv(w) && StatusOf(w.core, id) == Status.Open && usage <= w.core.bookings[id].maxDurationSecs
    ensures var c, b := w.core, w.core.bookings[id];
            var r := Charge(c, id, usage, BillFor(b, usage), cancelled);
            if Headroom(c, b.supplier, BillFor(b, usage)) then r.Ok? else r == Err(Panic)
  {
    BillIsCovered(w, id, usage);
  }

  // At every point of every run, even inside a deposit whose tokens may never arrive: a close succeeds exactly when a
  // settler makes it, the booking is open, the usage is at most its window and the time since it was opened plus five
  // minutes, and the credited accounts have room for it.
  lemma ClosePossibleIff(w: World, sender: Address, id: BookingId, usage: nat, cancelled: bool)
    requires Reachable(w)
    ensures var c := w.core;
            Close(c, w.now, sender, id, usage, cancelled).Ok? <==>
              && sender in c.settlers
              && StatusOf(c, id) == Status.Open
              && c.bookings[id].openedAt <= w.now
              && usage <= c.bookings[id].maxDurationSecs && usage <= w.now - c.bookings[id].openedAt + 300
              && Headroom(c, c.bookings[id].supplier, BillFor(c.bookings[id], usage))
  {
    ReachableIsSound(w);
    var c := w.core;
    if sender in c.settlers && StatusOf(c, id) == Status.Open {
      BillExistsIff(c, w.now, id, usage);
      if usage <= UsageBound(c.bookings[id], w.now) {
        ChargeFitsIff(w, id, usage, cancelled);
      }
    }
  }

  // When every escrow is backed by tokens there always is room.
  lemma RoomWhenBacked(w: World, id: BookingId, usage: nat)
    requires Inv(w) && Backed(w)
    requires StatusOf(w.core, id) == Status.Open && usage <= w.core.bookings[id].maxDurationSecs
    ensures Headroom(w.core, w.core.bookings[id].supplier, BillFor(w.core.bookings[id], usage))
  {
    var b := w.core.bookings[id];
    BillIsCovered(w, id, usage);
    LiabilitiesFit(w);
    BackedHasHeadroom(w.core, b.supplier, b.consumer, BillFor(b, usage));
  }

  // And this is why it fails when it does: for one of the two reasons the contract names, or because a credited
  // balance is full, which takes escrow that no tokens back.
  lemma CloseSucceedsIff(w: World, sender: Address, id: BookingId, usage: nat, cancelled: bool)
    requires Reachable(w) && sender in w.core.settlers
    ensures var c := w.core;
            match Close(c, w.now, sender, id, usage, cancelled)
            case Ok(_) => StatusOf(c, id) == Status.Open && usage <= UsageBound(c.bookings[id], w.now)
            case Err(BookingNotOpen(i)) => i == id && StatusOf(c, id) != Status.Open
            case Err(UsageOutOfBounds(u, m)) =>
              StatusOf(c, id) == Status.Open && u == usage > m == UsageBound(c.bookings[id], w.now)
            case Err(e) =>
              && e.Panic? && !Backed(w) && StatusOf(c, id) == Status.Open
              && !Headroom(c, c.bookings[id].supplier, BillFor(c.bookings[id], usage))
  {
    ReachableIsSound(w);
    var c := w.core;
    if StatusOf(c, id) == Status.Open {
      BillExistsIff(c, w.now, id, usage);
      if usage <= UsageBound(c.bookings[id], w.now) {
        ChargeFitsIff(w, id, usage, cancelled);
        if Backed(w) {
          RoomWhenBacked(w, id, usage);
        }
      }
    }
  }

  // ------------------------------------------------------------ opening

  ghost predicate Fits(escrow: map<Address, nat>) {
    forall a: Address :: Get(escrow, a) < UINT256_LIMIT
  }

  ghost predicate EscrowsFit(w: World) {
    Fits(w.core.escrow) && Fits(w.committed.escrow)
  }

  // Nothing but a deposit adds to an escrow, and a deposit checks its addition.
  lemma PlainAddsNoEscrow(c: Core, now: nat, op: PlainOp, a: Address)
    requires Apply(c, now, op).Ok?
    ensures Get(Apply(c, now, op).value.escrow, a) <= Get(c.escrow, a)
  {
  }

  lemma PlainFits(c: Core, now: nat, op: PlainOp)
    requires Fits(c.escrow) && Apply(c, now, op).Ok?
    ensures Fits(Apply(c, now, op).value.escrow)
  {
    var escrow := Apply(c, now, op).value.escrow;
    forall a: Address ensures Get(escrow, a) < UINT256_LIMIT {
      PlainAddsNoEscrow(c, now, op, a);
    }
  }

  lemma BeginFits(c: Core, op: MoneyOp)
    requires Fits(c.escrow) && Begin(c, op).Ok?
    ensures Fits(Begin(c, op).value.escrow)
  {
    var escrow := Begin(c, op).value.escrow;
    forall a: Address ensures Get(escrow, a) < UINT256_LIMIT {
      assert Get(c.escrow, a) < UINT256_LIMIT;
    }
  }

  lemma StepFits(w: World, l: Label)
    requires EscrowsFit(w) && Step(w, l).Ok?
    ensures EscrowsFit(Step(w, l).value)
  {
    match l
    case Money(op) => BeginFits(w.core, op);
    case Plain(op) => PlainFits(w.core, w.now, op);
    case TokenMoves => assert Pay(w.core, w.call.value).value.escrow == w.core.escrow;
    case Finish => assert Return(w.core, w.call.value).escrow == w.core.escrow;
    case Revert =>
    case Tick(_) =>
  }

  lemma {:induction false} RunFits(w: World, ls: seq<Label>)
    requires EscrowsFit(w)
    ensures EscrowsFit(Run(w, ls))
    decreases |ls|
  {
    if ls != [] {
      if Step(w, ls[0]).Ok? {
        StepFits(w, ls[0]);
      }
      RunFits(Next(w, ls[0]), ls[1..]);
    }
  }

  lemma ReachableFits(w: World)
    requires Reachable(w)
    ensures EscrowsFit(w)
  {
    var d, w0, ls :| Genesis(d, w0) && w == Run(w0, ls);
    RunFits(w0, ls);
  }

  // At every point of every run an open succeeds exactly when its checks pass and the rounded-up lock fits the
  // consumer's free escrow.
  lemma OpenSucceedsIff(w: World, sender: Address, id: BookingId, consumer: Address, supplier: Address,
                        rate: uint96, maxSecs: uint32)
    requires Reachable(w)
    ensures var c := w.core;
            OpenBooking(c, w.now, sender, id, consumer, supplier, rate, maxSecs).Ok? <==>
              && sender in c.settlers && !c.paused
              && consumer != ZERO_ADDRESS && supplier != ZERO_ADDRESS && maxSecs > 0
              && StatusOf(c, id) == Unset
              && Get(c.lockedOf, consumer) + LockFor(rate, maxSecs) <= Get(c.escrow, consumer)
  {
    ReachableIsSound(w);
    var c := w.core;
    ProductFits(rate, maxSecs);
    assert LockAgrees(c.bookings, c.lockedOf, c.escrow, consumer);
    ReachableFits(w);
  }

  predicate ClosesBooking(l: Label, id: BookingId) {
    l.Plain? && (l.plain.Settle? || l.plain.Cancel?) && l.plain.id == id
  }

  // The booking is open under the same terms now and in what finished transactions left behind.
  predicate OpenAs(w: World, id: BookingId, b: Booking) {
    && b.status.Open?
    && id in w.core.bookings && w.core.bookings[id] == b
    && id in w.committed.bookings && w.committed.bookings[id] == b
  }

  lemma PlainStaysOpen(c: Core, now: nat, op: PlainOp, id: BookingId)
    requires TermsSound(c.bookings, now) && Apply(c, now, op).Ok?
    requires id in c.bookings && !ClosesBooking(Plain(op), id)
    ensures var c' := Apply(c, now, op).value;
            id in c'.bookings && c'.bookings[id] == c.bookings[id] && c'.settlers == c.settlers
  {
    match op
    case Open(sender, i, consumer, supplier, rate, maxSecs) =>
      OpenWrites(c, now, sender, i, consumer, supplier, rate, maxSecs);
    case Settle(sender, i, usage) => CloseWrites(c, now, sender, i, usage, false);
    case Cancel(sender, i, usage) => CloseWrites(c, now, sender, i, usage, true);
    case _ =>
  }

  predicate SameBookings(c: Core, c': Core) {
    c'.bookings == c.bookings && c'.settlers == c.settlers
  }

  lemma BeginKeepsBookings(c: Core, op: MoneyOp)
    requires Begin(c, op).Ok?
    ensures SameBookings(c, Begin(c, op).value)
  {
  }

  lemma PayKeepsBookings(c: Core, call: Call)
    requires Pay(c, call).Ok?
    ensures SameBookings(c, Pay(c, call).value)
  {
  }

  lemma MoneyStaysOpen(w: World, l: Label, id: BookingId, b: Booking)
    requires !l.Plain? && Step(w, l).Ok? && OpenAs(w, id, b) && w.core.settlers == w.committed.settlers
    ensures var w' := Step(w, l).value;
            OpenAs(w', id, b) && w'.core.settlers == w'.committed.settlers == w.core.settlers
  {
    match l
    case Money(op) => BeginKeepsBookings(w.core, op);
    case TokenMoves => PayKeepsBookings(w.core, w.call.value);
    case Finish => assert SameBookings(w.core, Return(w.core, w.call.value));
    case Revert =>
    case Tick(_) =>
  }

  lemma StepStaysOpen(w: World, l: Label, id: BookingId, b: Booking)
    requires TermsSound(w.core.bookings, w.now) && Step(w, l).Ok?
    requires OpenAs(w, id, b) && w.core.settlers == w.committed.settlers && !ClosesBooking(l, id)
    ensures var w' := Step(w, l).value;
            OpenAs(w', id, b) && w'.core.settlers == w'.committed.settlers == w.core.settlers
  {
    if l.Plain? {
      PlainStaysOpen(w.core, w.now, l.plain, id);
    } else {
      MoneyStaysOpen(w, l, id, b);
    }
  }

  lemma {:induction false} StaysOpen(w: World, ls: seq<Label>, id: BookingId, b: Booking)
    requires Reachable(w) && OpenAs(w, id, b) && w.core.settlers == w.committed.settlers
    requires forall l | l in ls :: !ClosesBooking(l, id)
    ensures OpenAs(Run(w, ls), id, b) && Run(w, ls).core.settlers == w.core.settlers
    decreases |ls|
  {
    if ls != [] {
      if Admissible(w.core.self, ls[0]) && Step(w, ls[0]).Ok? {
        ReachableIsSound(w);
        StepStaysOpen(w, ls[0], id, b);
      }
      ReachableNext(w, ls[0]);
      StaysOpen(Next(w, ls[0]), ls[1..], id, b);
    }
  }

  // Once open, a booking can be closed after any run of other steps, for any usage up to its bound, and the
  // close pays the supplier out of the consumer's escrow whatever the consumer did in between. The credited balances
  // always have room for it unless the run ends inside a deposit of tokens its sender does not hold.
  lemma AlwaysPayable(w: World, ls: seq<Label>, sender: Address, id: BookingId, usage: nat, cancelled: bool)
    requires Reachable(w) && w.call.None? && sender in w.core.settlers
    requires StatusOf(w.core, id) == Status.Open
    requires forall l | l in ls :: !ClosesBooking(l, id)
    ensures var b := w.core.bookings[id];
            var v := Run(w, ls);
            var r := Close(v.core, v.now, sender, id, usage, cancelled);
            && b.openedAt <= v.now
            && (r.Ok? <==> usage <= UsageBound(b, v.now) && Headroom(v.core, b.supplier, BillFor(b, usage)))
            && (usage <= UsageBound(b, v.now) && Backed(v) ==> Headroom(v.core, b.supplier, BillFor(b, usage)))
            && (r.Ok? ==> Closes(v.core, r.value, id, usage, BillFor(b, usage), cancelled))
  {
    var b := w.core.bookings[id];
    var v := Run(w, ls);
    ReachableIsSound(w);
    ReachableRun(w, ls);
    ReachableIsSound(v);
    StaysOpen(w, ls, id, b);
    ClosePossibleIff(v, sender, id, usage, cancelled);
    if usage <= UsageBound(b, v.now) && Backed(v) {
      RoomWhenBacked(v, id, usage);
    }
    if Close(v.core, v.now, sender, id, usage, cancelled).Ok? {
      CloseWrites(v.core, v.now, sender, id, usage, cancelled);
    }
  }

  // ------------------------------------------------------------ frames

  // A booking operation touches the escrow and the lock of its own consumer only.
  lemma OthersUntouched(c: Core, now: nat, op: PlainOp, a: Address)
    requires TermsSound(c.bookings, now) && Apply(c, now, op).Ok?
    requires op.Open? ==> a != op.consumer
    requires (op.Settle? || op.Cancel?) && op.id in c.bookings ==> a != c.bookings[op.id].consumer
    ensures var c' := Apply(c, now, op).value;
            Get(c'.escrow, a) == Get(c.escrow, a) && Get(c'.lockedOf, a) == Get(c.lockedOf, a)
  {
    match op
    case Settle(sender, i, usage) => CloseWrites(c, now, sender, i, usage, false);
    case Cancel(sender, i, usage) => CloseWrites(c, now, sender, i, usage, true);
    case _ =>
  }

  // No admin step moves money or touches a booking; in particular a new treasury takes over nothing already
  // credited and a new commission rate reprices nothing.
  lemma AdminMovesNothing(c: Core, now: nat, op: PlainOp)
    requires op.ChangeCommission? || op.ChangeTreasury? || op.Pause? || op.Unpause?
    requires Apply(c, now, op).Ok?
    ensures var c' := Apply(c, now, op).value;
            && c'.escrow == c.escrow && c'.lockedOf == c.lockedOf && c'.claimable == c.claimable
            && c'.bookings == c.bookings && c'.usdc == c.usdc
            && (c'.commissionBps <= MAX_COMMISSION_BPS || c'.commissionBps == c.commissionBps)
  {
  }

  // A completed money-moving transaction, with whatever its transfer called back into, is a run of the machine.
  lemma TransactionIsReachable(w: World, op: MoneyOp, before: seq<Label>, after: seq<Label>)
    requires Reachable(w) && Admissible(w.core.self, Label.Money(op)) && Transaction(w, op, before, after).Ok?
    ensures Reachable(Transaction(w, op, before, after).value)
  {
    ReachableNext(w, Label.Money(op));
    var begun := Step(w, Label.Money(op)).value;
    ReachableRun(begun, before);
    ReachableNext(Run(begun, before), TokenMoves);
    var paid := Step(Run(begun, before), TokenMoves).value;
    ReachableRun(paid, after);
    ReachableNext(Run(paid, after), Finish);
  }
}
