// The contract in its own form: storage updated in place, with early reverts. Each function is proved against
// its value-level specification, and a money-moving function against a run of the machine whose labels are
// the calls its token transfer makes.
module EscrowContract {
  import opened Wrappers
  import opened MapSums
  import opened EscrowMath
  import opened Escrow

  class ClawEscrow {
    const self: Address
    const settlers: set<Address>
    const admins: set<Address>
    const initialTreasury: Address
    var treasury: Address
    var commissionBps: nat
    var paused: bool
    var entered: bool
    var escrow: map<Address, nat>
    var lockedOf: map<Address, nat>
    var claimable: map<Address, nat>
    var bookings: map<BookingId, Booking>
    var usdc: map<Address, nat> // the balances kept by the token contract
    var log: EventLog

    function Storage(): Core
      reads this
    {
      Core(self, settlers, admins, initialTreasury, treasury, commissionBps, paused, entered, escrow, lockedOf,
           claimable, bookings, usdc, log)
    }

    constructor (d: Deployment)
      requires Deploy(d).Ok?
      ensures Storage() == Deploy(d).value
    {
      self, settlers, admins := d.self, if d.settler == ZERO_ADDRESS then {} else {d.settler}, {d.admin};
      initialTreasury, treasury, commissionBps := d.treasury, d.treasury, d.commissionBps;
      paused, entered := false, false;
      escrow, lockedOf, claimable, bookings := map[], map[], map[], map[];
      usdc, log := d.usdc, NoEvents;
    }

    // Undoes a transaction: the EVM restores every write of a call that reverts.
    method Restore(c: Core)
      requires SameAddresses(c)
      modifies this
      ensures Storage() == c
    {
      treasury, commissionBps, paused, entered := c.treasury, c.commissionBps, c.paused, c.entered;
      escrow, lockedOf, claimable, bookings := c.escrow, c.lockedOf, c.claimable, c.bookings;
      usdc, log := c.usdc, c.log;
    }

    predicate SameAddresses(c: Core) {
      c.self == self && c.settlers == settlers && c.admins == admins && c.initialTreasury == initialTreasury
    }

    // ---------------------------------------------------------- settler

    method OpenBooking(now: nat, sender: Address, id: BookingId, consumer: Address, supplier: Address, rate: uint96,
                       maxSecs: uint32) returns (r: Result<(), Error>)
      modifies this
      ensures match Escrow.OpenBooking(old(Storage()), now, sender, id, consumer, supplier, rate, maxSecs)
              case Ok(c) => r == Ok(()) && Storage() == c
              case Err(e) => r == Err(e) && Storage() == old(Storage())
    {
      if sender !in settlers { return Err(Unauthorized); }
      if paused { return Err(EnforcedPause); }
      if consumer == ZERO_ADDRESS || supplier == ZERO_ADDRESS { return Err(ZeroAddress); }
      if maxSecs == 0 { return Err(ZeroAmount); }
      if StatusOf(Storage(), id) != Unset { return Err(BookingExists(id)); }
      var product :- Within(rate * CENT * maxSecs);
      var lock := CeilDiv(product, SECS_PER_HOUR);
      var free :- FreeEscrowOf(Storage(), consumer);
      if lock > free { return Err(InsufficientFreeEscrow(lock, free)); }
      var locked :- CheckedAdd(Get(lockedOf, consumer), lock);
      lockedOf := lockedOf[consumer := locked];
      bookings := bookings[id := Booking(consumer, supplier, rate, lock, now % UINT64_LIMIT, maxSecs, commissionBps,
                                         Status.Open)];
      log := Emit(log, BookingOpened(id, consumer, supplier, rate, maxSecs, lock, commissionBps));
      return Ok(());
    }

    // The first half of _settle: bound the usage, price it, clamp it to the lock, and split off the commission.
    method PriceUsage(now: nat, id: BookingId, usageSeconds: nat) returns (r: Result<Bill, Error>)
      ensures r == MakeBill(Storage(), now, id, usageSeconds)
    {
      if StatusOf(Storage(), id) != Status.Open { return Err(BookingNotOpen(id)); }
      var b := bookings[id];
      var sinceOpen :- CheckedSub(now, b.openedAt);
      var elapsed :- CheckedAdd(sinceOpen, SETTLE_GRACE_SECS);
      var maxAllowed := if b.maxDurationSecs < elapsed then b.maxDurationSecs else elapsed;
      if usageSeconds > maxAllowed { return Err(UsageOutOfBounds(usageSeconds, maxAllowed)); }
      var cost :- Quote(b.ratePerHourCents, usageSeconds);
      if cost > b.lockedAmount { cost := b.lockedAmount; }
      var scaled :- Within(cost * b.commissionBps);
      return Ok(Bill(cost, scaled / BPS_SCALE));
    }

    // Pull-payment earnings: the supplier's part, then the treasury's.
    method CreditEarnings(supplier: Address, bill: Bill) returns (r: Result<(), Error>)
      modifies this`claimable
      ensures match Credit(old(Storage()), supplier, bill)
              case Ok(m) => r == Ok(()) && claimable == m
              case Err(e) => r == Err(e)
    {
      var pay :- CheckedSub(bill.cost, bill.commission);
      var earned :- CheckedAdd(Get(claimable, supplier), pay);
      claimable := claimable[supplier := earned];
      if bill.commission > 0 {
        var fee :- CheckedAdd(Get(claimable, treasury), bill.commission);
        claimable := claimable[treasury := fee];
      }
      return Ok(());
    }

    // The second half of _settle: close the booking, release the lock and charge. A credit that fails undoes
    // the writes before it.
    method ChargeBooking(id: BookingId, usageSeconds: nat, bill: Bill, cancelled: bool) returns (r: Result<(), Error>)
      requires id in bookings
      modifies this
      ensures match Charge(old(Storage()), id, usageSeconds, bill, cancelled)
              case Ok(c) => r == Ok(()) && Storage() == c
              case Err(e) => r == Err(e) && Storage() == old(Storage())
    {
      var saved := claimable;
      var b := bookings[id];
      var locked :- CheckedSub(Get(lockedOf, b.consumer), b.lockedAmount);
      var balance :- CheckedSub(Get(escrow, b.consumer), bill.cost);
      var credited := CreditEarnings(b.supplier, bill);
      if credited.Err? { claimable := saved; return credited; }
      bookings := bookings[id := b.(status := if cancelled then Cancelled else Settled)];
      lockedOf := lockedOf[b.consumer := locked];
      escrow := escrow[b.consumer := balance];
      log := Emit(log, BookingSettled(id, b.consumer, b.supplier, usageSeconds, bill.cost, bill.commission,
                                      cancelled));
      return Ok(());
    }

    // settleBooking and cancelBooking differ in the final status only.
    method CloseBooking(now: nat, sender: Address, id: BookingId, usageSeconds: nat, cancelled: bool)
      returns (r: Result<(), Error>)
      modifies this
      ensures match Close(old(Storage()), now, sender, id, usageSeconds, cancelled)
              case Ok(c) => r == Ok(()) && Storage() == c
              case Err(e) => r == Err(e) && Storage() == old(Storage())
    {
      if sender !in settlers { return Err(Unauthorized); }
      var bill :- PriceUsage(now, id, usageSeconds);
      r := ChargeBooking(id, usageSeconds, bill, cancelled);
    }

    // ---------------------------------------------------------- admin

    method SetCommissionBps(sender: Address, bps: nat) returns (r: Result<(), Error>)
      modifies this
      ensures match Escrow.SetCommissionBps(old(Storage()), sender, bps)
              case Ok(c) => r == Ok(()) && Storage() == c
              case Err(e) => r == Err(e) && Storage() == old(Storage())
    {
      if sender !in admins { return Err(Unauthorized); }
      if bps > MAX_COMMISSION_BPS { return Err(CommissionTooHigh(bps)); }
      commissionBps := bps;
      log := Emit(log, CommissionUpdated(bps));
      return Ok(());
    }

    method SetTreasury(sender: Address, treasury_: Address) returns (r: Result<(), Error>)
      modifies this
      ensures match Escrow.SetTreasury(old(Storage()), sender, treasury_)
              case Ok(c) => r == Ok(()) && Storage() == c
              case Err(e) => r == Err(e) && Storage() == old(Storage())
    {
      if sender !in admins { return Err(Unauthorized); }
      if treasury_ == ZERO_ADDRESS { return Err(ZeroAddress); }
      treasury := treasury_;
      log := Emit(log, TreasuryUpdated(treasury_));
      return Ok(());
    }

    method SetPaused(sender: Address, paused_: bool) returns (r: Result<(), Error>)
      modifies this
      ensures match Escrow.SetPaused(old(Storage()), sender, paused_)
              case Ok(c) => r == Ok(()) && Storage() == c
              case Err(e) => r == Err(e) && Storage() == old(Storage())
    {
      if sender !in admins { return Err(Unauthorized); }
      if paused == paused_ { return Err(if paused_ then EnforcedPause else ExpectedPause); }
      paused := paused_;
      log := Emit(log, if paused_ then Paused(sender) else Unpaused(sender));
      return Ok(());
    }

    // ---------------------------------------------------------- the token

    // One balance move inside the token contract.
    method MoveTokens(payer: Address, payee: Address, amount: nat) returns (r: Result<(), Error>)
      modifies this`usdc
      ensures match Escrow.MoveTokens(old(Storage()), payer, payee, amount)
              case Ok(c) => r == Ok(()) && Storage() == c
              case Err(e) => r == Err(e) && Storage() == old(Storage())
    {
      if Get(usdc, payer) < amount { return Err(TransferFailed); }
      usdc := usdc[payer := Get(usdc, payer) - amount];
      usdc := usdc[payee := Get(usdc, payee) + amount];
      return Ok(());
    }

    method OutsideTransfer(payer: Address, payee: Address, amount: nat) returns (r: Result<(), Error>)
      modifies this`usdc, this`log
      ensures match Escrow.OutsideTransfer(old(Storage()), payer, payee, amount)
              case Ok(c) => r == Ok(()) && Storage() == c
              case Err(e) => r == Err(e) && Storage() == old(Storage())
    {
      r := MoveTokens(payer, payee, amount);
      if r.Ok? {
        log := Emit(log, Transferred(payer, payee, amount));
      }
    }

    method CallPlain(now: nat, op: PlainOp) returns (r: Result<(), Error>)
      modifies this
      ensures match Apply(old(Storage()), now, op)
              case Ok(c) => r == Ok(()) && Storage() == c
              case Err(e) => r == Err(e) && Storage() == old(Storage())
    {
      match op
      case Open(sender, id, consumer, supplier, rate, maxSecs) =>
        r := OpenBooking(now, sender, id, consumer, supplier, rate, maxSecs);
      case Settle(sender, id, usage) => r := CloseBooking(now, sender, id, usage, false);
      case Cancel(sender, id, usage) => r := CloseBooking(now, sender, id, usage, true);
      case ChangeCommission(sender, bps) => r := SetCommissionBps(sender, bps);
      case ChangeTreasury(sender, treasury_) => r := SetTreasury(sender, treasury_);
      case Pause(sender) => r := SetPaused(sender, true);
      case Unpause(sender) => r := SetPaused(sender, false);
      case Transfer(payer, payee, amount) => r := OutsideTransfer(payer, payee, amount);
    }

    // Inside a token transfer only a plain call can change anything, and it leaves the guard alone.
    static lemma NestedNext(w: World, l: Label)
      requires Nested(l) && w.core.entered && w.call.Some?
      ensures l.Plain? && Admissible(w.core.self, l) && Apply(w.core, w.now, l.plain).Ok? ==>
                Next(w, l) == w.(core := Apply(w.core, w.now, l.plain).value) && Next(w, l).core.entered
      ensures !(l.Plain? && Admissible(w.core.self, l) && Apply(w.core, w.now, l.plain).Ok?) ==> Next(w, l) == w
    {
      if l.Money? {
        assert Begin(w.core, l.money).Err?;
      }
    }

    // A call made from inside a token transfer: an unguarded function runs; a guarded one reverts at
    // whenNotPaused or nonReentrant, before it writes anything.
    method CallBack(now: nat, l: Label, ghost w: World)
      requires Nested(l) && entered && w.core == Storage() && w.now == now && w.call.Some?
      modifies this
      ensures entered && Storage() == Next(w, l).core && Next(w, l).call == w.call && Next(w, l).now == now
    {
      NestedNext(w, l);
      if l.Plain? && Admissible(self, l) {
        var _ := CallPlain(now, l.plain);
      }
    }

    method CallBacks(now: nat, ls: seq<Label>, ghost w: World) returns (ghost v: World)
      requires (forall l | l in ls :: Nested(l)) && entered
      requires w.core == Storage() && w.now == now && w.call.Some?
      modifies this
      ensures v == Run(w, ls) && entered && v.core == Storage() && v.call == w.call && v.now == now
    {
      v := w;
      for i := 0 to |ls|
        invariant entered && v.core == Storage() && v.call == w.call && v.now == now
        invariant Run(v, ls[i..]) == Run(w, ls)
      {
        CallBack(now, ls[i], v);
        v := Next(v, ls[i]);
        assert ls[i..][1..] == ls[i + 1..];
      }
    }

    // safeTransfer and safeTransferFrom: the token may call back before and after it moves the balance.
    method ExternalTransfer(now: nat, payer: Address, payee: Address, amount: nat, before: seq<Label>,
                            after: seq<Label>, ghost w: World) returns (r: Result<(), Error>)
      requires entered && (forall l | l in before :: Nested(l)) && (forall l | l in after :: Nested(l))
      requires w.core == Storage() && w.now == now && w.call.Some? && !w.call.value.moved
      requires amount == w.call.value.amount
      requires (payer, payee) == if w.call.value.kind.DepositCall? then (w.call.value.who, self)
                                 else (self, w.call.value.who)
      modifies this
      ensures match Step(Run(w, before), TokenMoves)
              case Ok(paid) => r == Ok(()) && Storage() == Run(paid, after).core
                               && Run(paid, after).call == Some(w.call.value.(moved := true))
              case Err(e) => r == Err(e)
    {
      ghost var reached := CallBacks(now, before, w);
      var moved := MoveTokens(payer, payee, amount);
      if moved.Err? { return moved; }
      ghost var paid := Step(reached, TokenMoves).value;
      ghost var done := CallBacks(now, after, paid);
      return Ok(());
    }

    // ---------------------------------------------------------- consumer and supplier

    method Deposit(now: nat, sender: Address, amount: nat, before: seq<Label>, after: seq<Label>)
      returns (r: Result<(), Error>)
      requires (forall l | l in before :: Nested(l)) && (forall l | l in after :: Nested(l))
      modifies this
      ensures var w := World(old(Storage()), old(Storage()), now, None);
              match Transaction(w, MoneyOp.Deposit(sender, amount), before, after)
              case Ok(v) => r == Ok(()) && Storage() == v.core
              case Err(e) => r == Err(e) && Storage() == old(Storage())
    {
      var saved := Storage();
      if paused { return Err(EnforcedPause); }
      if entered { return Err(ReentrantCall); }
      entered := true;
      if amount == 0 { Restore(saved); return Err(ZeroAmount); }
      var balance := CheckedAdd(Get(escrow, sender), amount);
      if balance.Err? { Restore(saved); return Err(balance.error); }
      escrow := escrow[sender := balance.value];
      ghost var w := World(Storage(), saved, now, Some(Call(DepositCall, sender, amount, false)));
      assert Step(World(saved, saved, now, None), Money(MoneyOp.Deposit(sender, amount))) == Ok(w);
      var paid := ExternalTransfer(now, sender, self, amount, before, after, w);
      if paid.Err? { Restore(saved); return paid; }
      log := Emit(log, Deposited(sender, amount));
      entered := false;
      return Ok(());
    }

    method WithdrawUnused(now: nat, sender: Address, amount: nat, before: seq<Label>, after: seq<Label>)
      returns (r: Result<(), Error>)
      requires (forall l | l in before :: Nested(l)) && (forall l | l in after :: Nested(l))
      modifies this
      ensures var w := World(old(Storage()), old(Storage()), now, None);
              match Transaction(w, MoneyOp.WithdrawUnused(sender, amount), before, after)
              case Ok(v) => r == Ok(()) && Storage() == v.core
              case Err(e) => r == Err(e) && Storage() == old(Storage())
    {
      var saved := Storage();
      if entered { return Err(ReentrantCall); }
      entered := true;
      if amount == 0 { Restore(saved); return Err(ZeroAmount); }
      var free := FreeEscrowOf(Storage(), sender);
      if free.Err? { Restore(saved); return Err(free.error); }
      if amount > free.value { Restore(saved); return Err(InsufficientFreeEscrow(amount, free.value)); }
      escrow := escrow[sender := Get(escrow, sender) - amount];
      assert Begin(saved, MoneyOp.WithdrawUnused(sender, amount)) == Ok(Storage());
      ghost var w := World(Storage(), saved, now, Some(Call(WithdrawCall, sender, amount, false)));
      assert Step(World(saved, saved, now, None), Money(MoneyOp.WithdrawUnused(sender, amount))) == Ok(w);
      var paid := ExternalTransfer(now, self, sender, amount, before, after, w);
      if paid.Err? { Restore(saved); return paid; }
      log := Emit(log, Withdrawn(sender, amount));
      entered := false;
      return Ok(());
    }

    method Claim(now: nat, sender: Address, before: seq<Label>, after: seq<Label>) returns (r: Result<(), Error>)
      requires (forall l | l in before :: Nested(l)) && (forall l | l in after :: Nested(l))
      modifies this
      ensures var w := World(old(Storage()), old(Storage()), now, None);
              match Transaction(w, MoneyOp.Claim(sender), before, after)
              case Ok(v) => r == Ok(()) && Storage() == v.core
              case Err(e) => r == Err(e) && Storage() == old(Storage())
    {
      var saved := Storage();
      if entered { return Err(ReentrantCall); }
      entered := true;
      var amount := Get(claimable, sender);
      if amount == 0 { Restore(saved); return Err(NothingToClaim); }
      claimable := claimable[sender := 0];
      ghost var w := World(Storage(), saved, now, Some(Call(ClaimCall, sender, amount, false)));
      assert Step(World(saved, saved, now, None), Money(MoneyOp.Claim(sender))) == Ok(w);
      var paid := ExternalTransfer(now, self, sender, amount, before, after, w);
      if paid.Err? { Restore(saved); return paid; }
      log := Emit(log, Claimed(sender, amount));
      entered := false;
      return Ok(());
    }
  }
}
