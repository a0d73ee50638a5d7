// What each function of the contract does for its caller, in plain terms: when it succeeds, what every account has
// afterwards, and what it leaves alone.
module EscrowEffects {
  import opened Wrappers
  import opened MapSums
  import opened EscrowMath
  import opened Escrow
  import opened EscrowInvariant
  import opened EscrowTheorems
  import opened EscrowHistory

  // ------------------------------------------------------------ money in and out

  // Everything but escrow, claimable, tokens and the log.
  predicate SameTerms(c: Core, c': Core) {
    && c'.self == c.self && c'.settlers == c.settlers && c'.admins == c.admins
    && c'.treasury == c.treasury && c'.commissionBps == c.commissionBps && c'.paused == c.paused
    && c'.bookings == c.bookings && c'.lockedOf == c.lockedOf
  }

  // Tokens go from one account to another, and nobody else's move.
  ghost predicate TokensGo(usdc: map<Address, nat>, usdc': map<Address, nat>, payer: Address, payee: Address,
                           amount: nat)
  {
    forall a: Address ::
      Get(usdc', a) == Get(usdc, a) - (if a == payer then amount else 0) + (if a == payee then amount else 0)
  }

  // One account's balance in a mapping changes, and nobody else's.
  ghost predicate BalanceSet(m: map<Address, nat>, m': map<Address, nat>, a: Address, balance: int) {
    Get(m', a) == balance && forall b: Address | b != a :: Get(m', b) == Get(m, b)
  }

  // Between transactions nothing is in flight and the guard is down.
  lemma GuardIsDown(w: World)
    requires Reachable(w) && w.call.None?
    ensures !w.core.entered && w.core == w.committed
  {
    ReachableIsSound(w);
  }

  // Nobody's balance is more than the contract holds.
  lemma BalancesAreCovered(w: World, a: Address)
    requires Reachable(w) && w.call.None?
    ensures var c := w.core;
            && Get(c.lockedOf, a) <= Get(c.escrow, a) <= Get(c.usdc, c.self)
            && Get(c.claimable, a) <= Get(c.usdc, c.self)
  {
    Solvency(w);
    LockAccounting(w, a);
    SumAtLeast(w.core.escrow, a);
    SumAtLeast(w.core.claimable, a);
  }

  // deposit: refused while paused, and otherwise for nothing, beyond uint256, or without the tokens.
  lemma DepositEffect(w: World, sender: Address, amount: nat)
    requires Reachable(w) && w.call.None? && sender != w.core.self
    ensures var c := w.core;
            Transaction(w, Deposit(sender, amount), [], []).Ok? <==>
              !c.paused && amount > 0 && Get(c.escrow, sender) + amount < UINT256_LIMIT && amount <= Get(c.usdc, sender)
    ensures Transaction(w, Deposit(sender, amount), [], []).Ok? ==>
              var c, c' := w.core, Transaction(w, Deposit(sender, amount), [], []).value.core;
              && TokensGo(c.usdc, c'.usdc, sender, c.self, amount)
              && BalanceSet(c.escrow, c'.escrow, sender, Get(c.escrow, sender) + amount)
              && c'.claimable == c.claimable && SameTerms(c, c') && c'.log == Emit(c.log, Deposited(sender, amount))
  {
    GuardIsDown(w);
  }

  // The three steps of an uninterrupted withdrawal.
  lemma WithdrawRuns(w: World, sender: Address, amount: nat)
    requires w.call.None? && !w.core.entered && sender != w.core.self
    requires 0 < amount <= Get(w.core.escrow, sender) - Get(w.core.lockedOf, sender)
    requires amount <= Get(w.core.usdc, w.core.self)
    ensures var c := w.core;
            var c' := c.(escrow := c.escrow[sender := Get(c.escrow, sender) - amount],
                         usdc := c.usdc[c.self := Get(c.usdc, c.self) - amount][sender := Get(c.usdc, sender) + amount],
                         log := Emit(c.log, Withdrawn(sender, amount)));
            Transaction(w, WithdrawUnused(sender, amount), [], []) == Ok(World(c', c', w.now, None))
  {
    var op := MoneyOp.WithdrawUnused(sender, amount);
    var begun := Step(w, Label.Money(op)).value;
    assert Run(begun, []) == begun && begun.call == Some(Call(WithdrawCall, sender, amount, false));
    var paid := Step(begun, TokenMoves).value;
    assert Run(paid, []) == paid;
  }

  lemma WithdrawRefused(w: World, sender: Address, amount: nat)
    requires Transaction(w, WithdrawUnused(sender, amount), [], []).Ok?
    ensures 0 < amount <= Get(w.core.escrow, sender) - Get(w.core.lockedOf, sender)
  {
  }

  // withdrawUnused: anything up to the free escrow, paused or not, to the account that asks.
  lemma WithdrawEffect(w: World, sender: Address, amount: nat)
    requires Reachable(w) && w.call.None? && sender != w.core.self
    ensures var c := w.core;
            Transaction(w, WithdrawUnused(sender, amount), [], []).Ok? <==>
              0 < amount <= Get(c.escrow, sender) - Get(c.lockedOf, sender)
    ensures Transaction(w, WithdrawUnused(sender, amount), [], []).Ok? ==>
              var c, c' := w.core, Transaction(w, WithdrawUnused(sender, amount), [], []).value.core;
              && TokensGo(c.usdc, c'.usdc, c.self, sender, amount)
              && BalanceSet(c.escrow, c'.escrow, sender, Get(c.escrow, sender) - amount)
              && c'.claimable == c.claimable && SameTerms(c, c') && c'.log == Emit(c.log, Withdrawn(sender, amount))
  {
    GuardIsDown(w);
    BalancesAreCovered(w, sender);
    if 0 < amount <= Get(w.core.escrow, sender) - Get(w.core.lockedOf, sender) {
      WithdrawRuns(w, sender, amount);
    } else if Transaction(w, WithdrawUnused(sender, amount), [], []).Ok? {
      WithdrawRefused(w, sender, amount);
    }
  }

  // claim: everything the account earned, paused or not, to the account that asks.
  lemma ClaimEffect(w: World, sender: Address)
    requires Reachable(w) && w.call.None? && sender != w.core.self
    ensures Transaction(w, Claim(sender), [], []).Ok? <==> Get(w.core.claimable, sender) > 0
    ensures Transaction(w, Claim(sender), [], []).Ok? ==>
              var c, c' := w.core, Transaction(w, Claim(sender), [], []).value.core;
              var amount := Get(c.claimable, sender);
              && TokensGo(c.usdc, c'.usdc, c.self, sender, amount)
              && BalanceSet(c.claimable, c'.claimable, sender, 0)
              && c'.escrow == c.escrow && SameTerms(c, c') && c'.log == Emit(c.log, Claimed(sender, amount))
  {
    GuardIsDown(w);
    BalancesAreCovered(w, sender);
  }

  // The first check that fails names the reason.
  lemma DepositRefusal(w: World, sender: Address, amount: nat)
    requires Reachable(w) && w.call.None? && sender != w.core.self
    ensures var c, r := w.core, Transaction(w, Deposit(sender, amount), [], []);
            r.Err? ==>
              r.error == if c.paused then EnforcedPause else if amount == 0 then ZeroAmount
                         else if Get(c.escrow, sender) + amount >= UINT256_LIMIT then Panic else TransferFailed
  {
    GuardIsDown(w);
  }

  lemma WithdrawRefusal(w: World, sender: Address, amount: nat)
    requires Reachable(w) && w.call.None? && sender != w.core.self
    ensures var c, r := w.core, Transaction(w, WithdrawUnused(sender, amount), [], []);
            r.Err? ==>
              if amount == 0 then r.error == ZeroAmount
              else r.error.InsufficientFreeEscrow? && r.error.requested == amount
                   && r.error.free == Get(c.escrow, sender) - Get(c.lockedOf, sender)
  {
    GuardIsDown(w);
    BalancesAreCovered(w, sender);
    if 0 < amount <= Get(w.core.escrow, sender) - Get(w.core.lockedOf, sender) {
      WithdrawRuns(w, sender, amount);
    }
  }

  lemma ClaimRefusal(w: World, sender: Address)
    requires Reachable(w) && w.call.None? && sender != w.core.self && Transaction(w, Claim(sender), [], []).Err?
    ensures Transaction(w, Claim(sender), [], []).error == NothingToClaim
  {
    ClaimEffect(w, sender);
    GuardIsDown(w);
  }

  // Inside a transfer every call that moves money is turned away.
  lemma NestedRefusal(c: Core, op: MoneyOp)
    requires c.entered
    ensures Begin(c, op) == Err(if op.Deposit? && c.paused then EnforcedPause else ReentrantCall)
  {
  }

  lemma OpenRefusal(w: World, sender: Address, id: BookingId, consumer: Address, supplier: Address, rate: uint96,
                    maxSecs: uint32)
    requires Reachable(w)
    ensures var c := w.core;
            var r := OpenBooking(c, w.now, sender, id, consumer, supplier, rate, maxSecs);
            r.Err? ==>
              if sender !in c.settlers then r.error == Unauthorized else if c.paused then r.error == EnforcedPause
              else if consumer == 0 || supplier == 0 then r.error == ZeroAddress
              else if maxSecs == 0 then r.error == ZeroAmount
              else if StatusOf(c, id) != Unset then r.error == BookingExists(id)
              else r.error.InsufficientFreeEscrow? && r.error.requested == LockFor(rate, maxSecs)
                   && r.error.free == Get(c.escrow, consumer) - Get(c.lockedOf, consumer)
  {
    OpenSucceedsIff(w, sender, id, consumer, supplier, rate, maxSecs);
    ProductFits(rate, maxSecs);
    ReachableIsSound(w);
    assert LockAgrees(w.core.bookings, w.core.lockedOf, w.core.escrow, consumer);
  }

  // ------------------------------------------------------------ admin

  // setCommissionBps: an admin's, up to 20%, and then the rate is the new one.
  lemma CommissionEffect(c: Core, now: nat, sender: Address, bps: nat)
    ensures Apply(c, now, ChangeCommission(sender, bps)).Ok? <==> sender in c.admins && bps <= 2_000
    ensures Apply(c, now, ChangeCommission(sender, bps)).Ok? ==>
              var c' := Apply(c, now, ChangeCommission(sender, bps)).value;
              c'.commissionBps == bps && c' == c.(commissionBps := bps, log := Emit(c.log, CommissionUpdated(bps)))
  {
  }

  lemma TreasuryEffect(c: Core, now: nat, sender: Address, treasury: Address)
    ensures Apply(c, now, ChangeTreasury(sender, treasury)).Ok? <==> sender in c.admins && treasury != 0
    ensures Apply(c, now, ChangeTreasury(sender, treasury)).Ok? ==>
              var c' := Apply(c, now, ChangeTreasury(sender, treasury)).value;
              c'.treasury == treasury && c' == c.(treasury := treasury, log := Emit(c.log, TreasuryUpdated(treasury)))
  {
  }

  // pause and unpause: an admin's, from the other state.
  lemma PauseEffect(c: Core, now: nat, sender: Address)
    ensures Apply(c, now, Pause(sender)).Ok? <==> sender in c.admins && !c.paused
    ensures Apply(c, now, Unpause(sender)).Ok? <==> sender in c.admins && c.paused
    ensures Apply(c, now, Pause(sender)).Ok? ==>
              Apply(c, now, Pause(sender)).value == c.(paused := true, log := Emit(c.log, Paused(sender)))
    ensures Apply(c, now, Unpause(sender)).Ok? ==>
              Apply(c, now, Unpause(sender)).value == c.(paused := false, log := Emit(c.log, Unpaused(sender)))
  {
  }

  // A new contract: two roles, the given treasury and rate, and nothing in it.
  lemma DeployEffect(d: Deployment)
    ensures Deploy(d).Ok? <==> d.token != 0 && d.treasury != 0 && d.admin != 0 && d.commissionBps <= 2_000
    ensures Deploy(d).Ok? ==>
              var c := Deploy(d).value;
              && c.self == d.self && c.admins == {d.admin} && c.settlers == {d.settler} - {0}
              && c.treasury == c.initialTreasury == d.treasury && c.commissionBps == d.commissionBps
              && !c.paused && !c.entered && c.usdc == d.usdc && c.log == NoEvents && c.bookings == map[]
              && forall a: Address :: Get(c.escrow, a) == Get(c.lockedOf, a) == Get(c.claimable, a) == 0
  {
  }

  // ------------------------------------------------------------ with callbacks

  predicate Callback(l: Label) {
    Nested(l) && !(l.Plain? && l.plain.Transfer?)
  }

  // What a callback cannot touch unless it is itself a token transfer.
  predicate TokensStay(w: World, w': World) {
    && w'.core.usdc == w.core.usdc && w'.core.self == w.core.self && w'.core.entered && w'.call == w.call
  }

  lemma CallbackKeepsTokens(w: World, l: Label)
    requires Callback(l) && w.core.entered && w.call.Some?
    ensures TokensStay(w, Next(w, l))
  {
    if l.Plain? && Apply(w.core, w.now, l.plain).Ok? {
      PlainEmits(w.core, w.now, l.plain);
      PlainKeepsGuard(w.core, w.now, l.plain);
    } else if l.Money? {
      assert Begin(w.core, l.money).Err?;
    }
  }

  lemma PlainKeepsGuard(c: Core, now: nat, op: PlainOp)
    requires Apply(c, now, op).Ok?
    ensures Apply(c, now, op).value.entered == c.entered
  {
  }

  lemma {:induction false} CallbacksKeepTokens(w: World, ls: seq<Label>)
    requires (forall l | l in ls :: Callback(l)) && w.core.entered && w.call.Some?
    ensures TokensStay(w, Run(w, ls))
    decreases |ls|
  {
    if ls != [] {
      CallbackKeepsTokens(w, ls[0]);
      CallbacksKeepTokens(Next(w, ls[0]), ls[1..]);
    }
  }

  // The account, the amount and the direction of a call.
  function AmountOf(c: Core, op: MoneyOp): nat {
    match op
    case Deposit(_, amount) => amount
    case WithdrawUnused(_, amount) => amount
    case Claim(sender) => Get(c.claimable, sender)
  }

  // Whatever the token calls back into, short of token transfers of others, a deposit takes exactly its amount from its
  // sender, and a withdrawal or a claim pays exactly its amount to its sender; nobody else's tokens move.
  lemma TransactionMoves(w: World, op: MoneyOp, before: seq<Label>, after: seq<Label>)
    requires w.call.None? && op.sender != w.core.self && Transaction(w, op, before, after).Ok?
    requires (forall l | l in before :: Callback(l)) && (forall l | l in after :: Callback(l))
    ensures var c, c' := w.core, Transaction(w, op, before, after).value.core;
            var amount := AmountOf(c, op);
            if op.Deposit? then TokensGo(c.usdc, c'.usdc, op.sender, c.self, amount)
            else TokensGo(c.usdc, c'.usdc, c.self, op.sender, amount)
  {
    var begun := Step(w, Label.Money(op)).value;
    assert begun.core.usdc == w.core.usdc && begun.core.self == w.core.self && begun.core.entered;
    CallbacksKeepTokens(begun, before);
    var reached := Run(begun, before);
    var paid := Step(reached, TokenMoves).value;
    PaidGoes(reached.core, reached.call.value);
    CallbacksKeepTokens(paid, after);
  }

  lemma MoveGoes(c: Core, payer: Address, payee: Address, amount: nat)
    requires MoveTokens(c, payer, payee, amount).Ok?
    ensures TokensGo(c.usdc, MoveTokens(c, payer, payee, amount).value.usdc, payer, payee, amount)
  {
    var usdc' := MoveTokens(c, payer, payee, amount).value.usdc;
    forall a: Address
      ensures Get(usdc', a) == Get(c.usdc, a) - (if a == payer then amount else 0) + (if a == payee then amount else 0)
    {
      MoveIsExact(c, payer, payee, amount, a);
    }
  }

  lemma PaidGoes(c: Core, call: Call)
    requires Pay(c, call).Ok?
    ensures var c' := Pay(c, call).value;
            && c'.entered == c.entered && c'.self == c.self
            && if call.kind.DepositCall? then TokensGo(c.usdc, c'.usdc, call.who, c.self, call.amount)
               else TokensGo(c.usdc, c'.usdc, c.self, call.who, call.amount)
  {
    if call.kind.DepositCall? {
      MoveGoes(c, call.who, c.self, call.amount);
    } else {
      MoveGoes(c, c.self, call.who, call.amount);
    }
  }

  // ------------------------------------------------------------ prices in plain numbers

  // Every open in the log locked the hourly rate in cents, 10_000 base units each, for its window, rounded up.
  lemma EveryOpenLocksItsTerms(w: World, o: Event)
    requires Reachable(w) && Emitted(w.core.log, o) && o.BookingOpened?
    ensures o.ratePerHourCents * 10_000 * o.maxDurationSecs <= 3600 * o.lockedAmount
    ensures 3600 * o.lockedAmount < o.ratePerHourCents * 10_000 * o.maxDurationSecs + 3600
    ensures o.commissionBps <= 2_000 && o.maxDurationSecs > 0
  {
    ReachableIsSound(w);
    assert EventAgrees(w.core.bookings, o);
    assert BookingSound(w.core.bookings[o.bookingId], w.now);
    LockInNumbers(o.ratePerHourCents, o.maxDurationSecs);
  }

  lemma LockInNumbers(rate: nat, secs: nat)
    ensures rate * 10_000 * secs <= 3600 * LockFor(rate, secs) < rate * 10_000 * secs + 3600
  {
    var p := rate * 10_000 * secs;
    assert Product(rate, secs) == p;
    if p > 0 {
      assert p - 1 == (p - 1) / 3600 * 3600 + (p - 1) % 3600;
    }
  }

  // And every close charged it for its usage, rounded down, with the commission rounded down out of it.
  lemma EveryCloseIsPriced(w: World, e: Event) returns (o: Event)
    requires Reachable(w) && Emitted(w.core.log, e) && e.BookingSettled?
    ensures Emitted(w.core.log, o) && o.BookingOpened? && o.bookingId == e.bookingId
    ensures 3600 * e.cost <= o.ratePerHourCents * 10_000 * e.usageSeconds < 3600 * e.cost + 3600
    ensures 10_000 * e.commission <= e.cost * o.commissionBps < 10_000 * e.commission + 10_000
  {
    o := EveryCloseBillsItsOpen(w, e);
    PriceInNumbers(o.ratePerHourCents, e.usageSeconds);
    ShareInNumbers(e.cost, o.commissionBps);
  }

  lemma PriceInNumbers(rate: nat, secs: nat)
    ensures 3600 * Cost(rate, secs) <= rate * 10_000 * secs < 3600 * Cost(rate, secs) + 3600
  {
    var p := rate * 10_000 * secs;
    assert Product(rate, secs) == p && p == p / 3600 * 3600 + p % 3600;
  }

  lemma ShareInNumbers(cost: nat, bps: nat)
    ensures 10_000 * CommissionOn(cost, bps) <= cost * bps < 10_000 * CommissionOn(cost, bps) + 10_000
  {
    var p := cost * bps;
    assert p == p / 10_000 * 10_000 + p % 10_000;
  }

  // The widths are the powers of two they stand for.
  lemma WidthsArePowers()
    ensures UINT16_LIMIT == 65_536 && UINT32_LIMIT == UINT16_LIMIT * UINT16_LIMIT
    ensures UINT64_LIMIT == UINT32_LIMIT * UINT32_LIMIT && UINT96_LIMIT == UINT64_LIMIT * UINT32_LIMIT
    ensures UINT256_LIMIT == UINT64_LIMIT * UINT64_LIMIT * UINT64_LIMIT * UINT64_LIMIT
  {
  }
}
