// The ClawEscrow contract on values: storage, every external function with its reverts in source order,
// and the machine that runs them. A money-moving function is split at its external token transfer, so other
// calls can run in between.
module Escrow {
  import opened Wrappers
  import opened MapSums
  import opened EscrowMath

  // Accounts matter only up to equality and being the zero address.
  type Address = nat
  type BookingId = string

  const ZERO_ADDRESS: Address := 0

  datatype Status = Unset | Open | Settled | Cancelled

  datatype Booking = Booking(
    consumer: Address,
    supplier: Address,
    ratePerHourCents: uint96,
    lockedAmount: nat,
    openedAt: nat,
    maxDurationSecs: uint32,
    commissionBps: nat,
    status: Status)

  datatype Event =
    | Deposited(consumer: Address, amount: nat)
    | Withdrawn(consumer: Address, amount: nat)
    | BookingOpened(bookingId: BookingId, consumer: Address, supplier: Address, ratePerHourCents: nat,
                    maxDurationSecs: nat, lockedAmount: nat, commissionBps: nat)
    | BookingSettled(bookingId: BookingId, consumer: Address, supplier: Address, usageSeconds: nat,
                     cost: nat, commission: nat, cancelled: bool)
    | Claimed(account: Address, amount: nat)
    | CommissionUpdated(bps: nat)
    | TreasuryUpdated(treasury: Address)
    | Paused(account: Address)
    | Unpaused(account: Address)
    | Transferred(payer: Address, payee: Address, amount: nat) // by the token, between other accounts

  // The emitted events, newest outermost.
  datatype EventLog = NoEvents | Emit(past: EventLog, event: Event)

  datatype Error =
    | ZeroAddress
    | ZeroAmount
    | BookingExists(bookingId: BookingId)
    | BookingNotOpen(bookingId: BookingId)
    | InsufficientFreeEscrow(requested: nat, free: nat)
    | UsageOutOfBounds(usageSeconds: nat, maxAllowed: nat)
    | CommissionTooHigh(bps: nat)
    | NothingToClaim
    | Unauthorized
    | EnforcedPause
    | ExpectedPause
    | ReentrantCall
    | TransferFailed
    | Panic       // checked uint256 arithmetic left its range
    | NotPossible // no such step exists in this control state

  // Contract storage, the token's balances and the emitted events.
  datatype Core = Core(
    self: Address,
    settlers: set<Address>,
    admins: set<Address>,
    initialTreasury: Address,
    treasury: Address,
    commissionBps: nat,
    paused: bool,
    entered: bool,
    escrow: map<Address, nat>,
    lockedOf: map<Address, nat>,
    claimable: map<Address, nat>,
    bookings: map<BookingId, Booking>,
    usdc: map<Address, nat>,
    log: EventLog)

  // ------------------------------------------------------------ checked uint256 arithmetic

  function CheckedAdd(a: nat, b: nat): Result<nat, Error> {
    if a + b < UINT256_LIMIT then Ok(a + b) else Err(Panic)
  }

  function CheckedSub(a: nat, b: nat): Result<nat, Error> {
    if b <= a then Ok(a - b) else Err(Panic)
  }

  function Within(a: nat): Result<nat, Error> {
    if a < UINT256_LIMIT then Ok(a) else Err(Panic)
  }

  // ------------------------------------------------------------ views

  function StatusOf(c: Core, id: BookingId): Status {
    if id in c.bookings then c.bookings[id].status else Unset
  }

  function FreeEscrowOf(c: Core, consumer: Address): Result<nat, Error> {
    CheckedSub(Get(c.escrow, consumer), Get(c.lockedOf, consumer))
  }

  function Quote(rate: uint96, usageSeconds: nat): Result<nat, Error> {
    var product :- Within(Product(rate, usageSeconds));
    Ok(product / SECS_PER_HOUR)
  }

  // ------------------------------------------------------------ guarded functions, up to the transfer

  function BeginDeposit(c: Core, sender: Address, amount: nat): Result<Core, Error> {
    if c.paused then Err(EnforcedPause)
    else if c.entered then Err(ReentrantCall)
    else if amount == 0 then Err(ZeroAmount)
    else
      var balance :- CheckedAdd(Get(c.escrow, sender), amount);
      Ok(c.(entered := true, escrow := c.escrow[sender := balance]))
  }

  function BeginWithdraw(c: Core, sender: Address, amount: nat): Result<Core, Error> {
    if c.entered then Err(ReentrantCall)
    else if amount == 0 then Err(ZeroAmount)
    else
      var free :- FreeEscrowOf(c, sender);
      if amount > free then Err(InsufficientFreeEscrow(amount, free))
      else
        var balance :- CheckedSub(Get(c.escrow, sender), amount);
        Ok(c.(entered := true, escrow := c.escrow[sender := balance]))
  }

  function BeginClaim(c: Core, sender: Address): Result<Core, Error> {
    if c.entered then Err(ReentrantCall)
    else if Get(c.claimable, sender) == 0 then Err(NothingToClaim)
    else Ok(c.(entered := true, claimable := c.claimable[sender := 0]))
  }

  // The token: exact transfers, refused when the payer is short.
  function MoveTokens(c: Core, payer: Address, payee: Address, amount: nat): Result<Core, Error> {
    if Get(c.usdc, payer) < amount then Err(TransferFailed)
    else
      var debited := c.usdc[payer := Get(c.usdc, payer) - amount];
      Ok(c.(usdc := debited[payee := Get(debited, payee) + amount]))
  }

  // A transfer that the contract has no part in.
  function OutsideTransfer(c: Core, payer: Address, payee: Address, amount: nat): Result<Core, Error> {
    var moved :- MoveTokens(c, payer, payee, amount);
    Ok(moved.(log := Emit(moved.log, Transferred(payer, payee, amount))))
  }

  // ------------------------------------------------------------ settler

  function OpenBooking(c: Core, now: nat, sender: Address, id: BookingId, consumer: Address, supplier: Address,
                       rate: uint96, maxSecs: uint32): Result<Core, Error>
  {
    if sender !in c.settlers then Err(Unauthorized)
    else if c.paused then Err(EnforcedPause)
    else if consumer == ZERO_ADDRESS || supplier == ZERO_ADDRESS then Err(ZeroAddress)
    else if maxSecs == 0 then Err(ZeroAmount)
    else if StatusOf(c, id) != Unset then Err(BookingExists(id))
    else
      var product :- Within(Product(rate, maxSecs));
      var lock := CeilDiv(product, SECS_PER_HOUR);
      var free :- FreeEscrowOf(c, consumer);
      if lock > free then Err(InsufficientFreeEscrow(lock, free))
      else
        var locked :- CheckedAdd(Get(c.lockedOf, consumer), lock);
        Ok(c.(lockedOf := c.lockedOf[consumer := locked],
              bookings := c.bookings[id := Booking(consumer, supplier, rate, lock, now % UINT64_LIMIT, maxSecs,
                                                   c.commissionBps, Status.Open)],
              log := Emit(c.log, BookingOpened(id, consumer, supplier, rate, maxSecs, lock, c.commissionBps))))
  }

  datatype Bill = Bill(cost: nat, commission: nat)

  // The reads and checks of _settle up to the first write.
  function MakeBill(c: Core, now: nat, id: BookingId, usageSeconds: nat): Result<Bill, Error> {
    if StatusOf(c, id) != Status.Open then Err(BookingNotOpen(id))
    else
      var b := c.bookings[id];
      var sinceOpen :- CheckedSub(now, b.openedAt);
      var elapsed :- CheckedAdd(sinceOpen, SETTLE_GRACE_SECS);
      var maxAllowed := if b.maxDurationSecs < elapsed then b.maxDurationSecs else elapsed;
      if usageSeconds > maxAllowed then Err(UsageOutOfBounds(usageSeconds, maxAllowed))
      else
        var quoted :- Quote(b.ratePerHourCents, usageSeconds);
        var cost := if quoted > b.lockedAmount then b.lockedAmount else quoted;
        var scaled :- Within(cost * b.commissionBps);
        Ok(Bill(cost, scaled / BPS_SCALE))
  }

  // The supplier is credited first, then the treasury; the two may be one account.
  function Credit(c: Core, supplier: Address, bill: Bill): Result<map<Address, nat>, Error> {
    var pay :- CheckedSub(bill.cost, bill.commission);
    var earned :- CheckedAdd(Get(c.claimable, supplier), pay);
    var claimable := c.claimable[supplier := earned];
    if bill.commission > 0 then
      var fee :- CheckedAdd(Get(claimable, c.treasury), bill.commission);
      Ok(claimable[c.treasury := fee])
    else
      Ok(claimable)
  }

  // The writes of _settle.
  function Charge(c: Core, id: BookingId, usageSeconds: nat, bill: Bill, cancelled: bool): Result<Core, Error>
    requires id in c.bookings
  {
    var b := c.bookings[id];
    var locked :- CheckedSub(Get(c.lockedOf, b.consumer), b.lockedAmount);
    var balance :- CheckedSub(Get(c.escrow, b.consumer), bill.cost);
    var claimable :- Credit(c, b.supplier, bill);
    Ok(c.(bookings := c.bookings[id := b.(status := if cancelled then Cancelled else Settled)],
          lockedOf := c.lockedOf[b.consumer := locked],
          escrow := c.escrow[b.consumer := balance],
          claimable := claimable,
          log := Emit(c.log, BookingSettled(id, b.consumer, b.supplier, usageSeconds, bill.cost, bill.commission,
                                            cancelled))))
  }

  function Close(c: Core, now: nat, sender: Address, id: BookingId, usageSeconds: nat, cancelled: bool)
    : Result<Core, Error>
  {
    if sender !in c.settlers then Err(Unauthorized)
    else
      var bill :- MakeBill(c, now, id, usageSeconds);
      Charge(c, id, usageSeconds, bill, cancelled)
  }

  // ------------------------------------------------------------ admin

  function SetCommissionBps(c: Core, sender: Address, bps: nat): Result<Core, Error> {
    if sender !in c.admins then Err(Unauthorized)
    else if bps > MAX_COMMISSION_BPS then Err(CommissionTooHigh(bps))
    else Ok(c.(commissionBps := bps, log := Emit(c.log, CommissionUpdated(bps))))
  }

  function SetTreasury(c: Core, sender: Address, treasury: Address): Result<Core, Error> {
    if sender !in c.admins then Err(Unauthorized)
    else if treasury == ZERO_ADDRESS then Err(ZeroAddress)
    else Ok(c.(treasury := treasury, log := Emit(c.log, TreasuryUpdated(treasury))))
  }

  function SetPaused(c: Core, sender: Address, paused: bool): Result<Core, Error> {
    if sender !in c.admins then Err(Unauthorized)
    else if c.paused == paused then Err(if paused then EnforcedPause else ExpectedPause)
    else Ok(c.(paused := paused, log := Emit(c.log, if paused then Paused(sender) else Unpaused(sender))))
  }

  // ------------------------------------------------------------ the machine

  datatype Kind = DepositCall | WithdrawCall | ClaimCall

  // A money-moving call between its effects and its return; moved says whether the token has moved yet.
  datatype Call = Call(kind: Kind, who: Address, amount: nat, moved: bool)

  // committed is what the last finished transaction left behind.
  datatype World = World(core: Core, committed: Core, now: nat, call: Option<Call>)

  // The functions with a reentrancy guard.
  datatype MoneyOp =
    | Deposit(sender: Address, amount: nat)
    | WithdrawUnused(sender: Address, amount: nat)
    | Claim(sender: Address)

  // The functions without one, and token traffic between other accounts.
  datatype PlainOp =
    | Open(sender: Address, id: BookingId, consumer: Address, supplier: Address, rate: uint96, maxSecs: uint32)
    | Settle(sender: Address, id: BookingId, usageSeconds: nat)
    | Cancel(sender: Address, id: BookingId, usageSeconds: nat)
    | ChangeCommission(sender: Address, bps: nat)
    | ChangeTreasury(sender: Address, treasury: Address)
    | Pause(sender: Address)
    | Unpause(sender: Address)
    | Transfer(payer: Address, payee: Address, amount: nat)

  datatype Label =
    | Money(money: MoneyOp)
    | Plain(plain: PlainOp)
    | TokenMoves // the token contract moves the balance of the call in flight
    | Finish     // the call in flight returns
    | Revert     // the token refuses or a callback reverts: the whole transaction is undone
    | Tick(time: nat)

  // The zero address and the contract never sign a transaction, and nobody sends it tokens outside deposit.
  predicate Admissible(self: Address, l: Label) {
    match l
    case Money(op) => op.sender != ZERO_ADDRESS && op.sender != self
    case Plain(Transfer(payer, payee, _)) => payer != self && payee != self
    case _ => true
  }

  function Apply(c: Core, now: nat, op: PlainOp): Result<Core, Error> {
    match op
    case Open(sender, id, consumer, supplier, rate, maxSecs) =>
      OpenBooking(c, now, sender, id, consumer, supplier, rate, maxSecs)
    case Settle(sender, id, usage) => Close(c, now, sender, id, usage, false)
    case Cancel(sender, id, usage) => Close(c, now, sender, id, usage, true)
    case ChangeCommission(sender, bps) => SetCommissionBps(c, sender, bps)
    case ChangeTreasury(sender, treasury) => SetTreasury(c, sender, treasury)
    case Pause(sender) => SetPaused(c, sender, true)
    case Unpause(sender) => SetPaused(c, sender, false)
    case Transfer(payer, payee, amount) => OutsideTransfer(c, payer, payee, amount)
  }

  function CallOf(c: Core, op: MoneyOp): Call {
    match op
    case Deposit(sender, amount) => Call(DepositCall, sender, amount, false)
    case WithdrawUnused(sender, amount) => Call(WithdrawCall, sender, amount, false)
    case Claim(sender) => Call(ClaimCall, sender, Get(c.claimable, sender), false)
  }

  function Begin(c: Core, op: MoneyOp): Result<Core, Error> {
    match op
    case Deposit(sender, amount) => BeginDeposit(c, sender, amount)
    case WithdrawUnused(sender, amount) => BeginWithdraw(c, sender, amount)
    case Claim(sender) => BeginClaim(c, sender)
  }

  function Pay(c: Core, call: Call): Result<Core, Error> {
    if call.kind.DepositCall? then MoveTokens(c, call.who, c.self, call.amount)
    else MoveTokens(c, c.self, call.who, call.amount)
  }

  function Receipt(call: Call): Event {
    match call.kind
    case DepositCall => Deposited(call.who, call.amount)
    case WithdrawCall => Withdrawn(call.who, call.amount)
    case ClaimCall => Claimed(call.who, call.amount)
  }

  function Return(c: Core, call: Call): Core {
    c.(entered := false, log := Emit(c.log, Receipt(call)))
  }

  // A top-level transaction commits at once; a nested call is committed by the call it runs in.
  function Put(w: World, c: Core): World {
    if w.call.None? then w.(core := c, committed := c) else w.(core := c)
  }

  function Step(w: World, l: Label): Result<World, Error> {
    match l
    case Money(op) =>
      var c :- Begin(w.core, op);
      Ok(w.(core := c, call := Some(CallOf(w.core, op))))
    case Plain(op) =>
      var c :- Apply(w.core, w.now, op);
      Ok(Put(w, c))
    case TokenMoves =>
      if w.call.None? || w.call.value.moved then Err(NotPossible)
      else
        var c :- Pay(w.core, w.call.value);
        Ok(w.(core := c, call := Some(w.call.value.(moved := true))))
    case Finish =>
      if w.call.None? || !w.call.value.moved then Err(NotPossible)
      else
        var c := Return(w.core, w.call.value);
        Ok(w.(core := c, committed := c, call := None))
    case Revert =>
      if w.call.None? then Err(NotPossible) else Ok(w.(core := w.committed, call := None))
    case Tick(time) =>
      if w.call.Some? || time < w.now || time + SETTLE_GRACE_SECS >= UINT256_LIMIT then Err(NotPossible)
      else Ok(w.(now := time))
  }

  // A call that reverts, or that cannot be made, changes nothing.
  function Next(w: World, l: Label): World {
    if Admissible(w.core.self, l) && Step(w, l).Ok? then Step(w, l).value else w
  }

  function Run(w: World, ls: seq<Label>): World
    decreases |ls|
  {
    if ls == [] then w else Run(Next(w, ls[0]), ls[1..])
  }

  // A call made from inside a token transfer.
  predicate Nested(l: Label) {
    l.Money? || l.Plain?
  }

  // One money-moving transaction whose transfer runs some calls before and some after the balances move.
  function Transaction(w: World, op: MoneyOp, before: seq<Label>, after: seq<Label>): Result<World, Error> {
    var begun :- Step(w, Money(op));
    var paid :- Step(Run(begun, before), TokenMoves);
    Step(Run(paid, after), Finish)
  }

  datatype Deployment = Deployment(self: Address, token: Address, usdc: map<Address, nat>, treasury: Address,
                                   commissionBps: nat, admin: Address, settler: Address)

  // The storage a deployment leaves; it fails on a zero address or an excessive commission.
  function Deploy(d: Deployment): Result<Core, Error> {
    if d.token == ZERO_ADDRESS || d.treasury == ZERO_ADDRESS || d.admin == ZERO_ADDRESS then Err(ZeroAddress)
    else if d.commissionBps > MAX_COMMISSION_BPS then Err(CommissionTooHigh(d.commissionBps))
    else
      Ok(Core(d.self, if d.settler == ZERO_ADDRESS then {} else {d.settler}, {d.admin}, d.treasury, d.treasury,
              d.commissionBps, false, false, map[], map[], map[], map[], d.usdc, NoEvents))
  }

  // A new contract at some time: the token supply and the clock fit uint256, and nobody sent it tokens yet.
  ghost predicate Genesis(d: Deployment, w: World) {
    && Deploy(d) == Ok(w.core)
    && w.committed == w.core
    && w.call.None?
    && Sum(d.usdc) < UINT256_LIMIT
    && Get(d.usdc, d.self) == 0
    && w.now + SETTLE_GRACE_SECS < UINT256_LIMIT
  }

  // The states some run of some deployment passes through.
  ghost predicate Reachable(w: World) {
    exists d, w0, ls :: Genesis(d, w0) && w == Run(w0, ls)
  }

  lemma {:induction false} RunAppend(w: World, a: seq<Label>, b: seq<Label>)
    ensures Run(w, a + b) == Run(Run(w, a), b)
    decreases |a|
  {
    if a == [] {
      assert a + b == b;
    } else {
      assert (a + b)[1..] == a[1..] + b;
      RunAppend(Next(w, a[0]), a[1..], b);
    }
  }

  lemma ReachableRun(w: World, ls: seq<Label>)
    requires Reachable(w)
    ensures Reachable(Run(w, ls))
  {
    var d, w0, before :| Genesis(d, w0) && w == Run(w0, before);
    RunAppend(w0, before, ls);
  }

  lemma ReachableNext(w: World, l: Label)
    requires Reachable(w)
    ensures Reachable(Next(w, l))
  {
    assert [l][1..] == [];
    assert Run(w, [l]) == Next(w, l);
    ReachableRun(w, [l]);
  }
}
