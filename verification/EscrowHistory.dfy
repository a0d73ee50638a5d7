// What the event log alone says about everybody's tokens, the commission rate and the pause flag, at every point of
// every run of every deployment.
module EscrowHistory {
  import opened Wrappers
  import opened MapSums
  import opened Escrow
  import opened EscrowInvariant

  // ------------------------------------------------------------ what the log says

  // The rate of the newest change, or the deployment's.
  function RateAt(log: EventLog, first: nat): nat {
    match log
    case NoEvents => first
    case Emit(past, e) => if e.CommissionUpdated? then e.bps else RateAt(past, first)
  }

  predicate PausedAt(log: EventLog) {
    match log
    case NoEvents => false
    case Emit(past, e) => if e.Paused? then true else if e.Unpaused? then false else PausedAt(past)
  }

  // Every booking ever opened carries the rate in force at its place in the log, and none was opened during a pause.
  predicate OpensInForce(log: EventLog, first: nat) {
    match log
    case NoEvents => true
    case Emit(past, e) =>
      && OpensInForce(past, first)
      && (e.BookingOpened? ==> e.commissionBps == RateAt(past, first) && !PausedAt(past))
  }

  // What the call in flight has moved out of an account or into it without an event for it yet.
  function MovedBy(call: Option<Call>, kinds: set<Kind>, a: Address): nat {
    if call.Some? && call.value.moved && call.value.kind in kinds && call.value.who == a then call.value.amount else 0
  }

  // An account's tokens now and everything it gave are its first tokens and everything it got.
  predicate TokensBalance(first: map<Address, nat>, log: EventLog, treasury: Address, call: Option<Call>,
                          usdc: map<Address, nat>, a: Address)
  {
    var total := (col: Column) => Tally(log, treasury, col);
    Get(usdc, a) + total(DepositedBy(a)) + total(SentBy(a)) + MovedBy(call, {DepositCall}, a)
    == Get(first, a) + total(WithdrawnBy(a)) + total(ClaimedBy(a)) + total(ReceivedBy(a))
       + MovedBy(call, {WithdrawCall, ClaimCall}, a)
  }

  ghost predicate TokensAccounted(first: map<Address, nat>, c: Core, call: Option<Call>) {
    forall a: Address | a != c.self :: TokensBalance(first, c.log, c.initialTreasury, call, c.usdc, a)
  }

  predicate FlagsAccounted(first: nat, c: Core) {
    && c.commissionBps == RateAt(c.log, first)
    && c.paused == PausedAt(c.log)
    && OpensInForce(c.log, first)
  }

  ghost predicate Accounted(d: Deployment, c: Core, call: Option<Call>) {
    TokensAccounted(d.usdc, c, call) && FlagsAccounted(d.commissionBps, c) && c.self == d.self
  }

  // ------------------------------------------------------------ every step

  predicate MovesTokens(e: Event) {
    e.Deposited? || e.Withdrawn? || e.Claimed? || e.Transferred?
  }

  // A function without a guard emits one event, which is no token event, and touches no tokens.
  lemma PlainEmits(c: Core, now: nat, op: PlainOp)
    requires Apply(c, now, op).Ok? && !op.Transfer?
    ensures var c' := Apply(c, now, op).value;
            && c'.log.Emit? && c'.log.past == c.log && !MovesTokens(c'.log.event)
            && c'.usdc == c.usdc && c'.self == c.self && c'.initialTreasury == c.initialTreasury
  {
  }

  lemma OtherEventKeepsTokens(first: map<Address, nat>, log: EventLog, treasury: Address, call: Option<Call>,
                              usdc: map<Address, nat>, a: Address, e: Event)
    requires TokensBalance(first, log, treasury, call, usdc, a) && !MovesTokens(e)
    ensures TokensBalance(first, Emit(log, e), treasury, call, usdc, a)
  {
  }

  // A move adds to the payee what it takes from the payer, who may be the same account, and to nobody else.
  lemma MoveIsExact(c: Core, payer: Address, payee: Address, amount: nat, a: Address)
    requires MoveTokens(c, payer, payee, amount).Ok?
    ensures var c' := MoveTokens(c, payer, payee, amount).value;
            && Get(c'.usdc, a) + If(a == payer, amount) == Get(c.usdc, a) + If(a == payee, amount)
            && c' == c.(usdc := c'.usdc)
  {
  }

  lemma TransferBalances(first: map<Address, nat>, log: EventLog, treasury: Address, call: Option<Call>,
                         usdc: map<Address, nat>, usdc': map<Address, nat>, payer: Address, payee: Address,
                         amount: nat, a: Address)
    requires TokensBalance(first, log, treasury, call, usdc, a)
    requires Get(usdc', a) + If(a == payer, amount) == Get(usdc, a) + If(a == payee, amount)
    ensures TokensBalance(first, Emit(log, Transferred(payer, payee, amount)), treasury, call, usdc', a)
  {
  }

  lemma TransferKeepsTokens(d: Deployment, c: Core, call: Option<Call>, payer: Address, payee: Address, amount: nat)
    requires TokensAccounted(d.usdc, c, call) && OutsideTransfer(c, payer, payee, amount).Ok?
    ensures TokensAccounted(d.usdc, OutsideTransfer(c, payer, payee, amount).value, call)
  {
    var c' := OutsideTransfer(c, payer, payee, amount).value;
    forall a: Address | a != c'.self
      ensures TokensBalance(d.usdc, c'.log, c'.initialTreasury, call, c'.usdc, a)
    {
      MoveIsExact(c, payer, payee, amount, a);
      TransferBalances(d.usdc, c.log, c.initialTreasury, call, c.usdc, c'.usdc, payer, payee, amount, a);
    }
  }

  lemma OthersKeepTokens(d: Deployment, c: Core, c': Core, call: Option<Call>)
    requires TokensAccounted(d.usdc, c, call)
    requires c'.log.Emit? && c'.log.past == c.log && !MovesTokens(c'.log.event)
    requires c'.usdc == c.usdc && c'.self == c.self && c'.initialTreasury == c.initialTreasury
    ensures TokensAccounted(d.usdc, c', call)
  {
    forall a: Address | a != c'.self
      ensures TokensBalance(d.usdc, c'.log, c'.initialTreasury, call, c'.usdc, a)
    {
      OtherEventKeepsTokens(d.usdc, c.log, c.initialTreasury, call, c.usdc, a, c'.log.event);
    }
  }

  lemma PlainKeepsTokens(d: Deployment, c: Core, now: nat, call: Option<Call>, op: PlainOp)
    requires TokensAccounted(d.usdc, c, call) && Apply(c, now, op).Ok?
    ensures TokensAccounted(d.usdc, Apply(c, now, op).value, call)
  {
    if op.Transfer? {
      TransferKeepsTokens(d, c, call, op.payer, op.payee, op.amount);
    } else {
      PlainEmits(c, now, op);
      OthersKeepTokens(d, c, Apply(c, now, op).value, call);
    }
  }

  lemma BeginKeepsTokens(d: Deployment, c: Core, op: MoneyOp)
    requires TokensAccounted(d.usdc, c, None) && Begin(c, op).Ok?
    ensures TokensAccounted(d.usdc, Begin(c, op).value, Some(CallOf(c, op)))
  {
    var c' := Begin(c, op).value;
    assert c'.usdc == c.usdc && c'.log == c.log && c'.self == c.self && c'.initialTreasury == c.initialTreasury;
    forall a: Address | a != c'.self
      ensures TokensBalance(d.usdc, c'.log, c'.initialTreasury, Some(CallOf(c, op)), c'.usdc, a)
    {
      assert TokensBalance(d.usdc, c.log, c.initialTreasury, None, c.usdc, a);
    }
  }

  lemma PaidBalances(first: map<Address, nat>, log: EventLog, treasury: Address, call: Call,
                     usdc: map<Address, nat>, usdc': map<Address, nat>, self: Address, a: Address)
    requires TokensBalance(first, log, treasury, Some(call), usdc, a) && !call.moved && a != self
    requires Get(usdc', a) + If(a == call.who && call.kind.DepositCall?, call.amount)
             == Get(usdc, a) + If(a == call.who && !call.kind.DepositCall?, call.amount)
    ensures TokensBalance(first, log, treasury, Some(call.(moved := true)), usdc', a)
  {
  }

  // The token takes a deposit from the account that made it, and pays a withdrawal or a claim to that account.
  lemma PayIsExact(c: Core, call: Call, a: Address)
    requires Pay(c, call).Ok? && a != c.self
    ensures Get(Pay(c, call).value.usdc, a) + If(a == call.who && call.kind.DepositCall?, call.amount)
            == Get(c.usdc, a) + If(a == call.who && !call.kind.DepositCall?, call.amount)
  {
    if call.kind.DepositCall? {
      MoveIsExact(c, call.who, c.self, call.amount, a);
    } else {
      MoveIsExact(c, c.self, call.who, call.amount, a);
    }
  }

  lemma PayKeepsTokens(d: Deployment, c: Core, call: Call)
    requires TokensAccounted(d.usdc, c, Some(call)) && !call.moved && call.who != c.self && Pay(c, call).Ok?
    ensures TokensAccounted(d.usdc, Pay(c, call).value, Some(call.(moved := true)))
  {
    var c' := Pay(c, call).value;
    assert c' == c.(usdc := c'.usdc);
    forall a: Address | a != c'.self
      ensures TokensBalance(d.usdc, c'.log, c'.initialTreasury, Some(call.(moved := true)), c'.usdc, a)
    {
      PayIsExact(c, call, a);
      PaidBalances(d.usdc, c.log, c.initialTreasury, call, c.usdc, c'.usdc, c.self, a);
    }
  }

  lemma ReturnKeepsTokens(d: Deployment, c: Core, call: Call)
    requires TokensAccounted(d.usdc, c, Some(call)) && call.moved
    ensures TokensAccounted(d.usdc, Return(c, call), None)
  {
    var c' := Return(c, call);
    forall a: Address | a != c'.self
      ensures TokensBalance(d.usdc, c'.log, c'.initialTreasury, None, c'.usdc, a)
    {
      assert TokensBalance(d.usdc, c.log, c.initialTreasury, Some(call), c.usdc, a);
    }
  }

  lemma PlainKeepsFlags(first: nat, c: Core, now: nat, op: PlainOp)
    requires FlagsAccounted(first, c) && Apply(c, now, op).Ok?
    ensures FlagsAccounted(first, Apply(c, now, op).value)
  {
  }

  lemma MoneyKeepsFlags(first: nat, c: Core, op: MoneyOp)
    requires FlagsAccounted(first, c) && Begin(c, op).Ok?
    ensures FlagsAccounted(first, Begin(c, op).value) && Begin(c, op).value.self == c.self
  {
  }

  lemma PayKeepsFlags(first: nat, c: Core, call: Call)
    requires FlagsAccounted(first, c) && Pay(c, call).Ok?
    ensures FlagsAccounted(first, Pay(c, call).value) && Pay(c, call).value.self == c.self
  {
  }

  ghost predicate WorldAccounted(d: Deployment, w: World) {
    Accounted(d, w.core, w.call) && Accounted(d, w.committed, None)
  }

  lemma StepAccounted(d: Deployment, w: World, l: Label)
    requires Inv(w) && WorldAccounted(d, w) && Admissible(w.core.self, l) && Step(w, l).Ok?
    ensures WorldAccounted(d, Step(w, l).value)
  {
    var c := w.core;
    match l
    case Money(op) =>
      BeginKeepsTokens(d, c, op);
      MoneyKeepsFlags(d.commissionBps, c, op);
    case Plain(op) =>
      PlainKeepsTokens(d, c, w.now, w.call, op);
      PlainKeepsFlags(d.commissionBps, c, w.now, op);
      PlainKeepsSelf(c, w.now, op);
    case TokenMoves =>
      PayKeepsTokens(d, c, w.call.value);
      PayKeepsFlags(d.commissionBps, c, w.call.value);
    case Finish => ReturnKeepsTokens(d, c, w.call.value);
    case Revert =>
    case Tick(_) =>
  }

  lemma {:induction false} RunAccounted(d: Deployment, w: World, ls: seq<Label>)
    requires Inv(w) && WorldAccounted(d, w)
    ensures WorldAccounted(d, Run(w, ls))
    decreases |ls|
  {
    if ls != [] {
      if Admissible(w.core.self, ls[0]) && Step(w, ls[0]).Ok? {
        StepAccounted(d, w, ls[0]);
        StepKeepsInv(w, ls[0]);
      }
      RunAccounted(d, Next(w, ls[0]), ls[1..]);
    }
  }

  lemma GenesisAccounted(d: Deployment, w0: World)
    requires Genesis(d, w0)
    ensures WorldAccounted(d, w0)
  {
    forall a: Address ensures TokensBalance(d.usdc, w0.core.log, w0.core.initialTreasury, None, w0.core.usdc, a) {
    }
  }

  // ------------------------------------------------------------ main results

  // At every point of every run, every account but the contract has exactly the tokens it started with, less what it
  // deposited and sent, plus what it withdrew, claimed and received: nobody's withdrawal or claim goes elsewhere.
  lemma TokensFollowTheLog(d: Deployment, w0: World, ls: seq<Label>, a: Address)
    requires Genesis(d, w0) && a != d.self
    ensures var w := Run(w0, ls);
            TokensBalance(d.usdc, w.core.log, w.core.initialTreasury, w.call, w.core.usdc, a)
  {
    GenesisIsSound(d, w0);
    GenesisAccounted(d, w0);
    RunAccounted(d, w0, ls);
    assert Accounted(d, Run(w0, ls).core, Run(w0, ls).call);
  }

  // And the commission rate and the pause are what the newest change says, every booking was opened at the rate in
  // force at that moment, and none during a pause.
  lemma FlagsFollowTheLog(d: Deployment, w0: World, ls: seq<Label>)
    requires Genesis(d, w0)
    ensures var c := Run(w0, ls).core;
            && c.commissionBps == RateAt(c.log, d.commissionBps)
            && c.paused == PausedAt(c.log)
            && OpensInForce(c.log, d.commissionBps)
  {
    GenesisIsSound(d, w0);
    GenesisAccounted(d, w0);
    RunAccounted(d, w0, ls);
    assert Accounted(d, Run(w0, ls).core, Run(w0, ls).call);
  }
}
