// Full exit: from every reachable state all parties can be paid out, paused or not.
module EscrowExit {
  import opened Wrappers
  import opened MapSums
  import opened Escrow
  import opened EscrowInvariant
  import opened EscrowTheorems

  // Every call of the script succeeds.
  predicate AllSucceed(w: World, ls: seq<Label>)
    decreases |ls|
  {
    ls == [] || (Admissible(w.core.self, ls[0]) && Step(w, ls[0]).Ok? && AllSucceed(Next(w, ls[0]), ls[1..]))
  }

  lemma {:induction false} SucceedAppend(w: World, a: seq<Label>, b: seq<Label>)
    requires AllSucceed(w, a) && AllSucceed(Run(w, a), b)
    ensures AllSucceed(w, a + b) && Run(w, a + b) == Run(Run(w, a), b)
    decreases |a|
  {
    if a == [] {
      assert a + b == b;
    } else {
      assert (a + b)[1..] == a[1..] + b;
      SucceedAppend(Next(w, a[0]), a[1..], b);
    }
  }

  predicate Distinct<T(==)>(s: seq<T>) {
    forall i, j | 0 <= i < j < |s| :: s[i] != s[j]
  }

  function Cancels(settler: Address, ids: seq<BookingId>): seq<Label> {
    if ids == [] then [] else [Plain(Cancel(settler, ids[0], 0))] + Cancels(settler, ids[1..])
  }

  // ------------------------------------------------------------ cancelling

  ghost predicate SameBalances(c: Core, c': Core) {
    && (forall a: Address :: Get(c'.escrow, a) == Get(c.escrow, a))
    && (forall a: Address :: Get(c'.claimable, a) == Get(c.claimable, a))
    && c'.settlers == c.settlers && c'.self == c.self && c'.usdc == c.usdc
  }

  // The stage an exit is at: between transactions, reachable, and with a settler in office if there ever was one.
  ghost predicate Ready(w: World, settler: Address) {
    Reachable(w) && w.call.None? && (settler in w.core.settlers || w.core.settlers == {})
  }

  // A contract deployed without a settler never opens a booking.
  ghost predicate Unused(w: World) {
    && w.core.settlers == {} && w.core.bookings == map[]
    && w.committed.settlers == {} && w.committed.bookings == map[]
  }

  lemma PlainStaysUnused(c: Core, now: nat, op: PlainOp)
    requires c.settlers == {} && c.bookings == map[] && Apply(c, now, op).Ok?
    ensures Apply(c, now, op).value.settlers == {} && Apply(c, now, op).value.bookings == map[]
  {
  }

  lemma StepStaysUnused(w: World, l: Label)
    requires Unused(w) && Step(w, l).Ok?
    ensures Unused(Step(w, l).value)
  {
    if l.Plain? {
      PlainStaysUnused(w.core, w.now, l.plain);
    }
  }

  lemma {:induction false} StaysUnused(w: World, ls: seq<Label>)
    requires Unused(w)
    ensures Unused(Run(w, ls))
    decreases |ls|
  {
    if ls != [] {
      if Step(w, ls[0]).Ok? {
        StepStaysUnused(w, ls[0]);
      }
      StaysUnused(Next(w, ls[0]), ls[1..]);
    }
  }

  lemma NoSettlerNoBookings(w: World)
    requires Reachable(w) && w.core.settlers == {}
    ensures w.core.bookings == map[]
  {
    var d, w0, ls :| Genesis(d, w0) && w == Run(w0, ls);
    GenesisIsSound(d, w0);
    RunAdvances(w0, ls);
    assert w0.core.settlers == {};
    StaysUnused(w0, ls);
  }

  lemma SettlerInOffice(w: World, settler: Address, id: BookingId)
    requires Ready(w, settler) && StatusOf(w.core, id) == Status.Open
    ensures settler in w.core.settlers
  {
    if w.core.settlers == {} {
      NoSettlerNoBookings(w);
    }
  }

  // A cancellation with no usage frees the lock and moves no money.
  lemma CancelOne(w: World, settler: Address, id: BookingId)
    requires Ready(w, settler) && StatusOf(w.core, id) == Status.Open
    ensures var l := Plain(Cancel(settler, id, 0));
            && Admissible(w.core.self, l) && Step(w, l).Ok?
            && Ready(Next(w, l), settler)
            && SameBalances(w.core, Next(w, l).core)
            && Next(w, l).core.bookings == w.core.bookings[id := w.core.bookings[id].(status := Cancelled)]
  {
    var c := w.core;
    ReachableIsSound(w);
    SettlerInOffice(w, settler, id);
    CloseSucceedsIff(w, settler, id, 0, true);
    CancelWrites(c, w.now, settler, id);
    ReachableNext(w, Plain(Cancel(settler, id, 0)));
  }

  lemma CancelWrites(c: Core, now: nat, settler: Address, id: BookingId)
    requires TermsSound(c.bookings, now) && Close(c, now, settler, id, 0, true).Ok?
    ensures var c' := Close(c, now, settler, id, 0, true).value;
            && id in c.bookings && SameBalances(c, c')
            && c'.bookings == c.bookings[id := c.bookings[id].(status := Cancelled)]
  {
    CloseWrites(c, now, settler, id, 0, true);
    assert BillFor(c.bookings[id], 0) == Bill(0, 0);
    CreditedAdds(c.claimable, c.bookings[id].supplier, c.treasury, Bill(0, 0));
  }

  lemma {:induction false} CancelAll(w: World, settler: Address, ids: seq<BookingId>)
    requires Ready(w, settler)
    requires Distinct(ids) && forall id | id in ids :: StatusOf(w.core, id) == Status.Open
    ensures AllSucceed(w, Cancels(settler, ids)) && Ready(Run(w, Cancels(settler, ids)), settler)
    ensures SameBalances(w.core, Run(w, Cancels(settler, ids)).core)
    ensures forall id :: StatusOf(Run(w, Cancels(settler, ids)).core, id)
                      == if id in ids then Cancelled else StatusOf(w.core, id)
    decreases |ids|
  {
    if ids != [] {
      var l := Plain(Cancel(settler, ids[0], 0));
      CancelOne(w, settler, ids[0]);
      assert Cancels(settler, ids)[1..] == Cancels(settler, ids[1..]);
      assert ids == [ids[0]] + ids[1..];
      forall id | id in ids[1..] ensures StatusOf(Next(w, l).core, id) == Status.Open {
        assert id in ids;
      }
      CancelAll(Next(w, l), settler, ids[1..]);
      assert Run(w, Cancels(settler, ids)) == Run(Next(w, l), Cancels(settler, ids[1..]));
    }
  }

  // ------------------------------------------------------------ withdrawing

  // With no open booking nothing is locked.
  lemma NothingLocked(w: World, a: Address)
    requires Reachable(w) && forall id :: StatusOf(w.core, id) != Status.Open
    ensures Get(w.core.lockedOf, a) == 0
  {
    var c := w.core;
    ReachableIsSound(w);
    assert LockAgrees(c.bookings, c.lockedOf, c.escrow, a);
    assert forall id | id in c.bookings :: StatusOf(c, id) != Status.Open;
    SumZero(OpenLocks(c.bookings, a));
  }

  function Exchange(op: MoneyOp): seq<Label> {
    [Money(op), TokenMoves, Finish]
  }

  lemma RunThree(w: World, op: MoneyOp, w1: World, w2: World, w3: World)
    requires Admissible(w.core.self, Label.Money(op)) && Step(w, Label.Money(op)) == Ok(w1)
    requires Step(w1, TokenMoves) == Ok(w2) && Step(w2, Finish) == Ok(w3)
    ensures AllSucceed(w, Exchange(op)) && Run(w, Exchange(op)) == w3
  {
    var ls := Exchange(op);
    assert ls[1..] == [TokenMoves, Finish] && ls[1..][1..] == [Finish] && ls[1..][1..][1..] == [];
    assert Next(w, Label.Money(op)) == w1 && Next(w1, TokenMoves) == w2 && Next(w2, Finish) == w3;
    assert Run(w2, [Finish]) == w3;
    assert AllSucceed(w2, [Finish]);
    assert Run(w1, [TokenMoves, Finish]) == w3;
    assert AllSucceed(w1, [TokenMoves, Finish]);
  }

  // What an exchange leaves: one account emptied of what it took out.
  predicate TookOut(c: Core, c': Core, escrow: map<Address, nat>, claimable: map<Address, nat>) {
    && c'.escrow == escrow && c'.claimable == claimable
    && c'.bookings == c.bookings && c'.lockedOf == c.lockedOf
    && c'.settlers == c.settlers && c'.self == c.self
  }

  lemma WithdrawOne(w: World, a: Address)
    requires Reachable(w) && w.call.None? && Get(w.core.lockedOf, a) == 0 && Get(w.core.escrow, a) > 0
    ensures var ls := Exchange(WithdrawUnused(a, Get(w.core.escrow, a)));
            && AllSucceed(w, ls) && Reachable(Run(w, ls)) && Run(w, ls).call.None?
            && TookOut(w.core, Run(w, ls).core, w.core.escrow[a := 0], w.core.claimable)
  {
    var op := WithdrawUnused(a, Get(w.core.escrow, a));
    ReachableIsSound(w);
    SumAtLeast(w.core.escrow, a);
    var w1 := Step(w, Label.Money(op)).value;
    var w2 := Step(w1, TokenMoves).value;
    var w3 := Step(w2, Finish).value;
    RunThree(w, op, w1, w2, w3);
    ReachableRun(w, Exchange(op));
  }

  lemma ClaimOne(w: World, a: Address)
    requires Reachable(w) && w.call.None? && Get(w.core.claimable, a) > 0 && a != w.core.self
    ensures var ls := Exchange(Claim(a));
            && AllSucceed(w, ls) && Reachable(Run(w, ls)) && Run(w, ls).call.None?
            && TookOut(w.core, Run(w, ls).core, w.core.escrow, w.core.claimable[a := 0])
  {
    ReachableIsSound(w);
    SumAtLeast(w.core.claimable, a);
    var w1 := Step(w, Label.Money(Claim(a))).value;
    var w2 := Step(w1, TokenMoves).value;
    var w3 := Step(w2, Finish).value;
    RunThree(w, Claim(a), w1, w2, w3);
    ReachableRun(w, Exchange(Claim(a)));
  }

  function Withdrawals(escrow: map<Address, nat>, accounts: seq<Address>): seq<Label> {
    if accounts == [] then []
    else Exchange(WithdrawUnused(accounts[0], Get(escrow, accounts[0]))) + Withdrawals(escrow, accounts[1..])
  }

  function Claims(accounts: seq<Address>): seq<Label> {
    if accounts == [] then [] else Exchange(Claim(accounts[0])) + Claims(accounts[1..])
  }

  lemma {:induction false} WithdrawAll(w: World, escrow: map<Address, nat>, accounts: seq<Address>)
    requires Reachable(w) && w.call.None? && Distinct(accounts)
    requires forall a: Address :: Get(w.core.lockedOf, a) == 0
    requires forall a | a in accounts :: Get(w.core.escrow, a) == Get(escrow, a) > 0
    ensures AllSucceed(w, Withdrawals(escrow, accounts))
    ensures var v := Run(w, Withdrawals(escrow, accounts));
            && Reachable(v) && v.call.None?
            && (forall a: Address :: Get(v.core.escrow, a) == if a in accounts then 0 else Get(w.core.escrow, a))
            && TookOut(w.core, v.core, v.core.escrow, w.core.claimable)
    decreases |accounts|
  {
    if accounts != [] {
      var a := accounts[0];
      var first := Exchange(WithdrawUnused(a, Get(escrow, a)));
      WithdrawOne(w, a);
      assert accounts == [a] + accounts[1..];
      WithdrawAll(Run(w, first), escrow, accounts[1..]);
      SucceedAppend(w, first, Withdrawals(escrow, accounts[1..]));
    }
  }

  lemma {:induction false} ClaimAll(w: World, accounts: seq<Address>)
    requires Reachable(w) && w.call.None? && Distinct(accounts)
    requires forall a | a in accounts :: Get(w.core.claimable, a) > 0 && a != w.core.self
    ensures AllSucceed(w, Claims(accounts))
    ensures var v := Run(w, Claims(accounts));
            && Reachable(v) && v.call.None?
            && (forall a: Address :: Get(v.core.claimable, a) == if a in accounts then 0 else Get(w.core.claimable, a))
            && TookOut(w.core, v.core, w.core.escrow, v.core.claimable)
    decreases |accounts|
  {
    if accounts != [] {
      var a := accounts[0];
      var first := Exchange(Claim(a));
      ClaimOne(w, a);
      assert accounts == [a] + accounts[1..];
      forall x | x in accounts[1..] ensures Get(w.core.claimable[a := 0], x) > 0 && x != w.core.self {
        assert x in accounts;
      }
      ClaimAll(Run(w, first), accounts[1..]);
      SucceedAppend(w, first, Claims(accounts[1..]));
    }
  }

  // ------------------------------------------------------------ the exit

  function ExitScript(w: World, settler: Address, ids: seq<BookingId>, consumers: seq<Address>,
                      earners: seq<Address>): seq<Label>
  {
    Cancels(settler, ids) + (Withdrawals(w.core.escrow, consumers) + Claims(earners))
  }

  // Sequences that list, once each, the open bookings, the consumers with escrow, and the accounts with earnings
  // other than the contract itself.
  ghost predicate Lists(c: Core, ids: seq<BookingId>, consumers: seq<Address>, earners: seq<Address>) {
    && Distinct(ids) && Distinct(consumers) && Distinct(earners)
    && (forall id :: id in ids <==> StatusOf(c, id) == Status.Open)
    && (forall a: Address :: a in consumers <==> Get(c.escrow, a) > 0)
    && (forall a: Address :: a in earners <==> Get(c.claimable, a) > 0 && a != c.self)
  }

  lemma {:induction false} Enumerate<T>(s: set<T>) returns (q: seq<T>)
    ensures Distinct(q) && forall x :: x in q <==> x in s
    decreases |s|
  {
    if s == {} {
      q := [];
    } else {
      var x :| x in s;
      var rest := Enumerate(s - {x});
      q := [x] + rest;
    }
  }

  lemma ListsExist(c: Core) returns (ids: seq<BookingId>, consumers: seq<Address>, earners: seq<Address>)
    ensures Lists(c, ids, consumers, earners)
  {
    ids := Enumerate(set id | id in c.bookings && c.bookings[id].status.Open?);
    consumers := Enumerate(set a | a in c.escrow && c.escrow[a] > 0);
    earners := Enumerate(set a | a in c.claimable && c.claimable[a] > 0 && a != c.self);
  }

  lemma AfterCancels(w: World, settler: Address, ids: seq<BookingId>, consumers: seq<Address>, earners: seq<Address>)
    requires Ready(w, settler) && Lists(w.core, ids, consumers, earners)
    ensures AllSucceed(w, Cancels(settler, ids))
    ensures var v := Run(w, Cancels(settler, ids));
            && Ready(v, settler) && Lists(v.core, [], consumers, earners) && SameBalances(w.core, v.core)
            && (forall a: Address :: Get(v.core.lockedOf, a) == 0)
  {
    CancelAll(w, settler, ids);
    var v := Run(w, Cancels(settler, ids));
    forall a: Address ensures Get(v.core.lockedOf, a) == 0 {
      NothingLocked(v, a);
    }
  }

  lemma EmptyBalance(w: World)
    requires Reachable(w) && w.call.None?
    requires forall a: Address :: Get(w.core.escrow, a) == 0
    requires forall a: Address :: a != w.core.self ==> Get(w.core.claimable, a) == 0
    ensures Get(w.core.usdc, w.core.self) == Get(w.core.claimable, w.core.self)
  {
    ReachableIsSound(w);
    var c := w.core;
    forall a | a in c.escrow ensures c.escrow[a] == 0 {
      assert Get(c.escrow, a) == 0;
    }
    forall a | a in c.claimable && a != c.self ensures c.claimable[a] == 0 {
      assert Get(c.claimable, a) == 0;
    }
    SumZero(c.escrow);
    SumOnly(c.claimable, c.self);
  }

  // Nothing open, locked or in escrow, no earnings but those of the contract's own address, and the tokens left
  // are exactly those.
  ghost predicate Emptied(c: Core) {
    && (forall id :: StatusOf(c, id) != Status.Open)
    && (forall a: Address :: Get(c.lockedOf, a) == 0)
    && (forall a: Address :: Get(c.escrow, a) == 0)
    && (forall a: Address :: a != c.self ==> Get(c.claimable, a) == 0)
    && Get(c.usdc, c.self) == Get(c.claimable, c.self)
  }

  lemma SameStatus(c: Core, c': Core)
    requires c'.bookings == c.bookings && forall id :: StatusOf(c, id) != Status.Open
    ensures forall id :: StatusOf(c', id) != Status.Open
  {
    forall id ensures StatusOf(c', id) != Status.Open {
      assert StatusOf(c', id) == StatusOf(c, id);
    }
  }

  lemma PayEveryone(w: World, escrow: map<Address, nat>, consumers: seq<Address>, earners: seq<Address>)
    requires Reachable(w) && w.call.None? && Lists(w.core, [], consumers, earners)
    requires forall a: Address :: Get(w.core.lockedOf, a) == 0
    requires forall a: Address :: Get(w.core.escrow, a) == Get(escrow, a)
    ensures var ls := Withdrawals(escrow, consumers) + Claims(earners);
            var v := Run(w, ls);
            && AllSucceed(w, ls) && v.call.None? && Emptied(v.core)
            && v.core.self == w.core.self
            && Get(v.core.claimable, w.core.self) == Get(w.core.claimable, w.core.self)
  {
    WithdrawAll(w, escrow, consumers);
    var v := Run(w, Withdrawals(escrow, consumers));
    ClaimAll(v, earners);
    SucceedAppend(w, Withdrawals(escrow, consumers), Claims(earners));
    EmptyBalance(Run(v, Claims(earners)));
    SameStatus(w.core, Run(v, Claims(earners)).core);
  }

  // From every reachable state between transactions, paused or not: cancel each open booking, withdraw each
  // consumer's escrow, claim each account's earnings, in any order within each group. No call reverts, nothing
  // stays open, locked or in escrow, and the only tokens left are those credited to the contract's own address.
  lemma FullExit(w: World, settler: Address, ids: seq<BookingId>, consumers: seq<Address>, earners: seq<Address>)
    requires Ready(w, settler) && Lists(w.core, ids, consumers, earners)
    ensures var ls := ExitScript(w, settler, ids, consumers, earners);
            var v := Run(w, ls);
            && AllSucceed(w, ls) && v.call.None? && Emptied(v.core)
            && v.core.self == w.core.self
            && Get(v.core.claimable, w.core.self) == Get(w.core.claimable, w.core.self)
  {
    AfterCancels(w, settler, ids, consumers, earners);
    var cancels := Cancels(settler, ids);
    PayEveryone(Run(w, cancels), w.core.escrow, consumers, earners);
    SucceedAppend(w, cancels, Withdrawals(w.core.escrow, consumers) + Claims(earners));
  }

  // ------------------------------------------------------------ tokens that are stuck

  // Neither openBooking nor the bill looks at whether the supplier is the contract itself; closing such a booking
  // with any pay for the supplier credits the contract.
  lemma SelfSupplierIsCredited(w: World, settler: Address, id: BookingId, usage: nat, cancelled: bool)
    requires Reachable(w) && settler in w.core.settlers && Close(w.core, w.now, settler, id, usage, cancelled).Ok?
    ensures id in w.core.bookings
    ensures var c, b := w.core, w.core.bookings[id];
            var c' := Close(c, w.now, settler, id, usage, cancelled).value;
            b.supplier == c.self && BillFor(b, usage).cost > BillFor(b, usage).commission ==>
              Get(c'.claimable, c.self) > Get(c.claimable, c.self)
  {
    ReachableIsSound(w);
    CloseWrites(w.core, w.now, settler, id, usage, cancelled);
    BillIsExact(w.core, w.now, id, usage);
    var b := w.core.bookings[id];
    CreditedAdds(w.core.claimable, b.supplier, w.core.treasury, BillFor(b, usage));
  }

  const EXAMPLE := Deployment(1, 2, map[3 := 1_000_000], 4, 1_000, 5, 6)

  lemma ExampleGenesis() returns (w: World)
    ensures Genesis(EXAMPLE, w) && Reachable(w) && w.now == 1_000
  {
    var core := Deploy(EXAMPLE).value;
    w := World(core, core, 1_000, None);
    var tokens: map<Address, nat> := map[3 := 1_000_000];
    UnitsOfOne<Address>(3, 1_000_000);
    assert EXAMPLE.usdc == tokens && Get(tokens, 1) == 0;
    assert Genesis(EXAMPLE, w);
    assert w == Run(w, []);
  }

  // A deployment, a deposit of one dollar, and a booking whose supplier is the contract.
  lemma SelfSuppliedBooking() returns (w: World)
    ensures Reachable(w) && w.call.None? && w.core.self == 1 && 6 in w.core.settlers && w.now == 1_000
    ensures StatusOf(w.core, "b") == Status.Open
    ensures var b := w.core.bookings["b"];
            b.supplier == 1 && b.ratePerHourCents == 36 && b.maxDurationSecs == 3600 && b.commissionBps == 1_000
            && b.openedAt == 1_000
  {
    var w0 := ExampleGenesis();
    var op := Deposit(3, 1_000_000);
    var w1 := Step(w0, Label.Money(op)).value;
    var w2 := Step(w1, TokenMoves).value;
    var w3 := Step(w2, Finish).value;
    RunThree(w0, op, w1, w2, w3);
    ReachableRun(w0, Exchange(op));
    var open := Plain(PlainOp.Open(6, "b", 3, 1, 36, 3600));
    w := Next(w3, open);
    ReachableNext(w3, open);
  }

  // Closing it after five minutes of use credits the contract with 90% of three cents.
  lemma SelfSuppliedClose(v: World) returns (w: World)
    requires Reachable(v) && v.call.None? && v.core.self == 1 && 6 in v.core.settlers && v.now == 1_000
    requires StatusOf(v.core, "b") == Status.Open
    requires var b := v.core.bookings["b"];
             b.supplier == 1 && b.ratePerHourCents == 36 && b.maxDurationSecs == 3600 && b.commissionBps == 1_000
             && b.openedAt == 1_000
    ensures Reachable(w) && w.call.None? && Get(w.core.claimable, w.core.self) > 0
  {
    CloseSucceedsIff(v, 6, "b", 300, false);
    SelfSupplierIsCredited(v, 6, "b", 300, false);
    ReachableNext(v, Plain(Settle(6, "b", 300)));
    w := Next(v, Plain(Settle(6, "b", 300)));
  }

  // So some run does leave tokens that nobody can ever take out.
  lemma SelfCreditHappens() returns (w: World)
    ensures Reachable(w) && w.call.None? && Get(w.core.claimable, w.core.self) > 0
    ensures !exists ls :: Run(w, ls).call.None? && Get(Run(w, ls).core.usdc, w.core.self) == 0
  {
    var v := SelfSuppliedBooking();
    w := SelfSuppliedClose(v);
    EmptiesIff(w);
  }

  // Tokens credited to the contract's own address never leave: that balance only grows, whatever is called.
  lemma SelfCreditIsStuck(w: World, ls: seq<Label>)
    requires Reachable(w) && w.call.None? && Run(w, ls).call.None?
    ensures var c := Run(w, ls).core;
            && Get(c.usdc, c.self) >= Get(c.claimable, c.self) >= Get(w.core.claimable, w.core.self)
            && c.self == w.core.self
  {
    ReachableIsSound(w);
    ForwardOnly(w, ls);
    ReachableRun(w, ls);
    ReachableIsSound(Run(w, ls));
    SumAtLeast(Run(w, ls).core.claimable, w.core.self);
  }

  // So the contract can be emptied exactly when nothing was ever credited to its own address.
  lemma EmptiesIff(w: World)
    requires Reachable(w) && w.call.None?
    ensures (exists ls :: Run(w, ls).call.None? && Get(Run(w, ls).core.usdc, w.core.self) == 0)
       <==> Get(w.core.claimable, w.core.self) == 0
  {
    var settler :| settler in w.core.settlers || w.core.settlers == {};
    var ids, consumers, earners := ListsExist(w.core);
    FullExit(w, settler, ids, consumers, earners);
    forall ls | Run(w, ls).call.None? && Get(Run(w, ls).core.usdc, w.core.self) == 0
      ensures Get(w.core.claimable, w.core.self) == 0
    {
      SelfCreditIsStuck(w, ls);
    }
  }
}
