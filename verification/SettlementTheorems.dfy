// The settlement protocol over every interleaving of handlers, foreign transactions and clock ticks.
module SettlementTheorems {
  import opened Wrappers
  import opened MapSums
  import opened EscrowMath
  import opened Escrow
  import opened EscrowInvariant
  import opened EscrowTheorems
  import opened Ledger
  import opened Settlement
  import opened SettlementInvariant

  // ------------------------------------------------------------ the log

  // The log holds at most one confirmed open and one confirmed close per booking, and never a close without
  // its open, although nothing in the database orders the handlers.
  lemma AtMostOneEach(s: System, j: TxId, k: TxId)
    requires Happens(s) && j in s.txs && k in s.txs && s.txs[j].bookingId == s.txs[k].bookingId
    ensures IsOpen(s.txs[j]) && IsOpen(s.txs[k]) ==> j == k
    ensures IsClose(s.txs[j]) && IsClose(s.txs[k]) ==> j == k
  {
    HappensIsSound(s);
    InLog(s, j);
    InLog(s, k);
    var rows := Rows(s.txs, s.handlers);
    assert OpenKnown(rows, s.openedBy, j) && OpenKnown(rows, s.openedBy, k);
    assert CloseKnown(rows, s.closedBy, j) && CloseKnown(rows, s.closedBy, k);
  }

  // A row in the log is not on its way into it.
  lemma InLog(s: System, k: TxId)
    requires SystemInv(s) && k in s.txs
    ensures k in Rows(s.txs, s.handlers) && Rows(s.txs, s.handlers)[k] == s.txs[k]
  {
    if k in s.handlers {
      assert HandlerSound(s.settings, s.bookings, s.txs, s.openedBy, k, s.handlers[k]);
    }
  }

  lemma CloseImpliesOpen(s: System, k: TxId) returns (j: TxId)
    requires Happens(s) && k in s.txs && IsClose(s.txs[k])
    ensures j in s.txs && IsOpen(s.txs[j]) && s.txs[j].bookingId == s.txs[k].bookingId
  {
    HappensIsSound(s);
    InLog(s, k);
    var id := s.txs[k].bookingId;
    var rows := Rows(s.txs, s.handlers);
    assert CloseKnown(rows, s.closedBy, k);
    assert Recorded(s.txs, s.openedBy, id);
    j := s.openedBy[id];
    InLog(s, j);
    assert OpenRow(rows, s.chain.core.bookings, s.openedBy, MaxSecs(s.settings), id);
  }

  // ------------------------------------------------------------ the public ledger is an index of the chain

  // No handler sits between its chain call and its commit.
  ghost predicate Quiescent(s: System) {
    forall h | h in s.handlers :: !Recording(s.handlers[h].phase)
  }

  // The locked volume is the sum of lockedOf, the counts are those of the open and the closed bookings, volume and
  // commission are what the contract charged and credited, and the rest is what suppliers got.
  ghost predicate Mirrors(stats: LedgerStats, c: Core) {
    && stats.lockedVolumeUsdc == Sum(c.lockedOf)
    && stats.openBookings == |AllOpenLocks(c.bookings)|
    && stats.settlements == |ClosedOnChain(c.bookings)|
    && stats.settledVolumeUsdc == Tally(c.log, c.initialTreasury, Volume)
    && stats.commissionUsdc == Tally(c.log, c.initialTreasury, Commission)
    && stats.settledVolumeUsdc - stats.commissionUsdc == Tally(c.log, c.initialTreasury, SupplierPay)
  }

  // The ledger of everything the chain has answered agrees with the contract at every point of every interleaving.
  lemma AnswersMatchChain(s: System)
    requires Happens(s)
    ensures Mirrors(PublicLedger(Rows(s.txs, s.handlers)), s.chain.core)
  {
    HappensIsSound(s);
    ReachableIsSound(s.chain);
    var c := s.chain.core;
    LedgerMatchesLocks(Rows(s.txs, s.handlers), c.bookings, s.openedBy, s.closedBy, MaxSecs(s.settings));
    SettlementsMatchCloses(Rows(s.txs, s.handlers), c.bookings, s.closedBy);
    VolumeSplits(c.log, c.initialTreasury, c.bookings, s.chain.now);
  }

  // So whenever every answer is committed, the published ledger is exact.
  lemma LedgerMatchesChain(s: System)
    requires Happens(s) && Quiescent(s)
    ensures Mirrors(PublicLedger(s.txs), s.chain.core)
  {
    RowsCommitted(s.txs, s.handlers);
    AnswersMatchChain(s);
  }

  lemma RowsCommitted(txs: Table, handlers: map<TxId, Handler>)
    requires forall h | h in handlers :: !Recording(handlers[h].phase)
    ensures Rows(txs, handlers) == txs
  {
  }

  // ------------------------------------------------------------ in-window closes

  const GRACE_MICROS: nat := SETTLE_GRACE_SECS * MICROS

  // The chain clock runs ahead of the server clock by an amount that varies by at most the grace period.
  predicate Skewed(s: System, base: int) {
    base <= s.chain.now * MICROS - s.clock <= base + GRACE_MICROS
  }

  ghost predicate SkewedAlong(s: System, actions: seq<Action>, base: int)
    decreases |actions|
  {
    Skewed(s, base) && (actions != [] ==> SkewedAlong(After(s, actions[0]), actions[1..], base))
  }

  ghost predicate HappensSkewed(s: System, base: int) {
    exists s0, actions :: Start(s0) && SkewedAlong(s0, actions, base) && s == Execute(s0, actions)
  }

  // The booking was opened on chain no later than the given server time.
  predicate OpenedBy(c: map<BookingId, Booking>, id: BookingId, time: int, base: int) {
    id in c ==> c[id].openedAt * MICROS <= time + base + GRACE_MICROS
  }

  predicate StampsSound(chain: map<BookingId, Booking>, id: BookingId, b: BookingRow, clock: int, base: int) {
    && (b.startedAt.Some? ==> OpenedBy(chain, id, b.startedAt.value, base))
    && (b.endedAt.Some? ==> b.endedAt.value <= clock)
  }

  predicate PhaseTimely(chain: map<BookingId, Booking>, me: Handler, clock: int, base: int) {
    && (me.phase.Committing? ==> me.phase.now <= clock)
    && (me.phase.Committing? && me.to.Active? ==> OpenedBy(chain, me.bookingId, me.phase.now, base))
    && (me.phase.Closing? && me.phase.usage > 0 ==>
          OpenedBy(chain, me.bookingId, clock - me.phase.usage * MICROS, base))
  }

  ghost predicate Timely(chain: map<BookingId, Booking>, bookings: map<BookingId, BookingRow>,
                         handlers: map<TxId, Handler>, clock: int, base: int)
  {
    && (forall id :: OpenedBy(chain, id, clock, base))
    && (forall id | id in bookings :: StampsSound(chain, id, bookings[id], clock, base))
    && (forall h | h in handlers :: PhaseTimely(chain, handlers[h], clock, base))
  }

  ghost predicate AllTimely(s: System, base: int) {
    Timely(s.chain.core.bookings, s.bookings, s.handlers, s.clock, base)
  }

  // Later clocks and the same openings keep everything timely.
  lemma TimelyLater(chain: map<BookingId, Booking>, chain': map<BookingId, Booking>,
                    bookings: map<BookingId, BookingRow>, handlers: map<TxId, Handler>, clock: int,
                    clock': int, base: int)
    requires Timely(chain, bookings, handlers, clock, base) && clock <= clock'
    requires forall id | id in chain' :: id in chain && chain'[id].openedAt == chain[id].openedAt
    ensures Timely(chain', bookings, handlers, clock', base)
  {
    forall id ensures OpenedBy(chain', id, clock', base) {
      assert OpenedBy(chain, id, clock, base);
    }
    forall id | id in bookings ensures StampsSound(chain', id, bookings[id], clock', base) {
      assert StampsSound(chain, id, bookings[id], clock, base);
    }
    forall h | h in handlers ensures PhaseTimely(chain', handlers[h], clock', base) {
      assert PhaseTimely(chain, handlers[h], clock, base);
    }
  }

  lemma TimelyPhase(chain: map<BookingId, Booking>, bookings: map<BookingId, BookingRow>,
                    handlers: map<TxId, Handler>, clock: int, base: int, h: TxId, me: Handler)
    requires Timely(chain, bookings, handlers, clock, base) && PhaseTimely(chain, me, clock, base)
    ensures Timely(chain, bookings, handlers[h := me], clock, base)
  {
    var handlers' := handlers[h := me];
    forall j | j in handlers' ensures PhaseTimely(chain, handlers'[j], clock, base) {
      if j != h {
        assert PhaseTimely(chain, handlers[j], clock, base);
      }
    }
  }

  lemma TimelyRow(chain: map<BookingId, Booking>, bookings: map<BookingId, BookingRow>,
                  handlers: map<TxId, Handler>, clock: int, base: int, id: BookingId, b: BookingRow)
    requires Timely(chain, bookings, handlers, clock, base) && StampsSound(chain, id, b, clock, base)
    ensures Timely(chain, bookings[id := b], handlers, clock, base)
  {
    var bookings' := bookings[id := b];
    forall i | i in bookings' ensures StampsSound(chain, i, bookings'[i], clock, base) {
      if i != id {
        assert StampsSound(chain, i, bookings[i], clock, base);
      }
    }
  }

  // A new opening: nothing was ever stamped for it, since every stamp comes after a recorded lock.
  lemma TimelyOpening(s: System, base: int, id: BookingId, b: Booking)
    requires SystemInv(s) && AllTimely(s, base) && Skewed(s, base)
    requires id !in s.openedBy && id in s.bookings && Applicable(s.settings, s.bookings[id])
    requires b.openedAt <= s.chain.now
    ensures Timely(s.chain.core.bookings[id := b], s.bookings, s.handlers, s.clock, base)
  {
    var chain, chain' := s.chain.core.bookings, s.chain.core.bookings[id := b];
    assert RowSound(s.settings, s.bookings, s.txs, s.openedBy, id);
    forall i ensures OpenedBy(chain', i, s.clock, base) {
      assert OpenedBy(chain, i, s.clock, base);
    }
    forall i | i in s.bookings ensures StampsSound(chain', i, s.bookings[i], s.clock, base) {
      assert StampsSound(chain, i, s.bookings[i], s.clock, base);
    }
    forall h | h in s.handlers ensures PhaseTimely(chain', s.handlers[h], s.clock, base) {
      TimelyElsewhere(s, base, id, b, h);
    }
  }

  lemma TimelyElsewhere(s: System, base: int, id: BookingId, b: Booking, h: TxId)
    requires SystemInv(s) && AllTimely(s, base) && h in s.handlers
    requires id !in s.openedBy && id in s.bookings && Applicable(s.settings, s.bookings[id])
    ensures PhaseTimely(s.chain.core.bookings[id := b], s.handlers[h], s.clock, base)
  {
    assert PhaseTimely(s.chain.core.bookings, s.handlers[h], s.clock, base);
    assert HandlerSound(s.settings, s.bookings, s.txs, s.openedBy, h, s.handlers[h]);
  }

  lemma LockStaysTimely(s: System, h: TxId, answer: Option<ChainResult>, base: int)
    requires SystemInv(s) && AllTimely(s, base) && Skewed(s, base)
    requires h in s.handlers && s.handlers[h].phase.Locking? && s.handlers[h].bookingId in s.bookings
    requires Applicable(s.settings, s.bookings[s.handlers[h].bookingId])
    requires LockTook(s, h, answer)
    ensures AllTimely(Lock(s, h, answer), base)
  {
    var s' := Lock(s, h, answer);
    var id := s.handlers[h].bookingId;
    if answer.Some? {
      TimelyOpening(s, base, id, s'.chain.core.bookings[id]);
    }
    TimelyPhase(s'.chain.core.bookings, s.bookings, s.handlers, s.clock, base, h, s'.handlers[h]);
  }

  lemma ReleaseStaysTimely(s: System, h: TxId, usage: nat, answer: Option<ChainResult>, base: int)
    requires AllTimely(s, base) && Known(s, h)
    requires answer.Some? ==>
               CloseTook(s.chain, answer.value, s.handlers[h].bookingId, usage, s.handlers[h].to.Cancelled?)
    ensures AllTimely(Release(s, h, usage, answer), base)
  {
    var s' := Release(s, h, usage, answer);
    TimelyLater(s.chain.core.bookings, s'.chain.core.bookings, s.bookings, s.handlers, s.clock, s.clock, base);
    TimelyPhase(s'.chain.core.bookings, s.bookings, s.handlers, s.clock, base, h, s'.handlers[h]);
  }

  // The usage read back is covered by the time the booking has been open.
  lemma UsageIsTimely(chain: map<BookingId, Booking>, id: BookingId, b: BookingRow, clock: int, base: int)
    requires StampsSound(chain, id, b, clock, base) && UsageSeconds(b) > 0
    ensures OpenedBy(chain, id, clock - UsageSeconds(b) * MICROS, base)
  {
    assert UsageSeconds(b) * MICROS <= b.endedAt.value - b.startedAt.value;
  }

  lemma LockingStaysTimely(s: System, h: TxId, rpcUp: bool, base: int)
    requires SystemInv(s) && AllTimely(s, base) && Skewed(s, base)
    requires Advanced(s, h, rpcUp).Some? && s.handlers[h].phase.Locking?
    ensures AllTimely(Advanced(s, h, rpcUp).value, base)
  {
    var me := s.handlers[h];
    var answer := SendOpen(s.settings, s.chain, me.bookingId, s.bookings[me.bookingId], me.rate, rpcUp);
    if answer.Some? {
      OpenConfirmed(s, me.bookingId, s.bookings[me.bookingId], me.rate, rpcUp);
    }
    LockStaysTimely(s, h, answer, base);
    assert Advanced(s, h, rpcUp).value == Lock(s, h, answer);
  }

  lemma ClosingStaysTimely(s: System, h: TxId, rpcUp: bool, base: int)
    requires ChainSound(s.chain) && AllTimely(s, base)
    requires Advanced(s, h, rpcUp).Some? && s.handlers[h].phase.Closing?
    ensures AllTimely(Advanced(s, h, rpcUp).value, base)
  {
    var me := s.handlers[h];
    var usage := me.phase.usage;
    var answer := SendClose(s.settings, s.chain, me.bookingId, usage, me.to.Cancelled?, rpcUp);
    if answer.Some? {
      CloseConfirmed(s, me.bookingId, usage, me.to.Cancelled?, rpcUp);
    }
    ReleaseStaysTimely(s, h, usage, answer, base);
    assert Advanced(s, h, rpcUp).value == Release(s, h, usage, answer);
  }

  lemma CommittingStaysTimely(s: System, h: TxId, now: int, base: int)
    requires AllTimely(s, base) && h in s.handlers && s.handlers[h].phase == Committing(now)
    requires s.handlers[h].bookingId in s.bookings
    ensures AllTimely(CommitStatus(s, h, now), base)
  {
    var me := s.handlers[h];
    var id := me.bookingId;
    var chain := s.chain.core.bookings;
    assert PhaseTimely(chain, me, s.clock, base) && StampsSound(chain, id, s.bookings[id], s.clock, base);
    TimelyRow(chain, s.bookings, s.handlers, s.clock, base, id, Updated(s.bookings[id], me.to, now));
    TimelyPhase(chain, s.bookings[id := Updated(s.bookings[id], me.to, now)], s.handlers, s.clock, base, h,
                me.(phase := Refreshing));
  }

  lemma RefreshStaysTimely(s: System, h: TxId, base: int)
    requires AllTimely(s, base) && h in s.handlers && s.handlers[h].bookingId in s.bookings
    ensures AllTimely(Refresh(s, h), base)
  {
    var id := s.handlers[h].bookingId;
    var b := s.bookings[id];
    assert StampsSound(s.chain.core.bookings, id, b, s.clock, base);
    if UsageSeconds(b) > 0 {
      UsageIsTimely(s.chain.core.bookings, id, b, s.clock, base);
    }
    PhaseStaysTimely(s, h, Refresh(s, h).handlers[h].phase, base);
  }

  lemma PhaseStaysTimely(s: System, h: TxId, p: Phase, base: int)
    requires AllTimely(s, base) && h in s.handlers
    requires PhaseTimely(s.chain.core.bookings, s.handlers[h].(phase := p), s.clock, base)
    ensures AllTimely(To(s, h, p), base)
  {
    TimelyPhase(s.chain.core.bookings, s.bookings, s.handlers, s.clock, base, h, s.handlers[h].(phase := p));
  }

  lemma LocalStepStaysTimely(s: System, h: TxId, rpcUp: bool, base: int)
    requires AllTimely(s, base) && Advanced(s, h, rpcUp).Some?
    requires !s.handlers[h].phase.Locking? && !s.handlers[h].phase.Closing?
    ensures AllTimely(Advanced(s, h, rpcUp).value, base)
  {
    match s.handlers[h].phase
    case RecordingOpen(_) => PhaseStaysTimely(s, h, CommitRow(s, h).handlers[h].phase, base);
    case Assigning =>
      assert OpenedBy(s.chain.core.bookings, s.handlers[h].bookingId, s.clock, base);
      PhaseStaysTimely(s, h, Committing(s.clock), base);
    case Committing(now) => CommittingStaysTimely(s, h, now, base);
    case Refreshing => RefreshStaysTimely(s, h, base);
    case RecordingClose(_) => PhaseStaysTimely(s, h, Publishing, base);
    case Publishing => PhaseStaysTimely(s, h, Finished(true), base);
    case Finished(_) =>
  }

  lemma AdvanceStaysTimely(s: System, h: TxId, rpcUp: bool, base: int)
    requires SystemInv(s) && AllTimely(s, base) && Skewed(s, base) && Advanced(s, h, rpcUp).Some?
    ensures AllTimely(Advanced(s, h, rpcUp).value, base)
  {
    if s.handlers[h].phase.Locking? {
      LockingStaysTimely(s, h, rpcUp, base);
    } else if s.handlers[h].phase.Closing? {
      ClosingStaysTimely(s, h, rpcUp, base);
    } else {
      LocalStepStaysTimely(s, h, rpcUp, base);
    }
  }

  lemma ActionStaysTimely(s: System, a: Action, base: int)
    requires SystemInv(s) && AllTimely(s, base) && Skewed(s, base)
    ensures AllTimely(After(s, a), base)
  {
    if Perform(s, a).Some? {
      match a
      case Create(id, _, _, _, _, _, _, _, _) =>
        TimelyRow(s.chain.core.bookings, s.bookings, s.handlers, s.clock, base, id, After(s, a).bookings[id]);
      case Request(h, _, _, _) =>
        TimelyPhase(s.chain.core.bookings, s.bookings, s.handlers, s.clock, base, h, After(s, a).handlers[h]);
      case Advance(h, rpcUp) => AdvanceStaysTimely(s, h, rpcUp, base);
      case Chain(l) =>
        if Next(s.chain, l) != s.chain {
          ForeignKeepsBooks(s.chain, l);
        }
      case ServerTick(time) =>
        TimelyLater(s.chain.core.bookings, s.chain.core.bookings, s.bookings, s.handlers, s.clock, time, base);
    }
  }

  lemma {:induction false} ExecuteStaysTimely(s: System, actions: seq<Action>, base: int)
    requires SystemInv(s) && AllTimely(s, base) && SkewedAlong(s, actions, base)
    ensures SystemInv(Execute(s, actions)) && AllTimely(Execute(s, actions), base) && Skewed(Execute(s, actions), base)
    decreases |actions|
  {
    if actions != [] {
      ActionKeepsInv(s, actions[0]);
      ActionStaysTimely(s, actions[0], base);
      ExecuteStaysTimely(After(s, actions[0]), actions[1..], base);
    }
  }

  lemma TimelyHappens(s: System, base: int)
    requires HappensSkewed(s, base)
    ensures SystemInv(s) && AllTimely(s, base) && Skewed(s, base)
  {
    var s0, actions :| Start(s0) && SkewedAlong(s0, actions, base) && s == Execute(s0, actions);
    StartIsSound(s0);
    assert s0.chain.core.bookings == map[];
    ExecuteStaysTimely(s0, actions, base);
  }

  // A lock by the hour is exact: cents are 10_000 base units.
  lemma LockOfHours(rate: nat, hours: nat)
    ensures LockFor(rate, hours * 3600) == rate * 10_000 * hours
  {
    var lock := rate * 10_000 * hours;
    assert Product(rate, hours * 3600) == lock * 3600;
    if lock > 0 {
      assert (lock * 3600 - 1) / 3600 == lock - 1;
    }
  }

  // Between transactions the node, if it can be reached, confirms an open exactly when the settler has its role, the
  // contract is not paused, no address is zero, the window has its length, the booking is new, every argument fits
  // its width, and the whole lock is in the consumer's free escrow.
  lemma SendOpenIff(s: System, id: BookingId, b: BookingRow, rate: nat, rpcUp: bool)
    requires Reachable(s.chain) && Applicable(s.settings, b)
    ensures var c, consumer, hours := s.chain.core, b.consumerWallet.value, s.settings.maxBookingHours;
            SendOpen(s.settings, s.chain, id, b, rate, rpcUp).Some? <==>
              && rpcUp && s.chain.call.None? && s.settings.settler.value in c.settlers && !c.paused
              && consumer != 0 && b.payoutWallet.value != 0 && 0 < hours && id !in c.bookings
              && rate < UINT96_LIMIT && hours * 3600 < UINT32_LIMIT
              && Get(c.lockedOf, consumer) + rate * 10_000 * hours <= Get(c.escrow, consumer)
  {
    var maxSecs := MaxSecs(s.settings);
    LockOfHours(rate, s.settings.maxBookingHours);
    BookedIsSet(s.chain, id);
    if rate < UINT96_LIMIT && maxSecs < UINT32_LIMIT {
      SendIff(s.chain, PlainOp.Open(s.settings.settler.value, id, b.consumerWallet.value, b.payoutWallet.value, rate,
                                    maxSecs), rpcUp);
      OpenSucceedsIff(s.chain, s.settings.settler.value, id, b.consumerWallet.value, b.payoutWallet.value, rate,
                      maxSecs);
    }
  }

  // The node answers exactly when it can be reached, no transaction is under way, and the call succeeds.
  lemma SendIff(w: World, op: PlainOp, rpcUp: bool)
    ensures Send(w, op, rpcUp).Some? <==> rpcUp && w.call.None? && Apply(w.core, w.now, op).Ok?
  {
    if rpcUp && w.call.None? && Apply(w.core, w.now, op).Ok? {
      assert Apply(w.core, w.now, op).value.log.Emit?;
    }
  }

  // What is in storage is set.
  lemma BookedIsSet(w: World, id: BookingId)
    requires Reachable(w)
    ensures id in w.core.bookings ==>
              w.core.bookings[id].status != Unset && w.core.bookings[id].openedAt <= w.now
    ensures id in w.core.bookings <==> StatusOf(w.core, id) != Unset
  {
    ReachableIsSound(w);
    assert id in w.core.bookings ==> BookingSound(w.core.bookings[id], w.now);
  }

  // Between transactions the credited balances always have room.
  lemma CloseRunsIff(w: World, settler: Address, id: BookingId, usage: nat, cancelled: bool)
    requires Reachable(w) && w.call.None?
    ensures Close(w.core, w.now, settler, id, usage, cancelled).Ok? <==>
              && settler in w.core.settlers && StatusOf(w.core, id) == Status.Open
              && w.core.bookings[id].openedAt <= w.now
              && usage <= w.core.bookings[id].maxDurationSecs && usage <= w.now - w.core.bookings[id].openedAt + 300
  {
    ReachableIsSound(w);
    ClosePossibleIff(w, settler, id, usage, cancelled);
    if StatusOf(w.core, id) == Status.Open && usage <= w.core.bookings[id].maxDurationSecs {
      RoomWhenBacked(w, id, usage);
    }
  }

  // And it confirms a close exactly when the booking is open, and the usage at most its window and the time since it
  // was opened plus five minutes.
  lemma SendCloseIff(s: System, id: BookingId, usage: nat, cancelled: bool, rpcUp: bool)
    requires Reachable(s.chain) && s.settings.settler.Some?
    ensures var c := s.chain.core;
            SendClose(s.settings, s.chain, id, usage, cancelled, rpcUp).Some? <==>
              && rpcUp && s.chain.call.None? && s.settings.settler.value in c.settlers
              && id in c.bookings && c.bookings[id].status == Status.Open
              && usage <= c.bookings[id].maxDurationSecs
              && usage <= s.chain.now - c.bookings[id].openedAt + 300
  {
    var settler := s.settings.settler.value;
    SendIff(s.chain, if cancelled then Cancel(settler, id, usage) else Settle(settler, id, usage), rpcUp);
    BookedIsSet(s.chain, id);
    if s.chain.call.None? {
      CloseRunsIff(s.chain, settler, id, usage, cancelled);
    }
  }

  lemma UsageFits(s: System, base: int, h: TxId)
    requires SystemInv(s) && AllTimely(s, base) && Skewed(s, base)
    requires h in s.handlers && s.handlers[h].phase.Closing? && s.handlers[h].phase.usage <= MaxSecs(s.settings)
    requires s.handlers[h].bookingId in s.chain.core.bookings
    ensures var b := s.chain.core.bookings[s.handlers[h].bookingId];
            b.openedAt <= s.chain.now && s.handlers[h].phase.usage <= UsageBound(b, s.chain.now)
  {
    ReachableIsSound(s.chain);
    var me := s.handlers[h];
    assert OpenRow(Rows(s.txs, s.handlers), s.chain.core.bookings, s.openedBy, MaxSecs(s.settings), me.bookingId);
    assert PhaseTimely(s.chain.core.bookings, me, s.clock, base);
  }

  // The booking a close handler acts on is on chain, and open there unless somebody's close was confirmed.
  lemma ClosingIsOnChain(s: System, h: TxId)
    requires SystemInv(s) && h in s.handlers && s.handlers[h].phase.Closing?
    ensures var id := s.handlers[h].bookingId;
            && id in s.chain.core.bookings
            && (StatusOf(s.chain.core, id) == Status.Open <==> id !in s.closedBy)
  {
    ReachableIsSound(s.chain);
    var id := s.handlers[h].bookingId;
    assert HandlerSound(s.settings, s.bookings, s.txs, s.openedBy, h, s.handlers[h]);
    assert CloseRow(Rows(s.txs, s.handlers), s.chain.core.bookings, s.closedBy, id);
  }

  // With clocks that agree up to the grace period, a handler about to close a booking that ran no longer than the
  // locked window is answered with success exactly when nobody closed the booking on chain first; the usage
  // check never turns it away.
  lemma InWindowClosesSettle(s: System, base: int, h: TxId)
    requires HappensSkewed(s, base) && h in s.handlers && s.handlers[h].phase.Closing?
    requires s.handlers[h].phase.usage <= MaxSecs(s.settings)
    requires s.chain.call.None? && s.settings.settler.Some? && s.settings.settler.value in s.chain.core.settlers
    ensures var me := s.handlers[h];
            SendClose(s.settings, s.chain, me.bookingId, me.phase.usage, me.to.Cancelled?, true).Some?
            <==> me.bookingId !in s.closedBy
  {
    TimelyHappens(s, base);
    var me := s.handlers[h];
    ClosingIsOnChain(s, h);
    UsageFits(s, base, h);
    SendCloseIff(s, me.bookingId, me.phase.usage, me.to.Cancelled?, true);
  }

  // ------------------------------------------------------------ whose money

  // An on-chain booking is between the wallets of its row's own parties, who settle on chain.
  predicate BetweenItsParties(settings: Settings, chain: map<BookingId, Booking>, bookings: map<BookingId, BookingRow>,
                              id: BookingId)
  {
    id in chain ==>
      && id in bookings && Applicable(settings, bookings[id])
      && bookings[id].consumerWallet == Some(chain[id].consumer)
      && bookings[id].payoutWallet == Some(chain[id].supplier)
  }

  ghost predicate PartiesAgree(settings: Settings, chain: map<BookingId, Booking>,
                               bookings: map<BookingId, BookingRow>)
  {
    forall id :: BetweenItsParties(settings, chain, bookings, id)
  }

  ghost predicate OwnParties(s: System) {
    PartiesAgree(s.settings, s.chain.core.bookings, s.bookings)
  }

  // New statuses on either side leave the parties alone.
  lemma PartiesStay(settings: Settings, chain: map<BookingId, Booking>, chain': map<BookingId, Booking>,
                    bookings: map<BookingId, BookingRow>, bookings': map<BookingId, BookingRow>)
    requires PartiesAgree(settings, chain, bookings)
    requires forall id | id in chain' ::
               id in chain && chain'[id].consumer == chain[id].consumer && chain'[id].supplier == chain[id].supplier
    requires forall id | id in bookings :: id in bookings' && SameParties(bookings[id], bookings'[id])
    ensures PartiesAgree(settings, chain', bookings')
  {
    forall id ensures BetweenItsParties(settings, chain', bookings', id) {
      assert BetweenItsParties(settings, chain, bookings, id);
    }
  }

  lemma LockingKeepsParties(s: System, h: TxId, rpcUp: bool)
    requires SystemInv(s) && OwnParties(s) && Advanced(s, h, rpcUp).Some? && s.handlers[h].phase.Locking?
    ensures OwnParties(Advanced(s, h, rpcUp).value)
  {
    var me := s.handlers[h];
    var b := s.bookings[me.bookingId];
    var answer := SendOpen(s.settings, s.chain, me.bookingId, b, me.rate, rpcUp);
    if answer.Some? {
      OpenConfirmed(s, me.bookingId, b, me.rate, rpcUp);
      AnswerKeepsParties(s, h, answer.value);
    }
    assert Advanced(s, h, rpcUp).value == Lock(s, h, answer);
  }

  lemma AnswerKeepsParties(s: System, h: TxId, r: ChainResult)
    requires OwnParties(s) && Known(s, h) && LockTook(s, h, Some(r))
    requires Applicable(s.settings, s.bookings[s.handlers[h].bookingId])
    ensures PartiesAgree(s.settings, r.world.core.bookings, s.bookings)
  {
    forall id ensures BetweenItsParties(s.settings, r.world.core.bookings, s.bookings, id) {
      assert BetweenItsParties(s.settings, s.chain.core.bookings, s.bookings, id);
    }
  }

  lemma ClosingKeepsParties(s: System, h: TxId, rpcUp: bool)
    requires ChainSound(s.chain) && OwnParties(s) && Advanced(s, h, rpcUp).Some? && s.handlers[h].phase.Closing?
    ensures OwnParties(Advanced(s, h, rpcUp).value)
  {
    var me := s.handlers[h];
    var usage := me.phase.usage;
    var answer := SendClose(s.settings, s.chain, me.bookingId, usage, me.to.Cancelled?, rpcUp);
    if answer.Some? {
      CloseConfirmed(s, me.bookingId, usage, me.to.Cancelled?, rpcUp);
      PartiesStay(s.settings, s.chain.core.bookings, answer.value.world.core.bookings, s.bookings, s.bookings);
    }
    assert Advanced(s, h, rpcUp).value == Release(s, h, usage, answer);
  }

  // Apart from the chain calls, a handler's step leaves the parties of every row alone.
  predicate LocalStep(s: System, s': System) {
    && s'.chain == s.chain && s'.settings == s.settings
    && forall id | id in s.bookings :: id in s'.bookings && SameParties(s.bookings[id], s'.bookings[id])
  }

  lemma LocalStepKeepsParties(s: System, h: TxId, rpcUp: bool)
    requires OwnParties(s) && Advanced(s, h, rpcUp).Some?
    requires !s.handlers[h].phase.Locking? && !s.handlers[h].phase.Closing?
    ensures OwnParties(Advanced(s, h, rpcUp).value)
  {
    match s.handlers[h].phase {
      case RecordingOpen(_) => assert LocalStep(s, CommitRow(s, h));
      case Assigning => assert LocalStep(s, To(s, h, Committing(s.clock)));
      case Committing(now) => assert LocalStep(s, CommitStatus(s, h, now));
      case Refreshing => assert LocalStep(s, Refresh(s, h));
      case RecordingClose(_) => assert LocalStep(s, CommitRow(s, h));
      case Publishing => assert LocalStep(s, Publish(s, h));
      case Finished(_) =>
    }
    LocalStepParties(s, Advanced(s, h, rpcUp).value);
  }

  lemma LocalStepParties(s: System, s': System)
    requires OwnParties(s) && LocalStep(s, s')
    ensures OwnParties(s')
  {
    PartiesStay(s.settings, s.chain.core.bookings, s'.chain.core.bookings, s.bookings, s'.bookings);
  }

  lemma AdvanceKeepsParties(s: System, h: TxId, rpcUp: bool)
    requires SystemInv(s) && OwnParties(s) && Advanced(s, h, rpcUp).Some?
    ensures OwnParties(Advanced(s, h, rpcUp).value)
  {
    if s.handlers[h].phase.Locking? {
      LockingKeepsParties(s, h, rpcUp);
    } else if s.handlers[h].phase.Closing? {
      ClosingKeepsParties(s, h, rpcUp);
    } else {
      LocalStepKeepsParties(s, h, rpcUp);
    }
  }

  lemma ActionKeepsParties(s: System, a: Action)
    requires SystemInv(s) && OwnParties(s)
    ensures OwnParties(After(s, a))
  {
    if Perform(s, a).Some? {
      var s' := After(s, a);
      match a
      case Create(_, _, _, _, _, _, _, _, _) =>
        PartiesStay(s.settings, s.chain.core.bookings, s.chain.core.bookings, s.bookings, s'.bookings);
      case Request(_, _, _, _) =>
      case Advance(h, rpcUp) => AdvanceKeepsParties(s, h, rpcUp);
      case Chain(l) =>
        if Next(s.chain, l) != s.chain {
          ForeignKeepsBooks(s.chain, l);
        }
      case ServerTick(_) =>
    }
  }

  lemma {:induction false} ExecuteKeepsParties(s: System, actions: seq<Action>)
    requires SystemInv(s) && OwnParties(s)
    ensures OwnParties(Execute(s, actions))
    decreases |actions|
  {
    if actions != [] {
      ActionKeepsInv(s, actions[0]);
      ActionKeepsParties(s, actions[0]);
      ExecuteKeepsParties(After(s, actions[0]), actions[1..]);
    }
  }

  // After every interleaving, every on-chain booking locks its own consumer's escrow for its own supplier.
  lemma OnChainBetweenItsParties(s: System, id: BookingId)
    requires Happens(s) && id in s.chain.core.bookings
    ensures BetweenItsParties(s.settings, s.chain.core.bookings, s.bookings, id)
  {
    var s0, actions :| Start(s0) && s == Execute(s0, actions);
    StartIsSound(s0);
    assert s0.chain.core.bookings == map[];
    ExecuteKeepsParties(s0, actions);
  }

  // ------------------------------------------------------------ no machine before money

  // Row k of the log confirms an openBooking of the booking's own consumer for its own supplier, whose lock is the
  // row's rate, in cents of 10_000 base units, times the configured hours; and that is what the contract holds.
  predicate LockConfirmed(s: System, k: TxId, id: BookingId) {
    && k in s.txs && IsOpen(s.txs[k]) && s.txs[k].bookingId == id
    && id in s.chain.core.bookings && SameTerms(s.txs[k], s.chain.core.bookings[id])
    && BetweenItsParties(s.settings, s.chain.core.bookings, s.bookings, id)
    && s.txs[k].amountUsdc == Some(s.chain.core.bookings[id].lockedAmount)
    && s.chain.core.bookings[id].lockedAmount == s.txs[k].ratePerHourCents * 10_000 * s.settings.maxBookingHours
  }

  // A worker is told to start a booking of parties who settle on chain only after a confirmed openBooking for it
  // is in the log; and only its own worker is, under its own offering.
  lemma NoMessageBeforeMoney(s: System, worker: WorkerId, m: Message) returns (k: TxId)
    requires Happens(s) && (worker, m) in s.published && m.BookingActivated?
    ensures m.bookingId in s.bookings && s.bookings[m.bookingId].workerId == worker
    ensures s.bookings[m.bookingId].offeringId == m.offeringId
    ensures Applicable(s.settings, s.bookings[m.bookingId]) ==> LockConfirmed(s, k, m.bookingId)
  {
    HappensIsSound(s);
    assert MessageSound(s.settings, s.bookings, s.txs, s.openedBy, (worker, m));
    var id := m.bookingId;
    if Applicable(s.settings, s.bookings[id]) {
      k := s.openedBy[id];
      InLog(s, k);
      ReachableIsSound(s.chain);
      assert OpenRow(Rows(s.txs, s.handlers), s.chain.core.bookings, s.openedBy, MaxSecs(s.settings), id);
      OnChainBetweenItsParties(s, id);
      LockOfHours(s.txs[k].ratePerHourCents, s.settings.maxBookingHours);
    } else {
      k := 0;
    }
  }
}
