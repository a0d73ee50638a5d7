// What every interleaving of handlers keeps: the settlement log, the answers still on their way into it, and
// the contract agree booking by booking, although no handler locks anything.
module SettlementInvariant {
  import opened Wrappers
  import opened MapSums
  import opened EscrowMath
  import opened Escrow
  import opened EscrowInvariant
  import opened Ledger
  import opened Settlement

  // The log together with the rows handlers hold between their chain call and their commit.
  function Rows(txs: Table, handlers: map<TxId, Handler>): Table {
    txs + (map h | h in handlers && Recording(handlers[h].phase) :: handlers[h].phase.tx)
  }

  // ------------------------------------------------------------ log against chain

  ghost predicate OpensAgree(rows: Table, chain: map<BookingId, Booking>, openedBy: map<BookingId, TxId>,
                             maxSecs: nat)
  {
    && openedBy.Keys == chain.Keys
    && (forall id :: id in openedBy ==> OpenRow(rows, chain, openedBy, maxSecs, id))
    && (forall k :: OpenKnown(rows, openedBy, k))
  }

  // Each on-chain booking has a confirmed open that carries its lock, its parties and its rate.
  predicate OpenRow(rows: Table, chain: map<BookingId, Booking>, openedBy: map<BookingId, TxId>, maxSecs: nat,
                    id: BookingId)
  {
    && id in openedBy && id in chain && openedBy[id] in rows
    && rows[openedBy[id]].bookingId == id
    && IsOpen(rows[openedBy[id]])
    && rows[openedBy[id]].amountUsdc == Some(chain[id].lockedAmount)
    && SameTerms(rows[openedBy[id]], chain[id])
    && chain[id].maxDurationSecs == maxSecs
  }

  // Each confirmed open is the one that opened its booking.
  predicate OpenKnown(rows: Table, openedBy: map<BookingId, TxId>, k: TxId) {
    k in rows && IsOpen(rows[k]) ==> rows[k].bookingId in openedBy && openedBy[rows[k].bookingId] == k
  }

  ghost predicate ClosesAgree(rows: Table, chain: map<BookingId, Booking>, closedBy: map<BookingId, TxId>) {
    && (forall id :: CloseRow(rows, chain, closedBy, id))
    && (forall k :: CloseKnown(rows, closedBy, k))
  }

  // Exactly the closed on-chain bookings have a confirmed close, which carries the price of its usage.
  predicate CloseRow(rows: Table, chain: map<BookingId, Booking>, closedBy: map<BookingId, TxId>, id: BookingId) {
    && (id in closedBy <==> Closed(chain, id))
    && (id in closedBy ==>
          && closedBy[id] in rows && IsClose(rows[closedBy[id]]) && rows[closedBy[id]].bookingId == id
          && PricedBy(rows[closedBy[id]], chain[id]))
  }

  predicate PricedBy(tx: SettlementTx, b: Booking) {
    && tx.usageSeconds.Some?
    && tx.amountUsdc == Some(BillFor(b, tx.usageSeconds.value).cost)
    && tx.commissionUsdc == Some(BillFor(b, tx.usageSeconds.value).commission)
  }

  predicate CloseKnown(rows: Table, closedBy: map<BookingId, TxId>, k: TxId) {
    k in rows && IsClose(rows[k]) ==> rows[k].bookingId in closedBy && closedBy[rows[k].bookingId] == k
  }

  // The two additive totals.
  ghost predicate TotalsAgree(rows: Table, log: EventLog, first: Address) {
    && Sum(ClosedAmounts(rows)) == Tally(log, first, Volume)
    && Sum(ClosedCommissions(rows)) == Tally(log, first, Commission)
  }

  // ------------------------------------------------------------ adding a row

  lemma OpensAfterLock(rows: Table, chain: map<BookingId, Booking>, openedBy: map<BookingId, TxId>, maxSecs: nat,
                       h: TxId, tx: SettlementTx, b: Booking)
    requires OpensAgree(rows, chain, openedBy, maxSecs) && h !in rows && tx.bookingId !in chain
    requires IsOpen(tx) && tx.amountUsdc == Some(b.lockedAmount) && b.maxDurationSecs == maxSecs && SameTerms(tx, b)
    ensures OpensAgree(rows[h := tx], chain[tx.bookingId := b], openedBy[tx.bookingId := h], maxSecs)
  {
    var rows', chain', openedBy' := rows[h := tx], chain[tx.bookingId := b], openedBy[tx.bookingId := h];
    forall id | id in openedBy' ensures OpenRow(rows', chain', openedBy', maxSecs, id) {
      assert id in openedBy ==> OpenRow(rows, chain, openedBy, maxSecs, id);
    }
    forall k ensures OpenKnown(rows', openedBy', k) {
      assert OpenKnown(rows, openedBy, k);
    }
  }

  lemma OpensAfterOther(rows: Table, chain: map<BookingId, Booking>, openedBy: map<BookingId, TxId>, maxSecs: nat,
                        h: TxId, tx: SettlementTx)
    requires OpensAgree(rows, chain, openedBy, maxSecs) && h !in rows && !IsOpen(tx)
    ensures OpensAgree(rows[h := tx], chain, openedBy, maxSecs)
  {
    var rows' := rows[h := tx];
    forall id | id in openedBy ensures OpenRow(rows', chain, openedBy, maxSecs, id) {
      assert OpenRow(rows, chain, openedBy, maxSecs, id);
    }
    forall k ensures OpenKnown(rows', openedBy, k) {
      assert OpenKnown(rows, openedBy, k);
    }
  }

  lemma OpensAfterStatus(rows: Table, chain: map<BookingId, Booking>, openedBy: map<BookingId, TxId>, maxSecs: nat,
                         id: BookingId, status: Status)
    requires OpensAgree(rows, chain, openedBy, maxSecs) && id in chain
    ensures OpensAgree(rows, chain[id := chain[id].(status := status)], openedBy, maxSecs)
  {
    var chain' := chain[id := chain[id].(status := status)];
    forall i | i in openedBy ensures OpenRow(rows, chain', openedBy, maxSecs, i) {
      assert OpenRow(rows, chain, openedBy, maxSecs, i);
    }
  }

  lemma ClosesAfterOther(rows: Table, chain: map<BookingId, Booking>, closedBy: map<BookingId, TxId>, h: TxId,
                         tx: SettlementTx)
    requires ClosesAgree(rows, chain, closedBy) && h !in rows && !IsClose(tx)
    ensures ClosesAgree(rows[h := tx], chain, closedBy)
  {
    var rows' := rows[h := tx];
    forall id ensures CloseRow(rows', chain, closedBy, id) {
      assert CloseRow(rows, chain, closedBy, id);
    }
    forall k ensures CloseKnown(rows', closedBy, k) {
      assert CloseKnown(rows, closedBy, k);
    }
  }

  lemma ClosesAfterOpen(rows: Table, chain: map<BookingId, Booking>, closedBy: map<BookingId, TxId>, id: BookingId,
                        b: Booking)
    requires ClosesAgree(rows, chain, closedBy) && id !in chain && b.status.Open?
    ensures ClosesAgree(rows, chain[id := b], closedBy)
  {
    var chain' := chain[id := b];
    forall i ensures CloseRow(rows, chain', closedBy, i) {
      assert CloseRow(rows, chain, closedBy, i);
    }
  }

  lemma ClosesAfterRelease(rows: Table, chain: map<BookingId, Booking>, closedBy: map<BookingId, TxId>, h: TxId,
                           tx: SettlementTx, b: Booking)
    requires ClosesAgree(rows, chain, closedBy) && h !in rows && IsClose(tx) && PricedBy(tx, b)
    requires tx.bookingId in chain && chain[tx.bookingId].status.Open? && !b.status.Open?
    ensures ClosesAgree(rows[h := tx], chain[tx.bookingId := b], closedBy[tx.bookingId := h])
  {
    var rows', chain', closedBy' := rows[h := tx], chain[tx.bookingId := b], closedBy[tx.bookingId := h];
    assert CloseRow(rows, chain, closedBy, tx.bookingId);
    forall id ensures CloseRow(rows', chain', closedBy', id) {
      assert CloseRow(rows, chain, closedBy, id);
    }
    forall k ensures CloseKnown(rows', closedBy', k) {
      assert CloseKnown(rows, closedBy, k);
    }
  }

  lemma TotalsAfterRow(rows: Table, log: EventLog, first: Address, h: TxId, tx: SettlementTx)
    requires TotalsAgree(rows, log, first) && h !in rows && !IsClose(tx)
    ensures TotalsAgree(rows[h := tx], log, first)
  {
    assert ClosedAmounts(rows[h := tx]) == ClosedAmounts(rows);
    assert ClosedCommissions(rows[h := tx]) == ClosedCommissions(rows);
  }

  lemma TotalsAfterRelease(rows: Table, log: EventLog, first: Address, h: TxId, tx: SettlementTx, e: Event)
    requires TotalsAgree(rows, log, first) && h !in rows && IsClose(tx)
    requires e.BookingSettled? && tx.amountUsdc == Some(e.cost) && tx.commissionUsdc == Some(e.commission)
    ensures TotalsAgree(rows[h := tx], Emit(log, e), first)
  {
    assert ClosedAmounts(rows[h := tx]) == ClosedAmounts(rows)[h := e.cost];
    assert ClosedCommissions(rows[h := tx]) == ClosedCommissions(rows)[h := e.commission];
    SumUpdate(ClosedAmounts(rows), h, e.cost);
    SumUpdate(ClosedCommissions(rows), h, e.commission);
  }

  // ------------------------------------------------------------ the public ledger against the chain

  lemma LockedRowsAreOpen(rows: Table, chain: map<BookingId, Booking>, openedBy: map<BookingId, TxId>,
                          closedBy: map<BookingId, TxId>, maxSecs: nat)
    requires OpensAgree(rows, chain, openedBy, maxSecs) && ClosesAgree(rows, chain, closedBy)
    ensures LockedAmounts(rows).Keys == StillOpen(rows)
  {
    forall k ensures k in LockedAmounts(rows) <==> k in StillOpen(rows) {
      StillOpenIff(rows, chain, openedBy, closedBy, maxSecs, k);
    }
  }

  // Each open booking on chain is locked by the row that opened it.
  lemma OpenIsStillOpen(rows: Table, chain: map<BookingId, Booking>, openedBy: map<BookingId, TxId>,
                        closedBy: map<BookingId, TxId>, maxSecs: nat, id: BookingId)
    requires OpensAgree(rows, chain, openedBy, maxSecs) && ClosesAgree(rows, chain, closedBy)
    requires id in chain && chain[id].status.Open?
    ensures id in openedBy && openedBy[id] in StillOpen(rows) && rows[openedBy[id]].bookingId == id
  {
    assert OpenRow(rows, chain, openedBy, maxSecs, id);
    StillOpenIff(rows, chain, openedBy, closedBy, maxSecs, openedBy[id]);
  }

  // With every answer recorded, the ledger's locked volume and open count are the chain's.
  lemma LedgerMatchesLocks(rows: Table, chain: map<BookingId, Booking>, openedBy: map<BookingId, TxId>,
                           closedBy: map<BookingId, TxId>, maxSecs: nat)
    requires OpensAgree(rows, chain, openedBy, maxSecs) && ClosesAgree(rows, chain, closedBy)
    ensures Sum(LockedAmounts(rows)) == Sum(AllOpenLocks(chain))
    ensures |StillOpen(rows)| == |AllOpenLocks(chain)|
  {
    var m, n := LockedAmounts(rows), AllOpenLocks(chain);
    LockedRowsAreOpen(rows, chain, openedBy, closedBy, maxSecs);
    forall k | k in m
      ensures rows[k].bookingId in n && n[rows[k].bookingId] == m[k] && openedBy[rows[k].bookingId] == k
    {
      StillOpenRow(rows, chain, openedBy, closedBy, maxSecs, k);
    }
    forall id | id in n ensures openedBy[id] in m && rows[openedBy[id]].bookingId == id {
      OpenIsStillOpen(rows, chain, openedBy, closedBy, maxSecs, id);
    }
    SumBijection(m, n, map k | k in m :: rows[k].bookingId, map id | id in n :: openedBy[id]);
  }

  lemma StillOpenRow(rows: Table, chain: map<BookingId, Booking>, openedBy: map<BookingId, TxId>,
                     closedBy: map<BookingId, TxId>, maxSecs: nat, k: TxId)
    requires OpensAgree(rows, chain, openedBy, maxSecs) && ClosesAgree(rows, chain, closedBy)
    requires k in StillOpen(rows)
    ensures k in rows
    ensures var id := rows[k].bookingId;
            && id in chain && chain[id].status.Open? && id in openedBy && openedBy[id] == k
            && rows[k].amountUsdc == Some(chain[id].lockedAmount)
  {
    StillOpenIff(rows, chain, openedBy, closedBy, maxSecs, k);
    assert OpenRow(rows, chain, openedBy, maxSecs, rows[k].bookingId);
  }

  // The closed bookings on chain.
  function ClosedOnChain(chain: map<BookingId, Booking>): set<BookingId> {
    set id | id in chain && Closed(chain, id)
  }

  lemma SettlementsMatchCloses(rows: Table, chain: map<BookingId, Booking>, closedBy: map<BookingId, TxId>)
    requires ClosesAgree(rows, chain, closedBy)
    ensures |ClosedAmounts(rows)| == |ClosedOnChain(chain)|
  {
    var m := ClosedAmounts(rows);
    forall id | id in ClosedOnChain(chain)
      ensures id in closedBy && closedBy[id] in m && rows[closedBy[id]].bookingId == id
    {
      assert CloseRow(rows, chain, closedBy, id);
    }
    var n := map id | id in ClosedOnChain(chain) :: m[closedBy[id]];
    var f := map k | k in m :: rows[k].bookingId;
    var g := map id | id in n :: closedBy[id];
    forall k | k in m ensures f[k] in n && n[f[k]] == m[k] && g[f[k]] == k {
      assert CloseKnown(rows, closedBy, k);
      assert CloseRow(rows, chain, closedBy, f[k]);
    }
    SumBijection(m, n, f, g);
    assert n.Keys == ClosedOnChain(chain);
  }

  // A row is still open exactly when it is the confirmed open of a booking open on chain.
  lemma StillOpenIff(rows: Table, chain: map<BookingId, Booking>, openedBy: map<BookingId, TxId>,
                     closedBy: map<BookingId, TxId>, maxSecs: nat, k: TxId)
    requires OpensAgree(rows, chain, openedBy, maxSecs) && ClosesAgree(rows, chain, closedBy)
    ensures k in StillOpen(rows) <==>
            k in rows && IsOpen(rows[k]) && rows[k].bookingId in chain && chain[rows[k].bookingId].status.Open?
            && openedBy[rows[k].bookingId] == k
    ensures k in StillOpen(rows) <==> k in rows && IsOpen(rows[k]) && rows[k].bookingId in StillOpenBookings(rows)
  {
    if k in rows && IsOpen(rows[k]) {
      var id := rows[k].bookingId;
      assert OpenKnown(rows, openedBy, k);
      assert CloseRow(rows, chain, closedBy, id);
      if id in ClosedBookings(rows) {
        var j :| j in rows && IsClose(rows[j]) && rows[j].bookingId == id;
        assert CloseKnown(rows, closedBy, j);
      }
    }
  }

  // ------------------------------------------------------------ chain steps

  // The parts of the contract the log mirrors.
  predicate SameBooks(c: Core, c': Core) {
    && c'.bookings == c.bookings
    && c'.initialTreasury == c.initialTreasury
    && Tally(c'.log, c'.initialTreasury, Volume) == Tally(c.log, c.initialTreasury, Volume)
    && Tally(c'.log, c'.initialTreasury, Commission) == Tally(c.log, c.initialTreasury, Commission)
  }

  // Nobody but the settler touches them, not even from inside a token transfer that is later undone.
  lemma ForeignPlain(c: Core, now: nat, op: PlainOp)
    requires op.Open? || op.Settle? || op.Cancel? ==> op.sender !in c.settlers
    requires Apply(c, now, op).Ok?
    ensures SameBooks(c, Apply(c, now, op).value)
  {
  }

  lemma BeginKeepsBooks(c: Core, op: MoneyOp)
    requires Begin(c, op).Ok?
    ensures SameBooks(c, Begin(c, op).value)
  {
  }

  lemma PayKeepsBooks(c: Core, call: Call)
    requires Pay(c, call).Ok?
    ensures SameBooks(c, Pay(c, call).value)
  {
  }

  lemma ReturnKeepsBooks(c: Core, call: Call)
    ensures SameBooks(c, Return(c, call))
  {
  }

  lemma ForeignMoney(w: World, l: Label)
    requires !l.Plain? && Step(w, l).Ok? && SameBooks(w.core, w.committed)
    ensures SameBooks(w.core, Step(w, l).value.core)
    ensures SameBooks(w.core, Step(w, l).value.committed)
  {
    match l
    case Money(op) => BeginKeepsBooks(w.core, op);
    case TokenMoves => PayKeepsBooks(w.core, w.call.value);
    case Finish => ReturnKeepsBooks(w.core, w.call.value);
    case Revert =>
    case Tick(_) =>
  }

  lemma ForeignKeepsBooks(w: World, l: Label)
    requires Foreign(w, l) && Step(w, l).Ok? && SameBooks(w.core, w.committed)
    ensures SameBooks(w.core, Step(w, l).value.core)
    ensures SameBooks(w.core, Step(w, l).value.committed)
  {
    if l.Plain? {
      ForeignPlain(w.core, w.now, l.plain);
    } else {
      ForeignMoney(w, l);
    }
  }

  // What a confirmed openBooking for the parties of a booking row means.
  ghost predicate OpenTook(w: World, r: ChainResult, id: BookingId, row: BookingRow, rate: nat, maxSecs: nat) {
    var c, c' := w.core, r.world.core;
    && Reachable(r.world) && r.world.call.None? && r.world.committed == c' && r.world.now == w.now
    && id !in c.bookings && id in c'.bookings
    && var b := c'.bookings[id];
    && c'.bookings == c.bookings[id := b]
    && b.status.Open? && b.maxDurationSecs == maxSecs && b.lockedAmount == LockFor(b.ratePerHourCents, maxSecs)
    && row.consumerWallet == Some(b.consumer) && row.payoutWallet == Some(b.supplier) && b.ratePerHourCents == rate
    && b.openedAt <= w.now
    && r.event == OpenEvent(id, b) && c'.log == Emit(c.log, r.event)
    && c'.initialTreasury == c.initialTreasury
  }

  lemma OpenConfirmed(s: System, id: BookingId, b: BookingRow, rate: nat, rpcUp: bool)
    requires Reachable(s.chain) && Applicable(s.settings, b) && SendOpen(s.settings, s.chain, id, b, rate, rpcUp).Some?
    ensures OpenTook(s.chain, SendOpen(s.settings, s.chain, id, b, rate, rpcUp).value, id, b, rate, MaxSecs(s.settings))
  {
    var op := PlainOp.Open(s.settings.settler.value, id, b.consumerWallet.value, b.payoutWallet.value, rate,
                           MaxSecs(s.settings));
    ReachableIsSound(s.chain);
    ReachableNext(s.chain, Plain(op));
    OpenWrites(s.chain.core, s.chain.now, op.sender, id, op.consumer, op.supplier, rate, MaxSecs(s.settings));
  }

  // What a confirmed settleBooking or cancelBooking means.
  ghost predicate CloseTook(w: World, r: ChainResult, id: BookingId, usage: nat, cancelled: bool) {
    var c, c' := w.core, r.world.core;
    && Reachable(r.world) && r.world.call.None? && r.world.committed == c' && r.world.now == w.now
    && id in c.bookings && c.bookings[id].status.Open?
    && c'.bookings == c.bookings[id := c.bookings[id].(status := if cancelled then Status.Cancelled else Settled)]
    && r.event == CloseEvent(id, c.bookings[id], usage, BillFor(c.bookings[id], usage), cancelled)
    && c'.log == Emit(c.log, r.event)
    && c'.initialTreasury == c.initialTreasury
  }

  lemma CloseConfirmed(s: System, id: BookingId, usage: nat, cancelled: bool, rpcUp: bool)
    requires Reachable(s.chain) && s.settings.settler.Some?
    requires SendClose(s.settings, s.chain, id, usage, cancelled, rpcUp).Some?
    ensures CloseTook(s.chain, SendClose(s.settings, s.chain, id, usage, cancelled, rpcUp).value, id, usage, cancelled)
  {
    var settler := s.settings.settler.value;
    var op := if cancelled then PlainOp.Cancel(settler, id, usage) else PlainOp.Settle(settler, id, usage);
    ReachableIsSound(s.chain);
    ReachableNext(s.chain, Plain(op));
    CloseWrites(s.chain.core, s.chain.now, settler, id, usage, cancelled);
  }

  // ------------------------------------------------------------ the system invariant

  ghost predicate ChainSound(w: World) {
    Reachable(w) && SameBooks(w.core, w.committed)
  }

  ghost predicate LogSound(rows: Table, c: Core, openedBy: map<BookingId, TxId>, closedBy: map<BookingId, TxId>,
                           maxSecs: nat)
  {
    && OpensAgree(rows, c.bookings, openedBy, maxSecs)
    && ClosesAgree(rows, c.bookings, closedBy)
    && TotalsAgree(rows, c.log, c.initialTreasury)
  }

  // The confirmed open of a booking is in the log, not just on its way.
  predicate Recorded(txs: Table, openedBy: map<BookingId, TxId>, id: BookingId) {
    id in openedBy && openedBy[id] in txs
  }

  // A booking of parties who settle on chain has its lock recorded once it is active or was ever started.
  predicate RowSound(s: Settings, bookings: map<BookingId, BookingRow>, txs: Table, openedBy: map<BookingId, TxId>,
                     id: BookingId)
  {
    id in bookings && (bookings[id].status.Active? || bookings[id].startedAt.Some?) && Applicable(s, bookings[id])
    ==> Recorded(txs, openedBy, id)
  }

  // A handler past its chain call has what that call promised; one before it has written no row yet.
  predicate HandlerSound(s: Settings, bookings: map<BookingId, BookingRow>, txs: Table, openedBy: map<BookingId, TxId>,
                         h: TxId, me: Handler)
  {
    && me.bookingId in bookings
    && ValidTransition(me.prev, me.to)
    && (me.phase.Locking? || me.phase.RecordingOpen? ==> me.to.Active? && h !in txs)
    && (me.phase.Closing? || me.phase.RecordingClose? ==>
          ClosesActive(me) && h !in txs && Applicable(s, bookings[me.bookingId]))
    && (me.phase.Assigning? || me.phase.Committing? || me.phase.Refreshing? ==> !me.to.Active? ==> h !in txs)
    && (me.phase.RecordingOpen? ==> RowOf(me.phase.tx, me.bookingId, OpenTx))
    && (me.phase.RecordingClose? ==> RowOf(me.phase.tx, me.bookingId, if me.to.Cancelled? then CancelTx else SettleTx))
    && (Applicable(s, bookings[me.bookingId]) && Past(me) ==> Recorded(txs, openedBy, me.bookingId))
  }

  predicate RowOf(tx: SettlementTx, id: BookingId, kind: TxKind) {
    tx.bookingId == id && tx.kind == kind
  }

  // Activations past the recording of their lock, and closes of a booking that was active.
  predicate Past(me: Handler) {
    if me.to.Active? then me.phase.Assigning? || me.phase.Committing? || me.phase.Refreshing? || me.phase.Publishing?
    else me.prev.Active?
  }

  // A worker is told to start a booking only when its lock is recorded, only the booking's own worker is, and only
  // under the booking's own offering.
  predicate MessageSound(s: Settings, bookings: map<BookingId, BookingRow>, txs: Table,
                         openedBy: map<BookingId, TxId>, m: (WorkerId, Message))
  {
    m.1.BookingActivated? ==>
      && m.1.bookingId in bookings
      && bookings[m.1.bookingId].workerId == m.0 && bookings[m.1.bookingId].offeringId == m.1.offeringId
      && (Applicable(s, bookings[m.1.bookingId]) ==> Recorded(txs, openedBy, m.1.bookingId))
  }

  ghost predicate ProtocolSound(s: System) {
    && (forall id :: RowSound(s.settings, s.bookings, s.txs, s.openedBy, id))
    && (forall h | h in s.handlers :: HandlerSound(s.settings, s.bookings, s.txs, s.openedBy, h, s.handlers[h]))
    && (forall m | m in s.published :: MessageSound(s.settings, s.bookings, s.txs, s.openedBy, m))
    && (forall id | id in s.closedBy :: Recorded(s.txs, s.openedBy, id))
  }

  ghost predicate LogAndChain(s: System) {
    && ChainSound(s.chain)
    && LogSound(Rows(s.txs, s.handlers), s.chain.core, s.openedBy, s.closedBy, MaxSecs(s.settings))
  }

  ghost predicate SystemInv(s: System) {
    LogAndChain(s) && ProtocolSound(s)
  }

  // ------------------------------------------------------------ rows as handlers move

  lemma RowsSame(txs: Table, handlers: map<TxId, Handler>, h: TxId, me: Handler)
    requires !Recording(me.phase) && (h in handlers ==> !Recording(handlers[h].phase))
    ensures Rows(txs, handlers[h := me]) == Rows(txs, handlers)
  {
  }

  lemma RowsAnswered(txs: Table, handlers: map<TxId, Handler>, h: TxId, me: Handler)
    requires Recording(me.phase)
    ensures Rows(txs, handlers[h := me]) == Rows(txs, handlers)[h := me.phase.tx]
  {
  }

  lemma RowsRecorded(txs: Table, handlers: map<TxId, Handler>, h: TxId, me: Handler)
    requires h in handlers && Recording(handlers[h].phase) && !Recording(me.phase)
    ensures Rows(txs[h := handlers[h].phase.tx], handlers[h := me]) == Rows(txs, handlers)
  {
  }

  // ------------------------------------------------------------ frames between handlers

  predicate SameParties(b: BookingRow, b': BookingRow) {
    && b'.consumerWallet == b.consumerWallet && b'.payoutWallet == b.payoutWallet
    && b'.workerId == b.workerId && b'.offeringId == b.offeringId
  }

  // What one handler may do to the tables the others look at.
  ghost predicate Grows(s: System, s': System, h: TxId) {
    && s'.settings == s.settings
    && (forall id | id in s.bookings :: id in s'.bookings && SameParties(s.bookings[id], s'.bookings[id]))
    && (forall k | k in s.txs :: k in s'.txs)
    && (forall k | k in s'.txs :: k in s.txs || k == h)
    && (forall id | id in s.openedBy :: id in s'.openedBy && s'.openedBy[id] == s.openedBy[id])
  }

  lemma OthersGrow(s: System, s': System, h: TxId, me: Handler)
    requires ProtocolSound(s) && Grows(s, s', h) && s'.handlers == s.handlers[h := me]
    requires HandlerSound(s'.settings, s'.bookings, s'.txs, s'.openedBy, h, me)
    ensures forall j | j in s'.handlers ::
              HandlerSound(s'.settings, s'.bookings, s'.txs, s'.openedBy, j, s'.handlers[j])
  {
    forall j | j in s'.handlers
      ensures HandlerSound(s'.settings, s'.bookings, s'.txs, s'.openedBy, j, s'.handlers[j])
    {
      if j != h {
        assert HandlerSound(s.settings, s.bookings, s.txs, s.openedBy, j, s.handlers[j]);
      }
    }
  }

  lemma MessagesGrow(s: System, s': System, h: TxId)
    requires ProtocolSound(s) && Grows(s, s', h)
    ensures forall m | m in s.published :: MessageSound(s'.settings, s'.bookings, s'.txs, s'.openedBy, m)
  {
    forall m | m in s.published ensures MessageSound(s'.settings, s'.bookings, s'.txs, s'.openedBy, m) {
      assert MessageSound(s.settings, s.bookings, s.txs, s.openedBy, m);
    }
  }

  // A handler step that leaves booking statuses, messages and closes alone.
  lemma QuietStep(s: System, s': System, h: TxId, me: Handler)
    requires ProtocolSound(s) && Grows(s, s', h) && s'.handlers == s.handlers[h := me]
    requires HandlerSound(s'.settings, s'.bookings, s'.txs, s'.openedBy, h, me)
    requires s'.bookings == s.bookings && s'.published == s.published
    requires forall id | id in s'.closedBy :: id in s.closedBy || Recorded(s'.txs, s'.openedBy, id)
    ensures ProtocolSound(s')
  {
    OthersGrow(s, s', h, me);
    MessagesGrow(s, s', h);
    forall id ensures RowSound(s'.settings, s'.bookings, s'.txs, s'.openedBy, id) {
      assert RowSound(s.settings, s.bookings, s.txs, s.openedBy, id);
    }
  }

  // ------------------------------------------------------------ the log after an answer from the chain

  lemma LogAfterFailure(rows: Table, c: Core, openedBy: map<BookingId, TxId>, closedBy: map<BookingId, TxId>,
                        maxSecs: nat, h: TxId, tx: SettlementTx)
    requires LogSound(rows, c, openedBy, closedBy, maxSecs) && h !in rows && !tx.confirmed
    ensures LogSound(rows[h := tx], c, openedBy, closedBy, maxSecs)
  {
    OpensAfterOther(rows, c.bookings, openedBy, maxSecs, h, tx);
    ClosesAfterOther(rows, c.bookings, closedBy, h, tx);
    TotalsAfterRow(rows, c.log, c.initialTreasury, h, tx);
  }

  lemma LogAfterLock(rows: Table, c: Core, c': Core, openedBy: map<BookingId, TxId>, closedBy: map<BookingId, TxId>,
                     maxSecs: nat, h: TxId, tx: SettlementTx, b: Booking)
    requires LogSound(rows, c, openedBy, closedBy, maxSecs) && h !in rows && tx.bookingId !in c.bookings
    requires IsOpen(tx) && tx.amountUsdc == Some(b.lockedAmount) && b.maxDurationSecs == maxSecs && b.status.Open?
    requires SameTerms(tx, b)
    requires c'.bookings == c.bookings[tx.bookingId := b] && c'.initialTreasury == c.initialTreasury
    requires c'.log == Emit(c.log, OpenEvent(tx.bookingId, b))
    ensures LogSound(rows[h := tx], c', openedBy[tx.bookingId := h], closedBy, maxSecs)
  {
    OpensAfterLock(rows, c.bookings, openedBy, maxSecs, h, tx, b);
    ClosesAfterOther(rows, c.bookings, closedBy, h, tx);
    ClosesAfterOpen(rows[h := tx], c.bookings, closedBy, tx.bookingId, b);
    TotalsAfterRow(rows, c.log, c.initialTreasury, h, tx);
  }

  lemma LogAfterRelease(rows: Table, c: Core, c': Core, openedBy: map<BookingId, TxId>, closedBy: map<BookingId, TxId>,
                        maxSecs: nat, h: TxId, tx: SettlementTx, status: Status, e: Event)
    requires LogSound(rows, c, openedBy, closedBy, maxSecs) && h !in rows && tx.bookingId in c.bookings
    requires c.bookings[tx.bookingId].status.Open? && !status.Open?
    requires IsClose(tx) && e.BookingSettled? && PricedBy(tx, c.bookings[tx.bookingId])
    requires tx.amountUsdc == Some(e.cost) && tx.commissionUsdc == Some(e.commission)
    requires c'.bookings == c.bookings[tx.bookingId := c.bookings[tx.bookingId].(status := status)]
    requires c'.initialTreasury == c.initialTreasury && c'.log == Emit(c.log, e)
    ensures LogSound(rows[h := tx], c', openedBy, closedBy[tx.bookingId := h], maxSecs)
  {
    var b := c.bookings[tx.bookingId].(status := status);
    OpensAfterOther(rows, c.bookings, openedBy, maxSecs, h, tx);
    OpensAfterStatus(rows[h := tx], c.bookings, openedBy, maxSecs, tx.bookingId, status);
    ClosesAfterRelease(rows, c.bookings, closedBy, h, tx, b);
    TotalsAfterRelease(rows, c.log, c.initialTreasury, h, tx, e);
  }

  // ------------------------------------------------------------ each action

  // A handler whose chain call is due holds no row yet.
  predicate Unanswered(s: System, h: TxId) {
    Known(s, h) && h !in s.txs && !Recording(s.handlers[h].phase)
  }

  // The answer to the handler's openBooking is that it took.
  ghost predicate LockTook(s: System, h: TxId, answer: Option<ChainResult>)
    requires Known(s, h)
  {
    var me := s.handlers[h];
    answer.Some? ==>
      OpenTook(s.chain, answer.value, me.bookingId, s.bookings[me.bookingId], me.rate, MaxSecs(s.settings))
  }

  lemma LockKeepsLog(s: System, h: TxId, answer: Option<ChainResult>)
    requires LogAndChain(s) && Unanswered(s, h) && LockTook(s, h, answer)
    ensures LogAndChain(Lock(s, h, answer))
    ensures answer.Some? ==> s.handlers[h].bookingId !in s.openedBy
  {
    var s' := Lock(s, h, answer);
    var rows := Rows(s.txs, s.handlers);
    var tx := s'.handlers[h].phase.tx;
    RowsAnswered(s.txs, s.handlers, h, s'.handlers[h]);
    if answer.Some? {
      LogAfterLock(rows, s.chain.core, s'.chain.core, s.openedBy, s.closedBy, MaxSecs(s.settings), h, tx,
                   s'.chain.core.bookings[tx.bookingId]);
    } else {
      LogAfterFailure(rows, s.chain.core, s.openedBy, s.closedBy, MaxSecs(s.settings), h, tx);
    }
  }

  lemma LockKeepsProtocol(s: System, h: TxId, answer: Option<ChainResult>)
    requires ProtocolSound(s) && Known(s, h) && s.handlers[h].phase.Locking?
    requires answer.Some? ==> s.handlers[h].bookingId !in s.openedBy
    ensures ProtocolSound(Lock(s, h, answer))
  {
    assert HandlerSound(s.settings, s.bookings, s.txs, s.openedBy, h, s.handlers[h]);
    QuietStep(s, Lock(s, h, answer), h, Lock(s, h, answer).handlers[h]);
  }

  lemma ReleaseKeepsLog(s: System, h: TxId, usage: nat, answer: Option<ChainResult>)
    requires LogAndChain(s) && Unanswered(s, h)
    requires answer.Some? ==>
               CloseTook(s.chain, answer.value, s.handlers[h].bookingId, usage, s.handlers[h].to.Cancelled?)
    ensures LogAndChain(Release(s, h, usage, answer))
  {
    var s' := Release(s, h, usage, answer);
    var rows := Rows(s.txs, s.handlers);
    var tx := s'.handlers[h].phase.tx;
    RowsAnswered(s.txs, s.handlers, h, s'.handlers[h]);
    if answer.Some? {
      LogAfterRelease(rows, s.chain.core, s'.chain.core, s.openedBy, s.closedBy, MaxSecs(s.settings), h, tx,
                      if s.handlers[h].to.Cancelled? then Status.Cancelled else Settled, answer.value.event);
    } else {
      LogAfterFailure(rows, s.chain.core, s.openedBy, s.closedBy, MaxSecs(s.settings), h, tx);
    }
  }

  lemma ReleaseKeepsProtocol(s: System, h: TxId, usage: nat, answer: Option<ChainResult>)
    requires ProtocolSound(s) && Known(s, h) && s.handlers[h].phase.Closing?
    ensures ProtocolSound(Release(s, h, usage, answer))
  {
    assert HandlerSound(s.settings, s.bookings, s.txs, s.openedBy, h, s.handlers[h]);
    QuietStep(s, Release(s, h, usage, answer), h, Release(s, h, usage, answer).handlers[h]);
  }

  // Committing a row that was already on its way changes nothing the chain can see.
  lemma RecordKeepsLog(s: System, h: TxId)
    requires LogAndChain(s) && h in s.handlers && Recording(s.handlers[h].phase)
    ensures LogAndChain(CommitRow(s, h))
  {
    RowsRecorded(s.txs, s.handlers, h, CommitRow(s, h).handlers[h]);
  }

  // A confirmed open on its way names its handler as the opener.
  lemma OpenerIsHandler(s: System, h: TxId)
    requires LogAndChain(s) && h in s.handlers && s.handlers[h].phase.RecordingOpen?
    requires IsOpen(s.handlers[h].phase.tx)
    ensures var id := s.handlers[h].phase.tx.bookingId;
            id in s.openedBy && s.openedBy[id] == h
  {
    assert OpenKnown(Rows(s.txs, s.handlers), s.openedBy, h);
  }

  // So committing it records the lock the handler relies on from then on.
  lemma RecordKeepsProtocol(s: System, h: TxId)
    requires ProtocolSound(s) && h in s.handlers && Recording(s.handlers[h].phase)
    requires var p := s.handlers[h].phase;
             p.RecordingOpen? && p.tx.confirmed ==> p.tx.bookingId in s.openedBy && s.openedBy[p.tx.bookingId] == h
    ensures ProtocolSound(CommitRow(s, h))
  {
    assert HandlerSound(s.settings, s.bookings, s.txs, s.openedBy, h, s.handlers[h]);
    QuietStep(s, CommitRow(s, h), h, CommitRow(s, h).handlers[h]);
  }

  // The status commit: only an activation past its recorded lock makes a settling booking active.
  lemma CommitKeepsProtocol(s: System, h: TxId, now: int)
    requires ProtocolSound(s) && h in s.handlers && s.handlers[h].phase == Committing(now)
    requires s.handlers[h].bookingId in s.bookings
    ensures ProtocolSound(CommitStatus(s, h, now))
  {
    var s' := CommitStatus(s, h, now);
    assert HandlerSound(s.settings, s.bookings, s.txs, s.openedBy, h, s.handlers[h]);
    OthersGrow(s, s', h, s'.handlers[h]);
    MessagesGrow(s, s', h);
    forall id ensures RowSound(s'.settings, s'.bookings, s'.txs, s'.openedBy, id) {
      assert RowSound(s.settings, s.bookings, s.txs, s.openedBy, id);
    }
  }

  lemma PublishKeepsProtocol(s: System, h: TxId)
    requires ProtocolSound(s) && h in s.handlers && s.handlers[h].phase.Publishing?
    requires s.handlers[h].bookingId in s.bookings
    ensures ProtocolSound(Publish(s, h))
  {
    var s' := Publish(s, h);
    assert HandlerSound(s.settings, s.bookings, s.txs, s.openedBy, h, s.handlers[h]);
    OthersGrow(s, s', h, s'.handlers[h]);
    MessagesGrow(s, s', h);
    forall id ensures RowSound(s'.settings, s'.bookings, s'.txs, s'.openedBy, id) {
      assert RowSound(s.settings, s.bookings, s.txs, s.openedBy, id);
    }
  }

  // A step that only changes the handler's own phase.
  lemma PhaseKeepsInv(s: System, h: TxId, p: Phase)
    requires SystemInv(s) && h in s.handlers && !Recording(s.handlers[h].phase) && !Recording(p)
    requires HandlerSound(s.settings, s.bookings, s.txs, s.openedBy, h, s.handlers[h].(phase := p))
    ensures SystemInv(To(s, h, p))
  {
    RowsSame(s.txs, s.handlers, h, s.handlers[h].(phase := p));
    QuietStep(s, To(s, h, p), h, s.handlers[h].(phase := p));
  }

  lemma AdvanceKeepsInv(s: System, h: TxId, rpcUp: bool)
    requires SystemInv(s) && Advanced(s, h, rpcUp).Some?
    ensures SystemInv(Advanced(s, h, rpcUp).value)
  {
    assert HandlerSound(s.settings, s.bookings, s.txs, s.openedBy, h, s.handlers[h]);
    match s.handlers[h].phase
    case Locking => LockingKeepsInv(s, h, rpcUp);
    case RecordingOpen(_) => RecordingKeepsInv(s, h);
    case Assigning => AssigningKeepsInv(s, h);
    case Committing(now) => CommittingKeepsInv(s, h, now);
    case Refreshing => RefreshingKeepsInv(s, h);
    case Closing(usage) => ClosingKeepsInv(s, h, usage, rpcUp);
    case RecordingClose(_) => RecordingKeepsInv(s, h);
    case Publishing => PublishingKeepsInv(s, h);
    case Finished(_) =>
  }

  lemma AssigningKeepsInv(s: System, h: TxId)
    requires SystemInv(s) && h in s.handlers && s.handlers[h].phase.Assigning?
    ensures SystemInv(To(s, h, Committing(s.clock)))
  {
    assert HandlerSound(s.settings, s.bookings, s.txs, s.openedBy, h, s.handlers[h]);
    PhaseKeepsInv(s, h, Committing(s.clock));
  }

  lemma RefreshingKeepsInv(s: System, h: TxId)
    requires SystemInv(s) && h in s.handlers && s.handlers[h].phase.Refreshing?
    requires s.handlers[h].bookingId in s.bookings
    ensures SystemInv(Refresh(s, h))
  {
    assert HandlerSound(s.settings, s.bookings, s.txs, s.openedBy, h, s.handlers[h]);
    PhaseKeepsInv(s, h, Refresh(s, h).handlers[h].phase);
  }

  lemma CommittingKeepsInv(s: System, h: TxId, now: int)
    requires SystemInv(s) && h in s.handlers && s.handlers[h].phase == Committing(now)
    requires s.handlers[h].bookingId in s.bookings
    ensures SystemInv(CommitStatus(s, h, now))
  {
    RowsSame(s.txs, s.handlers, h, s.handlers[h].(phase := Refreshing));
    CommitKeepsProtocol(s, h, now);
  }

  lemma PublishingKeepsInv(s: System, h: TxId)
    requires SystemInv(s) && h in s.handlers && s.handlers[h].phase.Publishing?
    requires s.handlers[h].bookingId in s.bookings
    ensures SystemInv(Publish(s, h))
  {
    RowsSame(s.txs, s.handlers, h, s.handlers[h].(phase := Finished(true)));
    PublishKeepsProtocol(s, h);
  }

  lemma RecordingKeepsInv(s: System, h: TxId)
    requires SystemInv(s) && h in s.handlers && Recording(s.handlers[h].phase)
    ensures SystemInv(CommitRow(s, h))
  {
    assert HandlerSound(s.settings, s.bookings, s.txs, s.openedBy, h, s.handlers[h]);
    if s.handlers[h].phase.RecordingOpen? && s.handlers[h].phase.tx.confirmed {
      OpenerIsHandler(s, h);
    }
    RecordKeepsLog(s, h);
    RecordKeepsProtocol(s, h);
  }

  lemma LockingKeepsInv(s: System, h: TxId, rpcUp: bool)
    requires SystemInv(s) && h in s.handlers && s.handlers[h].phase.Locking? && h !in s.txs
    requires s.handlers[h].bookingId in s.bookings && Applicable(s.settings, s.bookings[s.handlers[h].bookingId])
    ensures var me := s.handlers[h];
            SystemInv(Lock(s, h, SendOpen(s.settings, s.chain, me.bookingId, s.bookings[me.bookingId], me.rate, rpcUp)))
  {
    var me := s.handlers[h];
    var answer := SendOpen(s.settings, s.chain, me.bookingId, s.bookings[me.bookingId], me.rate, rpcUp);
    if answer.Some? {
      OpenConfirmed(s, me.bookingId, s.bookings[me.bookingId], me.rate, rpcUp);
    }
    LockKeepsLog(s, h, answer);
    LockKeepsProtocol(s, h, answer);
  }

  lemma ClosingKeepsInv(s: System, h: TxId, usage: nat, rpcUp: bool)
    requires SystemInv(s) && Known(s, h) && s.handlers[h].phase == Closing(usage) && h !in s.txs
    requires s.settings.settler.Some?
    ensures var me := s.handlers[h];
            SystemInv(Release(s, h, usage,
                              SendClose(s.settings, s.chain, me.bookingId, usage, me.to.Cancelled?, rpcUp)))
  {
    var me := s.handlers[h];
    var answer := SendClose(s.settings, s.chain, me.bookingId, usage, me.to.Cancelled?, rpcUp);
    if answer.Some? {
      CloseConfirmed(s, me.bookingId, usage, me.to.Cancelled?, rpcUp);
    }
    ReleaseKeepsLog(s, h, usage, answer);
    ReleaseKeepsProtocol(s, h, usage, answer);
  }

  lemma AcceptKeepsProtocol(s: System, h: TxId, id: BookingId, to: BookingStatus, rate: nat)
    requires ProtocolSound(s) && Accept(s, h, id, to, rate).Some?
    ensures ProtocolSound(Accept(s, h, id, to, rate).value)
  {
    var s' := Accept(s, h, id, to, rate).value;
    assert RowSound(s.settings, s.bookings, s.txs, s.openedBy, id);
    QuietStep(s, s', h, s'.handlers[h]);
  }

  lemma AcceptKeepsInv(s: System, h: TxId, id: BookingId, to: BookingStatus, rate: nat)
    requires SystemInv(s) && Accept(s, h, id, to, rate).Some?
    ensures SystemInv(Accept(s, h, id, to, rate).value)
  {
    AcceptKeepsProtocol(s, h, id, to, rate);
    RowsSame(s.txs, s.handlers, h, Accept(s, h, id, to, rate).value.handlers[h]);
  }

  lemma CreateKeepsInv(s: System, a: Action)
    requires SystemInv(s) && a.Create? && Created(s, a).Some?
    ensures SystemInv(Created(s, a).value)
  {
    var s' := Created(s, a).value;
    forall id ensures RowSound(s'.settings, s'.bookings, s'.txs, s'.openedBy, id) {
      assert RowSound(s.settings, s.bookings, s.txs, s.openedBy, id);
    }
    forall h | h in s'.handlers ensures HandlerSound(s'.settings, s'.bookings, s'.txs, s'.openedBy, h, s'.handlers[h]) {
      assert HandlerSound(s.settings, s.bookings, s.txs, s.openedBy, h, s.handlers[h]);
    }
    forall m | m in s'.published ensures MessageSound(s'.settings, s'.bookings, s'.txs, s'.openedBy, m) {
      assert MessageSound(s.settings, s.bookings, s.txs, s.openedBy, m);
    }
  }

  lemma ChainKeepsLog(s: System, l: Label)
    requires LogAndChain(s) && Foreign(s.chain, l)
    ensures LogAndChain(s.(chain := Next(s.chain, l)))
  {
    ReachableNext(s.chain, l);
    if Next(s.chain, l) != s.chain {
      ForeignKeepsBooks(s.chain, l);
    }
  }

  lemma ActionKeepsInv(s: System, a: Action)
    requires SystemInv(s)
    ensures SystemInv(After(s, a))
  {
    if Perform(s, a).Some? {
      match a
      case Create(_, _, _, _, _, _, _, _, _) => CreateKeepsInv(s, a);
      case Request(h, id, to, rate) => AcceptKeepsInv(s, h, id, to, rate);
      case Advance(h, rpcUp) => AdvanceKeepsInv(s, h, rpcUp);
      case Chain(l) => ChainKeepsLog(s, l);
      case ServerTick(_) =>
    }
  }

  lemma StartIsSound(s: System)
    requires Start(s)
    ensures SystemInv(s)
  {
    var d :| Genesis(d, s.chain);
    assert s.chain == Run(s.chain, []);
    assert Rows(s.txs, s.handlers) == map[];
    var none: Table := map[];
    assert ClosedAmounts(none) == map[] && ClosedCommissions(none) == map[];
    SumZero(ClosedAmounts(none));
  }

  // The system states some interleaving passes through.
  ghost predicate Happens(s: System) {
    exists s0, actions :: Start(s0) && s == Execute(s0, actions)
  }

  lemma {:induction false} ExecuteKeepsInv(s: System, actions: seq<Action>)
    requires SystemInv(s)
    ensures SystemInv(Execute(s, actions))
    decreases |actions|
  {
    if actions != [] {
      ActionKeepsInv(s, actions[0]);
      ExecuteKeepsInv(After(s, actions[0]), actions[1..]);
    }
  }

  lemma HappensIsSound(s: System)
    requires Happens(s)
    ensures SystemInv(s)
  {
    var s0, actions :| Start(s0) && s == Execute(s0, actions);
    StartIsSound(s0);
    ExecuteKeepsInv(s0, actions);
  }

  lemma {:induction false} ExecuteSnoc(s: System, actions: seq<Action>, a: Action)
    ensures Execute(s, actions + [a]) == After(Execute(s, actions), a)
    decreases |actions|
  {
    if actions == [] {
      assert Execute(After(s, a), ([] + [a])[1..]) == After(s, a);
    } else {
      assert (actions + [a])[1..] == actions[1..] + [a];
      ExecuteSnoc(After(s, actions[0]), actions[1..], a);
    }
  }

  lemma HappensNext(s: System, a: Action)
    requires Happens(s)
    ensures Happens(After(s, a))
  {
    var s0, actions :| Start(s0) && s == Execute(s0, actions);
    ExecuteSnoc(s0, actions, a);
  }
}
