// transition_booking in its own form: one handler run from start to finish, assigning the booking row and the
// settlement row step by step around its chain calls. Run with no other handler in between, it leaves exactly what
// the steps of the interleaved model leave; what it then promises is proved about those steps.
module BookingService {
  import opened Wrappers
  import opened Escrow
  import opened Ledger
  import opened Settlement
  import SettlementInvariant

  datatype Reply = Accepted | NotFound | BadRequest | PaymentRequired | Conflict

  // n steps of one handler with nothing in between.
  function Alone(s: System, h: TxId, rpcUp: bool, n: nat): System
    decreases n
  {
    if n == 0 then s else Alone(After(s, Advance(h, rpcUp)), h, rpcUp, n - 1)
  }

  // No path through a handler is longer.
  const LONGEST_PATH: nat := 6

  // The reply and what is left of the system; a stranger's request looks like one for an unknown booking.
  function Transitioned(s: System, h: TxId, user: UserId, id: BookingId, to: BookingStatus, rate: nat, rpcUp: bool)
    : (Reply, System)
  {
    if id !in s.bookings || !IsParty(s.bookings[id], user) then (NotFound, s)
    else
      match Accept(s, h, id, to, rate)
      case None => (BadRequest, s)
      case Some(accepted) =>
        var s' := Alone(accepted, h, rpcUp, LONGEST_PATH);
        (if h in s'.handlers && s'.handlers[h].phase == Finished(true) then Accepted else PaymentRequired, s')
  }

  // ------------------------------------------------------------ a handler's path on its own

  // The activation's lock and its row.
  function Activated(s: System, h: TxId, rpcUp: bool): System
    requires Known(s, h) && Applicable(s.settings, s.bookings[s.handlers[h].bookingId])
  {
    var me := s.handlers[h];
    CommitRow(Lock(s, h, SendOpen(s.settings, s.chain, me.bookingId, s.bookings[me.bookingId], me.rate, rpcUp)), h)
  }

  // The status and its stamp, committed and read back.
  function Stamped(s: System, h: TxId): System
    requires Known(s, h)
  {
    Refresh(CommitStatus(To(s, h, Committing(s.clock)), h, s.clock), h)
  }

  // The charge of a close and its row.
  function Charged(s: System, h: TxId, usage: nat, rpcUp: bool): System
    requires Known(s, h) && s.settings.settler.Some?
  {
    var me := s.handlers[h];
    CommitRow(Release(s, h, usage, SendClose(s.settings, s.chain, me.bookingId, usage, me.to.Cancelled?, rpcUp)), h)
  }

  // settle_on_activate and settle_on_close as a whole, which leave parties without wallets alone.
  function Opened(s: System, h: TxId, rpcUp: bool): System
    requires Known(s, h)
  {
    if Applicable(s.settings, s.bookings[s.handlers[h].bookingId]) then Activated(s, h, rpcUp) else s
  }

  function Closed(s: System, h: TxId, rpcUp: bool): System
    requires Known(s, h)
  {
    var b := s.bookings[s.handlers[h].bookingId];
    if Applicable(s.settings, b) then Charged(s, h, UsageSeconds(b), rpcUp) else s
  }

  lemma {:induction false} AloneSplit(s: System, h: TxId, rpcUp: bool, m: nat, n: nat)
    ensures Alone(s, h, rpcUp, m + n) == Alone(Alone(s, h, rpcUp, m), h, rpcUp, n)
    decreases m
  {
    if m > 0 {
      AloneSplit(After(s, Advance(h, rpcUp)), h, rpcUp, m - 1, n);
    }
  }

  // It is one of the interleavings.
  lemma {:induction false} AloneHappens(s: System, h: TxId, rpcUp: bool, n: nat)
    requires SettlementInvariant.Happens(s)
    ensures SettlementInvariant.Happens(Alone(s, h, rpcUp, n))
    decreases n
  {
    if n > 0 {
      SettlementInvariant.HappensNext(s, Advance(h, rpcUp));
      AloneHappens(After(s, Advance(h, rpcUp)), h, rpcUp, n - 1);
    }
  }

  lemma {:induction false} FinishedStays(s: System, h: TxId, rpcUp: bool, n: nat)
    requires h in s.handlers && s.handlers[h].phase.Finished?
    ensures Alone(s, h, rpcUp, n) == s
    decreases n
  {
    if n > 0 {
      FinishedStays(s, h, rpcUp, n - 1);
    }
  }

  lemma OneStep(s: System, h: TxId, rpcUp: bool, s': System)
    requires Advanced(s, h, rpcUp) == Some(s')
    ensures Alone(s, h, rpcUp, 1) == s'
  {
    assert Alone(s, h, rpcUp, 1) == Alone(After(s, Advance(h, rpcUp)), h, rpcUp, 0);
  }

  lemma ActivatedIsAlone(s: System, h: TxId, rpcUp: bool)
    requires Known(s, h) && Applicable(s.settings, s.bookings[s.handlers[h].bookingId])
    requires s.handlers[h].phase.Locking?
    ensures Activated(s, h, rpcUp) == Alone(s, h, rpcUp, 2)
  {
    var me := s.handlers[h];
    var locked := Lock(s, h, SendOpen(s.settings, s.chain, me.bookingId, s.bookings[me.bookingId], me.rate, rpcUp));
    OneStep(s, h, rpcUp, locked);
    OneStep(locked, h, rpcUp, CommitRow(locked, h));
    AloneSplit(s, h, rpcUp, 1, 1);
  }

  lemma StampedIsAlone(s: System, h: TxId, rpcUp: bool)
    requires Known(s, h) && s.handlers[h].phase.Assigning?
    ensures Stamped(s, h) == Alone(s, h, rpcUp, 3)
  {
    var stamping := To(s, h, Committing(s.clock));
    var committed := CommitStatus(stamping, h, s.clock);
    OneStep(s, h, rpcUp, stamping);
    OneStep(stamping, h, rpcUp, committed);
    OneStep(committed, h, rpcUp, Refresh(committed, h));
    AloneSplit(s, h, rpcUp, 1, 1);
    AloneSplit(s, h, rpcUp, 2, 1);
  }

  lemma ChargedIsAlone(s: System, h: TxId, usage: nat, rpcUp: bool)
    requires Known(s, h) && s.handlers[h].phase == Closing(usage) && s.settings.settler.Some?
    ensures Charged(s, h, usage, rpcUp) == Alone(s, h, rpcUp, 2)
  {
    var me := s.handlers[h];
    var released := Release(s, h, usage, SendClose(s.settings, s.chain, me.bookingId, usage, me.to.Cancelled?, rpcUp));
    OneStep(s, h, rpcUp, released);
    OneStep(released, h, rpcUp, CommitRow(released, h));
    AloneSplit(s, h, rpcUp, 1, 1);
  }

  // From the status on: the stamp, the charge if there is one, and the announcement.
  function Concluded(s: System, h: TxId, rpcUp: bool): System
    requires Known(s, h)
  {
    var stamped := Stamped(s, h);
    Publish(if ClosesActive(s.handlers[h]) then Closed(stamped, h, rpcUp) else stamped, h)
  }

  lemma ChargedConclusionIsAlone(s: System, h: TxId, rpcUp: bool)
    requires Known(s, h) && s.handlers[h].phase.Closing? && s.settings.settler.Some?
    ensures Publish(Charged(s, h, s.handlers[h].phase.usage, rpcUp), h) == Alone(s, h, rpcUp, 3)
  {
    var charged := Charged(s, h, s.handlers[h].phase.usage, rpcUp);
    ChargedIsAlone(s, h, s.handlers[h].phase.usage, rpcUp);
    ChargedPublishes(s, h, s.handlers[h].phase.usage, rpcUp);
    OneStep(charged, h, rpcUp, Publish(charged, h));
    AloneSplit(s, h, rpcUp, 2, 1);
  }

  lemma ChargedPublishes(s: System, h: TxId, usage: nat, rpcUp: bool)
    requires Known(s, h) && s.settings.settler.Some?
    ensures var charged := Charged(s, h, usage, rpcUp);
            Known(charged, h) && charged.handlers[h].phase.Publishing?
            && Advanced(charged, h, rpcUp) == Some(Publish(charged, h))
  {
  }

  lemma PublishedStays(s: System, h: TxId, rpcUp: bool, n: nat)
    requires Known(s, h) && s.handlers[h].phase.Publishing? && n > 0
    ensures Publish(s, h) == Alone(s, h, rpcUp, n)
  {
    OneStep(s, h, rpcUp, Publish(s, h));
    FinishedStays(Publish(s, h), h, rpcUp, n - 1);
    AloneSplit(s, h, rpcUp, 1, n - 1);
  }

  lemma StampedShape(s: System, h: TxId)
    requires Known(s, h)
    ensures var stamped := Stamped(s, h);
            var me := s.handlers[h];
            var b := Updated(s.bookings[me.bookingId], me.to, s.clock);
            && stamped == s.(bookings := s.bookings[me.bookingId := b],
                             handlers := s.handlers[h := stamped.handlers[h]])
            && stamped.handlers[h] == me.(phase := stamped.handlers[h].phase)
            && stamped.handlers[h].phase
               == if ClosesActive(me) && Applicable(s.settings, b) then Closing(UsageSeconds(b)) else Publishing
  {
  }

  lemma ConcludedIsAlone(s: System, h: TxId, rpcUp: bool)
    requires Known(s, h) && s.handlers[h].phase.Assigning?
    ensures Concluded(s, h, rpcUp) == Alone(s, h, rpcUp, 6)
    ensures !ClosesActive(s.handlers[h]) ==> Concluded(s, h, rpcUp) == Alone(s, h, rpcUp, 4)
  {
    var stamped := Stamped(s, h);
    StampedIsAlone(s, h, rpcUp);
    StampedShape(s, h);
    AloneSplit(s, h, rpcUp, 3, 3);
    AloneSplit(s, h, rpcUp, 3, 1);
    if stamped.handlers[h].phase.Closing? {
      ChargedConclusionIsAlone(stamped, h, rpcUp);
    } else {
      PublishedStays(stamped, h, rpcUp, 1);
      PublishedStays(stamped, h, rpcUp, 3);
    }
  }

  // The whole activation of a booking that settles on chain.
  lemma ActivationIsAlone(s: System, h: TxId, rpcUp: bool)
    requires Known(s, h) && Applicable(s.settings, s.bookings[s.handlers[h].bookingId])
    requires s.handlers[h].phase.Locking? && s.handlers[h].to.Active?
    ensures var locked := Activated(s, h, rpcUp);
            && Known(locked, h)
            && Alone(s, h, rpcUp, 6)
               == if locked.handlers[h].phase.Assigning? then Concluded(locked, h, rpcUp) else locked
  {
    var locked := Activated(s, h, rpcUp);
    ActivatedIsAlone(s, h, rpcUp);
    AloneSplit(s, h, rpcUp, 2, 4);
    if locked.handlers[h].phase.Assigning? {
      ConcludedIsAlone(locked, h, rpcUp);
    } else {
      FinishedStays(locked, h, rpcUp, 4);
    }
  }

  // An accepted request: its handler in its first phase.
  function Requested(s: System, h: TxId, id: BookingId, to: BookingStatus, rate: nat): System
    requires id in s.bookings
  {
    var first := if to.Active? && Applicable(s.settings, s.bookings[id]) then Locking else Assigning;
    s.(handlers := s.handlers[h := Handler(id, to, s.bookings[id].status, rate, first)])
  }

  lemma ConclusionFinishes(s: System, h: TxId, rpcUp: bool)
    requires Known(s, h)
    ensures h in Concluded(s, h, rpcUp).handlers && Concluded(s, h, rpcUp).handlers[h].phase == Finished(true)
  {
  }

  // The path of a request that is not refused outright.
  lemma TransitionPath(s: System, h: TxId, user: UserId, id: BookingId, to: BookingStatus, rate: nat, rpcUp: bool)
    requires h !in s.handlers && h !in s.txs && id in s.bookings && IsParty(s.bookings[id], user)
    requires ValidTransition(s.bookings[id].status, to)
    ensures var first := Requested(s, h, id, to, rate);
            Transitioned(s, h, user, id, to, rate, rpcUp)
            == if first.handlers[h].phase.Assigning? then (Accepted, Concluded(first, h, rpcUp))
               else if Activated(first, h, rpcUp).handlers[h].phase.Assigning? then
                 (Accepted, Concluded(Activated(first, h, rpcUp), h, rpcUp))
               else (PaymentRequired, Activated(first, h, rpcUp))
  {
    var first := Requested(s, h, id, to, rate);
    assert Accept(s, h, id, to, rate) == Some(first);
    if first.handlers[h].phase.Assigning? {
      ConcludedIsAlone(first, h, rpcUp);
      ConclusionFinishes(first, h, rpcUp);
    } else {
      ActivationIsAlone(first, h, rpcUp);
      ActivatedShape(first, h, rpcUp);
      if Activated(first, h, rpcUp).handlers[h].phase.Assigning? {
        ConclusionFinishes(Activated(first, h, rpcUp), h, rpcUp);
      }
    }
  }

  // What a lock attempt leaves: one row, confirmed exactly when the handler goes on; the chain untouched if not.
  lemma ActivatedShape(s: System, h: TxId, rpcUp: bool)
    requires Known(s, h) && Applicable(s.settings, s.bookings[s.handlers[h].bookingId])
    ensures var s' := Activated(s, h, rpcUp);
            var me := s.handlers[h];
            && h in s'.txs && s'.txs - {h} == s.txs - {h}
            && s'.bookings == s.bookings && s'.published == s.published && s'.clock == s.clock
            && s'.handlers == s.handlers[h := me.(phase := if s'.txs[h].confirmed then Assigning else Finished(false))]
            && s'.txs[h].bookingId == me.bookingId && s'.txs[h].kind.OpenTx?
            && (!s'.txs[h].confirmed ==>
                  s'.chain == s.chain && s'.txs[h] == Attempt(me, s.bookings[me.bookingId], OpenTx, None))
            && (s'.txs[h].confirmed ==> s'.txs[h] == Attempt(me, s.bookings[me.bookingId], OpenTx, None)
                                                     .(confirmed := true, amountUsdc := s'.txs[h].amountUsdc))
  {
  }

  // What a charge leaves: one row with the usage, confirmed or not.
  lemma ChargedShape(s: System, h: TxId, usage: nat, rpcUp: bool)
    requires Known(s, h) && s.settings.settler.Some?
    ensures var s' := Charged(s, h, usage, rpcUp);
            var me := s.handlers[h];
            && h in s'.txs && s'.txs - {h} == s.txs - {h}
            && s'.bookings == s.bookings && s'.published == s.published && s'.clock == s.clock
            && s'.handlers == s.handlers[h := me.(phase := Publishing)]
            && ChargeOf(s'.txs[h], me, s.bookings[me.bookingId], usage)
            && (!s'.txs[h].confirmed ==> s'.chain == s.chain)
  {
  }

  // What the part after the lock leaves: the row with its status and stamp, its announcement, and a row in the log
  // for the charge exactly when an active booking that settles on chain was closed.
  predicate ConcludedAs(s: System, h: TxId, s': System)
    requires Known(s, h)
  {
    var me := s.handlers[h];
    var b := Updated(s.bookings[me.bookingId], me.to, s.clock);
    && s'.bookings == s.bookings[me.bookingId := b] && s'.clock == s.clock
    && s'.published == s.published + Announcement(me, b)
    && s'.txs - {h} == s.txs - {h}
    && (if ClosesActive(me) && Applicable(s.settings, b)
        then
          h in s'.txs && ChargeOf(s'.txs[h], me, b, UsageSeconds(b)) && (!s'.txs[h].confirmed ==> s'.chain == s.chain)
        else s'.txs == s.txs && s'.chain == s.chain)
  }

  lemma ConcludedShape(s: System, h: TxId, rpcUp: bool)
    requires Known(s, h)
    ensures ConcludedAs(s, h, Concluded(s, h, rpcUp))
  {
    var stamped := Stamped(s, h);
    StampedShape(s, h);
    if stamped.handlers[h].phase.Closing? {
      ChargedShape(stamped, h, stamped.handlers[h].phase.usage, rpcUp);
    }
  }

  // The row of the handler's charge for that usage, whether the chain confirmed it or not.
  predicate ChargeOf(tx: SettlementTx, me: Handler, b: BookingRow, usage: nat) {
    && tx == Attempt(me, b, if me.to.Cancelled? then CancelTx else SettleTx, Some(usage))
             .(confirmed := tx.confirmed, amountUsdc := tx.amountUsdc, commissionUsdc := tx.commissionUsdc)
    && (!tx.confirmed ==> tx.amountUsdc.None? && tx.commissionUsdc.None?)
  }

  predicate LockRefused(s: System, h: TxId, id: BookingId, rate: nat, s': System) {
    && id in s.bookings && Applicable(s.settings, s.bookings[id])
    && s'.bookings == s.bookings && s'.clock == s.clock && s'.published == s.published && s'.chain == s.chain
    && var me := Handler(id, BookingStatus.Active, Pending, rate, Locking);
    && s'.txs == s.txs[h := Attempt(me, s.bookings[id], OpenTx, None)]
  }

  predicate Fulfilled(s: System, h: TxId, me: Handler, s': System) {
    && me.bookingId in s.bookings
    && var b := Updated(s.bookings[me.bookingId], me.to, s.clock);
    && s'.bookings == s.bookings[me.bookingId := b] && s'.clock == s.clock
    && s'.published == s.published + Announcement(me, b)
    && s'.txs - {h} == s.txs
    && (if !Applicable(s.settings, b) then h !in s'.txs && s'.chain == s.chain
        else if me.to.Active? then
          && h in s'.txs
          && s'.txs[h] == Attempt(me, b, OpenTx, None).(confirmed := true, amountUsdc := s'.txs[h].amountUsdc)
        else if ClosesActive(me) then
          h in s'.txs && ChargeOf(s'.txs[h], me, b, UsageSeconds(b)) && (!s'.txs[h].confirmed ==> s'.chain == s.chain)
        else h !in s'.txs && s'.chain == s.chain)
  }

  // The same system but for the handler me, in some phase.
  predicate Serving(s: System, h: TxId, me: Handler, s1: System) {
    && s1 == s.(handlers := s1.handlers) && Known(s1, h)
    && s1.handlers[h] == me.(phase := s1.handlers[h].phase)
  }

  lemma WithoutLock(s: System, h: TxId, me: Handler, first: System, s': System)
    requires Serving(s, h, me, first) && h !in s.txs && ConcludedAs(first, h, s')
    requires !(me.to.Active? && Applicable(s.settings, s.bookings[me.bookingId]))
    ensures Fulfilled(s, h, me, s')
  {
    assert s.txs - {h} == s.txs;
  }

  // With a lock, the part after it starts from the lock's row and answer.
  lemma WithLock(s: System, h: TxId, me: Handler, locked: System, s': System)
    requires h !in s.txs && Known(locked, h) && ConcludedAs(locked, h, s') && me.bookingId in s.bookings
    requires me.to.Active? && Applicable(s.settings, s.bookings[me.bookingId])
    requires locked.bookings == s.bookings && locked.clock == s.clock && locked.published == s.published
    requires locked.handlers[h] == me.(phase := locked.handlers[h].phase)
    requires h in locked.txs && locked.txs - {h} == s.txs
    requires locked.txs[h] == Attempt(me, s.bookings[me.bookingId], OpenTx, None)
                              .(confirmed := true, amountUsdc := locked.txs[h].amountUsdc)
    ensures Fulfilled(s, h, me, s')
  {
  }

  lemma LockedOutcome(s: System, h: TxId, id: BookingId, to: BookingStatus, rate: nat, rpcUp: bool)
    requires h !in s.handlers && h !in s.txs && id in s.bookings
    requires to.Active? && Applicable(s.settings, s.bookings[id])
    ensures var locked := Activated(Requested(s, h, id, to, rate), h, rpcUp);
            if locked.handlers[h].phase.Assigning?
            then Fulfilled(s, h, Handler(id, to, s.bookings[id].status, rate, Publishing), Concluded(locked, h, rpcUp))
            else LockRefused(s, h, id, rate, locked)
  {
    var first := Requested(s, h, id, to, rate);
    var locked := Activated(first, h, rpcUp);
    ActivatedShape(first, h, rpcUp);
    assert s.txs - {h} == s.txs;
    if locked.handlers[h].phase.Assigning? {
      ConcludedShape(locked, h, rpcUp);
      WithLock(s, h, first.handlers[h].(phase := Publishing), locked, Concluded(locked, h, rpcUp));
    } else {
      assert locked.txs == (locked.txs - {h})[h := locked.txs[h]];
    }
  }

  lemma UnlockedOutcome(s: System, h: TxId, id: BookingId, to: BookingStatus, rate: nat, rpcUp: bool)
    requires h !in s.handlers && h !in s.txs && id in s.bookings
    requires !(to.Active? && Applicable(s.settings, s.bookings[id]))
    ensures Fulfilled(s, h, Handler(id, to, s.bookings[id].status, rate, Publishing),
                      Concluded(Requested(s, h, id, to, rate), h, rpcUp))
  {
    var first := Requested(s, h, id, to, rate);
    ConcludedShape(first, h, rpcUp);
    WithoutLock(s, h, Handler(id, to, s.bookings[id].status, rate, Publishing), first, Concluded(first, h, rpcUp));
  }

  // ------------------------------------------------------------ the endpoint in plain terms

  // Whole seconds from start to end, rounded down; none when either is missing or the end comes first.
  predicate UsageBetween(start: Option<int>, end: Option<int>, usage: nat) {
    if start.Some? && end.Some? && start.value <= end.value
    then usage * 1_000_000 <= end.value - start.value < (usage + 1) * 1_000_000
    else usage == 0
  }

  lemma UsageIsWholeSeconds(b: BookingRow)
    ensures UsageBetween(b.startedAt, b.endedAt, UsageSeconds(b))
  {
    if b.startedAt.Some? && b.endedAt.Some? && b.startedAt.value <= b.endedAt.value {
      var micros := b.endedAt.value - b.startedAt.value;
      assert micros == micros / 1_000_000 * 1_000_000 + micros % 1_000_000;
    }
  }

  // A row of the log for the parties of a booking, without amounts while it is a failed attempt.
  predicate RowFor(tx: SettlementTx, id: BookingId, b: BookingRow, kind: TxKind, rate: nat) {
    && tx.bookingId == id && tx.kind == kind && tx.ratePerHourCents == rate
    && tx.consumerWallet == b.consumerWallet && tx.supplierWallet == b.payoutWallet
    && (!tx.confirmed ==> tx.amountUsdc.None? && tx.commissionUsdc.None?)
  }

  // Exactly the new status and its stamp on the booking, and exactly its announcement.
  predicate RowMoved(s: System, id: BookingId, to: BookingStatus, s': System) {
    && id in s.bookings && s'.clock == s.clock && s'.settings == s.settings
    && var b := s.bookings[id];
    && var start := if to == Active then Some(s.clock) else b.startedAt;
    && var end := if to == Completed || to == BookingStatus.Cancelled then Some(s.clock) else b.endedAt;
    && s'.bookings == s.bookings[id := BookingRow(to, start, end, b.consumerUser, b.supplierUser, b.consumerWallet,
                                                  b.payoutWallet, b.workerId, b.offeringId)]
    && s'.published == s.published
         + (if to == Active then {(b.workerId, BookingActivated(id, b.offeringId))}
            else if b.status == Active then {(b.workerId, BookingCancelled(id))} else {})
  }

  // The one row added to the log: a confirmed lock for a start, and for a close its charge for the whole seconds
  // between the two stamps, which leaves the chain alone when it fails.
  predicate RowSettled(s: System, h: TxId, id: BookingId, to: BookingStatus, rate: nat, s': System) {
    && id in s.bookings && id in s'.bookings && h in s'.txs && s'.txs == s.txs[h := s'.txs[h]]
    && var (b, tx) := (s'.bookings[id], s'.txs[h]);
    && (to == Active ==> RowFor(tx, id, b, OpenTx, rate) && tx.confirmed && tx.usageSeconds.None?)
    && (to != Active ==>
          && RowFor(tx, id, b, if to == Completed then SettleTx else CancelTx, rate)
          && tx.usageSeconds.Some? && UsageBetween(b.startedAt, b.endedAt, tx.usageSeconds.value)
          && (!tx.confirmed ==> s'.chain == s.chain))
  }

  // Nothing but a failed attempt to lock.
  predicate OnlyAttempted(s: System, h: TxId, id: BookingId, rate: nat, s': System) {
    && id in s.bookings && h in s'.txs && s'.txs == s.txs[h := s'.txs[h]]
    && RowFor(s'.txs[h], id, s.bookings[id], OpenTx, rate) && !s'.txs[h].confirmed && s'.txs[h].usageSeconds.None?
    && s'.bookings == s.bookings && s'.published == s.published && s'.chain == s.chain
    && s'.clock == s.clock && s'.settings == s.settings
  }

  // What it takes to settle on chain, spelled out for the statements about the endpoint.
  predicate HasRails(settings: Settings, b: BookingRow) {
    && settings.chainEnabled && settings.escrowConfigured && settings.settler.Some?
    && b.consumerWallet.Some? && b.payoutWallet.Some?
  }

  lemma FulfilledInPlainTerms(s: System, h: TxId, id: BookingId, to: BookingStatus, rate: nat, s': System)
    requires h !in s.txs && id in s.bookings && ValidTransition(s.bookings[id].status, to) && s'.settings == s.settings
    requires Fulfilled(s, h, Handler(id, to, s.bookings[id].status, rate, Publishing), s')
    ensures RowMoved(s, id, to, s')
    ensures if HasRails(s.settings, s.bookings[id]) && (to == Active || s.bookings[id].status == Active)
            then RowSettled(s, h, id, to, rate, s')
            else s'.txs == s.txs && s'.chain == s.chain
  {
    UsageIsWholeSeconds(Updated(s.bookings[id], to, s.clock));
    assert h !in s'.txs ==> s'.txs - {h} == s'.txs;
    assert h in s'.txs ==> s'.txs == (s'.txs - {h})[h := s'.txs[h]];
  }

  lemma RefusedInPlainTerms(s: System, h: TxId, id: BookingId, rate: nat, s': System)
    requires LockRefused(s, h, id, rate, s') && s'.settings == s.settings
    ensures HasRails(s.settings, s.bookings[id]) && OnlyAttempted(s, h, id, rate, s')
  {
  }

  lemma AdmittedOutcome(s: System, h: TxId, user: UserId, id: BookingId, to: BookingStatus, rate: nat, rpcUp: bool)
    requires h !in s.handlers && h !in s.txs && id in s.bookings && IsParty(s.bookings[id], user)
    requires ValidTransition(s.bookings[id].status, to)
    ensures var (r, s') := Transitioned(s, h, user, id, to, rate, rpcUp);
            && s'.settings == s.settings
            && if r == Accepted then Fulfilled(s, h, Handler(id, to, s.bookings[id].status, rate, Publishing), s')
               else r == PaymentRequired && to.Active? && LockRefused(s, h, id, rate, s')
  {
    var first := Requested(s, h, id, to, rate);
    TransitionPath(s, h, user, id, to, rate, rpcUp);
    AloneKeepsSettings(first, h, rpcUp, LONGEST_PATH);
    if first.handlers[h].phase.Assigning? {
      UnlockedOutcome(s, h, id, to, rate, rpcUp);
    } else {
      LockedOutcome(s, h, id, to, rate, rpcUp);
    }
  }

  // The endpoint run alone. It answers 404 exactly to users who are neither the consumer nor the supplier, and 400
  // exactly to transitions out of the table, without a trace; an activation whose lock failed leaves only the failed
  // attempt. Otherwise it writes exactly the new status with its stamp and announces it, and, when the booking settles
  // on chain, logs the confirmed lock of a start or the charge of a close; nothing else changes.
  lemma TransitionOutcome(s: System, h: TxId, user: UserId, id: BookingId, to: BookingStatus, rate: nat, rpcUp: bool)
    requires h !in s.handlers && h !in s.txs
    ensures var (r, s') := Transitioned(s, h, user, id, to, rate, rpcUp);
            && (r == NotFound <==>
                  id !in s.bookings
                  || (user != s.bookings[id].consumerUser && user != s.bookings[id].supplierUser))
            && (r == BadRequest <==>
                  r != NotFound
                  && (s.bookings[id].status, to) !in {(Pending, Active), (Pending, BookingStatus.Cancelled),
                                                      (Active, Completed), (Active, BookingStatus.Cancelled)})
            && (r == NotFound || r == BadRequest ==> s' == s)
            && (r == PaymentRequired ==>
                  to == Active && HasRails(s.settings, s.bookings[id]) && OnlyAttempted(s, h, id, rate, s'))
            && (r == Accepted ==>
                  && RowMoved(s, id, to, s')
                  && if HasRails(s.settings, s.bookings[id]) && (to == Active || s.bookings[id].status == Active)
                     then RowSettled(s, h, id, to, rate, s')
                     else s'.txs == s.txs && s'.chain == s.chain)
            && r in {NotFound, BadRequest, PaymentRequired, Accepted}
  {
    if id in s.bookings && IsParty(s.bookings[id], user) && ValidTransition(s.bookings[id].status, to) {
      AdmittedOutcome(s, h, user, id, to, rate, rpcUp);
      var (r, s') := Transitioned(s, h, user, id, to, rate, rpcUp);
      if r == Accepted {
        FulfilledInPlainTerms(s, h, id, to, rate, s');
      } else {
        RefusedInPlainTerms(s, h, id, rate, s');
      }
    }
  }

  lemma {:induction false} AloneKeepsSettings(s: System, h: TxId, rpcUp: bool, n: nat)
    ensures Alone(s, h, rpcUp, n).settings == s.settings
    decreases n
  {
    if n > 0 {
      AloneKeepsSettings(After(s, Advance(h, rpcUp)), h, rpcUp, n - 1);
    }
  }

  class Service {
    const settings: Settings
    var chain: World
    var clock: int
    var bookings: map<BookingId, BookingRow>
    var txs: Table
    var published: set<(WorkerId, Message)>
    ghost var handlers: map<TxId, Handler>
    ghost var openedBy: map<BookingId, TxId>
    ghost var closedBy: map<BookingId, TxId>

    ghost function State(): System
      reads this
    {
      System(settings, chain, clock, bookings, txs, handlers, published, openedBy, closedBy)
    }

    constructor (s: System)
      ensures State() == s
    {
      settings, chain, clock, bookings, txs, published := s.settings, s.chain, s.clock, s.bookings, s.txs, s.published;
      handlers, openedBy, closedBy := s.handlers, s.openedBy, s.closedBy;
    }

    ghost method Enter(h: TxId, p: Phase)
      requires h in handlers
      modifies this`handlers
      ensures handlers == old(handlers)[h := old(handlers)[h].(phase := p)]
    {
      handlers := handlers[h := handlers[h].(phase := p)];
    }

    // create_booking; the primary key refuses an id that is taken.
    method CreateBooking(id: BookingId, consumerUser: UserId, supplierUser: UserId, consumerWallet: Option<Address>,
                         payoutWallet: Option<Address>, workerId: WorkerId, offeringId: string, offeringActive: bool,
                         workerMatches: bool)
      returns (r: Reply)
      modifies this`bookings
      ensures var a := Create(id, consumerUser, supplierUser, consumerWallet, payoutWallet, workerId, offeringId,
                              offeringActive, workerMatches);
              State() == After(old(State()), a)
      ensures r == NotFound <==> !offeringActive
      ensures r == BadRequest <==> offeringActive && !workerMatches
      ensures r == Conflict <==> offeringActive && workerMatches && id in old(bookings)
      ensures bookings == if r == Accepted
                          then old(bookings)[id := BookingRow(Pending, None, None, consumerUser, supplierUser,
                                                              consumerWallet, payoutWallet, workerId, offeringId)]
                          else old(bookings)
    {
      if !offeringActive {
        return NotFound;
      }
      if !workerMatches {
        return BadRequest;
      }
      if id in bookings {
        return Conflict;
      }
      bookings := bookings[id := BookingRow(Pending, None, None, consumerUser, supplierUser, consumerWallet,
                                            payoutWallet, workerId, offeringId)];
      return Accepted;
    }

    // settle_on_activate: lock the worst case, record the attempt, and refuse the activation if it failed.
    method SettleOnActivate(h: TxId, id: BookingId, rate: nat, rpcUp: bool) returns (locked: bool)
      requires id in bookings
      requires h in handlers && handlers[h].bookingId == id && handlers[h].rate == rate
      modifies this`chain, this`txs, this`handlers, this`openedBy
      ensures State() == Opened(old(State()), h, rpcUp)
      ensures !Applicable(settings, bookings[id]) ==> locked
      ensures Applicable(settings, bookings[id]) ==>
                h in handlers && handlers[h].phase == if locked then Assigning else Finished(false)
    {
      if !Applicable(settings, bookings[id]) {
        return true;
      }
      var result := SendOpen(settings, chain, id, bookings[id], rate, rpcUp);
      locked := RecordOpen(h, id, rate, result);
    }

    method RecordOpen(h: TxId, id: BookingId, rate: nat, result: Option<ChainResult>) returns (locked: bool)
      requires id in bookings
      requires h in handlers && handlers[h].bookingId == id && handlers[h].rate == rate
      modifies this`chain, this`txs, this`handlers, this`openedBy
      ensures State() == CommitRow(Lock(old(State()), h, result), h)
      ensures h in handlers && handlers[h].phase == if locked then Assigning else Finished(false)
    {
      var booking := bookings[id];
      var tx := SettlementTx(id, OpenTx, booking.consumerWallet, booking.payoutWallet, rate, false, None, None, None);
      if result.Some? {
        chain := result.value.world;
        openedBy := openedBy[id := h];
        var amount := if result.value.event.BookingOpened? then result.value.event.lockedAmount else 0;
        tx := tx.(confirmed := true, amountUsdc := Some(amount));
      }
      txs := txs[h := tx];
      locked := tx.confirmed;
      Enter(h, if locked then Assigning else Finished(false));
    }

    // settle_on_close: charge the usage; a failure is recorded, not raised.
    method SettleOnClose(h: TxId, id: BookingId, rate: nat, cancelled: bool, rpcUp: bool)
      requires id in bookings
      requires h in handlers && handlers[h].bookingId == id && handlers[h].rate == rate
      requires handlers[h].to.Cancelled? == cancelled
      modifies this`chain, this`txs, this`handlers, this`closedBy
      ensures State() == Closed(old(State()), h, rpcUp)
      ensures h in handlers && handlers[h] == old(handlers)[h].(phase := handlers[h].phase)
    {
      if !Applicable(settings, bookings[id]) {
        return;
      }
      var usage := UsageSeconds(bookings[id]);
      var result := SendClose(settings, chain, id, usage, cancelled, rpcUp);
      RecordClose(h, id, rate, usage, cancelled, result);
    }

    method RecordClose(h: TxId, id: BookingId, rate: nat, usage: nat, cancelled: bool, result: Option<ChainResult>)
      requires id in bookings
      requires h in handlers && handlers[h].bookingId == id && handlers[h].rate == rate
      requires handlers[h].to.Cancelled? == cancelled
      modifies this`chain, this`txs, this`handlers, this`closedBy
      ensures State() == CommitRow(Release(old(State()), h, usage, result), h)
    {
      var booking := bookings[id];
      var tx := SettlementTx(id, if cancelled then CancelTx else SettleTx, booking.consumerWallet, booking.payoutWallet,
                             rate, false, Some(usage), None, None);
      if result.Some? {
        chain := result.value.world;
        closedBy := closedBy[id := h];
        var e := result.value.event;
        tx := tx.(confirmed := true, amountUsdc := Some(if e.BookingSettled? then e.cost else 0),
                  commissionUsdc := Some(if e.BookingSettled? then e.commission else 0));
      }
      txs := txs[h := tx];
      Enter(h, Publishing);
    }

    // Assign the status and the stamp, commit, and read the row back.
    method WriteStatus(h: TxId, id: BookingId, to: BookingStatus)
      requires id in bookings
      requires h in handlers && handlers[h].bookingId == id && handlers[h].to == to
      modifies this`bookings, this`handlers
      ensures State() == Stamped(old(State()), h)
      ensures id in bookings && h in handlers && handlers[h] == old(handlers)[h].(phase := handlers[h].phase)
    {
      var booking := bookings[id].(status := to);
      if to.Active? {
        booking := booking.(startedAt := Some(clock));
      }
      if Terminal(to) {
        booking := booking.(endedAt := Some(clock));
      }
      bookings := bookings[id := booking];
      Enter(h, if ClosesActive(handlers[h]) && Applicable(settings, booking) then Closing(UsageSeconds(booking))
               else Publishing);
    }

    // Tell the worker.
    method Announce(h: TxId, id: BookingId, prev: BookingStatus, to: BookingStatus)
      requires id in bookings
      requires h in handlers && handlers[h].bookingId == id && handlers[h].to == to && handlers[h].prev == prev
      modifies this`published, this`handlers
      ensures State() == Publish(old(State()), h)
    {
      var worker := bookings[id].workerId;
      if to.Active? {
        published := published + {(worker, BookingActivated(id, bookings[id].offeringId))};
      } else if prev.Active? && Terminal(to) {
        published := published + {(worker, BookingCancelled(id))};
      }
      Enter(h, Finished(true));
    }

    // Everything after the lock.
    method Conclude(h: TxId, id: BookingId, prev: BookingStatus, to: BookingStatus, rate: nat, rpcUp: bool)
      requires id in bookings && h in handlers
      requires var me := handlers[h]; me.bookingId == id && me.to == to && me.prev == prev && me.rate == rate
      modifies this
      ensures State() == Concluded(old(State()), h, rpcUp)
    {
      WriteStatus(h, id, to);
      if prev.Active? && Terminal(to) {
        SettleOnClose(h, id, rate, to.Cancelled?, rpcUp);
      }
      Announce(h, id, prev, to);
    }

    method TransitionBooking(h: TxId, user: UserId, id: BookingId, to: BookingStatus, rate: nat, rpcUp: bool)
      returns (r: Reply)
      requires h !in handlers && h !in txs
      modifies this
      ensures (r, State()) == Transitioned(old(State()), h, user, id, to, rate, rpcUp)
      ensures r == NotFound <==>
              id !in old(bookings)
              || (user != old(bookings)[id].consumerUser && user != old(bookings)[id].supplierUser)
    {
      if id !in bookings || !IsParty(bookings[id], user) {
        return NotFound;
      }
      var prev := bookings[id].status;
      if !ValidTransition(prev, to) {
        return BadRequest;
      }
      TransitionPath(State(), h, user, id, to, rate, rpcUp);
      var first := if to.Active? && Applicable(settings, bookings[id]) then Locking else Assigning;
      handlers := handlers[h := Handler(id, to, prev, rate, first)];
      if to.Active? {
        var locked := SettleOnActivate(h, id, rate, rpcUp);
        if !locked {
          return PaymentRequired;
        }
      }
      Conclude(h, id, prev, to, rate, rpcUp);
      return Accepted;
    }
  }
}
