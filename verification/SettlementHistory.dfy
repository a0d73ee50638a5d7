// Where the numbers of a charge come from: over every interleaving, each usage in the log and each stamp on a booking
// was read by a handler at some point of the run.
module SettlementHistory {
  import opened Wrappers
  import opened Escrow
  import opened Ledger
  import opened Settlement
  import opened SettlementInvariant
  import opened BookingService

  // ------------------------------------------------------------ the usage of every charge

  // Handler k has measured that usage for a booking: it is about to charge it, to log it, or has logged it.
  predicate Measured(s: System, k: TxId, id: BookingId, usage: nat) {
    || (k in s.handlers && s.handlers[k].phase == Closing(usage) && s.handlers[k].bookingId == id)
    || (k in s.handlers && Recording(s.handlers[k].phase) && Shows(s.handlers[k].phase.tx, id, usage))
    || (k in s.txs && Shows(s.txs[k], id, usage))
  }

  predicate Shows(tx: SettlementTx, id: BookingId, usage: nat) {
    tx.bookingId == id && tx.usageSeconds == Some(usage)
  }

  // The next step of handler k reads the stamps of the booking's row, the usage apart.
  predicate Reads(s: System, k: TxId, id: BookingId, usage: nat) {
    && k in s.handlers && s.handlers[k].phase.Refreshing? && s.handlers[k].bookingId == id && id in s.bookings
    && UsageBetween(s.bookings[id].startedAt, s.bookings[id].endedAt, usage)
  }

  lemma LockingMeasuresNothing(s: System, h: TxId, answer: Option<ChainResult>, k: TxId, id: BookingId, usage: nat)
    requires Known(s, h) && Measured(Lock(s, h, answer), k, id, usage)
    ensures Measured(s, k, id, usage)
  {
  }

  lemma ReleasingMeasuresNothing(s: System, h: TxId, u: nat, answer: Option<ChainResult>, k: TxId, id: BookingId,
                                 usage: nat)
    requires Known(s, h) && s.handlers[h].phase == Closing(u) && Measured(Release(s, h, u, answer), k, id, usage)
    ensures Measured(s, k, id, usage)
  {
  }

  lemma RefreshMeasures(s: System, h: TxId, k: TxId, id: BookingId, usage: nat)
    requires Known(s, h) && s.handlers[h].phase.Refreshing? && Measured(Refresh(s, h), k, id, usage)
    ensures Measured(s, k, id, usage) || (h == k && Reads(s, k, id, usage))
  {
    UsageIsWholeSeconds(s.bookings[s.handlers[h].bookingId]);
  }

  lemma AdvanceMeasures(s: System, h: TxId, rpcUp: bool, k: TxId, id: BookingId, usage: nat)
    requires Advanced(s, h, rpcUp).Some? && Measured(Advanced(s, h, rpcUp).value, k, id, usage)
    ensures Measured(s, k, id, usage) || Reads(s, k, id, usage)
  {
    var me := s.handlers[h];
    match me.phase
    case Locking =>
      LockingMeasuresNothing(
        s, h, SendOpen(s.settings, s.chain, me.bookingId, s.bookings[me.bookingId], me.rate, rpcUp), k, id, usage);
    case Closing(u) =>
      ReleasingMeasuresNothing(
        s, h, u, SendClose(s.settings, s.chain, me.bookingId, u, me.to.Cancelled?, rpcUp), k, id, usage);
    case Refreshing => RefreshMeasures(s, h, k, id, usage);
    case _ =>
  }

  lemma StepMeasures(s: System, a: Action, k: TxId, id: BookingId, usage: nat)
    requires Measured(After(s, a), k, id, usage)
    ensures Measured(s, k, id, usage) || Reads(s, k, id, usage)
  {
    if Perform(s, a).Some? && a.Advance? {
      AdvanceMeasures(s, a.h, a.rpcUp, k, id, usage);
    }
  }

  // Over every interleaving, the usage of every charge in the log, confirmed or not, is the whole seconds between the
  // two stamps of the booking as its handler read them at some point of the run.
  lemma {:induction false} EveryUsageWasRead(s: System, actions: seq<Action>, k: TxId, id: BookingId, usage: nat)
    returns (i: nat)
    requires Start(s) && Measured(Execute(s, actions), k, id, usage)
    ensures i < |actions| && Reads(Execute(s, actions[..i]), k, id, usage)
    decreases |actions|
  {
    var n := |actions| - 1;
    assert actions != [];
    assert actions == actions[..n] + [actions[n]];
    ExecuteSnoc(s, actions[..n], actions[n]);
    StepMeasures(Execute(s, actions[..n]), actions[n], k, id, usage);
    if Measured(Execute(s, actions[..n]), k, id, usage) {
      i := EveryUsageWasRead(s, actions[..n], k, id, usage);
      assert actions[..n][..i] == actions[..i];
    } else {
      i := n;
    }
  }

  // ------------------------------------------------------------ the stamps of every booking

  // The statuses that stamp the start of a booking, and those that stamp its end.
  predicate StampsStart(to: BookingStatus) {
    to == Active
  }

  predicate StampsEnd(to: BookingStatus) {
    to == Completed || to == BookingStatus.Cancelled
  }

  function StampOf(b: BookingRow, start: bool): Option<int> {
    if start then b.startedAt else b.endedAt
  }

  // Handler h works on the booking and stamps its start, or its end.
  predicate Stamping(s: System, h: TxId, id: BookingId, start: bool) {
    && h in s.handlers && s.handlers[h].bookingId == id
    && (if start then StampsStart(s.handlers[h].to) else StampsEnd(s.handlers[h].to))
  }

  // It has read the clock and will commit what it read.
  predicate HasRead(s: System, h: TxId, id: BookingId, start: bool, time: int) {
    Stamping(s, h, id, start) && s.handlers[h].phase == Committing(time)
  }

  // Its next step reads the clock.
  predicate ReadsClock(s: System, h: TxId, id: BookingId, start: bool, time: int) {
    Stamping(s, h, id, start) && s.handlers[h].phase.Assigning? && s.clock == time
  }

  predicate HasStamp(s: System, id: BookingId, start: bool, time: int) {
    id in s.bookings && StampOf(s.bookings[id], start) == Some(time)
  }

  lemma AdvanceReadsClock(s: System, j: TxId, rpcUp: bool, h: TxId, id: BookingId, start: bool, time: int)
    requires Advanced(s, j, rpcUp).Some? && HasRead(Advanced(s, j, rpcUp).value, h, id, start, time)
    ensures HasRead(s, h, id, start, time) || ReadsClock(s, h, id, start, time)
  {
    OnlyAssigningReads(s, j, rpcUp);
  }

  // A step sets its own handler's phase, and only the assignment of the status reads the clock.
  predicate OnlyPhase(s: System, h: TxId, s': System) {
    && h in s.handlers && h in s'.handlers && s'.handlers == s.handlers[h := s'.handlers[h]]
    && (s'.handlers[h].phase.Committing? ==>
          s.handlers[h].phase.Assigning? && s'.handlers[h] == s.handlers[h].(phase := Committing(s.clock)))
  }

  lemma LockOnlyPhase(s: System, h: TxId, answer: Option<ChainResult>)
    requires Known(s, h)
    ensures OnlyPhase(s, h, Lock(s, h, answer))
  {
  }

  lemma ReleaseOnlyPhase(s: System, h: TxId, usage: nat, answer: Option<ChainResult>)
    requires Known(s, h)
    ensures OnlyPhase(s, h, Release(s, h, usage, answer))
  {
  }

  lemma RowOnlyPhase(s: System, h: TxId)
    requires h in s.handlers && Recording(s.handlers[h].phase)
    ensures OnlyPhase(s, h, CommitRow(s, h))
  {
  }

  lemma StatusOnlyPhase(s: System, h: TxId, now: int)
    requires Known(s, h)
    ensures OnlyPhase(s, h, CommitStatus(s, h, now)) && OnlyPhase(s, h, Refresh(s, h)) && OnlyPhase(s, h, Publish(s, h))
  {
  }

  lemma OnlyAssigningReads(s: System, h: TxId, rpcUp: bool)
    requires Advanced(s, h, rpcUp).Some?
    ensures OnlyPhase(s, h, Advanced(s, h, rpcUp).value)
  {
    var me := s.handlers[h];
    match me.phase
    case Locking =>
      LockOnlyPhase(s, h, SendOpen(s.settings, s.chain, me.bookingId, s.bookings[me.bookingId], me.rate, rpcUp));
    case Closing(u) =>
      ReleaseOnlyPhase(s, h, u, SendClose(s.settings, s.chain, me.bookingId, u, me.to.Cancelled?, rpcUp));
    case RecordingOpen(_) => RowOnlyPhase(s, h);
    case RecordingClose(_) => RowOnlyPhase(s, h);
    case Committing(now) => StatusOnlyPhase(s, h, now);
    case Refreshing => StatusOnlyPhase(s, h, 0);
    case Publishing => StatusOnlyPhase(s, h, 0);
    case Assigning =>
    case Finished(_) =>
  }

  lemma StepReadsClock(s: System, a: Action, h: TxId, id: BookingId, start: bool, time: int)
    requires HasRead(After(s, a), h, id, start, time)
    ensures HasRead(s, h, id, start, time) || ReadsClock(s, h, id, start, time)
  {
    if Perform(s, a).Some? && a.Advance? {
      AdvanceReadsClock(s, a.h, a.rpcUp, h, id, start, time);
    }
  }

  lemma AdvanceStamps(s: System, h: TxId, rpcUp: bool, id: BookingId, start: bool, time: int)
    requires Advanced(s, h, rpcUp).Some? && HasStamp(Advanced(s, h, rpcUp).value, id, start, time)
    ensures HasStamp(s, id, start, time) || HasRead(s, h, id, start, time)
  {
  }

  lemma StepStamps(s: System, a: Action, id: BookingId, start: bool, time: int)
    requires HasStamp(After(s, a), id, start, time)
    ensures HasStamp(s, id, start, time) || (a.Advance? && HasRead(s, a.h, id, start, time))
  {
    if Perform(s, a).Some? && a.Advance? {
      AdvanceStamps(s, a.h, a.rpcUp, id, start, time);
    }
  }

  lemma {:induction false} EveryTimeWasRead(s: System, actions: seq<Action>, h: TxId, id: BookingId, start: bool,
                                            time: int)
    returns (i: nat)
    requires Start(s) && HasRead(Execute(s, actions), h, id, start, time)
    ensures i < |actions| && ReadsClock(Execute(s, actions[..i]), h, id, start, time)
    decreases |actions|
  {
    var n := |actions| - 1;
    assert actions != [];
    assert actions == actions[..n] + [actions[n]];
    ExecuteSnoc(s, actions[..n], actions[n]);
    StepReadsClock(Execute(s, actions[..n]), actions[n], h, id, start, time);
    if HasRead(Execute(s, actions[..n]), h, id, start, time) {
      i := EveryTimeWasRead(s, actions[..n], h, id, start, time);
      assert actions[..n][..i] == actions[..i];
    } else {
      i := n;
    }
  }

  // Over every interleaving, the start of a booking, once stamped, is the time at which some handler that starts it
  // read the clock, and its end that of some handler that completes or cancels it, at some point of the run.
  lemma {:induction false} EveryStampWasRead(s: System, actions: seq<Action>, id: BookingId, start: bool, time: int)
    returns (h: TxId, i: nat)
    requires Start(s) && HasStamp(Execute(s, actions), id, start, time)
    ensures i < |actions| && ReadsClock(Execute(s, actions[..i]), h, id, start, time)
    decreases |actions|
  {
    var n := |actions| - 1;
    assert actions != [];
    assert actions == actions[..n] + [actions[n]];
    ExecuteSnoc(s, actions[..n], actions[n]);
    StepStamps(Execute(s, actions[..n]), actions[n], id, start, time);
    if HasStamp(Execute(s, actions[..n]), id, start, time) {
      h, i := EveryStampWasRead(s, actions[..n], id, start, time);
    } else {
      h := actions[n].h;
      i := EveryTimeWasRead(s, actions[..n], h, id, start, time);
    }
    assert actions[..n][..i] == actions[..i];
  }
}
