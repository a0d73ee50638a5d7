// When a booking that was locked on chain can be closed off chain without a charge: when a request that was checked
// while the booking was pending closes it once it is active, and none checked while it was active does. Then no charge
// is ever attempted and its worker never told.
module Stranding {
  import opened Wrappers
  import opened Escrow
  import opened Ledger
  import opened Settlement
  import opened SettlementInvariant
  import opened SettlementTheorems
  import opened TransitionTable

  // A cancellation that was checked while the booking was pending is about to close it although it is active by now.
  predicate Silent(s: System, a: Action) {
    && a.Advance? && Known(s, a.h) && s.handlers[a.h].phase.Committing?
    && var me := s.handlers[a.h];
    && s.bookings[me.bookingId].status.Active? && Terminal(me.to) && !me.prev.Active?
  }

  predicate SilentAlong(s: System, actions: seq<Action>)
    decreases |actions|
  {
    actions != [] && (Silent(s, actions[0]) || SilentAlong(After(s, actions[0]), actions[1..]))
  }

  // ------------------------------------------------------------ without one, every close is pursued

  // A close was attempted on chain, successfully or not.
  predicate Attempted(txs: Table, h: TxId, id: BookingId) {
    h in txs && txs[h].bookingId == id && !txs[h].kind.OpenTx?
  }

  // The activation that placed the lock and has not committed its status yet.
  predicate Activating(s: System, h: TxId, id: BookingId) {
    && h in s.handlers && s.handlers[h].bookingId == id && s.handlers[h].to.Active?
    && var p := s.handlers[h].phase; (p.RecordingOpen? && p.tx.confirmed) || p.Assigning? || p.Committing?
  }

  // A close that has committed its status, on its way to the charge, the message and the end.
  predicate Charging(s: System, h: TxId, id: BookingId) {
    && h in s.handlers && s.handlers[h].bookingId == id && ClosesActive(s.handlers[h]) && id in s.bookings
    && var p := s.handlers[h].phase;
    || p.Refreshing? || p.Closing? || p.RecordingClose?
    || (p.Publishing? && Attempted(s.txs, h, id))
    || (p.Finished? && Attempted(s.txs, h, id) && (s.bookings[id].workerId, BookingCancelled(id)) in s.published)
  }

  // A locked booking is active, or some handler is making it so or is closing it.
  ghost predicate Pursued(s: System, id: BookingId) {
    id in s.openedBy ==>
      && id in s.bookings
      && (s.bookings[id].status.Active? || exists h :: Activating(s, h, id) || Charging(s, h, id))
  }

  // The tables a step of one handler leaves to the others.
  predicate Frame(s: System, h: TxId, s': System) {
    && (forall id | id in s.bookings :: id in s'.bookings && SameParties(s.bookings[id], s'.bookings[id]))
    && (forall k | k in s.txs && k != h :: k in s'.txs && s'.txs[k] == s.txs[k])
    && s.published <= s'.published
  }

  // What a step does for the booking of its own handler.
  predicate CarriesOn(s: System, h: TxId, s': System)
    requires Known(s, h)
  {
    var id := s.handlers[h].bookingId;
    && Frame(s, h, s') && id in s'.bookings
    && (forall i | i in s'.openedBy :: i in s.openedBy || (i == id && Activating(s', h, id)))
    && (forall i | i in s.bookings && i != id :: s'.bookings[i] == s.bookings[i])
    && (Activating(s, h, id) ==> Activating(s', h, id) || s'.bookings[id].status.Active?)
    && (Charging(s, h, id) && Applicable(s.settings, s.bookings[id]) ==> Charging(s', h, id))
    && (s.bookings[id].status.Active? && !Silent(s, Advance(h, true)) ==>
          s'.bookings[id].status.Active? || Charging(s', h, id))
    && (ClosesActive(s.handlers[h]) && s.handlers[h].phase.Committing? ==> Charging(s', h, id))
    && (s.handlers[h].phase.Assigning? ==> h in s'.handlers && s'.handlers[h].phase.Committing?)
  }

  lemma LockCarriesOn(s: System, h: TxId, answer: Option<ChainResult>)
    requires Known(s, h) && s.handlers[h].phase.Locking? && s.handlers[h].to.Active?
    ensures CarriesOn(s, h, Lock(s, h, answer))
  {
  }

  lemma ReleaseCarriesOn(s: System, h: TxId, usage: nat, answer: Option<ChainResult>)
    requires Known(s, h) && s.handlers[h].phase.Closing?
    ensures CarriesOn(s, h, Release(s, h, usage, answer))
  {
  }

  lemma RecordCarriesOn(s: System, h: TxId)
    requires Known(s, h) && Recording(s.handlers[h].phase)
    requires HandlerSound(s.settings, s.bookings, s.txs, s.openedBy, h, s.handlers[h])
    ensures CarriesOn(s, h, CommitRow(s, h))
  {
  }

  lemma CommitCarriesOn(s: System, h: TxId, now: int)
    requires Known(s, h) && s.handlers[h].phase == Committing(now)
    requires ValidTransition(s.handlers[h].prev, s.handlers[h].to)
    ensures CarriesOn(s, h, CommitStatus(s, h, now))
  {
  }

  lemma RefreshCarriesOn(s: System, h: TxId)
    requires Known(s, h) && s.handlers[h].phase.Refreshing?
    ensures CarriesOn(s, h, Refresh(s, h))
  {
  }

  lemma PublishCarriesOn(s: System, h: TxId)
    requires Known(s, h) && s.handlers[h].phase.Publishing?
    ensures CarriesOn(s, h, Publish(s, h))
  {
  }

  lemma AssignCarriesOn(s: System, h: TxId)
    requires Known(s, h) && s.handlers[h].phase.Assigning?
    ensures CarriesOn(s, h, To(s, h, Committing(s.clock)))
  {
  }

  lemma StepCarriesOn(s: System, h: TxId, rpcUp: bool)
    requires Advanced(s, h, rpcUp).Some?
    requires HandlerSound(s.settings, s.bookings, s.txs, s.openedBy, h, s.handlers[h])
    ensures CarriesOn(s, h, Advanced(s, h, rpcUp).value)
  {
    var me := s.handlers[h];
    match me.phase
    case Locking =>
      LockCarriesOn(s, h, SendOpen(s.settings, s.chain, me.bookingId, s.bookings[me.bookingId], me.rate, rpcUp));
    case Closing(usage) =>
      ReleaseCarriesOn(s, h, usage, SendClose(s.settings, s.chain, me.bookingId, usage, me.to.Cancelled?, rpcUp));
    case RecordingOpen(_) => RecordCarriesOn(s, h);
    case Assigning => AssignCarriesOn(s, h);
    case Committing(now) => CommitCarriesOn(s, h, now);
    case Refreshing => RefreshCarriesOn(s, h);
    case RecordingClose(_) => RecordCarriesOn(s, h);
    case Publishing => PublishCarriesOn(s, h);
    case Finished(_) =>
  }

  lemma AdvancePursues(s: System, h: TxId, rpcUp: bool, id: BookingId)
    requires SystemInv(s) && OwnParties(s) && Pursued(s, id)
    requires Advanced(s, h, rpcUp).Some? && !Silent(s, Advance(h, rpcUp))
    ensures Pursued(Advanced(s, h, rpcUp).value, id)
  {
    var s' := Advanced(s, h, rpcUp).value;
    assert HandlerSound(s.settings, s.bookings, s.txs, s.openedBy, h, s.handlers[h]);
    StepCarriesOn(s, h, rpcUp);
    AdvanceIsOwnStep(s, h, rpcUp);
    CarriedOn(s, h, s', id);
  }

  lemma PursuerStays(s: System, h: TxId, s': System, k: TxId, id: BookingId)
    requires Known(s, h) && CarriesOn(s, h, s') && OwnStep(s, h, s')
    requires Activating(s, k, id) || Charging(s, k, id)
    requires id in s.bookings && Applicable(s.settings, s.bookings[id])
    ensures id in s'.bookings && (s'.bookings[id].status.Active? || Activating(s', k, id) || Charging(s', k, id))
  {
    if k != h {
      assert s'.handlers[k] == s.handlers[k];
    }
  }

  lemma CarriedOn(s: System, h: TxId, s': System, id: BookingId)
    requires OpenersKnown(s) && OwnParties(s) && Pursued(s, id)
    requires Known(s, h) && CarriesOn(s, h, s') && OwnStep(s, h, s') && !Silent(s, Advance(h, true))
    ensures Pursued(s', id)
  {
    if id in s.openedBy {
      assert BetweenItsParties(s.settings, s.chain.core.bookings, s.bookings, id);
      if !s.bookings[id].status.Active? {
        var k :| Activating(s, k, id) || Charging(s, k, id);
        PursuerStays(s, h, s', k, id);
      }
    }
  }

  predicate OpenersKnown(s: System) {
    s.openedBy.Keys == s.chain.core.bookings.Keys
  }

  lemma ActionPursues(s: System, a: Action, id: BookingId)
    requires SystemInv(s) && OwnParties(s) && Pursued(s, id) && !Silent(s, a)
    ensures Pursued(After(s, a), id)
  {
    if Perform(s, a).Some? {
      if a.Advance? {
        AdvancePursues(s, a.h, a.rpcUp, id);
      } else {
        OthersPursue(s, a, id);
      }
    }
  }

  // Every other action leaves the handlers in place and the rows, the log and the messages as they are.
  lemma OthersPursue(s: System, a: Action, id: BookingId)
    requires Pursued(s, id) && !a.Advance?
    ensures Pursued(After(s, a), id)
  {
    var s' := After(s, a);
    if id in s'.openedBy && !s.bookings[id].status.Active? {
      var h :| Activating(s, h, id) || Charging(s, h, id);
      assert s'.handlers[h] == s.handlers[h] && s'.bookings[id] == s.bookings[id];
      assert Activating(s', h, id) || Charging(s', h, id);
    }
  }

  lemma {:induction false} ExecutePursues(s: System, actions: seq<Action>, id: BookingId)
    requires SystemInv(s) && OwnParties(s) && Pursued(s, id) && !SilentAlong(s, actions)
    ensures SystemInv(Execute(s, actions)) && Pursued(Execute(s, actions), id)
    decreases |actions|
  {
    if actions != [] {
      ActionKeepsInv(s, actions[0]);
      ActionKeepsParties(s, actions[0]);
      ActionPursues(s, actions[0], id);
      ExecutePursues(After(s, actions[0]), actions[1..], id);
    }
  }

  // No handler is at work on the booking.
  predicate Idle(s: System, id: BookingId) {
    forall h | h in s.handlers && s.handlers[h].bookingId == id :: s.handlers[h].phase.Finished?
  }

  lemma IdleIsCharged(s: System, id: BookingId) returns (h: TxId)
    requires Pursued(s, id) && Idle(s, id) && id in s.openedBy && !s.bookings[id].status.Active?
    ensures Attempted(s.txs, h, id) && (s.bookings[id].workerId, BookingCancelled(id)) in s.published
  {
    h :| Activating(s, h, id) || Charging(s, h, id);
    assert s.handlers[h].phase.Finished?;
  }

  // In every run without a silent cancellation, once no handler works on a locked booking it is still active, or its
  // close was attempted on chain and its own worker was told to stop.
  lemma ClosedMeansCharged(s0: System, actions: seq<Action>, id: BookingId) returns (h: TxId)
    requires Start(s0) && !SilentAlong(s0, actions)
    requires var s := Execute(s0, actions);
             id in s.openedBy && Idle(s, id) && id in s.bookings && !s.bookings[id].status.Active?
    ensures var s := Execute(s0, actions);
            Attempted(s.txs, h, id) && (s.bookings[id].workerId, BookingCancelled(id)) in s.published
  {
    StartIsSound(s0);
    assert s0.chain.core.bookings == map[];
    ExecutePursues(s0, actions, id);
    h := IdleIsCharged(Execute(s0, actions), id);
  }

  // ------------------------------------------------------------ exactly which closes are charged

  // A close that was checked while the booking was active is on its way to its charge.
  predicate OnItsWay(s: System, h: TxId) {
    && Known(s, h)
    && var me := s.handlers[h];
    (ClosesActive(me) && Applicable(s.settings, s.bookings[me.bookingId]) ==>
       me.phase.Assigning? || me.phase.Committing? || Charging(s, h, me.bookingId))
  }

  // A row for a close comes from a handler that closes an active booking.
  predicate RowHasCloser(s: System, k: TxId) {
    k in s.txs && !s.txs[k].kind.OpenTx? ==>
      k in s.handlers && s.handlers[k].bookingId == s.txs[k].bookingId && ClosesActive(s.handlers[k])
  }

  predicate Closer(s: System, h: TxId, id: BookingId) {
    h in s.handlers && s.handlers[h].bookingId == id && ClosesActive(s.handlers[h])
  }

  // And so does a message that tells a worker to stop.
  ghost predicate MessageHasCloser(s: System, l: (WorkerId, Message)) {
    l in s.published && l.1.BookingCancelled? ==> exists h :: Closer(s, h, l.1.bookingId)
  }

  ghost predicate ClosesCharged(s: System) {
    && (forall h | h in s.handlers :: OnItsWay(s, h))
    && (forall k :: RowHasCloser(s, k))
    && (forall l :: MessageHasCloser(s, l))
  }

  // Only recording writes the log, and only what was on its way; and only publishing publishes.
  predicate Logs(s: System, h: TxId, s': System)
    requires Known(s, h)
  {
    var me := s.handlers[h];
    && s'.settings == s.settings
    && s'.txs == (if Recording(me.phase) then s.txs[h := me.phase.tx] else s.txs)
    && s'.published
       == s.published + if me.phase.Publishing? then Announcement(me, s.bookings[me.bookingId]) else {}
  }

  lemma LockLogs(s: System, h: TxId, answer: Option<ChainResult>)
    requires Known(s, h) && s.handlers[h].phase.Locking?
    ensures Logs(s, h, Lock(s, h, answer))
  {
  }

  lemma ReleaseLogs(s: System, h: TxId, usage: nat, answer: Option<ChainResult>)
    requires Known(s, h) && s.handlers[h].phase.Closing?
    ensures Logs(s, h, Release(s, h, usage, answer))
  {
  }

  lemma AdvanceLogs(s: System, h: TxId, rpcUp: bool)
    requires Advanced(s, h, rpcUp).Some?
    ensures Logs(s, h, Advanced(s, h, rpcUp).value)
  {
    var me := s.handlers[h];
    match me.phase
    case Locking =>
      LockLogs(s, h, SendOpen(s.settings, s.chain, me.bookingId, s.bookings[me.bookingId], me.rate, rpcUp));
    case Closing(usage) =>
      ReleaseLogs(s, h, usage, SendClose(s.settings, s.chain, me.bookingId, usage, me.to.Cancelled?, rpcUp));
    case RecordingOpen(_) => assert Logs(s, h, CommitRow(s, h));
    case Assigning => assert Logs(s, h, To(s, h, Committing(s.clock)));
    case Committing(now) => assert Logs(s, h, CommitStatus(s, h, now));
    case Refreshing => assert Logs(s, h, Refresh(s, h));
    case RecordingClose(_) => assert Logs(s, h, CommitRow(s, h));
    case Publishing => assert Logs(s, h, Publish(s, h));
    case Finished(_) =>
  }

  lemma RowsHaveClosers(s: System, h: TxId, s': System, k: TxId)
    requires RowHasCloser(s, k) && Known(s, h) && Logs(s, h, s') && OwnStep(s, h, s')
    requires HandlerSound(s.settings, s.bookings, s.txs, s.openedBy, h, s.handlers[h])
    ensures RowHasCloser(s', k)
  {
  }

  lemma MessagesHaveClosers(s: System, h: TxId, s': System, l: (WorkerId, Message))
    requires MessageHasCloser(s, l) && Known(s, h) && Logs(s, h, s') && OwnStep(s, h, s')
    ensures MessageHasCloser(s', l)
  {
    if l in s'.published && l.1.BookingCancelled? {
      if l in s.published {
        var k :| Closer(s, k, l.1.bookingId);
        assert Closer(s', k, l.1.bookingId);
      } else {
        assert Closer(s', h, l.1.bookingId);
      }
    }
  }

  // Steps of no handler keep every closer and publish nothing.
  lemma MessagesStay(s: System, s': System, l: (WorkerId, Message))
    requires MessageHasCloser(s, l) && s'.published == s.published
    requires forall h | h in s.handlers :: h in s'.handlers && s'.handlers[h] == s.handlers[h]
    ensures MessageHasCloser(s', l)
  {
    if l in s.published && l.1.BookingCancelled? {
      var k :| Closer(s, k, l.1.bookingId);
      assert Closer(s', k, l.1.bookingId);
    }
  }

  lemma StaysOnItsWay(s: System, h: TxId, s': System, k: TxId)
    requires OnItsWay(s, k) && Known(s, h) && CarriesOn(s, h, s') && OwnStep(s, h, s') && s'.settings == s.settings
    ensures OnItsWay(s', k)
  {
    if k != h {
      assert s'.handlers[k] == s.handlers[k];
    }
  }

  lemma AdvanceKeepsCharged(s: System, h: TxId, rpcUp: bool)
    requires SystemInv(s) && ClosesCharged(s) && Advanced(s, h, rpcUp).Some?
    ensures ClosesCharged(Advanced(s, h, rpcUp).value)
  {
    var s' := Advanced(s, h, rpcUp).value;
    assert HandlerSound(s.settings, s.bookings, s.txs, s.openedBy, h, s.handlers[h]);
    StepCarriesOn(s, h, rpcUp);
    AdvanceIsOwnStep(s, h, rpcUp);
    AdvanceLogs(s, h, rpcUp);
    StepKeepsCharged(s, h, s');
  }

  lemma StepKeepsCharged(s: System, h: TxId, s': System)
    requires ClosesCharged(s) && Known(s, h) && CarriesOn(s, h, s') && OwnStep(s, h, s') && Logs(s, h, s')
    requires HandlerSound(s.settings, s.bookings, s.txs, s.openedBy, h, s.handlers[h])
    ensures ClosesCharged(s')
  {
    forall k | k in s'.handlers ensures OnItsWay(s', k) {
      assert OnItsWay(s, k);
      StaysOnItsWay(s, h, s', k);
    }
    forall k ensures RowHasCloser(s', k) {
      RowsHaveClosers(s, h, s', k);
    }
    forall l ensures MessageHasCloser(s', l) {
      MessagesHaveClosers(s, h, s', l);
    }
  }

  lemma RequestKeepsCharged(s: System, h: TxId, id: BookingId, to: BookingStatus, rate: nat)
    requires ClosesCharged(s) && Accept(s, h, id, to, rate).Some?
    ensures ClosesCharged(Accept(s, h, id, to, rate).value)
  {
    var s' := Accept(s, h, id, to, rate).value;
    forall k | k in s'.handlers ensures OnItsWay(s', k) {
      assert k != h ==> OnItsWay(s, k);
    }
    forall k ensures RowHasCloser(s', k) {
      assert RowHasCloser(s, k);
    }
    forall l ensures MessageHasCloser(s', l) {
      MessagesStay(s, s', l);
    }
  }

  lemma CreateKeepsCharged(s: System, a: Action)
    requires ClosesCharged(s) && a.Create? && Created(s, a).Some?
    ensures ClosesCharged(Created(s, a).value)
  {
    var s' := Created(s, a).value;
    forall k | k in s'.handlers ensures OnItsWay(s', k) {
      assert OnItsWay(s, k);
    }
    forall k ensures RowHasCloser(s', k) {
      assert RowHasCloser(s, k);
    }
    forall l ensures MessageHasCloser(s', l) {
      MessagesStay(s, s', l);
    }
  }

  // Chain and clock are no part of it.
  lemma ElsewhereKeepsCharged(s: System, s': System)
    requires ClosesCharged(s) && s' == s.(chain := s'.chain, clock := s'.clock)
    ensures ClosesCharged(s')
  {
    forall k | k in s'.handlers ensures OnItsWay(s', k) {
      assert OnItsWay(s, k);
    }
    forall k ensures RowHasCloser(s', k) {
      assert RowHasCloser(s, k);
    }
    forall l ensures MessageHasCloser(s', l) {
      MessagesStay(s, s', l);
    }
  }

  lemma ActionKeepsCharged(s: System, a: Action)
    requires SystemInv(s) && ClosesCharged(s)
    ensures ClosesCharged(After(s, a))
  {
    if Perform(s, a).Some? {
      match a
      case Create(_, _, _, _, _, _, _, _, _) => CreateKeepsCharged(s, a);
      case Request(h, id, to, rate) => RequestKeepsCharged(s, h, id, to, rate);
      case Advance(h, rpcUp) => AdvanceKeepsCharged(s, h, rpcUp);
      case Chain(_) => ElsewhereKeepsCharged(s, After(s, a));
      case ServerTick(_) => ElsewhereKeepsCharged(s, After(s, a));
    }
  }

  lemma {:induction false} ExecuteKeepsCharged(s: System, actions: seq<Action>)
    requires SystemInv(s) && ClosesCharged(s)
    ensures ClosesCharged(Execute(s, actions))
    decreases |actions|
  {
    if actions != [] {
      ActionKeepsInv(s, actions[0]);
      ActionKeepsCharged(s, actions[0]);
      ExecuteKeepsCharged(After(s, actions[0]), actions[1..]);
    }
  }

  // After every interleaving, once no handler works on a booking that settles on chain, a close of it was attempted if
  // and only if one was requested while the booking was active, and its own worker was told if and only if one was.
  lemma ChargedIff(s: System, id: BookingId)
    requires Happens(s) && Idle(s, id) && id in s.bookings && Applicable(s.settings, s.bookings[id])
    ensures (exists k :: Attempted(s.txs, k, id)) <==> (exists h :: Closer(s, h, id))
    ensures (s.bookings[id].workerId, BookingCancelled(id)) in s.published <==> (exists h :: Closer(s, h, id))
  {
    HappensCharged(s);
    var l := (s.bookings[id].workerId, BookingCancelled(id));
    assert MessageHasCloser(s, l);
    if k :| Attempted(s.txs, k, id) {
      assert RowHasCloser(s, k);
      assert Closer(s, k, id);
    }
    if h :| Closer(s, h, id) {
      assert OnItsWay(s, h);
      assert Attempted(s.txs, h, id);
    }
  }

  lemma HappensCharged(s: System)
    requires Happens(s)
    ensures ClosesCharged(s)
  {
    var s0, actions :| Start(s0) && s == Execute(s0, actions);
    StartIsSound(s0);
    ExecuteKeepsCharged(s0, actions);
  }

  // ------------------------------------------------------------ after one, nothing ever charges it

  // The handler's remaining steps leave chain, log and messages alone, and the row closed.
  lemma SilentCloseDoesNothing(s: System, h: TxId, rpcUp: bool)
    requires Silent(s, Advance(h, rpcUp))
    ensures var s' := Execute(s, [Advance(h, rpcUp), Advance(h, rpcUp), Advance(h, rpcUp)]);
            && s'.chain == s.chain && s'.txs == s.txs && s'.published == s.published
            && s'.handlers == s.handlers[h := s.handlers[h].(phase := Finished(true))]
            && Known(s', h) && s'.bookings[s.handlers[h].bookingId].status == s.handlers[h].to
  {
    var a := Advance(h, rpcUp);
    var me := s.handlers[h];
    var s1 := CommitStatus(s, h, me.phase.now);
    var s2 := Refresh(s1, h);
    assert After(s, a) == s1 && After(s1, a) == s2;
    assert s2.handlers[h].phase.Publishing? && Announcement(me, s2.bookings[me.bookingId]) == {};
    assert [a, a, a][1..] == [a, a] && [a, a][1..] == [a] && [a][1..] == [];
    assert Execute(s2, [a]) == Execute(After(s2, a), []) == Publish(s2, h);
    assert Execute(s1, [a, a]) == Execute(s2, [a]);
  }

  // Closed off chain, open on chain, and nobody at work on it.
  predicate Stranded(s: System, id: BookingId) {
    && id in s.bookings && Terminal(s.bookings[id].status) && Idle(s, id)
    && id in s.chain.core.bookings && s.chain.core.bookings[id].status.Open?
  }

  // A cancellation checked while the booking was pending, overtaken by the activation and run to its end: the booking
  // is closed, its lock is left, and its worker is not told.
  lemma LateCancelStrands(s: System, h: TxId, id: BookingId, rate: nat, rpcUp: bool)
    requires h in s.handlers && s.handlers[h] == Handler(id, BookingStatus.Cancelled, Pending, rate, Assigning)
    requires id in s.bookings && s.bookings[id].status.Active?
    requires id in s.chain.core.bookings && s.chain.core.bookings[id].status.Open?
    requires forall k | k in s.handlers && k != h && s.handlers[k].bookingId == id :: s.handlers[k].phase.Finished?
    ensures var a := Advance(h, rpcUp);
            var s' := Execute(After(s, a), [a, a, a]);
            && Stranded(s', id) && s'.chain == s.chain && s'.txs == s.txs && s'.published == s.published
  {
    var s1 := To(s, h, Committing(s.clock));
    assert After(s, Advance(h, rpcUp)) == s1;
    SilentCloseDoesNothing(s1, h, rpcUp);
  }

  // The booking's part of the chain, the table, the log and the messages.
  ghost predicate SamePart(s: System, s': System, id: BookingId) {
    && id in s.bookings && id in s'.bookings && s'.bookings[id] == s.bookings[id]
    && id in s.chain.core.bookings && id in s'.chain.core.bookings
    && s'.chain.core.bookings[id] == s.chain.core.bookings[id]
    && (forall k :: Attempted(s'.txs, k, id) <==> Attempted(s.txs, k, id))
    && (forall w :: (w, BookingCancelled(id)) in s'.published <==> (w, BookingCancelled(id)) in s.published)
  }

  lemma LockIsElsewhere(s: System, h: TxId, answer: Option<ChainResult>, id: BookingId)
    requires Known(s, h) && s.handlers[h].bookingId != id && SamePart(s, s, id) && LockTook(s, h, answer)
    ensures SamePart(s, Lock(s, h, answer), id)
  {
  }

  lemma ReleaseIsElsewhere(s: System, h: TxId, usage: nat, answer: Option<ChainResult>, id: BookingId)
    requires Known(s, h) && s.handlers[h].bookingId != id && SamePart(s, s, id)
    requires answer.Some? ==>
               CloseTook(s.chain, answer.value, s.handlers[h].bookingId, usage, s.handlers[h].to.Cancelled?)
    ensures SamePart(s, Release(s, h, usage, answer), id)
  {
  }

  lemma LocalStepIsElsewhere(s: System, h: TxId, rpcUp: bool, id: BookingId)
    requires Advanced(s, h, rpcUp).Some? && s.handlers[h].bookingId != id && SamePart(s, s, id)
    requires HandlerSound(s.settings, s.bookings, s.txs, s.openedBy, h, s.handlers[h])
    requires !s.handlers[h].phase.Locking? && !s.handlers[h].phase.Closing?
    ensures SamePart(s, Advanced(s, h, rpcUp).value, id)
  {
    match s.handlers[h].phase
    case RecordingOpen(_) => assert SamePart(s, CommitRow(s, h), id);
    case Assigning => assert SamePart(s, To(s, h, Committing(s.clock)), id);
    case Committing(now) => assert SamePart(s, CommitStatus(s, h, now), id);
    case Refreshing => assert SamePart(s, Refresh(s, h), id);
    case RecordingClose(_) => assert SamePart(s, CommitRow(s, h), id);
    case Publishing => assert SamePart(s, Publish(s, h), id);
    case Finished(_) =>
  }

  lemma AdvanceIsElsewhere(s: System, h: TxId, rpcUp: bool, id: BookingId)
    requires SystemInv(s) && Advanced(s, h, rpcUp).Some? && s.handlers[h].bookingId != id && SamePart(s, s, id)
    ensures SamePart(s, Advanced(s, h, rpcUp).value, id)
  {
    var me := s.handlers[h];
    assert HandlerSound(s.settings, s.bookings, s.txs, s.openedBy, h, me);
    if me.phase.Locking? {
      LockingIsElsewhere(s, h, rpcUp, id);
    } else if me.phase.Closing? {
      ClosingIsElsewhere(s, h, rpcUp, id);
    } else {
      LocalStepIsElsewhere(s, h, rpcUp, id);
    }
  }

  lemma LockingIsElsewhere(s: System, h: TxId, rpcUp: bool, id: BookingId)
    requires Reachable(s.chain) && Advanced(s, h, rpcUp).Some? && s.handlers[h].phase.Locking?
    requires s.handlers[h].bookingId != id && SamePart(s, s, id)
    ensures SamePart(s, Advanced(s, h, rpcUp).value, id)
  {
    var me := s.handlers[h];
    var b := s.bookings[me.bookingId];
    var answer := SendOpen(s.settings, s.chain, me.bookingId, b, me.rate, rpcUp);
    if answer.Some? {
      OpenConfirmed(s, me.bookingId, b, me.rate, rpcUp);
    }
    LockIsElsewhere(s, h, answer, id);
    assert Advanced(s, h, rpcUp).value == Lock(s, h, answer);
  }

  lemma ClosingIsElsewhere(s: System, h: TxId, rpcUp: bool, id: BookingId)
    requires Reachable(s.chain) && Advanced(s, h, rpcUp).Some? && s.handlers[h].phase.Closing?
    requires s.handlers[h].bookingId != id && SamePart(s, s, id)
    ensures SamePart(s, Advanced(s, h, rpcUp).value, id)
  {
    var me := s.handlers[h];
    var usage := me.phase.usage;
    var answer := SendClose(s.settings, s.chain, me.bookingId, usage, me.to.Cancelled?, rpcUp);
    if answer.Some? {
      CloseConfirmed(s, me.bookingId, usage, me.to.Cancelled?, rpcUp);
    }
    ReleaseIsElsewhere(s, h, usage, answer, id);
    assert Advanced(s, h, rpcUp).value == Release(s, h, usage, answer);
  }

  lemma IdleIsElsewhere(s: System, h: TxId, s': System, id: BookingId)
    requires Idle(s, id) && h in s.handlers && s.handlers[h].bookingId != id && OwnStep(s, h, s')
    ensures Idle(s', id)
  {
  }

  lemma WorkIsElsewhere(s: System, h: TxId, rpcUp: bool, id: BookingId)
    requires Idle(s, id) && Advanced(s, h, rpcUp).Some?
    ensures s.handlers[h].bookingId != id
  {
  }

  lemma AdvanceStrands(s: System, h: TxId, rpcUp: bool, id: BookingId)
    requires SystemInv(s) && Stranded(s, id) && Advanced(s, h, rpcUp).Some?
    ensures SamePart(s, Advanced(s, h, rpcUp).value, id) && Idle(Advanced(s, h, rpcUp).value, id)
  {
    WorkIsElsewhere(s, h, rpcUp, id);
    AdvanceIsElsewhere(s, h, rpcUp, id);
    AdvanceIsOwnStep(s, h, rpcUp);
    IdleIsElsewhere(s, h, Advanced(s, h, rpcUp).value, id);
  }

  lemma RequestStrands(s: System, h: TxId, booking: BookingId, to: BookingStatus, rate: nat, id: BookingId)
    requires Stranded(s, id) && Accept(s, h, booking, to, rate).Some?
    ensures var s' := Accept(s, h, booking, to, rate).value; SamePart(s, s', id) && Idle(s', id)
  {
  }

  lemma ChainStrands(s: System, l: Label, id: BookingId)
    requires ChainSound(s.chain) && Stranded(s, id) && Foreign(s.chain, l)
    ensures var s' := s.(chain := Next(s.chain, l)); SamePart(s, s', id) && Idle(s', id)
  {
    if Next(s.chain, l) != s.chain {
      ForeignKeepsBooks(s.chain, l);
    }
  }

  lemma CreateStrands(s: System, a: Action, id: BookingId)
    requires Stranded(s, id) && a.Create? && Created(s, a).Some?
    ensures var s' := Created(s, a).value; SamePart(s, s', id) && Idle(s', id)
  {
  }

  lemma OtherStrands(s: System, a: Action, id: BookingId)
    requires ChainSound(s.chain) && Stranded(s, id) && !a.Advance? && Perform(s, a).Some?
    ensures SamePart(s, After(s, a), id) && Idle(After(s, a), id)
  {
    match a
    case Create(_, _, _, _, _, _, _, _, _) => CreateStrands(s, a, id);
    case Request(h, booking, to, rate) => RequestStrands(s, h, booking, to, rate, id);
    case Chain(l) => ChainStrands(s, l, id);
    case ServerTick(time) => assert SamePart(s, s.(clock := time), id);
  }

  lemma StrandedStays(s: System, a: Action, id: BookingId)
    requires SystemInv(s) && Stranded(s, id)
    ensures Stranded(After(s, a), id) && SamePart(s, After(s, a), id)
  {
    if Perform(s, a).Some? {
      if a.Advance? {
        AdvanceStrands(s, a.h, a.rpcUp, id);
      } else {
        OtherStrands(s, a, id);
      }
    }
  }

  // Whatever anyone does from then on, the lock stays, the row stays closed, and neither a charge is attempted nor
  // the worker told.
  lemma {:induction false} StrandedForever(s: System, actions: seq<Action>, id: BookingId)
    requires SystemInv(s) && Stranded(s, id)
    ensures Stranded(Execute(s, actions), id) && SamePart(s, Execute(s, actions), id)
    decreases |actions|
  {
    if actions != [] {
      StrandedStays(s, actions[0], id);
      ActionKeepsInv(s, actions[0]);
      StrandedForever(After(s, actions[0]), actions[1..], id);
    }
  }
}
