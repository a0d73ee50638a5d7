// The off-chain lifecycle of bookings when requests are served one at a time.
module BookingLifecycle {
  import opened Escrow
  import opened Ledger
  import opened Settlement
  import opened BookingService

  // One request, a new booking, somebody else's transaction, or time passing.
  datatype Turn =
    | Serve(h: TxId, user: UserId, id: BookingId, to: BookingStatus, rate: nat, rpcUp: bool)
    | Other(action: Action)

  predicate Legal(t: Turn) {
    t.Other? ==> !t.action.Request? && !t.action.Advance?
  }

  function Served(s: System, t: Turn): System {
    match t
    case Serve(h, user, id, to, rate, rpcUp) => Transitioned(s, h, user, id, to, rate, rpcUp).1
    case Other(action) => After(s, action)
  }

  function ServeAll(s: System, turns: seq<Turn>): System
    decreases |turns|
  {
    if turns == [] then s else ServeAll(Served(s, turns[0]), turns[1..])
  }

  // The stamps say where a booking is: started once active, ended once closed, and never the other way round.
  predicate Stamps(b: BookingRow, clock: int) {
    && (b.status.Pending? ==> b.startedAt.None?)
    && (b.status.Active? || b.status.Completed? ==> b.startedAt.Some?)
    && (b.startedAt.Some? ==> b.startedAt.value <= clock)
    && (b.endedAt.Some? <==> Terminal(b.status))
    && (b.endedAt.Some? ==> b.endedAt.value <= clock)
    && (b.startedAt.Some? && b.endedAt.Some? ==> b.startedAt.value <= b.endedAt.value)
  }

  // Closed bookings are final, an active one keeps its start and is not pending again, and the parties never change.
  predicate Onward(b: BookingRow, b': BookingRow) {
    && (Terminal(b.status) ==> b' == b)
    && (b.status.Active? ==> !b'.status.Pending? && b'.startedAt == b.startedAt)
    && b'.consumerUser == b.consumerUser && b'.supplierUser == b.supplierUser
    && b'.workerId == b.workerId && b'.offeringId == b.offeringId
    && b'.consumerWallet == b.consumerWallet && b'.payoutWallet == b.payoutWallet
  }

  predicate AllStamped(s: System) {
    forall id | id in s.bookings :: Stamps(s.bookings[id], s.clock)
  }

  predicate AllOnward(s: System, s': System) {
    forall id | id in s.bookings :: id in s'.bookings && Onward(s.bookings[id], s'.bookings[id])
  }

  lemma UpdatedMovesOn(b: BookingRow, to: BookingStatus, clock: int)
    requires Stamps(b, clock) && ValidTransition(b.status, to)
    ensures Stamps(Updated(b, to, clock), clock) && Onward(b, Updated(b, to, clock))
  {
  }

  lemma CommitMovesOn(s: System, s': System, id: BookingId, to: BookingStatus)
    requires AllStamped(s) && id in s.bookings && ValidTransition(s.bookings[id].status, to) && s'.clock == s.clock
    requires s'.bookings == s.bookings[id := Updated(s.bookings[id], to, s.clock)]
    ensures AllStamped(s') && AllOnward(s, s')
  {
    UpdatedMovesOn(s.bookings[id], to, s.clock);
  }

  lemma ServeMovesOn(s: System, h: TxId, user: UserId, id: BookingId, to: BookingStatus, rate: nat, rpcUp: bool)
    requires AllStamped(s)
    ensures var s' := Transitioned(s, h, user, id, to, rate, rpcUp).1;
            AllStamped(s') && AllOnward(s, s')
  {
    if h !in s.handlers && h !in s.txs {
      TransitionOutcome(s, h, user, id, to, rate, rpcUp);
      var (r, s') := Transitioned(s, h, user, id, to, rate, rpcUp);
      if r == Accepted {
        CommitMovesOn(s, s', id, to);
      } else {
        assert s'.bookings == s.bookings && s'.clock == s.clock;
      }
    }
  }

  lemma OtherMovesOn(s: System, a: Action)
    requires AllStamped(s) && !a.Request? && !a.Advance?
    ensures AllStamped(After(s, a)) && AllOnward(s, After(s, a))
  {
  }

  lemma OnwardTrans(s: System, s1: System, s2: System)
    requires AllOnward(s, s1) && AllOnward(s1, s2)
    ensures AllOnward(s, s2)
  {
    forall id | id in s.bookings ensures id in s2.bookings && Onward(s.bookings[id], s2.bookings[id]) {
      assert Onward(s1.bookings[id], s2.bookings[id]);
    }
  }

  // Over every sequence of requests, each served before the next: bookings only move along the transition table,
  // and their stamps bracket the time they were active.
  lemma {:induction false} LifecycleHolds(s: System, turns: seq<Turn>)
    requires AllStamped(s) && forall t | t in turns :: Legal(t)
    ensures AllStamped(ServeAll(s, turns)) && AllOnward(s, ServeAll(s, turns))
    decreases |turns|
  {
    if turns != [] {
      var s1 := Served(s, turns[0]);
      match turns[0] {
        case Serve(h, user, id, to, rate, rpcUp) => ServeMovesOn(s, h, user, id, to, rate, rpcUp);
        case Other(action) =>
          assert Legal(turns[0]);
          OtherMovesOn(s, action);
      }
      LifecycleHolds(s1, turns[1..]);
      OnwardTrans(s, s1, ServeAll(s, turns));
    }
  }

  // A turn served for one of a booking's two users.
  predicate ByParty(t: Turn, id: BookingId, b: BookingRow) {
    t.Serve? && t.id == id && (t.user == b.consumerUser || t.user == b.supplierUser)
  }

  lemma ServeOwns(s: System, t: Turn, id: BookingId)
    requires t.Serve? && id in s.bookings && !ByParty(t, id, s.bookings[id])
    ensures id in Served(s, t).bookings && Served(s, t).bookings[id] == s.bookings[id]
  {
    if t.h !in s.handlers && t.h !in s.txs {
      TransitionOutcome(s, t.h, t.user, t.id, t.to, t.rate, t.rpcUp);
    }
  }

  // Over every sequence of requests, a booking's row only changes in a turn served for its consumer or its supplier:
  // without one it is what it was, and the first change is such a turn's.
  lemma {:induction false} OnlyPartiesMoveRows(s: System, turns: seq<Turn>, id: BookingId)
    requires id in s.bookings && forall t | t in turns :: Legal(t)
    requires forall t | t in turns :: !ByParty(t, id, s.bookings[id])
    ensures id in ServeAll(s, turns).bookings && ServeAll(s, turns).bookings[id] == s.bookings[id]
    decreases |turns|
  {
    if turns != [] {
      match turns[0] {
        case Serve(_, _, _, _, _, _) => ServeOwns(s, turns[0], id);
        case Other(action) => assert Legal(turns[0]);
      }
      OnlyPartiesMoveRows(Served(s, turns[0]), turns[1..], id);
    }
  }

  // Two steps of a handler that is past its lock commit its status, whatever others did to the row.
  lemma TwoStepsCommit(s: System, h: TxId, rpcUp: bool)
    requires Known(s, h) && s.handlers[h].phase.Assigning?
    ensures var s' := Alone(s, h, rpcUp, 2);
            var me := s.handlers[h];
            && s'.bookings == s.bookings[me.bookingId := Updated(s.bookings[me.bookingId], me.to, s.clock)]
            && s'.clock == s.clock && s'.handlers == s.handlers[h := me.(phase := Refreshing)]
  {
    var stamping := To(s, h, Committing(s.clock));
    OneStep(s, h, rpcUp, stamping);
    OneStep(stamping, h, rpcUp, CommitStatus(stamping, h, s.clock));
    AloneSplit(s, h, rpcUp, 1, 1);
  }

  // Served together they need not: two requests that both passed the check before either committed take a booking
  // from completed to cancelled.
  lemma OverlapUndoesFinality(s: System, id: BookingId, h: TxId, k: TxId)
    requires id in s.bookings && s.bookings[id].status.Active?
    requires h !in s.handlers && h !in s.txs && k !in s.handlers && k !in s.txs && h != k
    ensures var both := After(After(s, Request(h, id, Completed, 0)), Request(k, id, BookingStatus.Cancelled, 0));
            var first := Alone(both, h, true, 2);
            var second := Alone(first, k, true, 2);
            && id in first.bookings && first.bookings[id].status.Completed?
            && id in second.bookings && second.bookings[id].status.Cancelled?
  {
    var asked := After(s, Request(h, id, Completed, 0));
    assert asked == Requested(s, h, id, Completed, 0);
    var both := After(asked, Request(k, id, BookingStatus.Cancelled, 0));
    assert both == Requested(asked, k, id, BookingStatus.Cancelled, 0);
    TwoStepsCommit(both, h, true);
    TwoStepsCommit(Alone(both, h, true, 2), k, true);
  }
}
