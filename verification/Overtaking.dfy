// An activation that overtakes a cancellation of the same pending booking: stranded bookings do occur.
module Overtaking {
  import opened Wrappers
  import opened Escrow
  import opened EscrowTheorems
  import opened EscrowExit
  import opened Ledger
  import opened Settlement
  import opened SettlementInvariant
  import opened TransitionTable
  import opened Stranding
  import opened BookingService

  // Both requests are checked while the booking is pending.
  function BothAsked(s: System, id: BookingId, h: TxId, k: TxId, rate: nat): System
    requires id in s.bookings
  {
    Requested(Requested(s, k, id, BookingStatus.Cancelled, 0), h, id, BookingStatus.Active, rate)
  }

  // Then the activation h runs to its end, and only then the cancellation k.
  function Overtaken(s: System, id: BookingId, h: TxId, k: TxId, rate: nat): System
    requires id in s.bookings
  {
    var a := Advance(k, true);
    Execute(After(Alone(BothAsked(s, id, h, k, rate), h, true, LONGEST_PATH), a), [a, a, a])
  }

  // Nobody works on a pending booking that settles on chain, and the chain would take its lock.
  predicate Lockable(s: System, id: BookingId, rate: nat) {
    && id in s.bookings && s.bookings[id].status.Pending? && Applicable(s.settings, s.bookings[id]) && Idle(s, id)
    && SendOpen(s.settings, s.chain, id, s.bookings[id], rate, true).Some?
  }

  predicate Unused(s: System, h: TxId) {
    h !in s.handlers && h !in s.txs
  }

  lemma BothAccepted(s: System, id: BookingId, h: TxId, k: TxId, rate: nat)
    requires Happens(s) && id in s.bookings && s.bookings[id].status.Pending? && Unused(s, h) && Unused(s, k) && h != k
    ensures Happens(BothAsked(s, id, h, k, rate))
  {
    var first := Requested(s, k, id, BookingStatus.Cancelled, 0);
    HappensNext(s, Request(k, id, BookingStatus.Cancelled, 0));
    assert After(s, Request(k, id, BookingStatus.Cancelled, 0)) == first;
    HappensNext(first, Request(h, id, BookingStatus.Active, rate));
    assert After(first, Request(h, id, BookingStatus.Active, rate)) == BothAsked(s, id, h, k, rate);
  }

  // A handler run alone leaves the others where they are.
  lemma {:induction false} AloneKeepsOthers(s: System, h: TxId, rpcUp: bool, n: nat)
    requires h in s.handlers
    ensures h in Alone(s, h, rpcUp, n).handlers && Alone(s, h, rpcUp, n).handlers - {h} == s.handlers - {h}
    decreases n
  {
    if n > 0 {
      if Advanced(s, h, rpcUp).Some? {
        AdvanceIsOwnStep(s, h, rpcUp);
      }
      AloneKeepsOthers(After(s, Advance(h, rpcUp)), h, rpcUp, n - 1);
    }
  }

  // The lock is placed and confirmed.
  lemma LockIsPlaced(s: System, h: TxId)
    requires Happens(s) && Known(s, h) && s.handlers[h].phase.Locking? && s.handlers[h].to.Active?
    requires Lockable(s.(handlers := map[]), s.handlers[h].bookingId, s.handlers[h].rate)
    ensures var locked := Activated(s, h, true);
            var id := s.handlers[h].bookingId;
            && Known(locked, h) && locked.handlers[h].phase.Assigning?
            && id in locked.chain.core.bookings && locked.chain.core.bookings[id].status.Open?
  {
    var me := s.handlers[h];
    HappensIsSound(s);
    ActivatedShape(s, h, true);
    OpenConfirmed(s, me.bookingId, s.bookings[me.bookingId], me.rate, true);
  }

  // The activation run alone from there.
  lemma ActivationEnds(s: System, h: TxId)
    requires Happens(s) && Known(s, h) && s.handlers[h].phase.Locking? && s.handlers[h].to.Active?
    requires Lockable(s.(handlers := map[]), s.handlers[h].bookingId, s.handlers[h].rate)
    ensures var s' := Alone(s, h, true, LONGEST_PATH);
            var id := s.handlers[h].bookingId;
            && Known(s', h) && s'.handlers[h].phase == Finished(true)
            && id in s'.bookings && s'.bookings[id].status.Active?
            && id in s'.chain.core.bookings && s'.chain.core.bookings[id].status.Open?
            && s'.published
               == s.published + {(s.bookings[id].workerId, BookingActivated(id, s.bookings[id].offeringId))}
  {
    var locked := Activated(s, h, true);
    LockIsPlaced(s, h);
    ActivatedShape(s, h, true);
    ActivationIsAlone(s, h, true);
    ConcludedShape(locked, h, true);
    ConclusionFinishes(locked, h, true);
  }

  lemma AskedShape(s: System, id: BookingId, h: TxId, k: TxId, rate: nat)
    requires Lockable(s, id, rate) && h != k
    ensures var asked := BothAsked(s, id, h, k, rate);
            && asked == s.(handlers := asked.handlers) && asked.handlers - {h, k} == s.handlers - {h, k}
            && h in asked.handlers && asked.handlers[h] == Handler(id, BookingStatus.Active, Pending, rate, Locking)
            && k in asked.handlers
            && asked.handlers[k] == Handler(id, BookingStatus.Cancelled, Pending, 0, Assigning)
  {
  }

  lemma OthersIdle(s: System, asked: System, active: System, id: BookingId, h: TxId, k: TxId)
    requires Idle(s, id) && asked.handlers - {h, k} == s.handlers - {h, k}
    requires active.handlers - {h} == asked.handlers - {h}
    requires h in active.handlers && active.handlers[h].phase.Finished?
    ensures forall j | j in active.handlers && j != k && active.handlers[j].bookingId == id ::
              active.handlers[j].phase.Finished?
  {
    forall j | j in active.handlers && j != k && active.handlers[j].bookingId == id
      ensures active.handlers[j].phase.Finished?
    {
      if j != h {
        assert j in active.handlers - {h} && (active.handlers - {h})[j] == active.handlers[j];
        assert j in asked.handlers - {h, k} && (asked.handlers - {h})[j] == asked.handlers[j];
        assert (asked.handlers - {h, k})[j] == asked.handlers[j] && (s.handlers - {h, k})[j] == s.handlers[j];
      }
    }
  }

  // Once the activation has run, everything is as the late cancellation needs it.
  lemma OvertakenIsActive(s: System, id: BookingId, h: TxId, k: TxId, rate: nat)
    requires Happens(s) && Lockable(s, id, rate) && Unused(s, h) && Unused(s, k) && h != k
    ensures var active := Alone(BothAsked(s, id, h, k, rate), h, true, LONGEST_PATH);
            && Happens(active)
            && k in active.handlers
            && active.handlers[k] == Handler(id, BookingStatus.Cancelled, Pending, 0, Assigning)
            && id in active.bookings && active.bookings[id].status.Active?
            && id in active.chain.core.bookings && active.chain.core.bookings[id].status.Open?
            && (forall j | j in active.handlers && j != k && active.handlers[j].bookingId == id ::
                  active.handlers[j].phase.Finished?)
            && active.published
               == s.published + {(s.bookings[id].workerId, BookingActivated(id, s.bookings[id].offeringId))}
  {
    var asked := BothAsked(s, id, h, k, rate);
    var active := Alone(asked, h, true, LONGEST_PATH);
    AskedShape(s, id, h, k, rate);
    BothAccepted(s, id, h, k, rate);
    ActivationEnds(asked, h);
    AloneHappens(asked, h, true, LONGEST_PATH);
    AloneKeepsOthers(asked, h, true, LONGEST_PATH);
    KeptHandler(asked.handlers, active.handlers, h, k);
    OthersIdle(s, asked, active, id, h, k);
  }

  lemma KeptHandler(m: map<TxId, Handler>, m': map<TxId, Handler>, h: TxId, k: TxId)
    requires m' - {h} == m - {h} && k in m && k != h
    ensures k in m' && m'[k] == m[k]
  {
    assert k in m - {h} && (m - {h})[k] == m[k] && (m' - {h})[k] == m'[k];
  }

  // From every state in which a pending booking could be locked, this order of steps strands it.
  lemma OvertakingStrands(s: System, id: BookingId, h: TxId, k: TxId, rate: nat)
    requires Happens(s) && Lockable(s, id, rate) && Unused(s, h) && Unused(s, k) && h != k
    ensures var s' := Overtaken(s, id, h, k, rate);
            && Happens(s') && Stranded(s', id)
            && s'.published
               == s.published + {(s.bookings[id].workerId, BookingActivated(id, s.bookings[id].offeringId))}
  {
    var active := Alone(BothAsked(s, id, h, k, rate), h, true, LONGEST_PATH);
    OvertakenIsActive(s, id, h, k, rate);
    LateCancelStrands(active, k, id, 0, true);
    FourMore(active, Advance(k, true));
  }

  lemma FourMore(s: System, a: Action)
    requires Happens(s)
    ensures Happens(Execute(After(s, a), [a, a, a]))
  {
    var s1, s2, s3 := After(s, a), After(After(s, a), a), After(After(After(s, a), a), a);
    HappensNext(s, a);
    HappensNext(s1, a);
    HappensNext(s2, a);
    HappensNext(s3, a);
    assert [a, a, a][1..] == [a, a] && [a, a][1..] == [a] && [a][1..] == [];
    assert Execute(s3, [a]) == Execute(After(s3, a), []);
    assert Execute(s2, [a, a]) == Execute(s3, [a]);
    assert Execute(s1, [a, a, a]) == Execute(s2, [a, a]);
  }

  // ------------------------------------------------------------ a run from deployment

  // The example deployment with a backend that settles on it, and a booking of the depositor.
  lemma ExampleBooking() returns (s: System)
    ensures Happens(s) && Lockable(s, "b", 0) && Unused(s, 1) && Unused(s, 2)
    ensures s.published == {} && s.bookings["b"].workerId == "w"
  {
    var w := ExampleGenesis();
    var s0 := System(Settings(true, true, Some(6), 24), w, 0, map[], map[], map[], {}, map[], map[]);
    var create := Create("b", "consumer", "supplier", Some(3), Some(4), "w", "o", true, true);
    s := After(s0, create);
    assert Genesis(EXAMPLE, s0.chain) && Start(s0);
    assert s == Execute(After(s0, create), []) == Execute(s0, [create]) by {
      assert [create][1..] == [];
    }
    OpenSucceedsIff(w, 6, "b", 3, 4, 0, 86_400);
    assert SendOpen(s.settings, s.chain, "b", s.bookings["b"], 0, true).Some?;
  }

  // So there are runs that end with a stranded booking whose worker was told to start and never to stop.
  lemma StrandingHappens() returns (s: System)
    ensures Happens(s) && Stranded(s, "b")
    ensures exists offering :: s.published == {("w", BookingActivated("b", offering))}
  {
    var s0 := ExampleBooking();
    OvertakingStrands(s0, "b", 2, 1, 0);
    s := Overtaken(s0, "b", 2, 1, 0);
    assert s.published == {("w", BookingActivated("b", s0.bookings["b"].offeringId))};
  }
}
