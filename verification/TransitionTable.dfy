// When overlapping handlers keep the transition table: exactly as long as none commits onto a row that no longer
// admits its target, which takes another handler's commit on the same booking in between.
module TransitionTable {
  import opened Wrappers
  import opened Escrow
  import opened Ledger
  import opened Settlement

  // ------------------------------------------------------------ the exact condition

  // The row already has this status with this very stamp, so that committing them again changes nothing.
  predicate Restates(b: BookingRow, to: BookingStatus, now: int) {
    && b.status == to
    && (to.Active? ==> b.startedAt == Some(now))
    && (Terminal(to) ==> b.endedAt == Some(now))
  }

  // A handler is about to commit a status that the row, as it is by now, does not admit.
  predicate Stale(s: System, a: Action) {
    && a.Advance? && Known(s, a.h) && s.handlers[a.h].phase.Committing?
    && var me := s.handlers[a.h];
    && !ValidTransition(s.bookings[me.bookingId].status, me.to)
    && !Restates(s.bookings[me.bookingId], me.to, me.phase.now)
  }

  predicate StaleAlong(s: System, actions: seq<Action>)
    decreases |actions|
  {
    actions != [] && (Stale(s, actions[0]) || StaleAlong(After(s, actions[0]), actions[1..]))
  }

  // Each row stays exactly as it is or makes one move of the table.
  predicate FollowsTable(s: System, s': System) {
    forall id | id in s.bookings :: id in s'.bookings && Moves(s.bookings[id], s'.bookings[id])
  }

  predicate Moves(b: BookingRow, b': BookingRow) {
    b' == b || ValidTransition(b.status, b'.status)
  }

  predicate KeepsTable(s: System, actions: seq<Action>)
    decreases |actions|
  {
    actions != [] ==>
      FollowsTable(s, After(s, actions[0])) && KeepsTable(After(s, actions[0]), actions[1..])
  }

  // Only a status commit changes a row.
  lemma OthersLeaveRows(s: System, a: Action)
    requires !(a.Advance? && Known(s, a.h) && s.handlers[a.h].phase.Committing?)
    ensures forall id | id in s.bookings :: id in After(s, a).bookings && After(s, a).bookings[id] == s.bookings[id]
  {
  }

  lemma CommitWrites(s: System, h: TxId, rpcUp: bool)
    requires Known(s, h) && s.handlers[h].phase.Committing?
    ensures var me := s.handlers[h];
            After(s, Advance(h, rpcUp)).bookings
            == s.bookings[me.bookingId := Updated(s.bookings[me.bookingId], me.to, me.phase.now)]
  {
  }

  lemma FollowsTableIff(s: System, a: Action)
    ensures FollowsTable(s, After(s, a)) <==> !Stale(s, a)
  {
    if a.Advance? && Known(s, a.h) && s.handlers[a.h].phase.Committing? {
      CommitWrites(s, a.h, a.rpcUp);
      var me := s.handlers[a.h];
      var b := s.bookings[me.bookingId];
      assert FollowsTable(s, After(s, a)) <==> Moves(b, Updated(b, me.to, me.phase.now));
    } else {
      OthersLeaveRows(s, a);
    }
  }

  // Over every interleaving from every state, bookings move along the table at every step if and only if no commit
  // along the way is stale.
  lemma {:induction false} KeepsTableIff(s: System, actions: seq<Action>)
    ensures KeepsTable(s, actions) <==> !StaleAlong(s, actions)
    decreases |actions|
  {
    if actions != [] {
      FollowsTableIff(s, actions[0]);
      KeepsTableIff(After(s, actions[0]), actions[1..]);
    }
  }

  // ------------------------------------------------------------ where stale commits come from

  // The handler has not committed its status yet.
  predicate Undecided(p: Phase) {
    p.Locking? || p.RecordingOpen? || p.Assigning? || p.Committing?
  }

  // Until it commits, the row still has the status it checked.
  predicate Current(s: System, h: TxId, me: Handler) {
    && Known(s, h) && s.handlers[h] == me.(phase := s.handlers[h].phase)
    && (Undecided(s.handlers[h].phase) ==> s.bookings[me.bookingId].status == me.prev)
  }

  // Another handler commits a status on the booking.
  predicate Intrudes(s: System, a: Action, id: BookingId, h: TxId) {
    a.Advance? && a.h != h && Known(s, a.h) && s.handlers[a.h].bookingId == id && s.handlers[a.h].phase.Committing?
  }

  predicate IntrudesAlong(s: System, actions: seq<Action>, id: BookingId, h: TxId)
    decreases |actions|
  {
    actions != [] && (Intrudes(s, actions[0], id, h) || IntrudesAlong(After(s, actions[0]), actions[1..], id, h))
  }

  // A handler's step moves its own phase only, and never back before its commit.
  predicate OwnStep(s: System, h: TxId, s': System)
    requires h in s.handlers
  {
    && h in s'.handlers && s'.bookings.Keys == s.bookings.Keys
    && s'.handlers == s.handlers[h := s.handlers[h].(phase := s'.handlers[h].phase)]
    && (Undecided(s'.handlers[h].phase) ==> Undecided(s.handlers[h].phase) && !s.handlers[h].phase.Committing?)
  }

  lemma LockIsOwnStep(s: System, h: TxId, answer: Option<ChainResult>)
    requires Known(s, h) && s.handlers[h].phase.Locking?
    ensures OwnStep(s, h, Lock(s, h, answer))
  {
  }

  lemma ReleaseIsOwnStep(s: System, h: TxId, usage: nat, answer: Option<ChainResult>)
    requires Known(s, h)
    ensures OwnStep(s, h, Release(s, h, usage, answer))
  {
  }

  lemma AdvanceIsOwnStep(s: System, h: TxId, rpcUp: bool)
    requires Advanced(s, h, rpcUp).Some?
    ensures OwnStep(s, h, Advanced(s, h, rpcUp).value)
  {
    var me := s.handlers[h];
    match me.phase
    case Locking =>
      LockIsOwnStep(s, h, SendOpen(s.settings, s.chain, me.bookingId, s.bookings[me.bookingId], me.rate, rpcUp));
    case Closing(usage) =>
      ReleaseIsOwnStep(s, h, usage, SendClose(s.settings, s.chain, me.bookingId, usage, me.to.Cancelled?, rpcUp));
    case RecordingOpen(_) => assert OwnStep(s, h, CommitRow(s, h));
    case Assigning => assert OwnStep(s, h, To(s, h, Committing(s.clock)));
    case Committing(now) => assert OwnStep(s, h, CommitStatus(s, h, now));
    case Refreshing => assert OwnStep(s, h, Refresh(s, h));
    case RecordingClose(_) => assert OwnStep(s, h, CommitRow(s, h));
    case Publishing => assert OwnStep(s, h, Publish(s, h));
    case Finished(_) =>
  }

  // What a step does to a handler: its own advances it, any other leaves it alone.
  lemma HandlerAfter(s: System, a: Action, h: TxId)
    requires Known(s, h)
    ensures var s' := After(s, a);
            && Known(s', h) && s'.handlers[h] == s.handlers[h].(phase := s'.handlers[h].phase)
            && (Undecided(s'.handlers[h].phase) ==> Undecided(s.handlers[h].phase))
            && (a.Advance? && a.h == h && s.handlers[h].phase.Committing? ==> !Undecided(s'.handlers[h].phase))
  {
    if a.Advance? {
      if Advanced(s, a.h, a.rpcUp).Some? {
        AdvanceIsOwnStep(s, a.h, a.rpcUp);
      }
    }
  }

  lemma StaysCurrent(s: System, a: Action, h: TxId, me: Handler)
    requires Current(s, h, me) && !Intrudes(s, a, me.bookingId, h)
    ensures Current(After(s, a), h, me)
  {
    HandlerAfter(s, a, h);
    if a.Advance? && Known(s, a.h) && s.handlers[a.h].phase.Committing? {
      CommitWrites(s, a.h, a.rpcUp);
    } else {
      OthersLeaveRows(s, a);
    }
  }

  lemma {:induction false} CurrentUntilIntrusion(s: System, actions: seq<Action>, h: TxId, me: Handler)
    requires Current(s, h, me) && !IntrudesAlong(s, actions, me.bookingId, h)
    ensures Current(Execute(s, actions), h, me)
    decreases |actions|
  {
    if actions != [] {
      StaysCurrent(s, actions[0], h, me);
      CurrentUntilIntrusion(After(s, actions[0]), actions[1..], h, me);
    }
  }

  // A commit is stale only if another handler committed on the same booking after the request was checked; requests
  // for other bookings never matter.
  lemma StaleNeedsIntrusion(s: System, h: TxId, id: BookingId, to: BookingStatus, rate: nat, actions: seq<Action>,
                            rpcUp: bool)
    requires Accept(s, h, id, to, rate).Some?
    requires Stale(Execute(After(s, Request(h, id, to, rate)), actions), Advance(h, rpcUp))
    ensures IntrudesAlong(After(s, Request(h, id, to, rate)), actions, id, h)
  {
    var asked := After(s, Request(h, id, to, rate));
    assert asked == Accept(s, h, id, to, rate).value;
    var me := asked.handlers[h];
    if !IntrudesAlong(asked, actions, id, h) {
      CurrentUntilIntrusion(asked, actions, h, me);
    }
  }

  // Every handler came from an accepted request.
  lemma {:induction false} RequestOf(s: System, actions: seq<Action>, h: TxId) returns (j: nat)
    requires h !in s.handlers && h in Execute(s, actions).handlers
    ensures j < |actions| && actions[j].Request? && actions[j].h == h
    ensures var r := actions[j]; Accept(Execute(s, actions[..j]), h, r.id, r.to, r.rate).Some?
    ensures Execute(s, actions) == Execute(After(Execute(s, actions[..j]), actions[j]), actions[j + 1..])
    decreases |actions|
  {
    var s1 := After(s, actions[0]);
    if h in s1.handlers {
      j := 0;
      NewHandler(s, actions[0], h);
      assert actions[..0] == [] && Execute(s, []) == s;
    } else {
      var i := RequestOf(s1, actions[1..], h);
      j := i + 1;
      assert actions[1..][..i] == actions[..j][1..] && actions[1..][i + 1..] == actions[j + 1..];
      assert actions[..j][0] == actions[0];
      assert Execute(s, actions[..j]) == Execute(s1, actions[1..][..i]);
    }
  }

  lemma NewHandler(s: System, a: Action, h: TxId)
    requires h !in s.handlers && h in After(s, a).handlers
    ensures a.Request? && a.h == h && Accept(s, h, a.id, a.to, a.rate).Some?
  {
    if a.Advance? {
      if Advanced(s, a.h, a.rpcUp).Some? {
        AdvanceIsOwnStep(s, a.h, a.rpcUp);
      }
    }
  }

  // So in every run from a state without the handler, a stale commit points back to the handler's own request and
  // to a commit by another handler on the same booking since then.
  lemma StaleMeansOverlap(s: System, actions: seq<Action>, h: TxId, rpcUp: bool) returns (j: nat)
    requires h !in s.handlers && Stale(Execute(s, actions), Advance(h, rpcUp))
    ensures j < |actions| && actions[j].Request? && actions[j].h == h
    ensures IntrudesAlong(After(Execute(s, actions[..j]), actions[j]), actions[j + 1..], actions[j].id, h)
  {
    j := RequestOf(s, actions, h);
    var r := actions[j];
    StaleNeedsIntrusion(Execute(s, actions[..j]), h, r.id, r.to, r.rate, actions[j + 1..], rpcUp);
  }
}
