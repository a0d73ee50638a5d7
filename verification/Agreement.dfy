// When the machines agree with the booking table: for a worker that is handed every message published to it, in order,
// and whose surroundings answer well, exactly as long as no step parts the last word on a booking from its status.
module Agreement {
  import opened Wrappers
  import opened Escrow
  import opened EscrowExit
  import opened Ledger
  import opened Settlement
  import opened SettlementInvariant
  import opened TransitionTable
  import opened Stranding
  import EndToEnd
  import Worker

  type Sent = seq<(WorkerId, Message)>

  // ------------------------------------------------------------ what is published, in order

  // The message a step publishes, if any.
  function New(s: System, a: Action): Sent {
    if !a.Advance? || !Known(s, a.h) || !s.handlers[a.h].phase.Publishing? then []
    else
      var me := s.handlers[a.h];
      var b := s.bookings[me.bookingId];
      if me.to.Active? then [(b.workerId, BookingActivated(me.bookingId, b.offeringId))]
      else if ClosesActive(me) then [(b.workerId, BookingCancelled(me.bookingId))]
      else []
  }

  function AllSent(s: System, actions: seq<Action>): Sent
    decreases |actions|
  {
    if actions == [] then [] else New(s, actions[0]) + AllSent(After(s, actions[0]), actions[1..])
  }

  // Whether the last word to a worker about a booking is to run it.
  predicate Told(sent: Sent, w: WorkerId, id: BookingId) {
    if sent == [] then false
    else
      var last := sent[|sent| - 1];
      if last.0 == w && last.1.bookingId == id then last.1.BookingActivated?
      else Told(sent[..|sent| - 1], w, id)
  }

  lemma ToldAfter(sent: Sent, l: (WorkerId, Message), w: WorkerId, id: BookingId)
    ensures Told(sent + [l], w, id)
            == if l.0 == w && l.1.bookingId == id then l.1.BookingActivated? else Told(sent, w, id)
  {
    assert (sent + [l])[..|sent|] == sent;
  }

  lemma {:induction false} SentIsPublished(s: System, actions: seq<Action>, l: (WorkerId, Message))
    ensures l in Execute(s, actions).published <==> l in s.published || l in AllSent(s, actions)
    decreases |actions|
  {
    if actions != [] {
      var s1 := After(s, actions[0]);
      NewIsPublished(s, actions[0]);
      SentIsPublished(s1, actions[1..], l);
      assert l in s1.published <==> l in s.published || l in New(s, actions[0]);
    }
  }

  lemma NewIsPublished(s: System, a: Action)
    ensures After(s, a).published == s.published + set l | l in New(s, a)
  {
    if a.Advance? && Advanced(s, a.h, a.rpcUp).Some? {
      AdvancePublishes(s, a.h, a.rpcUp);
    }
  }

  lemma AdvancePublishes(s: System, h: TxId, rpcUp: bool)
    requires Advanced(s, h, rpcUp).Some?
    ensures Advanced(s, h, rpcUp).value.published == s.published + set l | l in New(s, Advance(h, rpcUp))
  {
    if s.handlers[h].phase.Publishing? {
      var me := s.handlers[h];
      assert Announcement(me, s.bookings[me.bookingId]) == set l | l in New(s, Advance(h, rpcUp));
    }
  }

  // ------------------------------------------------------------ one booking at a glance

  // An activation that has committed its status and not yet told the worker.
  predicate Opens(me: Handler, id: BookingId) {
    me.bookingId == id && me.to.Active? && (me.phase.Refreshing? || me.phase.Publishing?)
  }

  // A close of the active booking that has not told the worker yet.
  predicate Ends(me: Handler, id: BookingId) {
    me.bookingId == id && ClosesActive(me) && !me.phase.Finished?
  }

  function Openers(handlers: map<TxId, Handler>, id: BookingId): set<TxId> {
    set h | h in handlers && Opens(handlers[h], id)
  }

  function Enders(handlers: map<TxId, Handler>, id: BookingId): set<TxId> {
    set h | h in handlers && Ends(handlers[h], id)
  }

  datatype View = View(status: Option<BookingStatus>, told: bool, openers: set<TxId>, enders: set<TxId>)

  function ViewOf(s: System, sent: Sent, id: BookingId): View {
    var openers, enders := Openers(s.handlers, id), Enders(s.handlers, id);
    if id in s.bookings then View(Some(s.bookings[id].status), Told(sent, s.bookings[id].workerId, id), openers, enders)
    else View(None, false, openers, enders)
  }

  predicate Consistent(v: View) {
    match v.status
    case None => v.openers == {} && v.enders == {}
    case Some(Pending) => !v.told && v.openers == {}
    case Some(Active) => v.told || v.openers != {}
    case Some(_) => true
  }

  // The booking is closed, its worker is or will be told to run it, and nobody is left to tell otherwise.
  predicate Parted(v: View) {
    v.status.Some? && Terminal(v.status.value) && (v.told || v.openers != {}) && v.enders == {}
  }

  // The step that parts them: a silent cancellation, or the last close telling the worker while an activation has yet
  // to. Both with no other close on its way.
  predicate Parts(s: System, a: Action, id: BookingId) {
    && a.Advance? && Known(s, a.h) && s.handlers[a.h].bookingId == id
    && var me := s.handlers[a.h];
    || (Silent(s, a) && Enders(s.handlers, id) == {})
    || (me.phase.Publishing? && ClosesActive(me) && Enders(s.handlers, id) == {a.h} && Openers(s.handlers, id) != {})
  }

  predicate PartsAlong(s: System, actions: seq<Action>, id: BookingId)
    decreases |actions|
  {
    actions != [] && (Parts(s, actions[0], id) || PartsAlong(After(s, actions[0]), actions[1..], id))
  }

  predicate StaleOn(s: System, a: Action, id: BookingId) {
    Stale(s, a) && s.handlers[a.h].bookingId == id
  }

  predicate StaleOnAlong(s: System, actions: seq<Action>, id: BookingId)
    decreases |actions|
  {
    actions != [] && (StaleOn(s, actions[0], id) || StaleOnAlong(After(s, actions[0]), actions[1..], id))
  }

  // ------------------------------------------------------------ what each step does to the view

  lemma OpenersAfter(handlers: map<TxId, Handler>, h: TxId, me: Handler, id: BookingId)
    ensures Openers(handlers[h := me], id) == Openers(handlers, id) - {h} + if Opens(me, id) then {h} else {}
    ensures Enders(handlers[h := me], id) == Enders(handlers, id) - {h} + if Ends(me, id) then {h} else {}
  {
  }

  // Steps that neither commit a status nor tell the worker.
  predicate SameStage(me: Handler, me': Handler) {
    && Opens(me', me.bookingId) == Opens(me, me.bookingId)
    && Ends(me', me.bookingId) == Ends(me, me.bookingId)
    && (ClosesActive(me) ==> Undecided(me'.phase) == Undecided(me.phase))
  }

  lemma NeutralStage(s: System, h: TxId, rpcUp: bool)
    requires Advanced(s, h, rpcUp).Some? && !s.handlers[h].phase.Committing? && !s.handlers[h].phase.Publishing?
    requires HandlerSound(s.settings, s.bookings, s.txs, s.openedBy, h, s.handlers[h])
    ensures SameStage(s.handlers[h], Advanced(s, h, rpcUp).value.handlers[h])
  {
    var me := s.handlers[h];
    match me.phase
    case Locking =>
      LockStage(s, h, SendOpen(s.settings, s.chain, me.bookingId, s.bookings[me.bookingId], me.rate, rpcUp));
    case Closing(usage) =>
      ReleaseStage(s, h, usage, SendClose(s.settings, s.chain, me.bookingId, usage, me.to.Cancelled?, rpcUp));
    case RecordingOpen(_) => assert SameStage(me, CommitRow(s, h).handlers[h]);
    case Assigning => assert SameStage(me, To(s, h, Committing(s.clock)).handlers[h]);
    case Refreshing => assert SameStage(me, Refresh(s, h).handlers[h]);
    case RecordingClose(_) => assert SameStage(me, CommitRow(s, h).handlers[h]);
    case Finished(_) =>
  }

  lemma LockStage(s: System, h: TxId, answer: Option<ChainResult>)
    requires Known(s, h) && s.handlers[h].phase.Locking? && s.handlers[h].to.Active?
    ensures SameStage(s.handlers[h], Lock(s, h, answer).handlers[h])
  {
  }

  lemma ReleaseStage(s: System, h: TxId, usage: nat, answer: Option<ChainResult>)
    requires Known(s, h) && s.handlers[h].phase.Closing?
    ensures SameStage(s.handlers[h], Release(s, h, usage, answer).handlers[h])
  {
  }

  // A step of a handler of another booking.
  lemma ViewElsewhere(s: System, sent: Sent, h: TxId, rpcUp: bool, id: BookingId)
    requires Advanced(s, h, rpcUp).Some? && s.handlers[h].bookingId != id
    ensures var a := Advance(h, rpcUp);
            ViewOf(After(s, a), sent + New(s, a), id) == ViewOf(s, sent, id)
  {
    var a := Advance(h, rpcUp);
    AdvanceIsOwnStep(s, h, rpcUp);
    OpenersAfter(s.handlers, h, After(s, a).handlers[h], id);
    RowElsewhere(s, a, id);
    NewElsewhere(s, sent, a, id);
  }

  lemma RowElsewhere(s: System, a: Action, id: BookingId)
    requires a.Advance? && Known(s, a.h)
    requires s.handlers[a.h].bookingId == id ==> !s.handlers[a.h].phase.Committing?
    ensures id in After(s, a).bookings <==> id in s.bookings
    ensures id in s.bookings ==> After(s, a).bookings[id] == s.bookings[id]
  {
    if s.handlers[a.h].phase.Committing? {
      CommitWrites(s, a.h, a.rpcUp);
    } else {
      OthersLeaveRows(s, a);
      if Advanced(s, a.h, a.rpcUp).Some? {
        AdvanceIsOwnStep(s, a.h, a.rpcUp);
      }
    }
  }

  lemma NewElsewhere(s: System, sent: Sent, a: Action, id: BookingId)
    requires a.Advance? && Known(s, a.h)
    requires s.handlers[a.h].bookingId == id ==> !s.handlers[a.h].phase.Publishing?
    ensures forall w :: Told(sent + New(s, a), w, id) == Told(sent, w, id)
  {
    forall w ensures Told(sent + New(s, a), w, id) == Told(sent, w, id) {
      if New(s, a) == [] {
        assert sent + New(s, a) == sent;
      } else {
        ToldAfter(sent, New(s, a)[0], w, id);
      }
    }
  }

  lemma ViewNeutral(s: System, sent: Sent, h: TxId, rpcUp: bool)
    requires Advanced(s, h, rpcUp).Some? && !s.handlers[h].phase.Committing? && !s.handlers[h].phase.Publishing?
    requires HandlerSound(s.settings, s.bookings, s.txs, s.openedBy, h, s.handlers[h])
    ensures var a, id := Advance(h, rpcUp), s.handlers[h].bookingId;
            ViewOf(After(s, a), sent + New(s, a), id) == ViewOf(s, sent, id)
  {
    var a, id := Advance(h, rpcUp), s.handlers[h].bookingId;
    AdvanceIsOwnStep(s, h, rpcUp);
    NeutralStage(s, h, rpcUp);
    OpenersAfter(s.handlers, h, After(s, a).handlers[h], id);
    RowElsewhere(s, a, id);
    NewElsewhere(s, sent, a, id);
  }

  lemma ViewCommit(s: System, sent: Sent, h: TxId, rpcUp: bool)
    requires Known(s, h) && s.handlers[h].phase.Committing?
    ensures var a, me := Advance(h, rpcUp), s.handlers[h];
            var v := ViewOf(s, sent, me.bookingId);
            && New(s, a) == [] && After(s, a).handlers == s.handlers[h := me.(phase := Refreshing)]
            && ViewOf(After(s, a), sent + New(s, a), me.bookingId)
               == v.(status := Some(me.to), openers := v.openers + if me.to.Active? then {h} else {})
  {
    var a, me := Advance(h, rpcUp), s.handlers[h];
    assert After(s, a) == CommitStatus(s, h, me.phase.now);
    assert sent + New(s, a) == sent;
    OpenersAfter(s.handlers, h, me.(phase := Refreshing), me.bookingId);
  }

  lemma ViewPublish(s: System, sent: Sent, h: TxId, rpcUp: bool)
    requires Known(s, h) && s.handlers[h].phase.Publishing?
    ensures var a, me := Advance(h, rpcUp), s.handlers[h];
            var v := ViewOf(s, sent, me.bookingId);
            && After(s, a).handlers == s.handlers[h := me.(phase := Finished(true))]
            && After(s, a).bookings == s.bookings
            && ViewOf(After(s, a), sent + New(s, a), me.bookingId)
               == v.(told := if me.to.Active? then true else if ClosesActive(me) then false else v.told,
                     openers := v.openers - {h}, enders := v.enders - {h})
  {
    var a, me := Advance(h, rpcUp), s.handlers[h];
    assert After(s, a) == Publish(s, h);
    OpenersAfter(s.handlers, h, me.(phase := Finished(true)), me.bookingId);
    if New(s, a) == [] {
      assert sent + New(s, a) == sent;
    } else {
      ToldAfter(sent, New(s, a)[0], s.bookings[me.bookingId].workerId, me.bookingId);
    }
  }

  // ------------------------------------------------------------ the invariant

  // A close of the active booking that has committed found its row closed for good.
  predicate ClosersDone(s: System, id: BookingId) {
    forall h | h in s.handlers && Closer(s, h, id) && !Undecided(s.handlers[h].phase) ::
      id in s.bookings && Terminal(s.bookings[id].status)
  }

  ghost predicate InStep(s: System, sent: Sent, id: BookingId) {
    && Consistent(ViewOf(s, sent, id))
    && ClosersDone(s, id)
    && (id !in s.bookings ==> forall w :: !Told(sent, w, id))
  }

  // A step keeps the invariant and parts the booking exactly when it is one of the two.
  ghost predicate PartsExactly(s: System, sent: Sent, a: Action, id: BookingId) {
    var s', sent' := After(s, a), sent + New(s, a);
    && InStep(s', sent', id)
    && (Parted(ViewOf(s', sent', id)) <==> Parted(ViewOf(s, sent, id)) || Parts(s, a, id))
  }

  lemma CommitParts(s: System, sent: Sent, h: TxId, rpcUp: bool)
    requires Known(s, h) && s.handlers[h].phase.Committing? && InStep(s, sent, s.handlers[h].bookingId)
    requires ValidTransition(s.handlers[h].prev, s.handlers[h].to)
    requires !StaleOn(s, Advance(h, rpcUp), s.handlers[h].bookingId)
    ensures PartsExactly(s, sent, Advance(h, rpcUp), s.handlers[h].bookingId)
  {
    var a, me := Advance(h, rpcUp), s.handlers[h];
    ViewCommit(s, sent, h, rpcUp);
    CommitWrites(s, h, rpcUp);
    assert ClosesActive(me) ==> h in Enders(s.handlers, me.bookingId);
    CommitClosersDone(s, h, rpcUp);
  }

  lemma CommitClosersDone(s: System, h: TxId, rpcUp: bool)
    requires Known(s, h) && s.handlers[h].phase.Committing? && ClosersDone(s, s.handlers[h].bookingId)
    requires !StaleOn(s, Advance(h, rpcUp), s.handlers[h].bookingId)
    ensures ClosersDone(After(s, Advance(h, rpcUp)), s.handlers[h].bookingId)
  {
    var me := s.handlers[h];
    var s' := CommitStatus(s, h, me.phase.now);
    assert After(s, Advance(h, rpcUp)) == s';
    forall k | k in s'.handlers && Closer(s', k, me.bookingId) && !Undecided(s'.handlers[k].phase)
      ensures Terminal(s'.bookings[me.bookingId].status)
    {
      assert k != h ==> Closer(s, k, me.bookingId);
    }
  }

  lemma PublishParts(s: System, sent: Sent, h: TxId, rpcUp: bool)
    requires Known(s, h) && s.handlers[h].phase.Publishing? && InStep(s, sent, s.handlers[h].bookingId)
    requires ValidTransition(s.handlers[h].prev, s.handlers[h].to)
    ensures PartsExactly(s, sent, Advance(h, rpcUp), s.handlers[h].bookingId)
  {
    var a, me := Advance(h, rpcUp), s.handlers[h];
    var s' := After(s, a);
    ViewPublish(s, sent, h, rpcUp);
    assert me.to.Active? ==> h in Openers(s.handlers, me.bookingId);
    if ClosesActive(me) {
      assert Closer(s, h, me.bookingId) && h in Enders(s.handlers, me.bookingId);
      OnlyEnder(Enders(s.handlers, me.bookingId), h);
    }
    forall k | k in s'.handlers && Closer(s', k, me.bookingId) && !Undecided(s'.handlers[k].phase)
      ensures Terminal(s'.bookings[me.bookingId].status)
    {
      assert Closer(s, k, me.bookingId);
    }
  }

  lemma OnlyEnder(enders: set<TxId>, h: TxId)
    requires h in enders
    ensures enders - {h} == {} <==> enders == {h}
  {
    assert enders == enders - {h} + {h};
  }

  lemma NeutralParts(s: System, sent: Sent, h: TxId, rpcUp: bool)
    requires Advanced(s, h, rpcUp).Some? && InStep(s, sent, s.handlers[h].bookingId)
    requires !s.handlers[h].phase.Committing? && !s.handlers[h].phase.Publishing?
    requires HandlerSound(s.settings, s.bookings, s.txs, s.openedBy, h, s.handlers[h])
    ensures PartsExactly(s, sent, Advance(h, rpcUp), s.handlers[h].bookingId)
  {
    var a, id := Advance(h, rpcUp), s.handlers[h].bookingId;
    var s' := After(s, a);
    ViewNeutral(s, sent, h, rpcUp);
    AdvanceIsOwnStep(s, h, rpcUp);
    NeutralStage(s, h, rpcUp);
    RowElsewhere(s, a, id);
    forall k | k in s'.handlers && Closer(s', k, id) && !Undecided(s'.handlers[k].phase)
      ensures id in s'.bookings && Terminal(s'.bookings[id].status)
    {
      assert Closer(s, k, id);
    }
  }

  lemma ElsewhereParts(s: System, sent: Sent, h: TxId, rpcUp: bool, id: BookingId)
    requires Advanced(s, h, rpcUp).Some? && InStep(s, sent, id) && s.handlers[h].bookingId != id
    ensures PartsExactly(s, sent, Advance(h, rpcUp), id)
  {
    var a := Advance(h, rpcUp);
    var s' := After(s, a);
    ViewElsewhere(s, sent, h, rpcUp, id);
    AdvanceIsOwnStep(s, h, rpcUp);
    RowElsewhere(s, a, id);
    NewElsewhere(s, sent, a, id);
    forall k | k in s'.handlers && Closer(s', k, id) && !Undecided(s'.handlers[k].phase)
      ensures id in s'.bookings && Terminal(s'.bookings[id].status)
    {
      assert Closer(s, k, id);
    }
  }

  lemma AdvanceParts(s: System, sent: Sent, h: TxId, rpcUp: bool, id: BookingId)
    requires SystemInv(s) && Advanced(s, h, rpcUp).Some? && InStep(s, sent, id) && !StaleOn(s, Advance(h, rpcUp), id)
    ensures PartsExactly(s, sent, Advance(h, rpcUp), id)
  {
    assert HandlerSound(s.settings, s.bookings, s.txs, s.openedBy, h, s.handlers[h]);
    if s.handlers[h].bookingId != id {
      ElsewhereParts(s, sent, h, rpcUp, id);
    } else if s.handlers[h].phase.Committing? {
      CommitParts(s, sent, h, rpcUp);
    } else if s.handlers[h].phase.Publishing? {
      PublishParts(s, sent, h, rpcUp);
    } else {
      NeutralParts(s, sent, h, rpcUp);
    }
  }

  // A new request may only add a close on its way, and only while the booking is active.
  lemma RequestParts(s: System, sent: Sent, h: TxId, booking: BookingId, to: BookingStatus, rate: nat, id: BookingId)
    requires InStep(s, sent, id) && Accept(s, h, booking, to, rate).Some?
    ensures PartsExactly(s, sent, Request(h, booking, to, rate), id)
  {
    var a := Request(h, booking, to, rate);
    var s' := Accept(s, h, booking, to, rate).value;
    assert After(s, a) == s' && sent + New(s, a) == sent;
    OpenersAfter(s.handlers, h, s'.handlers[h], id);
    forall k | k in s'.handlers && Closer(s', k, id) && !Undecided(s'.handlers[k].phase)
      ensures id in s'.bookings && Terminal(s'.bookings[id].status)
    {
      assert Closer(s, k, id);
    }
  }

  lemma CreateParts(s: System, sent: Sent, a: Action, id: BookingId)
    requires SystemInv(s) && InStep(s, sent, id) && a.Create? && Created(s, a).Some?
    ensures PartsExactly(s, sent, a, id)
  {
    var s' := Created(s, a).value;
    assert After(s, a) == s' && sent + New(s, a) == sent;
    forall k | k in s.handlers ensures s.handlers[k].bookingId in s.bookings {
      assert HandlerSound(s.settings, s.bookings, s.txs, s.openedBy, k, s.handlers[k]);
    }
    assert s'.handlers == s.handlers;
    forall k | k in s'.handlers && Closer(s', k, id) && !Undecided(s'.handlers[k].phase)
      ensures id in s'.bookings && Terminal(s'.bookings[id].status)
    {
      assert Closer(s, k, id);
    }
  }

  // Chain and clock are no part of it.
  lemma OutsideParts(s: System, sent: Sent, a: Action, id: BookingId)
    requires InStep(s, sent, id) && (a.Chain? || a.ServerTick?)
    ensures PartsExactly(s, sent, a, id)
  {
    var s' := After(s, a);
    assert s' == s.(chain := s'.chain, clock := s'.clock) && sent + New(s, a) == sent;
    forall k | k in s'.handlers && Closer(s', k, id) && !Undecided(s'.handlers[k].phase)
      ensures id in s'.bookings && Terminal(s'.bookings[id].status)
    {
      assert Closer(s, k, id);
    }
  }

  lemma RefusedParts(s: System, sent: Sent, a: Action, id: BookingId)
    requires InStep(s, sent, id) && Perform(s, a).None?
    ensures PartsExactly(s, sent, a, id)
  {
    assert New(s, a) == [] && sent + New(s, a) == sent && After(s, a) == s;
  }

  lemma ActionParts(s: System, sent: Sent, a: Action, id: BookingId)
    requires SystemInv(s) && InStep(s, sent, id) && !StaleOn(s, a, id)
    ensures PartsExactly(s, sent, a, id)
  {
    if Perform(s, a).None? {
      RefusedParts(s, sent, a, id);
    } else {
      match a
      case Create(_, _, _, _, _, _, _, _, _) => CreateParts(s, sent, a, id);
      case Request(h, booking, to, rate) => RequestParts(s, sent, h, booking, to, rate, id);
      case Advance(h, rpcUp) => AdvanceParts(s, sent, h, rpcUp, id);
      case Chain(_) => OutsideParts(s, sent, a, id);
      case ServerTick(_) => OutsideParts(s, sent, a, id);
    }
  }

  ghost predicate RunPartsExactly(s: System, sent: Sent, s': System, sent': Sent, id: BookingId, parts: bool) {
    InStep(s', sent', id) && (Parted(ViewOf(s', sent', id)) <==> Parted(ViewOf(s, sent, id)) || parts)
  }

  lemma {:induction false} RunParts(s: System, sent: Sent, actions: seq<Action>, id: BookingId)
    requires SystemInv(s) && InStep(s, sent, id) && !StaleOnAlong(s, actions, id)
    ensures RunPartsExactly(s, sent, Execute(s, actions), sent + AllSent(s, actions), id, PartsAlong(s, actions, id))
    decreases |actions|
  {
    if actions == [] {
      assert sent + AllSent(s, actions) == sent;
    } else {
      var a, rest := actions[0], actions[1..];
      var s1 := After(s, a);
      ActionParts(s, sent, a, id);
      ActionKeepsInv(s, a);
      RunParts(s1, sent + New(s, a), rest, id);
      SentInTwo(sent, New(s, a), AllSent(s1, rest));
    }
  }

  lemma SentInTwo(x: Sent, y: Sent, z: Sent)
    ensures x + (y + z) == x + y + z
  {
  }

  // ------------------------------------------------------------ the worker at the other end

  // What a worker is handed: its own messages, in order.
  function For(sent: Sent, w: WorkerId): seq<Message> {
    if sent == [] then []
    else
      var last := sent[|sent| - 1];
      For(sent[..|sent| - 1], w) + if last.0 == w then [last.1] else []
  }

  // The start and the stop succeed and the store can be read and written.
  predicate Well(a: Worker.Answers) {
    a.start.Some? && a.stopped && a.readable && a.writable
  }

  predicate Handed(turns: seq<Worker.Turn>, messages: seq<Message>) {
    && |turns| == |messages|
    && forall i | 0 <= i < |turns| :: turns[i].event == EndToEnd.EventOf(messages[i]) && Well(turns[i].answers)
  }

  // Then the rows follow the last word on each booking.
  lemma {:induction false} RowsFollow(sent: Sent, w: WorkerId, turns: seq<Worker.Turn>, id: BookingId)
    requires Handed(turns, For(sent, w))
    ensures Worker.IsActive(Worker.Run(Worker.EMPTY_HOST, turns).rows, id) <==> Told(sent, w, id)
    decreases |sent|
  {
    if sent != [] {
      var past, last := sent[..|sent| - 1], sent[|sent| - 1];
      if last.0 != w {
        assert For(sent, w) == For(past, w);
        RowsFollow(past, w, turns, id);
      } else {
        var n := |turns| - 1;
        assert For(sent, w)[..n] == For(past, w) && turns == turns[..n] + [turns[n]];
        RowsFollow(past, w, turns[..n], id);
        Worker.RunAppend(Worker.EMPTY_HOST, turns[..n], [turns[n]]);
        LastTurn(Worker.Run(Worker.EMPTY_HOST, turns[..n]), turns[n], last.1, id);
      }
    }
  }

  lemma LastTurn(host: Worker.Host, t: Worker.Turn, message: Message, id: BookingId)
    requires t.event == EndToEnd.EventOf(message) && Well(t.answers)
    ensures Worker.IsActive(Worker.Run(host, [t]).rows, id)
            <==> if message.bookingId == id then message.BookingActivated? else Worker.IsActive(host.rows, id)
  {
    assert Worker.Run(host, [t]) == Worker.Run(Worker.After(host, t), []) == Worker.After(host, t);
  }

  // ------------------------------------------------------------ main results

  lemma StartsInStep(s0: System, id: BookingId)
    requires Start(s0)
    ensures InStep(s0, [], id) && !Parted(ViewOf(s0, [], id))
  {
  }

  // After every run without a stale commit on a booking, once no handler works on it and its worker was handed
  // everything, in order and with good answers: the worker runs it exactly when the table says that it is active, if
  // and only if no step along the run parted them.
  lemma AgreesIff(s0: System, actions: seq<Action>, turns: seq<Worker.Turn>, id: BookingId)
    requires Start(s0) && !StaleOnAlong(s0, actions, id)
    requires var s := Execute(s0, actions);
             && id in s.bookings && Idle(s, id)
             && Handed(turns, For(AllSent(s0, actions), s.bookings[id].workerId))
    ensures (Worker.IsActive(Worker.Run(Worker.EMPTY_HOST, turns).rows, id)
             <==> Execute(s0, actions).bookings[id].status.Active?)
            <==> !PartsAlong(s0, actions, id)
  {
    var s, sent := Execute(s0, actions), AllSent(s0, actions);
    StartIsSound(s0);
    StartsInStep(s0, id);
    RunParts(s0, [], actions, id);
    assert [] + sent == sent;
    RowsFollow(sent, s.bookings[id].workerId, turns, id);
    IdleView(s, sent, id);
  }

  lemma IdleView(s: System, sent: Sent, id: BookingId)
    requires Idle(s, id)
    ensures ViewOf(s, sent, id).openers == {} && ViewOf(s, sent, id).enders == {}
  {
  }

  lemma {:induction false} ToldWasSent(sent: Sent, w: WorkerId, id: BookingId) returns (m: Message)
    requires Told(sent, w, id)
    ensures (w, m) in sent && m.BookingActivated? && m.bookingId == id
    decreases |sent|
  {
    var last := sent[|sent| - 1];
    if last.0 == w && last.1.bookingId == id {
      m := last.1;
    } else {
      m := ToldWasSent(sent[..|sent| - 1], w, id);
    }
  }

  // A worker only ever runs its own bookings.
  lemma RunsOwnOnly(s0: System, actions: seq<Action>, w: WorkerId, id: BookingId)
    requires Start(s0) && Told(AllSent(s0, actions), w, id)
    ensures var s := Execute(s0, actions); id in s.bookings && s.bookings[id].workerId == w
  {
    var s := Execute(s0, actions);
    var m := ToldWasSent(AllSent(s0, actions), w, id);
    SentIsPublished(s0, actions, (w, m));
    HappensIsSound(s);
    assert MessageSound(s.settings, s.bookings, s.txs, s.openedBy, (w, m));
  }

  predicate ActiveOn(s: System, w: WorkerId, id: BookingId) {
    id in s.bookings && s.bookings[id].workerId == w && s.bookings[id].status.Active?
  }

  // No stale commit on any booking of the worker, no step that parted one from its last word, and nobody at work.
  ghost predicate Undisturbed(s0: System, actions: seq<Action>, w: WorkerId) {
    var s := Execute(s0, actions);
    forall id | id in s.bookings && s.bookings[id].workerId == w ::
      Idle(s, id) && !StaleOnAlong(s0, actions, id) && !PartsAlong(s0, actions, id)
  }

  lemma RowsAgree(s0: System, actions: seq<Action>, w: WorkerId, turns: seq<Worker.Turn>, id: BookingId)
    requires Start(s0) && Undisturbed(s0, actions, w) && Handed(turns, For(AllSent(s0, actions), w))
    ensures Worker.IsActive(Worker.Run(Worker.EMPTY_HOST, turns).rows, id) <==> ActiveOn(Execute(s0, actions), w, id)
  {
    var s := Execute(s0, actions);
    RowsFollow(AllSent(s0, actions), w, turns, id);
    if Told(AllSent(s0, actions), w, id) {
      RunsOwnOnly(s0, actions, w, id);
    }
    if id in s.bookings && s.bookings[id].workerId == w {
      AgreesIff(s0, actions, turns, id);
    }
  }

  // A sandbox runs exactly when one of the worker's active bookings has it, and each has one of its own.
  ghost predicate MachinesMatch(s: System, w: WorkerId, host: Worker.Host) {
    && (forall sb :: sb in host.running <==> exists id :: ActiveOn(s, w, id) && Worker.Uses(host.rows, id, sb))
    && (forall id | ActiveOn(s, w, id) :: exists sb :: Worker.Uses(host.rows, id, sb))
    && (forall i, j, sb :: Worker.Uses(host.rows, i, sb) && Worker.Uses(host.rows, j, sb) ==> i == j)
  }

  // So when nothing disturbed its bookings and nothing leaked, the worker's running sandboxes are exactly those of its
  // bookings that the table has active, one each.
  lemma MachinesMatchTable(s0: System, actions: seq<Action>, w: WorkerId, turns: seq<Worker.Turn>)
    requires Start(s0) && Undisturbed(s0, actions, w) && Handed(turns, For(AllSent(s0, actions), w))
    requires Worker.FreshAlong(Worker.EMPTY_HOST, turns) && !Worker.LeaksAlong(Worker.EMPTY_HOST, turns)
    ensures MachinesMatch(Execute(s0, actions), w, Worker.Run(Worker.EMPTY_HOST, turns))
  {
    var s, host := Execute(s0, actions), Worker.Run(Worker.EMPTY_HOST, turns);
    Worker.ExactThroughoutIff(Worker.EMPTY_HOST, turns);
    Worker.ExactAtEnd(Worker.EMPTY_HOST, turns);
    forall id ensures Worker.IsActive(host.rows, id) <==> ActiveOn(s, w, id) {
      RowsAgree(s0, actions, w, turns, id);
    }
    MachinesOf(s, w, host);
  }

  lemma MachinesOf(s: System, w: WorkerId, host: Worker.Host)
    requires Worker.Exact(host) && forall id :: Worker.IsActive(host.rows, id) <==> ActiveOn(s, w, id)
    ensures MachinesMatch(s, w, host)
  {
    forall sb ensures sb in host.running <==> exists id :: ActiveOn(s, w, id) && Worker.Uses(host.rows, id, sb) {
      if sb in host.running {
        assert Worker.Owned(host.rows, sb);
        var id :| Worker.Uses(host.rows, id, sb);
        assert ActiveOn(s, w, id) && Worker.Uses(host.rows, id, sb);
      }
      if id :| ActiveOn(s, w, id) && Worker.Uses(host.rows, id, sb) {
        assert Worker.Backed(host.rows, host.running, id);
      }
    }
    forall id | ActiveOn(s, w, id) ensures exists sb :: Worker.Uses(host.rows, id, sb) {
      assert Worker.Backed(host.rows, host.running, id);
      assert Worker.Uses(host.rows, id, host.rows[id].sandboxId.value);
    }
  }

  // ------------------------------------------------------------ words overtaken

  lemma {:induction false} ExecuteInTwo(s: System, first: seq<Action>, second: seq<Action>)
    ensures Execute(s, first + second) == Execute(Execute(s, first), second)
    decreases |first|
  {
    if first == [] {
      assert first + second == second;
    } else {
      assert (first + second)[0] == first[0] && (first + second)[1..] == first[1..] + second;
      ExecuteInTwo(After(s, first[0]), first[1..], second);
    }
  }

  lemma {:induction false} AllSentInTwo(s: System, first: seq<Action>, second: seq<Action>)
    ensures AllSent(s, first + second) == AllSent(s, first) + AllSent(Execute(s, first), second)
    decreases |first|
  {
    if first == [] {
      assert first + second == second;
    } else {
      var s1 := After(s, first[0]);
      assert (first + second)[0] == first[0] && (first + second)[1..] == first[1..] + second;
      AllSentInTwo(s1, first[1..], second);
      SentInTwo(New(s, first[0]), AllSent(s1, first[1..]), AllSent(Execute(s, first), second));
    }
  }

  lemma {:induction false} StaleInTwo(s: System, first: seq<Action>, second: seq<Action>, id: BookingId)
    ensures StaleOnAlong(s, first + second, id)
            <==> StaleOnAlong(s, first, id) || StaleOnAlong(Execute(s, first), second, id)
    decreases |first|
  {
    if first == [] {
      assert first + second == second;
    } else {
      assert (first + second)[0] == first[0] && (first + second)[1..] == first[1..] + second;
      StaleInTwo(After(s, first[0]), first[1..], second, id);
    }
  }

  lemma Twice(s: System, a: Action)
    ensures Execute(s, [a, a]) == After(After(s, a), a)
    ensures AllSent(s, [a, a]) == New(s, a) + New(After(s, a), a)
    ensures forall id :: StaleOnAlong(s, [a, a], id) <==> StaleOn(s, a, id) || StaleOn(After(s, a), a, id)
  {
    var s1 := After(s, a);
    assert [a, a][1..] == [a] && [a][1..] == [];
    assert Execute(s1, [a]) == Execute(After(s1, a), []) && AllSent(s1, [a]) == New(s1, a) + AllSent(After(s1, a), []);
    forall id ensures StaleOnAlong(s, [a, a], id) <==> StaleOn(s, a, id) || StaleOn(s1, a, id) {
      assert StaleOnAlong(s1, [a], id) <==> StaleOn(s1, a, id) || StaleOnAlong(After(s1, a), [], id);
    }
  }

  // What two steps leave of a handler and its booking.
  predicate Became(s: System, h: TxId, s': System, status: BookingStatus, phase: Phase) {
    && Known(s, h) && s'.handlers == s.handlers[h := s.handlers[h].(phase := phase)]
    && s'.settings == s.settings && s'.txs == s.txs && s'.bookings.Keys == s.bookings.Keys
    && var id := s.handlers[h].bookingId;
    && s'.bookings[id].status == status
    && s'.bookings[id].workerId == s.bookings[id].workerId && s'.bookings[id].offeringId == s.bookings[id].offeringId
  }

  lemma CommitsInTwo(s: System, h: TxId)
    requires Known(s, h) && s.handlers[h].phase.Assigning?
    ensures var a := Advance(h, true);
            && Became(s, h, Execute(s, [a, a]), s.handlers[h].to, Refreshing) && AllSent(s, [a, a]) == []
            && (ValidTransition(s.bookings[s.handlers[h].bookingId].status, s.handlers[h].to) ==>
                  forall id :: !StaleOnAlong(s, [a, a], id))
  {
    var a := Advance(h, true);
    var s1 := To(s, h, Committing(s.clock));
    Twice(s, a);
    assert After(s, a) == s1 && New(s, a) == [];
    assert After(s1, a) == CommitStatus(s1, h, s.clock) && New(s1, a) == [];
  }

  lemma TellsInTwo(s: System, h: TxId)
    requires Known(s, h) && s.handlers[h].phase.Refreshing? && !s.settings.chainEnabled
    ensures var a := Advance(h, true);
            && Became(s, h, Execute(s, [a, a]), s.bookings[s.handlers[h].bookingId].status, Finished(true))
            && AllSent(s, [a, a]) == New(To(s, h, Publishing), a)
            && forall id :: !StaleOnAlong(s, [a, a], id)
  {
    var a := Advance(h, true);
    Twice(s, a);
    assert After(s, a) == Refresh(s, h) == To(s, h, Publishing);
    assert After(After(s, a), a) == Publish(To(s, h, Publishing), h);
  }

  lemma AsksInOne(s: System, h: TxId, id: BookingId, to: BookingStatus)
    requires id in s.bookings && ValidTransition(s.bookings[id].status, to) && !s.settings.chainEnabled
    requires h !in s.handlers && h !in s.txs
    ensures var r := Request(h, id, to, 0);
            && Execute(s, [r]) == s.(handlers := s.handlers[h := Handler(id, to, s.bookings[id].status, 0, Assigning)])
            && AllSent(s, [r]) == [] && forall i :: !StaleOnAlong(s, [r], i)
  {
    var r := Request(h, id, to, 0);
    assert [r][1..] == [];
    assert Execute(s, [r]) == Execute(After(s, r), []) && AllSent(s, [r]) == New(s, r) + AllSent(After(s, r), []);
  }

  lemma Joined(s: System, first: seq<Action>, s1: System, second: seq<Action>, s2: System, m: Sent, n: Sent)
    requires Execute(s, first) == s1 && Execute(s1, second) == s2
    requires AllSent(s, first) == m && AllSent(s1, second) == n
    requires forall id :: !StaleOnAlong(s, first, id) && !StaleOnAlong(s1, second, id)
    ensures Execute(s, first + second) == s2 && AllSent(s, first + second) == m + n
    ensures forall id :: !StaleOnAlong(s, first + second, id)
  {
    forall id ensures !StaleOnAlong(s, first + second, id) {
      StaleInTwo(s, first, second, id);
    }
    ExecuteInTwo(s, first, second);
    AllSentInTwo(s, first, second);
  }

  // An activation and a close of what it activated, both of them past their commits.
  predicate Crossed(s: System, h: TxId, k: TxId, id: BookingId) {
    && !s.settings.chainEnabled && h != k
    && id in s.bookings && s.bookings[id].status.Completed?
    && h in s.handlers && s.handlers[h] == Handler(id, BookingStatus.Active, Pending, 0, Refreshing)
    && k in s.handlers && s.handlers[k] == Handler(id, Completed, BookingStatus.Active, 0, Refreshing)
  }

  function Activated(h: TxId, id: BookingId): seq<Action> {
    [Request(h, id, BookingStatus.Active, 0)] + [Advance(h, true), Advance(h, true)]
  }

  function Completing(k: TxId, id: BookingId): seq<Action> {
    [Request(k, id, Completed, 0)] + [Advance(k, true), Advance(k, true)]
  }

  // Two more steps of the close, and then two of the activation.
  function Telling(h: TxId, k: TxId): seq<Action> {
    [Advance(k, true), Advance(k, true)] + [Advance(h, true), Advance(h, true)]
  }

  lemma RequestCommits(s: System, h: TxId, id: BookingId, to: BookingStatus)
    requires id in s.bookings && ValidTransition(s.bookings[id].status, to) && !s.settings.chainEnabled
    requires h !in s.handlers && h !in s.txs
    ensures var a := Advance(h, true);
            var actions := [Request(h, id, to, 0)] + [a, a];
            var s' := Execute(s, actions);
            && AllSent(s, actions) == [] && (forall i :: !StaleOnAlong(s, actions, i))
            && s'.handlers == s.handlers[h := Handler(id, to, s.bookings[id].status, 0, Refreshing)]
            && s'.settings == s.settings && s'.txs == s.txs
            && id in s'.bookings && s'.bookings[id].status == to
            && s'.bookings[id].workerId == s.bookings[id].workerId
            && s'.bookings[id].offeringId == s.bookings[id].offeringId
  {
    var a := Advance(h, true);
    var asked := Execute(s, [Request(h, id, to, 0)]);
    AsksInOne(s, h, id, to);
    CommitsInTwo(asked, h);
    Joined(s, [Request(h, id, to, 0)], asked, [a, a], Execute(asked, [a, a]), [], []);
  }

  lemma CrossingStarts(s: System, id: BookingId, h: TxId, k: TxId)
    requires id in s.bookings && s.bookings[id].status.Pending? && !s.settings.chainEnabled
    requires h !in s.handlers && h !in s.txs && k !in s.handlers && k !in s.txs && h != k
    ensures var actions := Activated(h, id) + Completing(k, id);
            var s' := Execute(s, actions);
            && AllSent(s, actions) == [] && (forall i :: !StaleOnAlong(s, actions, i)) && Crossed(s', h, k, id)
            && s'.handlers.Keys == s.handlers.Keys + {h, k}
            && s'.bookings[id].workerId == s.bookings[id].workerId
  {
    var active := Execute(s, Activated(h, id));
    RequestCommits(s, h, id, BookingStatus.Active);
    RequestCommits(active, k, id, Completed);
    Joined(s, Activated(h, id), active, Completing(k, id), Execute(active, Completing(k, id)), [], []);
  }

  lemma CrossingEnds(s: System, id: BookingId, h: TxId, k: TxId)
    requires Crossed(s, h, k, id)
    ensures var s' := Execute(s, Telling(h, k));
            var b := s.bookings[id];
            && id in s'.bookings && s'.bookings[id].status.Completed? && s'.bookings[id].workerId == b.workerId
            && s'.handlers.Keys == s.handlers.Keys
            && s'.handlers[h].phase.Finished? && s'.handlers[k].phase.Finished?
            && AllSent(s, Telling(h, k))
               == [(b.workerId, BookingCancelled(id)), (b.workerId, BookingActivated(id, b.offeringId))]
            && forall i :: !StaleOnAlong(s, Telling(h, k), i)
  {
    var a, b := Advance(h, true), Advance(k, true);
    var told := Execute(s, [b, b]);
    TellsInTwo(s, k);
    TellsInTwo(told, h);
    Joined(s, [b, b], told, [a, a], Execute(told, [a, a]), AllSent(s, [b, b]), AllSent(told, [a, a]));
  }

  // From every state with a pending booking that nobody works on, this order of steps leaves its worker told to run it
  // although it is completed.
  lemma CrossingParts(s: System, id: BookingId, h: TxId, k: TxId)
    requires id in s.bookings && s.bookings[id].status.Pending? && !s.settings.chainEnabled && Idle(s, id)
    requires h !in s.handlers && h !in s.txs && k !in s.handlers && k !in s.txs && h != k
    ensures var actions := Activated(h, id) + Completing(k, id) + Telling(h, k);
            var s' := Execute(s, actions);
            var w := s.bookings[id].workerId;
            && id in s'.bookings && s'.bookings[id].status.Completed? && s'.bookings[id].workerId == w
            && h in s'.handlers && s'.handlers[h].phase.Finished? && k in s'.handlers && s'.handlers[k].phase.Finished?
            && s'.handlers.Keys == s.handlers.Keys + {h, k}
            && Told(AllSent(s, actions), w, id)
            && forall i :: !StaleOnAlong(s, actions, i)
  {
    var first := Activated(h, id) + Completing(k, id);
    var s1 := Execute(s, first);
    CrossingStarts(s, id, h, k);
    CrossingEnds(s1, id, h, k);
    var w, offering := s1.bookings[id].workerId, s1.bookings[id].offeringId;
    Joined(s, first, s1, Telling(h, k), Execute(s1, Telling(h, k)), [], AllSent(s1, Telling(h, k)));
    ToldAfter([(w, BookingCancelled(id))], (w, BookingActivated(id, offering)), w, id);
  }

  lemma PendingExample() returns (s0: System)
    ensures Start(s0)
    ensures var s := After(s0, CREATE_EXAMPLE);
            && "b" in s.bookings && s.bookings["b"].status.Pending? && !s.settings.chainEnabled
            && s.handlers == map[] && s.txs == map[]
  {
    var w := ExampleGenesis();
    s0 := System(Settings(false, false, None, 24), w, 0, map[], map[], map[], {}, map[], map[]);
    assert Genesis(EXAMPLE, s0.chain);
  }

  const CREATE_EXAMPLE := Create("b", "consumer", "supplier", None, None, "w", "o", true, true)

  // A closed booking that nobody works on and whose worker is told to run it was parted by some step.
  lemma ToldWhileClosedParts(s0: System, actions: seq<Action>, id: BookingId)
    requires Start(s0) && !StaleOnAlong(s0, actions, id)
    requires var s := Execute(s0, actions);
             && id in s.bookings && Idle(s, id) && Terminal(s.bookings[id].status)
             && Told(AllSent(s0, actions), s.bookings[id].workerId, id)
    ensures PartsAlong(s0, actions, id)
  {
    var sent := AllSent(s0, actions);
    StartIsSound(s0);
    StartsInStep(s0, id);
    RunParts(s0, [], actions, id);
    assert [] + sent == sent;
    IdleView(Execute(s0, actions), sent, id);
  }

  // So there are runs without a stale commit that leave a worker with a booking that is completed.
  lemma CrossingHappens() returns (s0: System, actions: seq<Action>)
    ensures Start(s0)
    ensures var s := Execute(s0, actions);
            && "b" in s.bookings && s.bookings["b"].status.Completed? && Idle(s, "b")
            && Told(AllSent(s0, actions), s.bookings["b"].workerId, "b")
    ensures !StaleOnAlong(s0, actions, "b") && PartsAlong(s0, actions, "b")
  {
    s0 := PendingExample();
    var s := After(s0, CREATE_EXAMPLE);
    var rest := Activated(1, "b") + Completing(2, "b") + Telling(1, 2);
    CrossingParts(s, "b", 1, 2);
    actions := [CREATE_EXAMPLE] + rest;
    CreateFirst(s0, rest);
    ToldWhileClosedParts(s0, actions, "b");
  }

  lemma CreateFirst(s0: System, rest: seq<Action>)
    ensures var actions := [CREATE_EXAMPLE] + rest;
            && Execute(s0, actions) == Execute(After(s0, CREATE_EXAMPLE), rest)
            && AllSent(s0, actions) == AllSent(After(s0, CREATE_EXAMPLE), rest)
            && (StaleOnAlong(s0, actions, "b") <==> StaleOnAlong(After(s0, CREATE_EXAMPLE), rest, "b"))
  {
    var actions := [CREATE_EXAMPLE] + rest;
    assert actions[0] == CREATE_EXAMPLE && actions[1..] == rest && New(s0, CREATE_EXAMPLE) == [];
    assert [] + AllSent(After(s0, CREATE_EXAMPLE), rest) == AllSent(After(s0, CREATE_EXAMPLE), rest);
  }
}
