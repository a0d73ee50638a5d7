// The whole path of a booking: the settlement protocol on the server, delivery to the workers, and the sandboxes
// they start.
module EndToEnd {
  import opened Wrappers
  import opened Ledger
  import opened Settlement
  import opened SettlementInvariant
  import opened SettlementTheorems
  import BookingService
  import Overtaking
  import Stranding
  import Worker

  type BookingId = Worker.BookingId

  // launches records which worker started which sandbox for which booking.
  datatype Market = Market(
    system: System,
    hosts: map<WorkerId, Worker.Host>,
    launches: set<(WorkerId, Worker.SandboxId, BookingId)>)

  // A worker may be handed anything published to it, late, twice, out of order or never; the queues in between
  // deliver in order, but may drop.
  datatype Move = Act(action: Action) | Deliver(worker: WorkerId, message: Message, answers: Worker.Answers)

  function HostOf(m: Market, w: WorkerId): Worker.Host {
    if w in m.hosts then m.hosts[w] else Worker.EMPTY_HOST
  }

  function EventOf(message: Message): Worker.WorkerEvent {
    match message
    case BookingActivated(id, offeringId) => Worker.BookingActivated(id, offeringId)
    case BookingCancelled(id) => Worker.BookingCancelled(id)
  }

  predicate Launching(move: Move) {
    move.Deliver? && move.message.BookingActivated? && move.answers.start.Some?
  }

  function Delivered(m: Market, move: Move): Market
    requires move.Deliver?
  {
    var host := Worker.After(HostOf(m, move.worker), Worker.Turn(EventOf(move.message), move.answers));
    var launched :=
      if Launching(move) then {(move.worker, move.answers.start.value.sandboxId, move.message.bookingId)} else {};
    m.(hosts := m.hosts[move.worker := host], launches := m.launches + launched)
  }

  function Moved(m: Market, move: Move): Market {
    match move
    case Act(action) => m.(system := After(m.system, action))
    case Deliver(worker, message, _) => if (worker, message) in m.system.published then Delivered(m, move) else m
  }

  function Play(m: Market, moves: seq<Move>): Market
    decreases |moves|
  {
    if moves == [] then m else Play(Moved(m, moves[0]), moves[1..])
  }

  ghost predicate Opening(m: Market) {
    Start(m.system) && m.hosts == map[] && m.launches == {}
  }

  ghost predicate Occurs(m: Market) {
    exists m0, moves :: Opening(m0) && m == Play(m0, moves)
  }

  // ------------------------------------------------------------ what every market keeps

  // This is the booking's own worker; and if its parties settle on chain, a confirmed openBooking for it is in the
  // log, of its own consumer for its own supplier, and what the contract locked is the rate of that row for the
  // configured hours.
  ghost predicate Paid(s: System, w: WorkerId, id: BookingId) {
    && id in s.bookings && s.bookings[id].workerId == w
    && (Applicable(s.settings, s.bookings[id]) ==> exists k :: LockConfirmed(s, k, id))
  }

  predicate Announces(l: (WorkerId, Message), w: WorkerId, id: BookingId) {
    l.0 == w && l.1.BookingActivated? && l.1.bookingId == id
  }

  predicate Announced(published: set<(WorkerId, Message)>, w: WorkerId, id: BookingId) {
    exists l | l in published :: Announces(l, w, id)
  }

  ghost predicate Launched(launches: set<(WorkerId, Worker.SandboxId, BookingId)>, w: WorkerId, sb: Worker.SandboxId) {
    exists id :: (w, sb, id) in launches
  }

  // The worker was told to start the booking under that offering.
  predicate Told(published: set<(WorkerId, Message)>, w: WorkerId, id: BookingId, offeringId: string) {
    (w, BookingActivated(id, offeringId)) in published
  }

  // A running sandbox was launched by its worker, and the booking of every row was announced to it under the offering
  // of that row.
  ghost predicate HostSound(host: Worker.Host, w: WorkerId, published: set<(WorkerId, Message)>,
                            launches: set<(WorkerId, Worker.SandboxId, BookingId)>)
  {
    && (forall sb | sb in host.running :: Launched(launches, w, sb))
    && (forall id | id in host.rows :: Told(published, w, id, host.rows[id].offeringId))
  }

  ghost predicate LaunchesSound(launches: set<(WorkerId, Worker.SandboxId, BookingId)>,
                                published: set<(WorkerId, Message)>)
  {
    forall l | l in launches :: Announced(published, l.0, l.2)
  }

  ghost predicate MarketSound(m: Market) {
    && Happens(m.system)
    && LaunchesSound(m.launches, m.system.published)
    && (forall w :: HostSound(HostOf(m, w), w, m.system.published, m.launches))
  }

  lemma PublishedGrows(s: System, a: Action)
    ensures s.published <= After(s, a).published
  {
    if a.Advance? {
      AdvanceOnlyPublishes(s, a.h, a.rpcUp);
    }
  }

  lemma AdvanceOnlyPublishes(s: System, h: TxId, rpcUp: bool)
    ensures Advanced(s, h, rpcUp).Some? ==> s.published <= Advanced(s, h, rpcUp).value.published
  {
  }

  lemma HostStaysSound(host: Worker.Host, w: WorkerId, published: set<(WorkerId, Message)>,
                       published': set<(WorkerId, Message)>, launches: set<(WorkerId, Worker.SandboxId, BookingId)>,
                       launches': set<(WorkerId, Worker.SandboxId, BookingId)>)
    requires HostSound(host, w, published, launches) && published <= published' && launches <= launches'
    ensures HostSound(host, w, published', launches')
  {
    forall sb | sb in host.running ensures Launched(launches', w, sb) {
      assert Launched(launches, w, sb);
    }
    forall id | id in host.rows ensures Told(published', w, id, host.rows[id].offeringId) {
      assert Told(published, w, id, host.rows[id].offeringId);
    }
  }

  lemma ActKeepsSound(m: Market, a: Action)
    requires MarketSound(m)
    ensures MarketSound(Moved(m, Act(a)))
  {
    var m', published, published' := Moved(m, Act(a)), m.system.published, After(m.system, a).published;
    HappensNext(m.system, a);
    PublishedGrows(m.system, a);
    forall l | l in m.launches ensures Announced(published', l.0, l.2) {
      assert Announced(published, l.0, l.2);
    }
    forall w ensures HostSound(HostOf(m', w), w, published', m'.launches) {
      assert HostOf(m', w) == HostOf(m, w);
      HostStaysSound(HostOf(m, w), w, published, published', m.launches, m.launches);
    }
  }

  lemma HandlerKeepsHost(host: Worker.Host, w: WorkerId, message: Message, a: Worker.Answers,
                         published: set<(WorkerId, Message)>, launches: set<(WorkerId, Worker.SandboxId, BookingId)>)
    requires HostSound(host, w, published, launches) && (w, message) in published
    requires Launching(Deliver(w, message, a)) ==> (w, a.start.value.sandboxId, message.bookingId) in launches
    ensures HostSound(Worker.After(host, Worker.Turn(EventOf(message), a)), w, published, launches)
  {
    var host' := Worker.After(host, Worker.Turn(EventOf(message), a));
    forall sb | sb in host'.running ensures Launched(launches, w, sb) {
      assert sb in host.running ==> Launched(launches, w, sb);
    }
    forall id | id in host'.rows ensures Told(published, w, id, host'.rows[id].offeringId) {
      assert id in host.rows ==> Told(published, w, id, host.rows[id].offeringId);
    }
  }

  lemma DeliverKeepsSound(m: Market, move: Move)
    requires MarketSound(m) && move.Deliver? && (move.worker, move.message) in m.system.published
    ensures MarketSound(Delivered(m, move))
  {
    var m' := Delivered(m, move);
    var w, published := move.worker, m.system.published;
    if Launching(move) {
      assert Announces((w, move.message), w, move.message.bookingId);
    }
    forall l | l in m'.launches ensures Announced(published, l.0, l.2) {
      assert l in m.launches ==> Announced(published, l.0, l.2);
    }
    forall v ensures HostSound(HostOf(m', v), v, published, m'.launches) {
      HostStaysSound(HostOf(m, v), v, published, published, m.launches, m'.launches);
      if v == w {
        HandlerKeepsHost(HostOf(m, w), w, move.message, move.answers, published, m'.launches);
      }
    }
  }

  lemma {:induction false} PlayKeepsSound(m: Market, moves: seq<Move>)
    requires MarketSound(m)
    ensures MarketSound(Play(m, moves))
    decreases |moves|
  {
    if moves != [] {
      match moves[0] {
        case Act(a) => ActKeepsSound(m, a);
        case Deliver(w, message, _) =>
          if (w, message) in m.system.published {
            DeliverKeepsSound(m, moves[0]);
          }
      }
      PlayKeepsSound(Moved(m, moves[0]), moves[1..]);
    }
  }

  lemma OccursIsSound(m: Market)
    requires Occurs(m)
    ensures MarketSound(m)
  {
    var m0, moves :| Opening(m0) && m == Play(m0, moves);
    assert Happens(m0.system) by {
      assert m0.system == Execute(m0.system, []);
    }
    PlayKeepsSound(m0, moves);
  }

  lemma AnnouncedIsPaid(s: System, w: WorkerId, id: BookingId)
    requires Happens(s) && Announced(s.published, w, id)
    ensures Paid(s, w, id)
  {
    var l :| l in s.published && Announces(l, w, id);
    var k := NoMessageBeforeMoney(s, l.0, l.1);
  }

  // ------------------------------------------------------------ main results

  // No machine before money: at the moment a worker starts a sandbox, in any run and any interleaving, the booking
  // is the worker's own and its lock has already been confirmed.
  lemma NoMachineBeforeMoney(m: Market, move: Move)
    requires Occurs(m) && Launching(move) && (move.worker, move.message) in m.system.published
    ensures Paid(m.system, move.worker, move.message.bookingId)
  {
    OccursIsSound(m);
    assert Announces((move.worker, move.message), move.worker, move.message.bookingId);
    AnnouncedIsPaid(m.system, move.worker, move.message.bookingId);
  }

  // At any time, every sandbox still running was started for a paid booking of its own worker.
  lemma EveryMachineIsPaid(m: Market, w: WorkerId, sb: Worker.SandboxId) returns (id: BookingId)
    requires Occurs(m) && sb in HostOf(m, w).running
    ensures (w, sb, id) in m.launches && Paid(m.system, w, id)
  {
    OccursIsSound(m);
    assert HostSound(HostOf(m, w), w, m.system.published, m.launches);
    assert Launched(m.launches, w, sb);
    id :| (w, sb, id) in m.launches;
    assert Announced(m.system.published, (w, sb, id).0, (w, sb, id).2);
    AnnouncedIsPaid(m.system, w, id);
  }

  // Every row a worker keeps is of a booking of its own, under the booking's offering.
  lemma RowsAreOwn(m: Market, w: WorkerId, id: BookingId)
    requires Occurs(m) && id in HostOf(m, w).rows
    ensures id in m.system.bookings
    ensures m.system.bookings[id].workerId == w
    ensures m.system.bookings[id].offeringId == HostOf(m, w).rows[id].offeringId
  {
    OccursIsSound(m);
    assert HostSound(HostOf(m, w), w, m.system.published, m.launches);
    assert Told(m.system.published, w, id, HostOf(m, w).rows[id].offeringId);
    var k := NoMessageBeforeMoney(m.system, w, BookingActivated(id, HostOf(m, w).rows[id].offeringId));
  }

  // And no booking ever has a row, active or not, on two workers.
  lemma OneWorkerPerBooking(m: Market, v: WorkerId, w: WorkerId, id: BookingId)
    requires Occurs(m) && id in HostOf(m, v).rows && id in HostOf(m, w).rows
    ensures v == w
  {
    RowsAreOwn(m, v, id);
    RowsAreOwn(m, w, id);
  }

  // ------------------------------------------------------------ machines left behind

  // A sandbox that at most the row of a stranded booking names, whose worker was not told to stop it.
  ghost predicate LeftBehind(m: Market, w: WorkerId, id: BookingId, sb: Worker.SandboxId) {
    && Stranding.Stranded(m.system, id) && (w, BookingCancelled(id)) !in m.system.published
    && sb in HostOf(m, w).running
    && (forall j :: Worker.Uses(HostOf(m, w).rows, j, sb) ==> j == id)
  }

  // The worker's backend never hands out the id of a sandbox that is running there.
  predicate FreshPlay(m: Market, moves: seq<Move>, w: WorkerId)
    decreases |moves|
  {
    moves != [] ==>
      && (moves[0].Deliver? && moves[0].worker == w ==>
            Worker.Fresh(HostOf(m, w), Worker.Turn(EventOf(moves[0].message), moves[0].answers)))
      && FreshPlay(Moved(m, moves[0]), moves[1..], w)
  }

  lemma ActLeavesBehind(m: Market, a: Action, w: WorkerId, id: BookingId, sb: Worker.SandboxId)
    requires MarketSound(m) && LeftBehind(m, w, id, sb)
    ensures LeftBehind(Moved(m, Act(a)), w, id, sb)
  {
    HappensIsSound(m.system);
    Stranding.StrandedStays(m.system, a, id);
  }

  lemma HostKeepsRunning(host: Worker.Host, t: Worker.Turn, id: BookingId, sb: Worker.SandboxId)
    requires sb in host.running && Worker.Fresh(host, t) && t.event != Worker.BookingCancelled(id)
    requires forall j :: Worker.Uses(host.rows, j, sb) ==> j == id
    ensures sb in Worker.After(host, t).running
    ensures forall j :: Worker.Uses(Worker.After(host, t).rows, j, sb) ==> j == id
  {
    var host' := Worker.After(host, t);
    forall j | Worker.Uses(host'.rows, j, sb) ensures j == id {
      assert Worker.Uses(host.rows, j, sb);
    }
    if t.event.BookingCancelled? {
      assert !Worker.Uses(host.rows, t.event.bookingId, sb);
    }
  }

  lemma DeliverLeavesBehind(m: Market, move: Move, w: WorkerId, id: BookingId, sb: Worker.SandboxId)
    requires LeftBehind(m, w, id, sb) && move.Deliver? && FreshPlay(m, [move], w)
    ensures LeftBehind(Moved(m, move), w, id, sb)
  {
    if (move.worker, move.message) in m.system.published && move.worker == w {
      HostKeepsRunning(HostOf(m, w), Worker.Turn(EventOf(move.message), move.answers), id, sb);
    }
  }

  // Whatever anyone does and whatever is delivered from then on, the machine of a stranded booking keeps running.
  lemma {:induction false} LeftBehindForever(m: Market, moves: seq<Move>, w: WorkerId, id: BookingId,
                                             sb: Worker.SandboxId)
    requires MarketSound(m) && LeftBehind(m, w, id, sb) && FreshPlay(m, moves, w)
    ensures LeftBehind(Play(m, moves), w, id, sb)
    decreases |moves|
  {
    if moves != [] {
      var move := moves[0];
      assert FreshPlay(Moved(m, move), [], w);
      match move {
        case Act(a) =>
          ActLeavesBehind(m, a, w, id, sb);
          ActKeepsSound(m, a);
        case Deliver(v, message, _) =>
          DeliverLeavesBehind(m, move, w, id, sb);
          if (v, message) in m.system.published {
            DeliverKeepsSound(m, move);
          }
      }
      LeftBehindForever(Moved(m, move), moves[1..], w, id, sb);
    }
  }

  function Acts(actions: seq<Action>): seq<Move> {
    if actions == [] then [] else [Act(actions[0])] + Acts(actions[1..])
  }

  lemma {:induction false} PlayActs(m: Market, actions: seq<Action>)
    ensures Play(m, Acts(actions)) == m.(system := Execute(m.system, actions))
    decreases |actions|
  {
    if actions != [] {
      assert Acts(actions)[1..] == Acts(actions[1..]);
      PlayActs(Moved(m, Act(actions[0])), actions[1..]);
    }
  }

  lemma {:induction false} PlaySnoc(m: Market, moves: seq<Move>, move: Move)
    ensures Play(m, moves + [move]) == Moved(Play(m, moves), move)
    decreases |moves|
  {
    if moves == [] {
      assert Play(Moved(m, move), ([] + [move])[1..]) == Moved(m, move);
    } else {
      assert (moves + [move])[1..] == moves[1..] + [move];
      PlaySnoc(Moved(m, moves[0]), moves[1..], move);
    }
  }

  lemma OccursAlone(s: System)
    requires Happens(s)
    ensures Occurs(Market(s, map[], {}))
  {
    var s0, actions :| Start(s0) && s == Execute(s0, actions);
    var m0 := Market(s0, map[], {});
    PlayActs(m0, actions);
    assert Opening(m0) && Market(s, map[], {}) == Play(m0, Acts(actions));
  }

  lemma OccursNext(m: Market, move: Move)
    requires Occurs(m)
    ensures Occurs(Moved(m, move))
  {
    var m0, moves :| Opening(m0) && m == Play(m0, moves);
    PlaySnoc(m0, moves, move);
  }

  // And there are runs that leave one behind.
  lemma MachineLeftBehind() returns (m: Market)
    ensures Occurs(m) && LeftBehind(m, "w", "b", "sandbox")
  {
    var s := Overtaking.StrandingHappens();
    var offering :| s.published == {("w", BookingActivated("b", offering))};
    var before := Market(s, map[], {});
    var start := Deliver("w", BookingActivated("b", offering),
                         Worker.Answers(Some(Worker.Handle("sandbox", None)), true, true, true, 0));
    OccursAlone(s);
    OccursNext(before, start);
    m := Moved(before, start);
    assert HostOf(m, "w") == Worker.After(Worker.EMPTY_HOST, Worker.Turn(EventOf(start.message), start.answers));
  }

  // ------------------------------------------------------------ the endpoint inside the protocol

  // A request served alone is one of the interleavings, so everything proved of those holds after it.
  lemma TransitionHappens(s: System, h: TxId, user: UserId, id: BookingId, to: BookingStatus, rate: nat, rpcUp: bool)
    requires Happens(s)
    ensures Happens(BookingService.Transitioned(s, h, user, id, to, rate, rpcUp).1)
  {
    var accepted := Accept(s, h, id, to, rate);
    if id in s.bookings && accepted.Some? {
      HappensNext(s, Request(h, id, to, rate));
      BookingService.AloneHappens(accepted.value, h, rpcUp, BookingService.LONGEST_PATH);
    }
  }
}
