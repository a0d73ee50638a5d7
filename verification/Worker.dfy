// The worker's booking handler: marketplace events in, sandboxes started and stopped, and two stores kept: the
// rows of the local database and the map of forwarded ports.
module Worker {
  import opened Wrappers
  import opened EscrowMath
  import Escrow

  type BookingId = Escrow.BookingId
  type SandboxId = string
  type Port = uint16

  datatype RowStatus = ActiveRow | CancelledRow

  datatype WorkerRow = WorkerRow(
    offeringId: string,
    status: RowStatus,
    startedAt: Option<int>,
    sandboxId: Option<SandboxId>)

  datatype Handle = Handle(sandboxId: SandboxId, forwardedPort: Option<Port>)

  datatype WorkerEvent =
    | Ping
    | BookingActivated(bookingId: BookingId, offeringId: string)
    | BookingCancelled(bookingId: BookingId)
    | MessageUser(bookingId: BookingId, content: string)
    | Sealed(inner: Option<WorkerEvent>) // what the envelope holds, if it decrypts and parses

  // What the world outside answers while one event is handled: the backend's start and stop, the database's read
  // and write, and the clock.
  datatype Answers = Answers(start: Option<Handle>, stopped: bool, readable: bool, writable: bool, now: int)

  // running holds every sandbox started and not stopped, with the port it forwards.
  datatype Host = Host(
    rows: map<BookingId, WorkerRow>,
    ports: map<BookingId, Port>,
    running: map<SandboxId, Option<Port>>)

  const EMPTY_HOST := Host(map[], map[], map[])

  // On a conflict the row keeps its offering.
  function Upserted(rows: map<BookingId, WorkerRow>, id: BookingId, row: WorkerRow): map<BookingId, WorkerRow> {
    rows[id := if id in rows then row.(offeringId := rows[id].offeringId) else row]
  }

  predicate IsActive(rows: map<BookingId, WorkerRow>, id: BookingId) {
    id in rows && rows[id].status.ActiveRow?
  }

  // ------------------------------------------------------------ one event

  function Activate(host: Host, id: BookingId, offeringId: string, a: Answers): (Host, bool) {
    if a.start.None? then (host, false)
    else
      var h := a.start.value;
      var ports := if h.forwardedPort.Some? then host.ports[id := h.forwardedPort.value] else host.ports;
      var up := host.(running := host.running[h.sandboxId := h.forwardedPort], ports := ports);
      if !a.writable then (up, false)
      else
        var row := WorkerRow(offeringId, ActiveRow, Some(a.now), Some(h.sandboxId));
        (up.(rows := Upserted(host.rows, id, row)), true)
  }

  function Deactivate(host: Host, id: BookingId, a: Answers): (Host, bool) {
    if !a.readable then (host, false)
    else if !IsActive(host.rows, id) then (host.(ports := host.ports - {id}), true)
    else
      var row := host.rows[id];
      if row.sandboxId.Some? && !a.stopped then (host, false)
      else
        var down := if row.sandboxId.Some? then host.(running := host.running - {row.sandboxId.value}) else host;
        if !a.writable then (down, false)
        else (down.(rows := Upserted(host.rows, id, row.(status := CancelledRow)), ports := host.ports - {id}), true)
  }

  function Dispatch(host: Host, event: WorkerEvent, a: Answers): (Host, bool) {
    match event
    case BookingActivated(id, offeringId) => Activate(host, id, offeringId, a)
    case BookingCancelled(id) => Deactivate(host, id, a)
    case _ => (host, true)
  }

  // Where a consumer's message goes: to a port, or only into the log.
  function Recipient(host: Host, id: BookingId, wired: bool): Option<Port> {
    if wired && id in host.ports then Some(host.ports[id]) else None
  }

  // A run: events one after the other, the handler's errors only logged.
  datatype Turn = Turn(event: WorkerEvent, answers: Answers)

  function After(host: Host, t: Turn): Host {
    Dispatch(host, t.event, t.answers).0
  }

  function Run(host: Host, turns: seq<Turn>): Host
    decreases |turns|
  {
    if turns == [] then host else Run(After(host, turns[0]), turns[1..])
  }

  // ------------------------------------------------------------ exact books

  predicate Uses(rows: map<BookingId, WorkerRow>, id: BookingId, sb: SandboxId) {
    IsActive(rows, id) && rows[id].sandboxId == Some(sb)
  }

  predicate Backed(rows: map<BookingId, WorkerRow>, running: map<SandboxId, Option<Port>>, id: BookingId) {
    IsActive(rows, id) ==> rows[id].sandboxId.Some? && rows[id].sandboxId.value in running
  }

  ghost predicate Owned(rows: map<BookingId, WorkerRow>, sb: SandboxId) {
    exists id :: Uses(rows, id, sb)
  }

  // The port forwarded by the running sandbox of an active row, if it forwards one.
  function PortOf(rows: map<BookingId, WorkerRow>, running: map<SandboxId, Option<Port>>, id: BookingId): Option<Port> {
    if IsActive(rows, id) && rows[id].sandboxId.Some? && rows[id].sandboxId.value in running
    then running[rows[id].sandboxId.value] else None
  }

  // A booking's mapped port is exactly that.
  predicate Routed(host: Host, id: BookingId) {
    (if id in host.ports then Some(host.ports[id]) else None) == PortOf(host.rows, host.running, id)
  }

  // The running sandboxes are exactly those of the active rows, one each, and every mapped port leads to the
  // sandbox of its own active booking.
  ghost predicate Exact(host: Host) {
    && (forall id :: Backed(host.rows, host.running, id))
    && (forall sb | sb in host.running :: Owned(host.rows, sb))
    && (forall i, j, sb :: Uses(host.rows, i, sb) && Uses(host.rows, j, sb) ==> i == j)
    && (forall id :: Routed(host, id))
  }

  // The backend never hands out the id of a sandbox that is running.
  predicate Fresh(host: Host, t: Turn) {
    t.event.BookingActivated? && t.answers.start.Some? ==> t.answers.start.value.sandboxId !in host.running
  }

  // The sandbox started but its row was not written, or it displaced the sandbox of a booking already active; or
  // the sandbox was stopped but its row was not written.
  predicate Leaks(host: Host, t: Turn) {
    match t.event
    case BookingActivated(id, _) => t.answers.start.Some? && (!t.answers.writable || IsActive(host.rows, id))
    case BookingCancelled(id) =>
      && t.answers.readable && IsActive(host.rows, id)
      && host.rows[id].sandboxId.Some? && t.answers.stopped && !t.answers.writable
    case _ => false
  }

  // ------------------------------------------------------------ one turn keeps the books exactly when nothing leaks

  lemma ActivationKeepsExact(host: Host, id: BookingId, offeringId: string, a: Answers)
    requires Exact(host) && Fresh(host, Turn(BookingActivated(id, offeringId), a))
    requires a.start.Some? && a.writable && !IsActive(host.rows, id)
    ensures Exact(Activate(host, id, offeringId, a).0)
  {
    var host' := Activate(host, id, offeringId, a).0;
    var h := a.start.value;
    forall j ensures Backed(host'.rows, host'.running, j) {
      assert Backed(host.rows, host.running, j);
    }
    assert Uses(host'.rows, id, h.sandboxId);
    forall sb | sb in host'.running ensures Owned(host'.rows, sb) {
      if sb != h.sandboxId {
        var j :| Uses(host.rows, j, sb);
        assert Uses(host'.rows, j, sb);
      }
    }
    forall i, j, sb | Uses(host'.rows, i, sb) && Uses(host'.rows, j, sb) ensures i == j {
      assert Backed(host.rows, host.running, i) && Backed(host.rows, host.running, j);
      assert i != id ==> Uses(host.rows, i, sb);
      assert j != id ==> Uses(host.rows, j, sb);
    }
    forall j ensures Routed(host', j) {
      assert Routed(host, j) && Backed(host.rows, host.running, j);
    }
  }

  lemma DeactivationKeepsExact(host: Host, id: BookingId, a: Answers)
    requires Exact(host) && IsActive(host.rows, id) && a.readable && a.stopped && a.writable
    ensures Exact(Deactivate(host, id, a).0)
  {
    var host' := Deactivate(host, id, a).0;
    assert Backed(host.rows, host.running, id);
    var gone := host.rows[id].sandboxId.value;
    assert Uses(host.rows, id, gone);
    forall j ensures Backed(host'.rows, host'.running, j) {
      assert Backed(host.rows, host.running, j);
      assert IsActive(host'.rows, j) ==> Uses(host.rows, j, host.rows[j].sandboxId.value);
    }
    forall sb | sb in host'.running ensures Owned(host'.rows, sb) {
      var j :| Uses(host.rows, j, sb);
      assert Uses(host'.rows, j, sb);
    }
    forall i, j, sb | Uses(host'.rows, i, sb) && Uses(host'.rows, j, sb) ensures i == j {
      assert Uses(host.rows, i, sb) && Uses(host.rows, j, sb);
    }
    forall j ensures Routed(host', j) {
      assert Routed(host, j);
      assert Routed(host', j) by {
        if j in host'.ports {
          assert Uses(host.rows, j, host.rows[j].sandboxId.value);
        }
      }
    }
  }

  lemma LeakBreaksExact(host: Host, t: Turn)
    requires Exact(host) && Fresh(host, t) && Leaks(host, t)
    ensures !Exact(After(host, t))
  {
    var host' := After(host, t);
    if t.event.BookingCancelled? {
      assert !Backed(host'.rows, host'.running, t.event.bookingId);
    } else if !t.answers.writable {
      var sb := t.answers.start.value.sandboxId;
      forall j ensures !Uses(host.rows, j, sb) {
        assert Backed(host.rows, host.running, j);
      }
      assert sb in host'.running && !Owned(host'.rows, sb);
    } else {
      var id := t.event.bookingId;
      assert Backed(host.rows, host.running, id);
      var sb := host.rows[id].sandboxId.value;
      assert Uses(host.rows, id, sb);
      forall j ensures !Uses(host'.rows, j, sb) {
        assert j != id ==> (Uses(host'.rows, j, sb) ==> Uses(host.rows, j, sb));
      }
      assert sb in host'.running && !Owned(host'.rows, sb);
    }
  }

  lemma ExactAfterIff(host: Host, t: Turn)
    requires Exact(host) && Fresh(host, t)
    ensures Exact(After(host, t)) <==> !Leaks(host, t)
  {
    if Leaks(host, t) {
      LeakBreaksExact(host, t);
    } else {
      match t.event
      case BookingActivated(id, offeringId) =>
        if t.answers.start.Some? {
          ActivationKeepsExact(host, id, offeringId, t.answers);
        }
      case BookingCancelled(id) => CancelKeepsExact(host, id, t.answers);
      case _ =>
    }
  }

  lemma CancelKeepsExact(host: Host, id: BookingId, a: Answers)
    requires Exact(host) && !Leaks(host, Turn(BookingCancelled(id), a))
    ensures Exact(Deactivate(host, id, a).0)
  {
    assert Backed(host.rows, host.running, id) && Routed(host, id);
    if a.readable && IsActive(host.rows, id) && a.stopped {
      DeactivationKeepsExact(host, id, a);
    } else if !IsActive(host.rows, id) {
      assert host.ports - {id} == host.ports;
    }
  }

  // ------------------------------------------------------------ whole runs

  predicate FreshAlong(host: Host, turns: seq<Turn>)
    decreases |turns|
  {
    turns != [] ==> Fresh(host, turns[0]) && FreshAlong(After(host, turns[0]), turns[1..])
  }

  predicate LeaksAlong(host: Host, turns: seq<Turn>)
    decreases |turns|
  {
    turns != [] && (Leaks(host, turns[0]) || LeaksAlong(After(host, turns[0]), turns[1..]))
  }

  ghost predicate ExactThroughout(host: Host, turns: seq<Turn>)
    decreases |turns|
  {
    Exact(host) && (turns != [] ==> ExactThroughout(After(host, turns[0]), turns[1..]))
  }

  // The books are exact at every point of a run if and only if none of its events leaks.
  lemma {:induction false} ExactThroughoutIff(host: Host, turns: seq<Turn>)
    requires Exact(host) && FreshAlong(host, turns)
    ensures ExactThroughout(host, turns) <==> !LeaksAlong(host, turns)
    decreases |turns|
  {
    if turns != [] {
      ExactAfterIff(host, turns[0]);
      if Exact(After(host, turns[0])) {
        ExactThroughoutIff(After(host, turns[0]), turns[1..]);
      }
    }
  }

  predicate Starts(turns: seq<Turn>, i: nat, id: BookingId) {
    i < |turns| && turns[i].event.BookingActivated? && turns[i].event.bookingId == id
  }

  ghost predicate ActivatedOnce(turns: seq<Turn>) {
    forall i: nat, j: nat, id :: Starts(turns, i, id) && Starts(turns, j, id) ==> i == j
  }

  predicate RowsWritten(turns: seq<Turn>) {
    forall t | t in turns :: t.answers.writable
  }

  ghost predicate NoneActive(host: Host, turns: seq<Turn>) {
    forall i: nat, id :: Starts(turns, i, id) ==> !IsActive(host.rows, id)
  }

  lemma {:induction false} OnceNeverLeaks(host: Host, turns: seq<Turn>)
    requires ActivatedOnce(turns) && RowsWritten(turns) && NoneActive(host, turns)
    ensures !LeaksAlong(host, turns)
    decreases |turns|
  {
    if turns != [] {
      var t, rest := turns[0], turns[1..];
      assert t in turns;
      if t.event.BookingActivated? {
        assert Starts(turns, 0, t.event.bookingId);
      }
      forall i: nat, id | Starts(rest, i, id) ensures !IsActive(After(host, t).rows, id) && !Starts(turns, 0, id) {
        assert Starts(turns, i + 1, id);
      }
      forall i: nat, j: nat, id | Starts(rest, i, id) && Starts(rest, j, id) ensures i == j {
        assert Starts(turns, i + 1, id) && Starts(turns, j + 1, id);
      }
      OnceNeverLeaks(After(host, t), rest);
    }
  }

  // From a fresh worker, whatever start, stop and the reads answer: with every booking activated at most once and
  // every row written, the running sandboxes are exactly those of the active rows at every point.
  lemma BooksStayExact(turns: seq<Turn>)
    requires FreshAlong(EMPTY_HOST, turns) && ActivatedOnce(turns) && RowsWritten(turns)
    ensures ExactThroughout(EMPTY_HOST, turns)
  {
    OnceNeverLeaks(EMPTY_HOST, turns);
    ExactThroughoutIff(EMPTY_HOST, turns);
  }

  // A sandbox that no active row names can never be stopped again, whatever events follow.
  lemma {:induction false} OrphanRunsForever(host: Host, turns: seq<Turn>, sb: SandboxId)
    requires FreshAlong(host, turns) && sb in host.running && !Owned(host.rows, sb)
    ensures sb in Run(host, turns).running && !Owned(Run(host, turns).rows, sb)
    decreases |turns|
  {
    if turns != [] {
      var host' := After(host, turns[0]);
      forall id ensures !Uses(host'.rows, id, sb) {
        assert !Uses(host.rows, id, sb);
      }
      assert sb in host'.running by {
        if turns[0].event.BookingCancelled? {
          assert !Uses(host.rows, turns[0].event.bookingId, sb);
        }
      }
      OrphanRunsForever(host', turns[1..], sb);
    }
  }

  // A row is never lost and never moves to another offering.
  lemma {:induction false} RowsKeepTheirOffering(host: Host, turns: seq<Turn>, id: BookingId)
    requires id in host.rows
    ensures id in Run(host, turns).rows && Run(host, turns).rows[id].offeringId == host.rows[id].offeringId
    decreases |turns|
  {
    if turns != [] {
      RowsKeepTheirOffering(After(host, turns[0]), turns[1..], id);
    }
  }

  lemma {:induction false} RunAppend(host: Host, first: seq<Turn>, second: seq<Turn>)
    ensures Run(host, first + second) == Run(Run(host, first), second)
    decreases |first|
  {
    if first == [] {
      assert first + second == second;
    } else {
      assert (first + second)[0] == first[0] && (first + second)[1..] == first[1..] + second;
      RunAppend(After(host, first[0]), first[1..], second);
    }
  }

  // After such a run a consumer's message goes to a port if and only if the worker is wired and the running sandbox of
  // that consumer's active booking reported that port.
  lemma MessagesGoToOwnPort(turns: seq<Turn>, id: BookingId, wired: bool, port: Port)
    requires FreshAlong(EMPTY_HOST, turns) && !LeaksAlong(EMPTY_HOST, turns)
    ensures var host := Run(EMPTY_HOST, turns);
            Recipient(host, id, wired) == Some(port) <==>
              && wired && IsActive(host.rows, id) && host.rows[id].sandboxId.Some?
              && Forwards(host.running, host.rows[id].sandboxId.value, port)
  {
    ExactThroughoutIff(EMPTY_HOST, turns);
    ExactAtEnd(EMPTY_HOST, turns);
    assert Routed(Run(EMPTY_HOST, turns), id);
  }

  lemma {:induction false} ExactAtEnd(host: Host, turns: seq<Turn>)
    requires ExactThroughout(host, turns)
    ensures Exact(Run(host, turns))
    decreases |turns|
  {
    if turns != [] {
      ExactAtEnd(After(host, turns[0]), turns[1..]);
    }
  }

  // ------------------------------------------------------------ ports

  predicate Forwards(running: map<SandboxId, Option<Port>>, sb: SandboxId, port: Port) {
    sb in running && running[sb] == Some(port)
  }

  // A port tells its sandbox from every other one.
  ghost predicate OnePerPort(running: map<SandboxId, Option<Port>>) {
    forall x, y, port :: Forwards(running, x, port) && Forwards(running, y, port) ==> x == y
  }

  // The backend reports a port that a running sandbox forwards already.
  ghost predicate Clashes(host: Host, t: Turn) {
    && t.event.BookingActivated? && t.answers.start.Some? && t.answers.start.value.forwardedPort.Some?
    && exists sb :: Forwards(host.running, sb, t.answers.start.value.forwardedPort.value)
  }

  ghost predicate ClashesAlong(host: Host, turns: seq<Turn>)
    decreases |turns|
  {
    turns != [] && (Clashes(host, turns[0]) || ClashesAlong(After(host, turns[0]), turns[1..]))
  }

  ghost predicate OnePerPortThroughout(host: Host, turns: seq<Turn>)
    decreases |turns|
  {
    OnePerPort(host.running) && (turns != [] ==> OnePerPortThroughout(After(host, turns[0]), turns[1..]))
  }

  lemma OnePerPortAfterIff(host: Host, t: Turn)
    requires OnePerPort(host.running) && Fresh(host, t)
    ensures OnePerPort(After(host, t).running) <==> !Clashes(host, t)
  {
    var running, running' := host.running, After(host, t).running;
    if Clashes(host, t) {
      var started := t.answers.start.value;
      var port := started.forwardedPort.value;
      var sb :| Forwards(running, sb, port);
      assert Forwards(running', sb, port) && Forwards(running', started.sandboxId, port);
    } else {
      forall x, y, port | Forwards(running', x, port) && Forwards(running', y, port) ensures x == y {
        assert x in running ==> Forwards(running, x, port);
        assert y in running ==> Forwards(running, y, port);
      }
    }
  }

  // Every port identifies its sandbox at every point of a run if and only if no start reports a port in use.
  lemma {:induction false} OnePerPortThroughoutIff(host: Host, turns: seq<Turn>)
    requires OnePerPort(host.running) && FreshAlong(host, turns)
    ensures OnePerPortThroughout(host, turns) <==> !ClashesAlong(host, turns)
    decreases |turns|
  {
    if turns != [] {
      OnePerPortAfterIff(host, turns[0]);
      if OnePerPort(After(host, turns[0]).running) {
        OnePerPortThroughoutIff(After(host, turns[0]), turns[1..]);
      }
    }
  }

  lemma {:induction false} OnePerPortAtEnd(host: Host, turns: seq<Turn>)
    requires OnePerPortThroughout(host, turns)
    ensures OnePerPort(Run(host, turns).running)
    decreases |turns|
  {
    if turns != [] {
      OnePerPortAtEnd(After(host, turns[0]), turns[1..]);
    }
  }

  // When nothing leaked and no port was in use twice, a consumer's message reaches the running sandbox of that
  // consumer's active booking and no other.
  lemma MessagesReachOwnSandbox(turns: seq<Turn>, id: BookingId, wired: bool)
    requires FreshAlong(EMPTY_HOST, turns) && !LeaksAlong(EMPTY_HOST, turns) && !ClashesAlong(EMPTY_HOST, turns)
    ensures var host := Run(EMPTY_HOST, turns);
            var port := Recipient(host, id, wired);
            port.Some? ==>
              && IsActive(host.rows, id)
              && forall sb :: Forwards(host.running, sb, port.value) <==> host.rows[id].sandboxId == Some(sb)
  {
    var port := Recipient(Run(EMPTY_HOST, turns), id, wired);
    if port.Some? {
      MessagesGoToOwnPort(turns, id, wired, port.value);
    }
    OnePerPortThroughoutIff(EMPTY_HOST, turns);
    OnePerPortAtEnd(EMPTY_HOST, turns);
  }

  // ------------------------------------------------------------ one event in plain terms

  // A start that fails leaves everything as it was. Any other runs its sandbox and maps its port, if it forwards one;
  // and when the row can be written, the booking is active there, with its sandbox and the time, under the offering it
  // was first recorded with.
  lemma ActivationEffect(host: Host, id: BookingId, offeringId: string, a: Answers)
    ensures var (host', ok) := Dispatch(host, BookingActivated(id, offeringId), a);
            && (ok <==> a.start.Some? && a.writable)
            && (a.start.None? ==> host' == host)
            && (a.start.Some? ==>
                  && var (sb, port) := (a.start.value.sandboxId, a.start.value.forwardedPort);
                  && host'.running == host.running[sb := port]
                  && host'.ports == (if port.Some? then host.ports[id := port.value] else host.ports)
                  && if !a.writable then host'.rows == host.rows
                     else
                       var offering := if id in host.rows then host.rows[id].offeringId else offeringId;
                       host'.rows == host.rows[id := WorkerRow(offering, ActiveRow, Some(a.now), Some(sb))])
  {
  }

  // A cancellation fails when the rows cannot be read, or the sandbox of the active row cannot be stopped, or the row
  // cannot be written; otherwise the port is unmapped and an active row is cancelled, which keeps the rest of it. The
  // sandbox of an active row is gone once it was stopped.
  lemma CancellationEffect(host: Host, id: BookingId, a: Answers)
    ensures var (host', ok) := Dispatch(host, BookingCancelled(id), a);
            var active := id in host.rows && host.rows[id].status == ActiveRow;
            var owns := active && host.rows[id].sandboxId.Some?;
            && (ok <==> a.readable && (owns ==> a.stopped) && (active ==> a.writable))
            && host'.running == (if a.readable && owns && a.stopped then host.running - {host.rows[id].sandboxId.value}
                                 else host.running)
            && host'.ports == (if ok then host.ports - {id} else host.ports)
            && host'.rows == if ok && active
                             then host.rows[id := WorkerRow(host.rows[id].offeringId, CancelledRow,
                                                            host.rows[id].startedAt, host.rows[id].sandboxId)]
                             else host.rows
  {
  }

  // Any other event leaves everything as it was.
  lemma OtherEffect(host: Host, event: WorkerEvent, a: Answers)
    requires !event.BookingActivated? && !event.BookingCancelled?
    ensures Dispatch(host, event, a) == (host, true)
  {
  }

  // ------------------------------------------------------------ where rows come from

  predicate Records(t: Turn, id: BookingId) {
    t.event.BookingActivated? && t.event.bookingId == id && t.answers.start.Some? && t.answers.writable
  }

  // Over every run a booking has a row exactly when a start of it was recorded; the row carries the offering of the
  // first such start, and the time and the sandbox of the last.
  lemma {:induction false} RowsFollowStarts(turns: seq<Turn>, id: BookingId) returns (first: nat, last: nat)
    ensures var rows := Run(EMPTY_HOST, turns).rows;
            && (id !in rows ==> forall i | 0 <= i < |turns| :: !Records(turns[i], id))
            && (id in rows ==>
                  && first <= last < |turns| && Records(turns[first], id) && Records(turns[last], id)
                  && (forall i | 0 <= i < first :: !Records(turns[i], id))
                  && (forall i | last < i < |turns| :: !Records(turns[i], id))
                  && rows[id].offeringId == turns[first].event.offeringId
                  && rows[id].startedAt == Some(turns[last].answers.now)
                  && rows[id].sandboxId == Some(turns[last].answers.start.value.sandboxId))
    decreases |turns|
  {
    first, last := 0, 0;
    if turns != [] {
      var n := |turns| - 1;
      var t := turns[n];
      first, last := RowsFollowStarts(turns[..n], id);
      assert turns == turns[..n] + [t];
      RunAppend(EMPTY_HOST, turns[..n], [t]);
      var host := Run(EMPTY_HOST, turns[..n]);
      assert Run(host, [t]) == After(host, t) by {
        assert [t][1..] == [];
      }
      if Records(t, id) {
        first, last := if id in host.rows then first else n, n;
      }
    }
  }

  function Activation(id: BookingId, offeringId: string, sb: SandboxId, port: Port, now: int): Turn {
    Turn(BookingActivated(id, offeringId), Answers(Some(Handle(sb, Some(port))), true, true, true, now))
  }

  // A backend that reports one port for all of its sandboxes leaks nothing, and yet two bookings share the port.
  lemma BookingsCanShareAPort(i: BookingId, j: BookingId, offeringId: string, x: SandboxId, y: SandboxId, port: Port,
                              now: int)
    requires i != j && x != y
    ensures var turns := [Activation(i, offeringId, x, port, now), Activation(j, offeringId, y, port, now)];
            var host := Run(EMPTY_HOST, turns);
            && FreshAlong(EMPTY_HOST, turns) && !LeaksAlong(EMPTY_HOST, turns)
            && Recipient(host, i, true) == Recipient(host, j, true) == Some(port)
            && Forwards(host.running, x, port) && Forwards(host.running, y, port)
  {
    var t, u := Activation(i, offeringId, x, port, now), Activation(j, offeringId, y, port, now);
    var first := After(EMPTY_HOST, t);
    var second := After(first, u);
    assert [t, u][1..] == [u] && [u][1..] == [];
    assert Run(first, [u]) == Run(second, []) == second;
    assert FreshAlong(first, [u]) && !LeaksAlong(first, [u]);
  }
}
