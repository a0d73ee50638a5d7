// The worker's own form: the row store and the handler as objects updated in place, and the event loop that feeds
// the handler one frame at a time and reconnects with a growing delay.
module WorkerLoop {
  import opened Wrappers
  import opened Worker

  class State {
    var rows: map<BookingId, WorkerRow>

    constructor ()
      ensures rows == map[]
    {
      rows := map[];
    }

    method UpsertBooking(id: BookingId, row: WorkerRow, writable: bool) returns (ok: bool)
      modifies this
      ensures ok == writable
      ensures rows == if ok then Upserted(old(rows), id, row) else old(rows)
    {
      if writable {
        if id in rows {
          rows := rows[id := WorkerRow(rows[id].offeringId, row.status, row.startedAt, row.sandboxId)];
        } else {
          rows := rows[id := row];
        }
      }
      return writable;
    }

    // Every active row, once each, in no particular order.
    method ListActiveBookings() returns (active: seq<(BookingId, WorkerRow)>)
      ensures forall id :: IsActive(rows, id) <==> exists k :: 0 <= k < |active| && active[k].0 == id
      ensures forall k :: 0 <= k < |active| ==> IsActive(rows, active[k].0) && active[k].1 == rows[active[k].0]
      ensures forall j, k :: 0 <= j < k < |active| ==> active[j].0 != active[k].0
    {
      active := [];
      var todo := rows.Keys;
      while todo != {}
        invariant todo <= rows.Keys
        invariant forall k :: 0 <= k < |active| ==>
                    IsActive(rows, active[k].0) && active[k].1 == rows[active[k].0] && active[k].0 !in todo
        invariant forall id :: IsActive(rows, id) && id !in todo ==> exists k :: 0 <= k < |active| && active[k].0 == id
        invariant forall j, k :: 0 <= j < k < |active| ==> active[j].0 != active[k].0
        decreases |todo|
      {
        var id :| id in todo;
        ghost var listed, rest := active, todo - {id};
        if rows[id].status.ActiveRow? {
          active := active + [(id, rows[id])];
          assert active[|listed|].0 == id;
        }
        forall j | IsActive(rows, j) && j !in rest ensures exists k :: 0 <= k < |active| && active[k].0 == j {
          if j != id {
            var k :| 0 <= k < |listed| && listed[k].0 == j;
            assert active[k].0 == j;
          }
        }
        todo := todo - {id};
      }
    }
  }

  // The first row with the given id.
  method Find(rows: seq<(BookingId, WorkerRow)>, id: BookingId) returns (found: Option<WorkerRow>)
    ensures found.None? <==> forall k :: 0 <= k < |rows| ==> rows[k].0 != id
    ensures found.Some? ==> (id, found.value) in rows
  {
    for i := 0 to |rows|
      invariant forall k :: 0 <= k < i ==> rows[k].0 != id
    {
      if rows[i].0 == id {
        return Some(rows[i].1);
      }
    }
    return None;
  }

  class BookingHandler {
    const state: State
    const wired: bool // an API client and a worker token are attached
    var sandboxPorts: map<BookingId, Port>
    ghost var running: map<SandboxId, Option<Port>>

    ghost function Now(): Host
      reads this, state
    {
      Host(state.rows, sandboxPorts, running)
    }

    constructor (state: State, wired: bool)
      ensures this.state == state && this.wired == wired && sandboxPorts == map[] && running == map[]
    {
      this.state := state;
      this.wired := wired;
      sandboxPorts := map[];
      running := map[];
    }

    method Activated(id: BookingId, offeringId: string, a: Answers) returns (ok: bool)
      modifies this, state
      ensures (Now(), ok) == Activate(old(Now()), id, offeringId, a)
    {
      match a.start {
        case None => return false;
        case Some(handle) =>
          running := running[handle.sandboxId := handle.forwardedPort];
          if handle.forwardedPort.Some? {
            sandboxPorts := sandboxPorts[id := handle.forwardedPort.value];
          }
          var row := WorkerRow(offeringId, ActiveRow, Some(a.now), Some(handle.sandboxId));
          ok := state.UpsertBooking(id, row, a.writable);
      }
    }

    method Cancelled(id: BookingId, a: Answers) returns (ok: bool)
      modifies this, state
      ensures (Now(), ok) == Deactivate(old(Now()), id, a)
    {
      if !a.readable {
        return false;
      }
      var active := state.ListActiveBookings();
      var found := Find(active, id);
      if found.Some? {
        var row := found.value;
        if row.sandboxId.Some? {
          if !a.stopped {
            return false;
          }
          running := running - {row.sandboxId.value};
        }
        var ended := WorkerRow(row.offeringId, CancelledRow, row.startedAt, row.sandboxId);
        ok := state.UpsertBooking(id, ended, a.writable);
        if !ok {
          return false;
        }
      }
      sandboxPorts := sandboxPorts - {id};
      return true;
    }

    method RelayMessage(id: BookingId) returns (port: Option<Port>)
      ensures port == Recipient(Now(), id, wired)
    {
      if wired && id in sandboxPorts {
        return Some(sandboxPorts[id]);
      }
      return None;
    }

    method Dispatch(event: WorkerEvent, a: Answers) returns (ok: bool)
      modifies this, state
      ensures (Now(), ok) == Worker.Dispatch(old(Now()), event, a)
    {
      match event {
        case BookingActivated(id, offeringId) => ok := Activated(id, offeringId, a);
        case BookingCancelled(id) => ok := Cancelled(id, a);
        case MessageUser(id, _) =>
          var _ := RelayMessage(id);
          ok := true;
        case Ping => ok := true;
        case Sealed(_) => ok := true;
      }
    }
  }

  // ------------------------------------------------------------ the event loop

  const MAX_BACKOFF: nat := 60

  // A frame of the connection: text that parsed to an event or not, an orderly close, an error, or anything else.
  datatype Frame = Text(event: Option<WorkerEvent>, answers: Answers) | Close | Failure | Other

  // An envelope may not hold another one.
  function OpenSealed(inner: Option<WorkerEvent>): Option<WorkerEvent> {
    if inner.Some? && inner.value.Sealed? then None else inner
  }

  // What a frame hands to the handler.
  function Unwrapped(f: Frame): seq<Turn> {
    if !f.Text? || f.event.None? then []
    else
      match f.event.value
      case Ping => []
      case Sealed(inner) => if OpenSealed(inner).None? then [] else [Turn(OpenSealed(inner).value, f.answers)]
      case event => [Turn(event, f.answers)]
  }

  function Delivered(frames: seq<Frame>): seq<Turn> {
    if frames == [] || frames[0].Close? || frames[0].Failure? then []
    else Unwrapped(frames[0]) + Delivered(frames[1..])
  }

  // A connection attempt that fails, or a session with its frames.
  type Attempt = Option<seq<Frame>>

  function AllDelivered(attempts: seq<Attempt>): seq<Turn> {
    if attempts == [] then []
    else (if attempts[0].Some? then Delivered(attempts[0].value) else []) + AllDelivered(attempts[1..])
  }

  function Doubled(backoff: nat): nat {
    if 2 * backoff < MAX_BACKOFF then 2 * backoff else MAX_BACKOFF
  }

  function Delays(backoff: nat, attempts: seq<Attempt>): (delays: seq<nat>)
    ensures |delays| == |attempts|
    decreases |attempts|
  {
    if attempts == [] then []
    else
      var delay := if attempts[0].Some? then 1 else backoff;
      [delay] + Delays(Doubled(delay), attempts[1..])
  }

  function Pow2(n: nat): (p: nat)
    ensures p > n
  {
    if n == 0 then 1 else 2 * Pow2(n - 1)
  }

  // One session: frames in order until the connection ends.
  method Serve(handler: BookingHandler, frames: seq<Frame>)
    modifies handler, handler.state
    ensures handler.Now() == Run(old(handler.Now()), Delivered(frames))
  {
    var i := 0;
    while i < |frames| && !frames[i].Close? && !frames[i].Failure?
      invariant i <= |frames|
      invariant Run(handler.Now(), Delivered(frames[i..])) == Run(old(handler.Now()), Delivered(frames))
    {
      var frame := frames[i];
      assert frames[i..][1..] == frames[i + 1..];
      RunAppend(handler.Now(), Unwrapped(frame), Delivered(frames[i + 1..]));
      if frame.Text? && frame.event.Some? {
        match frame.event.value {
          case Ping =>
          case Sealed(inner) =>
            if inner.Some? && !inner.value.Sealed? {
              RunOne(handler.Now(), Turn(inner.value, frame.answers));
              var _ := handler.Dispatch(inner.value, frame.answers);
            }
          case event =>
            RunOne(handler.Now(), Turn(event, frame.answers));
            var _ := handler.Dispatch(event, frame.answers);
        }
      }
      i := i + 1;
    }
  }

  lemma RunOne(host: Host, t: Turn)
    ensures Run(host, [t]) == After(host, t)
  {
    assert Run(After(host, t), [t][1..]) == After(host, t);
  }

  // Any finite part of the endless loop, with the delay slept after each attempt. A malformed address ends it before
  // the first attempt.
  method RunWs(handler: BookingHandler, validUrl: bool, attempts: seq<Attempt>) returns (slept: seq<nat>, ok: bool)
    modifies handler, handler.state
    ensures ok == (validUrl || attempts == [])
    ensures ok ==> handler.Now() == Run(old(handler.Now()), AllDelivered(attempts)) && slept == Delays(1, attempts)
    ensures !ok ==> handler.Now() == old(handler.Now()) && slept == []
  {
    if attempts != [] && !validUrl {
      return [], false;
    }
    var backoff: nat := 1;
    slept, ok := [], true;
    for i := 0 to |attempts|
      invariant Run(handler.Now(), AllDelivered(attempts[i..])) == Run(old(handler.Now()), AllDelivered(attempts))
      invariant slept + Delays(backoff, attempts[i..]) == Delays(1, attempts)
    {
      assert attempts[i..][1..] == attempts[i + 1..];
      match attempts[i] {
        case Some(frames) =>
          backoff := 1;
          RunAppend(handler.Now(), Delivered(frames), AllDelivered(attempts[i + 1..]));
          Serve(handler, frames);
        case None =>
          assert AllDelivered(attempts[i..]) == AllDelivered(attempts[i + 1..]);
      }
      slept := slept + [backoff];
      backoff := if 2 * backoff < MAX_BACKOFF then 2 * backoff else MAX_BACKOFF;
    }
  }

  // ------------------------------------------------------------ which frames reach the handler

  predicate Ends(f: Frame) {
    f.Close? || f.Failure?
  }

  // The number of frames before the connection ends.
  function Lifetime(frames: seq<Frame>): (n: nat)
    ensures n <= |frames| && (n < |frames| ==> Ends(frames[n]))
    ensures forall i | 0 <= i < n :: !Ends(frames[i])
  {
    if frames == [] || Ends(frames[0]) then 0 else 1 + Lifetime(frames[1..])
  }

  // A text frame with a plain event other than a ping, or with an envelope that holds an event other than an envelope.
  predicate ForHandler(f: Frame) {
    && f.Text? && f.event.Some?
    && var e := f.event.value;
    if e.Sealed? then e.inner.Some? && !e.inner.value.Sealed? else e != Ping
  }

  // That event.
  function EventIn(f: Frame): WorkerEvent
    requires ForHandler(f)
  {
    if f.event.value.Sealed? then f.event.value.inner.value else f.event.value
  }

  // The number of such frames among the first i.
  function Earlier(frames: seq<Frame>, i: nat): nat
    requires i <= |frames|
  {
    if i == 0 then 0 else Earlier(frames, i - 1) + (if ForHandler(frames[i - 1]) then 1 else 0)
  }

  lemma {:induction false} EarlierShift(frames: seq<Frame>, i: nat)
    requires 0 < i <= |frames|
    ensures Earlier(frames, i) == (if ForHandler(frames[0]) then 1 else 0) + Earlier(frames[1..], i - 1)
    decreases i
  {
    if i > 1 {
      EarlierShift(frames, i - 1);
    } else {
      assert Earlier(frames, 0) == 0;
    }
  }

  // In a session, the event of every such frame before the end is handed over with that frame's answers, at the place
  // given by the number of such frames before it, and nothing else is.
  lemma {:induction false} DeliveredAt(frames: seq<Frame>, i: nat)
    requires i < Lifetime(frames) && ForHandler(frames[i])
    ensures Earlier(frames, i) < |Delivered(frames)|
    ensures Delivered(frames)[Earlier(frames, i)] == Turn(EventIn(frames[i]), frames[i].answers)
    decreases i
  {
    UnwrappedIsEventIn(frames[0]);
    if i > 0 {
      EarlierShift(frames, i);
      DeliveredAt(frames[1..], i - 1);
    }
  }

  lemma UnwrappedIsEventIn(f: Frame)
    ensures Unwrapped(f) == if ForHandler(f) then [Turn(EventIn(f), f.answers)] else []
  {
  }

  lemma {:induction false} DeliveredOnly(frames: seq<Frame>, k: nat) returns (i: nat)
    requires k < |Delivered(frames)|
    ensures i < Lifetime(frames) && ForHandler(frames[i]) && Earlier(frames, i) == k
    decreases |frames|
  {
    if ForHandler(frames[0]) && k == 0 {
      i := 0;
    } else {
      var before := if ForHandler(frames[0]) then 1 else 0;
      var j := DeliveredOnly(frames[1..], k - before);
      i := j + 1;
      EarlierShift(frames, i);
    }
  }

  lemma {:induction false} DeliveredCount(frames: seq<Frame>)
    ensures |Delivered(frames)| == Earlier(frames, Lifetime(frames))
    decreases |frames|
  {
    if Lifetime(frames) > 0 {
      DeliveredCount(frames[1..]);
      EarlierShift(frames, Lifetime(frames));
    }
  }

  // The number of such frames in the sessions of the first a attempts.
  function EarlierSessions(attempts: seq<Attempt>, a: nat): nat
    requires a <= |attempts|
  {
    if a == 0 then 0
    else
      var last := attempts[a - 1];
      EarlierSessions(attempts, a - 1) + (if last.Some? then Earlier(last.value, Lifetime(last.value)) else 0)
  }

  lemma {:induction false} EarlierSessionsShift(attempts: seq<Attempt>, a: nat)
    requires 0 < a <= |attempts|
    ensures EarlierSessions(attempts, a) == EarlierSessions(attempts, 1) + EarlierSessions(attempts[1..], a - 1)
    decreases a
  {
    if a > 1 {
      EarlierSessionsShift(attempts, a - 1);
    }
  }

  // And over all attempts, session after session.
  lemma {:induction false} AllDeliveredAt(attempts: seq<Attempt>, a: nat, i: nat)
    requires a < |attempts| && attempts[a].Some?
    requires i < Lifetime(attempts[a].value) && ForHandler(attempts[a].value[i])
    ensures var (frames, k) := (attempts[a].value, EarlierSessions(attempts, a) + Earlier(attempts[a].value, i));
            k < |AllDelivered(attempts)| && AllDelivered(attempts)[k] == Turn(EventIn(frames[i]), frames[i].answers)
    decreases a
  {
    FirstSession(attempts);
    if a == 0 {
      DeliveredAt(attempts[0].value, i);
    } else {
      EarlierSessionsShift(attempts, a);
      AllDeliveredAt(attempts[1..], a - 1, i);
    }
  }

  // The deliveries of the first attempt, as many as its frames for the handler, come before the rest.
  lemma FirstSession(attempts: seq<Attempt>)
    requires attempts != []
    ensures var first := AllDelivered(attempts[..1]);
            && AllDelivered(attempts) == first + AllDelivered(attempts[1..])
            && |first| == EarlierSessions(attempts, 1)
            && (attempts[0].Some? ==> first == Delivered(attempts[0].value))
  {
    assert attempts[..1][1..] == [] && EarlierSessions(attempts, 0) == 0;
    if attempts[0].Some? {
      DeliveredCount(attempts[0].value);
    }
  }

  lemma {:induction false} AllDeliveredOnly(attempts: seq<Attempt>, k: nat) returns (a: nat, i: nat)
    requires k < |AllDelivered(attempts)|
    ensures a < |attempts| && attempts[a].Some?
    ensures i < Lifetime(attempts[a].value) && ForHandler(attempts[a].value[i])
    ensures EarlierSessions(attempts, a) + Earlier(attempts[a].value, i) == k
    decreases |attempts|
  {
    FirstSession(attempts);
    if k < EarlierSessions(attempts, 1) {
      a := 0;
      i := DeliveredOnly(attempts[0].value, k);
    } else {
      var b;
      b, i := AllDeliveredOnly(attempts[1..], k - EarlierSessions(attempts, 1));
      a := b + 1;
      EarlierSessionsShift(attempts, a);
    }
  }

  // Whatever arrives, the handler never sees an envelope.
  lemma {:induction false} EnvelopesNeverReachTheHandler(attempts: seq<Attempt>, t: Turn)
    requires t in AllDelivered(attempts)
    ensures !t.event.Sealed?
  {
    if attempts[0].Some? && t in Delivered(attempts[0].value) {
      SessionUnseals(attempts[0].value, t);
    } else {
      EnvelopesNeverReachTheHandler(attempts[1..], t);
    }
  }

  lemma {:induction false} SessionUnseals(frames: seq<Frame>, t: Turn)
    requires t in Delivered(frames)
    ensures !t.event.Sealed?
  {
    if t !in Unwrapped(frames[0]) {
      SessionUnseals(frames[1..], t);
    }
  }

  // The delay doubles with every refused attempt since the last session and never passes a minute.
  lemma {:induction false} DelaySinceSession(backoff: nat, attempts: seq<Attempt>, i: nat, session: nat)
    requires session <= i < |attempts| && attempts[session].Some?
    requires forall k | session < k <= i :: attempts[k].None?
    ensures Delays(backoff, attempts)[i] == if Pow2(i - session) < 60 then Pow2(i - session) else 60
    decreases session
  {
    if session == 0 {
      if i > 0 {
        DelayWhileRefused(Doubled(1), attempts[1..], i - 1, 1);
      }
    } else {
      var delay := if attempts[0].Some? then 1 else backoff;
      DelaySinceSession(Doubled(delay), attempts[1..], i - 1, session - 1);
    }
  }

  lemma {:induction false} DelayWhileRefused(backoff: nat, attempts: seq<Attempt>, i: nat, n: nat)
    requires i < |attempts| && forall k | 0 <= k <= i :: attempts[k].None?
    requires backoff == if Pow2(n) < 60 then Pow2(n) else 60
    ensures Delays(backoff, attempts)[i] == if Pow2(n + i) < 60 then Pow2(n + i) else 60
    decreases i
  {
    if i > 0 {
      DelayWhileRefused(Doubled(backoff), attempts[1..], i - 1, n + 1);
    }
  }
}
