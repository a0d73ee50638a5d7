// In-memory fan-out of control-plane messages: a set of bounded queues per channel, best effort on a full queue.
module Realtime {
  import opened Wrappers

  type Channel = string
  type Payload = string
  type QueueId = nat

  const CAPACITY: nat := 64

  datatype Hub = Hub(subscribers: map<Channel, set<QueueId>>, queues: map<QueueId, seq<Payload>>, next: QueueId)

  const EMPTY_HUB := Hub(map[], map[], 0)

  datatype Op =
    | Register(channel: Channel)
    | Unregister(channel: Channel, queue: QueueId)
    | Publish(channel: Channel, payload: Payload)
    | Get(queue: QueueId)

  function Members(hub: Hub, channel: Channel): set<QueueId> {
    if channel in hub.subscribers then hub.subscribers[channel] else {}
  }

  // A message joins a queue with room and is dropped by a full one.
  function Offered(queue: seq<Payload>, payload: Payload): seq<Payload> {
    if |queue| < CAPACITY then queue + [payload] else queue
  }

  function Apply(hub: Hub, op: Op): Hub {
    match op
    case Register(channel) =>
      Hub(hub.subscribers[channel := Members(hub, channel) + {hub.next}], hub.queues[hub.next := []], hub.next + 1)
    case Unregister(channel, queue) =>
      var left := Members(hub, channel) - {queue};
      hub.(subscribers := if left == {} then hub.subscribers - {channel} else hub.subscribers[channel := left])
    case Publish(channel, payload) =>
      hub.(queues := map q | q in hub.queues ::
                       if q in Members(hub, channel) then Offered(hub.queues[q], payload) else hub.queues[q])
    case Get(queue) => // waits when the queue is empty
      if queue in hub.queues && hub.queues[queue] != [] then hub.(queues := hub.queues[queue := hub.queues[queue][1..]])
      else hub
  }

  // ------------------------------------------------------------ one subscriber's view of a run

  // home is the channel from registration to unregistration; sent is what was published there meanwhile, and
  // dropped counts how often the queue held 64 messages just then.
  datatype View = View(home: Option<Channel>, sent: seq<Payload>, received: seq<Payload>, dropped: nat)

  const NO_VIEW := View(None, [], [], 0)

  function Backlog(hub: Hub, q: QueueId): seq<Payload> {
    if q in hub.queues then hub.queues[q] else []
  }

  function Observe(hub: Hub, q: QueueId, v: View, op: Op): View {
    match op
    case Register(channel) => if hub.next == q then v.(home := Some(channel)) else v
    case Unregister(channel, queue) => if queue == q && v.home == Some(channel) then v.(home := None) else v
    case Publish(channel, payload) =>
      if v.home != Some(channel) then v
      else v.(sent := v.sent + [payload], dropped := v.dropped + if |Backlog(hub, q)| >= 64 then 1 else 0)
    case Get(queue) =>
      if queue == q && Backlog(hub, q) != [] then v.(received := v.received + [Backlog(hub, q)[0]]) else v
  }

  function Run(hub: Hub, ops: seq<Op>): Hub
    decreases |ops|
  {
    if ops == [] then hub else Run(Apply(hub, ops[0]), ops[1..])
  }

  function Watch(hub: Hub, q: QueueId, v: View, ops: seq<Op>): View
    decreases |ops|
  {
    if ops == [] then v else Watch(Apply(hub, ops[0]), q, Observe(hub, q, v, ops[0]), ops[1..])
  }

  // ------------------------------------------------------------ subsequences

  predicate Subsequence<T(==)>(a: seq<T>, b: seq<T>)
    decreases |b|
  {
    a == [] || (b != [] && (Subsequence(a, b[..|b| - 1])
                            || (a[|a| - 1] == b[|b| - 1] && Subsequence(a[..|a| - 1], b[..|b| - 1]))))
  }

  lemma ExtendBoth<T>(a: seq<T>, b: seq<T>, x: T)
    requires Subsequence(a, b)
    ensures Subsequence(a + [x], b + [x])
  {
    assert (a + [x])[..|a|] == a && (b + [x])[..|b|] == b;
  }

  lemma ExtendRight<T>(a: seq<T>, b: seq<T>, x: T)
    requires Subsequence(a, b)
    ensures Subsequence(a, b + [x])
  {
    assert (b + [x])[..|b|] == b;
  }

  // A subsequence as long as the whole is the whole.
  lemma {:induction false} FullSubsequence<T>(a: seq<T>, b: seq<T>)
    requires Subsequence(a, b)
    ensures |a| <= |b| && (|a| == |b| ==> a == b)
    decreases |b|
  {
    if a != [] {
      if Subsequence(a, b[..|b| - 1]) {
        FullSubsequence(a, b[..|b| - 1]);
      } else {
        FullSubsequence(a[..|a| - 1], b[..|b| - 1]);
        assert |a| == |b| ==> a == a[..|a| - 1] + [a[|a| - 1]] == b[..|b| - 1] + [b[|b| - 1]] == b;
      }
    }
  }

  // ------------------------------------------------------------ invariants

  predicate HubSound(hub: Hub) {
    && (forall ch | ch in hub.subscribers :: hub.subscribers[ch] != {})
    && (forall ch, q | ch in hub.subscribers && q in hub.subscribers[ch] :: q in hub.queues)
    && (forall q | q in hub.queues :: q < hub.next)
  }

  ghost predicate ViewSound(hub: Hub, q: QueueId, v: View) {
    && (forall ch :: q in Members(hub, ch) <==> v.home == Some(ch))
    && (q !in hub.queues ==> v == NO_VIEW)
    && (q < hub.next ==> q in hub.queues)
    && Subsequence(v.received + Backlog(hub, q), v.sent)
    && |v.received| + |Backlog(hub, q)| + v.dropped == |v.sent|
  }

  lemma ApplyKeepsHub(hub: Hub, op: Op)
    requires HubSound(hub)
    ensures HubSound(Apply(hub, op))
  {
  }

  lemma PublishKeepsView(hub: Hub, q: QueueId, v: View, channel: Channel, payload: Payload)
    requires HubSound(hub) && ViewSound(hub, q, v)
    ensures ViewSound(Apply(hub, Publish(channel, payload)), q, Observe(hub, q, v, Publish(channel, payload)))
  {
    var hub' := Apply(hub, Publish(channel, payload));
    var seen := v.received + Backlog(hub, q);
    assert forall ch :: Members(hub', ch) == Members(hub, ch);
    if v.home == Some(channel) {
      assert q in Members(hub, channel);
      if |Backlog(hub, q)| < CAPACITY {
        assert v.received + Backlog(hub', q) == seen + [payload];
        ExtendBoth(seen, v.sent, payload);
      } else {
        ExtendRight(seen, v.sent, payload);
      }
    }
  }

  lemma ObserveKeepsView(hub: Hub, q: QueueId, v: View, op: Op)
    requires HubSound(hub) && ViewSound(hub, q, v)
    ensures ViewSound(Apply(hub, op), q, Observe(hub, q, v, op))
  {
    var hub', v' := Apply(hub, op), Observe(hub, q, v, op);
    match op
    case Register(channel) =>
      forall ch ensures q in Members(hub', ch) <==> v'.home == Some(ch) {
        assert q in Members(hub, ch) <==> v.home == Some(ch);
      }
    case Unregister(channel, _) =>
      forall ch ensures q in Members(hub', ch) <==> v'.home == Some(ch) {
        assert q in Members(hub, ch) <==> v.home == Some(ch);
      }
    case Publish(channel, payload) => PublishKeepsView(hub, q, v, channel, payload);
    case Get(_) => assert v'.received + Backlog(hub', q) == v.received + Backlog(hub, q);
  }

  lemma {:induction false} WatchKeepsView(hub: Hub, q: QueueId, v: View, ops: seq<Op>)
    requires HubSound(hub) && ViewSound(hub, q, v)
    ensures HubSound(Run(hub, ops)) && ViewSound(Run(hub, ops), q, Watch(hub, q, v, ops))
    decreases |ops|
  {
    if ops != [] {
      ApplyKeepsHub(hub, ops[0]);
      ObserveKeepsView(hub, q, v, ops[0]);
      WatchKeepsView(Apply(hub, ops[0]), q, Observe(hub, q, v, ops[0]), ops[1..]);
    }
  }

  // ------------------------------------------------------------ main results

  // After any run, what a subscriber has received followed by what is queued for it is a subsequence, in order, of
  // what was published on its channel while it was registered; and it is the whole of it if and only if no
  // publication found its queue full.
  lemma DeliveredInOrder(ops: seq<Op>, q: QueueId)
    ensures var hub, v := Run(EMPTY_HUB, ops), Watch(EMPTY_HUB, q, NO_VIEW, ops);
            && Subsequence(v.received + Backlog(hub, q), v.sent)
            && (v.received + Backlog(hub, q) == v.sent <==> v.dropped == 0)
            && |Backlog(hub, q)| + |v.received| + v.dropped == |v.sent|
  {
    WatchKeepsView(EMPTY_HUB, q, NO_VIEW, ops);
    FullSubsequence(Watch(EMPTY_HUB, q, NO_VIEW, ops).received + Backlog(Run(EMPTY_HUB, ops), q),
                    Watch(EMPTY_HUB, q, NO_VIEW, ops).sent);
  }

  predicate Subscribed(ops: seq<Op>, q: QueueId, channel: Channel) {
    Watch(EMPTY_HUB, q, NO_VIEW, ops).home == Some(channel)
  }

  // A subscription ends with unregistration and no channel is left with an empty set.
  lemma NoEmptyChannels(ops: seq<Op>, channel: Channel)
    ensures channel in Run(EMPTY_HUB, ops).subscribers <==>
            exists q :: Subscribed(ops, q, channel)
  {
    var hub := Run(EMPTY_HUB, ops);
    WatchKeepsView(EMPTY_HUB, 0, NO_VIEW, ops);
    if channel in hub.subscribers {
      var q :| q in hub.subscribers[channel];
      WatchKeepsView(EMPTY_HUB, q, NO_VIEW, ops);
      assert q in Members(hub, channel);
      assert Subscribed(ops, q, channel);
    } else {
      forall q ensures !Subscribed(ops, q, channel) {
        WatchKeepsView(EMPTY_HUB, q, NO_VIEW, ops);
        assert q !in Members(hub, channel);
      }
    }
  }

  // A publication reaches every subscriber of its channel with room, and nothing else changes.
  lemma PublishReachesItsChannel(ops: seq<Op>, channel: Channel, payload: Payload, q: QueueId)
    ensures var hub, v := Run(EMPTY_HUB, ops), Watch(EMPTY_HUB, q, NO_VIEW, ops);
            Backlog(Apply(hub, Publish(channel, payload)), q)
            == Backlog(hub, q) + (if v.home == Some(channel) && |Backlog(hub, q)| < 64 then [payload] else [])
  {
    WatchKeepsView(EMPTY_HUB, q, NO_VIEW, ops);
    assert q in Members(Run(EMPTY_HUB, ops), channel) <==> Watch(EMPTY_HUB, q, NO_VIEW, ops).home == Some(channel);
  }

  // ------------------------------------------------------------ the module's own form

  class Broker {
    var subscribers: map<Channel, set<QueueId>>
    var queues: map<QueueId, seq<Payload>>
    var next: QueueId

    ghost function State(): Hub
      reads this
    {
      Hub(subscribers, queues, next)
    }

    constructor ()
      ensures State() == EMPTY_HUB
    {
      subscribers := map[];
      queues := map[];
      next := 0;
    }

    method Register(channel: Channel) returns (queue: QueueId)
      modifies this
      ensures queue == old(next) && State() == Apply(old(State()), Op.Register(channel))
    {
      queue := next;
      next := next + 1;
      queues := queues[queue := []];
      if channel !in subscribers {
        subscribers := subscribers[channel := {}];
      }
      subscribers := subscribers[channel := subscribers[channel] + {queue}];
    }

    method Unregister(channel: Channel, queue: QueueId)
      modifies this
      ensures State() == Apply(old(State()), Op.Unregister(channel, queue))
    {
      if channel !in subscribers {
        subscribers := subscribers[channel := {}];
      }
      subscribers := subscribers[channel := subscribers[channel] - {queue}];
      if subscribers[channel] == {} {
        subscribers := subscribers - {channel};
      }
      assert subscribers == Apply(old(State()), Op.Unregister(channel, queue)).subscribers;
    }

    method Publish(channel: Channel, payload: Payload)
      modifies this
      ensures State() == Apply(old(State()), Op.Publish(channel, payload))
    {
      var todo := if channel in subscribers then subscribers[channel] else {};
      while todo != {}
        invariant todo <= Members(old(State()), channel)
        invariant subscribers == old(subscribers) && next == old(next) && queues.Keys == old(queues.Keys)
        invariant forall q | q in queues ::
                    queues[q] == if q in Members(old(State()), channel) - todo then Offered(old(queues)[q], payload)
                                 else old(queues)[q]
        decreases |todo|
      {
        var queue :| queue in todo;
        if queue in queues && |queues[queue]| < CAPACITY {
          queues := queues[queue := queues[queue] + [payload]];
        }
        todo := todo - {queue};
      }
    }

    method Get(queue: QueueId) returns (payload: Option<Payload>)
      modifies this
      ensures State() == Apply(old(State()), Op.Get(queue))
      ensures payload == if Backlog(old(State()), queue) == [] then None else Some(Backlog(old(State()), queue)[0])
    {
      if queue !in queues || queues[queue] == [] {
        return None;
      }
      payload := Some(queues[queue][0]);
      queues := queues[queue := queues[queue][1..]];
    }
  }
}
