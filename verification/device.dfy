/**
  The offline-queuing front end of the device client. Callers' publish and
  subscription requests become entries on bounded FIFO channels that a
  background connection handler drains once the broker is reachable; only the
  enqueue side is modelled. Every operation is a pure transition from one
  client state to the next, and a channel send that would block in the
  source is a precondition that the channel has room.
 */
module Device {
  import opened Wrappers
  import opened Mqtt
  import opened Channel
  import Pubqueue
  import Subqueue

  const StateUpdaterChCap: nat := 100
  const PublishChCap: nat := 100
  const SubscribeChCap: nat := 100

  /** Go's `int64`; a `time.Duration` is a count of nanoseconds in one. */
  newtype int64 = x: int | -0x8000_0000_0000_0000 <= x < 0x8000_0000_0000_0000

  type Duration = int64

  /** Go's `uint` on a 64-bit platform. */
  newtype uint = x: int | 0 <= x < 0x1_0000_0000_0000_0000

  /** The events the client posts to its connection handler. */
  datatype DeviceState = Inactive | Established | Terminating

  /** The options the queuing front end reads; the connection settings are read only by `Connect`. */
  datatype Options = Options(baseReconnectTime: Duration, debug: bool)

  /** A QoS 0 publish handed straight to the transport client. */
  datatype DirectPublish = DirectPublish(topic: Topic, qos: byte, retained: bool, payload: Payload)

  /**
    The client: its options, the current reconnect period, the four channels
    it creates, and the log of publishes it handed to the transport directly.
   */
  datatype DeviceClient = DeviceClient(
    opt: Options,
    reconnectPeriod: Duration,
    stateUpdateCh: Chan<DeviceState>,
    stableTimerCh: Chan<bool>,
    publishCh: Chan<Pubqueue.Data>,
    subscribeCh: Chan<Subqueue.Subscription>,
    transport: seq<DirectPublish>)
  {
    /** Every channel has the capacity `New` gave it and holds no more than that. */
    predicate Valid() {
      && stateUpdateCh.cap == StateUpdaterChCap && stateUpdateCh.Valid()
      && stableTimerCh.cap == 0 && stableTimerCh.Valid()
      && publishCh.cap == PublishChCap && publishCh.Valid()
      && subscribeCh.cap == SubscribeChCap && subscribeCh.Valid()
    }
  }

  /** What a call leaves behind: the next client state and the token returned to the caller. */
  datatype Reply = Reply(client: DeviceClient, token: Token)

  /** A client that is not connected yet: empty channels and the base reconnect period. */
  function New(opt: Options): (c: DeviceClient)
    ensures c.Valid()
    ensures c.opt == opt && c.reconnectPeriod == opt.baseReconnectTime
    ensures c.stateUpdateCh.items == [] && c.stateUpdateCh.cap == 100
    ensures c.publishCh.items == [] && c.publishCh.cap == 100
    ensures c.subscribeCh.items == [] && c.subscribeCh.cap == 100
    ensures c.stableTimerCh.items == [] && c.stableTimerCh.cap == 0
    ensures c.transport == []
  {
    DeviceClient(
      opt, opt.baseReconnectTime,
      Make(StateUpdaterChCap), Make(0), Make(PublishChCap), Make(SubscribeChCap),
      [])
  }

  /**
    Disconnect only asks the connection handler to terminate; `quiesce` is
    ignored. The send blocks while the state-update channel is full.
   */
  function Disconnect(c: DeviceClient, quiesce: uint): (r: DeviceClient)
    requires !c.stateUpdateCh.Full()
    ensures c.Valid() ==> r.Valid()
    ensures r == c.(stateUpdateCh := r.stateUpdateCh)
    ensures r.stateUpdateCh.cap == c.stateUpdateCh.cap
    ensures r.stateUpdateCh.items == c.stateUpdateCh.items + [Terminating]
  {
    c.(stateUpdateCh := c.stateUpdateCh.Send(Terminating))
  }

  /**
    A QoS 0 message goes straight to the transport and its token is returned;
    any other message is queued as `{topic, payload}`, dropping QoS and the
    retained flag, and the caller gets a completed token at once.
   */
  function Publish(c: DeviceClient, topic: Topic, qos: byte, retained: bool, payload: Payload): (r: Reply)
    requires qos != 0 ==> !c.publishCh.Full()
    ensures c.Valid() ==> r.client.Valid()
    ensures qos == 0 ==>
      && r.client == c.(transport := r.client.transport)
      && r.client.transport == c.transport + [DirectPublish(topic, qos, retained, payload)]
      && r.token == TransportToken
    ensures qos != 0 ==>
      && r.client == c.(publishCh := r.client.publishCh)
      && r.client.publishCh.cap == c.publishCh.cap
      && r.client.publishCh.items == c.publishCh.items + [Pubqueue.Data(topic, payload)]
      && r.token == DummyToken
  {
    if qos == 0 then
      Reply(c.(transport := c.transport + [DirectPublish(topic, qos, retained, payload)]), TransportToken)
    else
      Reply(c.(publishCh := c.publishCh.Send(Pubqueue.Data(topic, payload))), DummyToken)
  }

  /** The entry a subscription request is queued as; `qos` plays no part in it. */
  function SubscribeEntry(topic: Topic, cb: Option<MessageHandler>): Subqueue.Subscription {
    Subqueue.Subscription(Subqueue.Subscribe, topic, cb)
  }

  /** The entry an unsubscription request is queued as. */
  function UnsubscribeEntry(topic: Topic): Subqueue.Subscription {
    Subqueue.Subscription(Subqueue.Unsubscribe, topic, None)
  }

  /** Queues one subscribe entry carrying the topic and the callback; `qos` is ignored. */
  function Subscribe(c: DeviceClient, topic: Topic, qos: byte, cb: Option<MessageHandler>): (r: Reply)
    requires !c.subscribeCh.Full()
    ensures c.Valid() ==> r.client.Valid()
    ensures r.client == c.(subscribeCh := r.client.subscribeCh)
    ensures r.client.subscribeCh.cap == c.subscribeCh.cap
    ensures |r.client.subscribeCh.items| == |c.subscribeCh.items| + 1
    ensures r.client.subscribeCh.items[..|c.subscribeCh.items|] == c.subscribeCh.items
    ensures r.client.subscribeCh.items[|c.subscribeCh.items|] == Subqueue.Subscription(Subqueue.Subscribe, topic, cb)
    ensures r.token == DummyToken
  {
    Reply(c.(subscribeCh := c.subscribeCh.Send(SubscribeEntry(topic, cb))), DummyToken)
  }

  /**
    Queues one unsubscribe entry per topic, in argument order, none with a
    callback. Each send blocks while the channel is full, so room for all of
    them is required.
   */
  function Unsubscribe(c: DeviceClient, topics: seq<Topic>): (r: Reply)
    requires |c.subscribeCh.items| + |topics| <= c.subscribeCh.cap
    ensures c.Valid() ==> r.client.Valid()
    ensures r.client == c.(subscribeCh := r.client.subscribeCh)
    ensures r.client.subscribeCh.cap == c.subscribeCh.cap
    ensures |r.client.subscribeCh.items| == |c.subscribeCh.items| + |topics|
    ensures r.client.subscribeCh.items[..|c.subscribeCh.items|] == c.subscribeCh.items
    ensures forall i :: 0 <= i < |topics| ==>
      r.client.subscribeCh.items[|c.subscribeCh.items| + i] == Subqueue.Subscription(Subqueue.Unsubscribe, topics[i], None)
    ensures r.token == DummyToken
    decreases |topics|
  {
    if topics == [] then Reply(c, DummyToken)
    else
      var next := c.(subscribeCh := c.subscribeCh.Send(UnsubscribeEntry(topics[0])));
      Unsubscribe(next, topics[1..])
  }

  /** The topics of a run of queued entries, in order. */
  function Topics(es: seq<Subqueue.Subscription>): seq<Topic> {
    seq(|es|, i requires 0 <= i < |es| => es[i].topic)
  }

  /** The subscribe entries for `order`, one per topic, all with callback `cb`. */
  function SubscribeEntries(order: seq<Topic>, cb: Option<MessageHandler>): (es: seq<Subqueue.Subscription>)
    ensures Topics(es) == order
  {
    seq(|order|, i requires 0 <= i < |order| => SubscribeEntry(order[i], cb))
  }

  lemma SubscribeEntriesCons(order: seq<Topic>, cb: Option<MessageHandler>)
    requires order != []
    ensures SubscribeEntries(order, cb) == [SubscribeEntry(order[0], cb)] + SubscribeEntries(order[1..], cb)
  {
  }

  lemma MultisetOfSetRemove<T>(s: set<T>, x: T)
    requires x in s
    ensures multiset(s) == multiset(s - {x}) + multiset{x}
  {
  }

  /**
    The subscriptions `SubscribeMultiple` makes once the order of its topics is
    fixed: one `Subscribe` call per topic, in that order, all sharing `cb`.
   */
  function SubscribeInOrder(c: DeviceClient, order: seq<Topic>, cb: Option<MessageHandler>): (r: DeviceClient)
    requires |c.subscribeCh.items| + |order| <= c.subscribeCh.cap
    ensures c.Valid() ==> r.Valid()
    ensures r == c.(subscribeCh := r.subscribeCh)
    ensures r.subscribeCh.cap == c.subscribeCh.cap
    ensures r.subscribeCh.items == c.subscribeCh.items + SubscribeEntries(order, cb)
    decreases |order|
  {
    if order == [] then c
    else
      var next := Subscribe(c, order[0], 0, cb).client;
      SubscribeEntriesCons(order, cb);
      SubscribeInOrder(next, order[1..], cb)
  }

  /** Subscribing to one more topic extends the ordered subscriptions by that topic's entry. */
  lemma SubscribeInOrderSnoc(c: DeviceClient, order: seq<Topic>, t: Topic, cb: Option<MessageHandler>)
    requires |c.subscribeCh.items| + |order| + 1 <= c.subscribeCh.cap
    ensures SubscribeInOrder(c, order + [t], cb) == Subscribe(SubscribeInOrder(c, order, cb), t, 0, cb).client
  {
  }

  /**
    Subscribing in any listing of the filter map's keys queues one
    `Subscribe` entry per key, with the shared callback, after the old entries.
   */
  lemma SubscribeInKeyOrder(c: DeviceClient, filters: map<Topic, byte>, order: seq<Topic>, cb: Option<MessageHandler>)
    requires |order| == |filters| && multiset(order) == multiset(filters.Keys)
    requires |c.subscribeCh.items| + |filters| <= c.subscribeCh.cap
    ensures var r := SubscribeInOrder(c, order, cb);
      && |r.subscribeCh.items| == |c.subscribeCh.items| + |filters|
      && r.subscribeCh.items[..|c.subscribeCh.items|] == c.subscribeCh.items
      && (forall i :: |c.subscribeCh.items| <= i < |r.subscribeCh.items| ==>
            r.subscribeCh.items[i].kind == Subqueue.Subscribe && r.subscribeCh.items[i].cb == cb)
      && multiset(Topics(r.subscribeCh.items[|c.subscribeCh.items|..])) == multiset(filters.Keys)
  {
  }

  /**
    The order in which a Go `range` visits the keys of a map: unspecified, so
    any listing of the keys, each exactly once.
   */
  method RangeOrder<K>(keys: set<K>) returns (order: seq<K>)
    ensures multiset(order) == multiset(keys)
  {
    order := [];
    var rest := keys;
    while rest != {}
      invariant rest <= keys
      invariant multiset(order) + multiset(rest) == multiset(keys)
      decreases rest
    {
      var k :| k in rest;
      MultisetOfSetRemove(rest, k);
      order := order + [k];
      rest := rest - {k};
    }
  }

  /**
    Queues one subscribe entry per filter, all sharing `callback`. The source
    ranges over a Go map, whose order is unspecified, so the result is stated
    as a multiset of topics.
   */
  method SubscribeMultiple(c: DeviceClient, filters: map<Topic, byte>, callback: Option<MessageHandler>)
    returns (r: DeviceClient, token: Token)
    requires |c.subscribeCh.items| + |filters| <= c.subscribeCh.cap
    ensures c.Valid() ==> r.Valid()
    ensures r == c.(subscribeCh := r.subscribeCh)
    ensures r.subscribeCh.cap == c.subscribeCh.cap
    ensures |r.subscribeCh.items| == |c.subscribeCh.items| + |filters|
    ensures r.subscribeCh.items[..|c.subscribeCh.items|] == c.subscribeCh.items
    ensures forall i :: |c.subscribeCh.items| <= i < |r.subscribeCh.items| ==>
      r.subscribeCh.items[i].kind == Subqueue.Subscribe && r.subscribeCh.items[i].cb == callback
    ensures multiset(Topics(r.subscribeCh.items[|c.subscribeCh.items|..])) == multiset(filters.Keys)
    ensures exists order ::
              && |order| == |filters|
              && multiset(order) == multiset(filters.Keys)
              && r == SubscribeInOrder(c, order, callback)
    ensures token == DummyToken
  {
    var order := RangeOrder(filters.Keys);
    assert |order| == |filters| by {
      assert |multiset(order)| == |multiset(filters.Keys)|;
    }
    r := c;
    for j := 0 to |order|
      invariant r == SubscribeInOrder(c, order[..j], callback)
    {
      assert order[..j + 1] == order[..j] + [order[j]];
      assert order[j] in filters by {
        assert order[j] in multiset(order);
      }
      SubscribeInOrderSnoc(c, order[..j], order[j], callback);
      SubscribeIgnoresQos(r, order[j], filters[order[j]], 0, callback);
      r := Subscribe(r, order[j], filters[order[j]], callback).client;
    }
    assert order[..|order|] == order;
    SubscribeInKeyOrder(c, filters, order, callback);
    token := DummyToken;
  }

  /** Requests are always accepted, because they are queued while offline. */
  function IsConnectionOpen(c: DeviceClient): (open: bool)
    ensures open
  {
    true
  }

  /** A queued publish does not depend on the retained flag or on which QoS above 0 was asked for. */
  lemma QueuedPublishIgnoresQosAndRetained(c: DeviceClient, topic: Topic, q1: byte, q2: byte, r1: bool, r2: bool, payload: Payload)
    requires q1 != 0 && q2 != 0
    requires !c.publishCh.Full()
    ensures Publish(c, topic, q1, r1, payload) == Publish(c, topic, q2, r2, payload)
  {
  }

  /** The QoS of a subscription request is ignored. */
  lemma SubscribeIgnoresQos(c: DeviceClient, topic: Topic, q1: byte, q2: byte, cb: Option<MessageHandler>)
    requires !c.subscribeCh.Full()
    ensures Subscribe(c, topic, q1, cb) == Subscribe(c, topic, q2, cb)
  {
  }

  /** Unsubscribing from `a + b` in one call queues the same as two calls, first `a` then `b`. */
  lemma {:induction false} UnsubscribeSplit(c: DeviceClient, a: seq<Topic>, b: seq<Topic>)
    requires |c.subscribeCh.items| + |a| + |b| <= c.subscribeCh.cap
    ensures Unsubscribe(c, a + b).client == Unsubscribe(Unsubscribe(c, a).client, b).client
    decreases |a|
  {
    if a == [] {
      assert a + b == b;
    } else {
      assert (a + b)[0] == a[0] && (a + b)[1..] == a[1..] + b;
      var next := c.(subscribeCh := c.subscribeCh.Send(UnsubscribeEntry(a[0])));
      UnsubscribeSplit(next, a[1..], b);
    }
  }
}
