/**
  Sequences of caller requests against one client. Because nothing on the
  enqueue side drains a channel, a run of calls leaves each channel holding
  what it held before followed by exactly the entries those calls queued, in
  the order the calls were made. These lemmas state that for the publish
  queue, the subscription queue, the state-update queue and the direct
  transport publishes.
 */
module DeviceTrace {
  import opened Wrappers
  import opened Mqtt
  import Pubqueue
  import Subqueue
  import opened Device

  /** One caller request. */
  datatype Call =
    | PublishCall(topic: Topic, qos: byte, retained: bool, payload: Payload)
    | SubscribeCall(topic: Topic, qos: byte, cb: Option<MessageHandler>)
    | SubscribeMultipleCall(filters: map<Topic, byte>, cb: Option<MessageHandler>, order: seq<Topic>)
    | UnsubscribeCall(topics: seq<Topic>)
    | DisconnectCall(quiesce: uint)

  /**
    A `SubscribeMultipleCall` records, in `order`, the order in which the map
    range visited its filters: every key exactly once.
   */
  predicate Admissible(call: Call) {
    call.SubscribeMultipleCall? ==> multiset(call.order) == multiset(call.filters.Keys)
  }

  /** What a call puts on the publish queue: its record, when it has QoS above 0. */
  function Queued(call: Call): seq<Pubqueue.Data> {
    if call.PublishCall? && call.qos != 0 then [Pubqueue.Data(call.topic, call.payload)] else []
  }

  /** What a call hands straight to the transport: itself, when it is a QoS 0 publish. */
  function Direct(call: Call): seq<DirectPublish> {
    if call.PublishCall? && call.qos == 0 then [DirectPublish(call.topic, call.qos, call.retained, call.payload)] else []
  }

  /** What a call puts on the subscription queue. */
  function Requests(call: Call): seq<Subqueue.Subscription> {
    match call
    case SubscribeCall(topic, _, cb) => [SubscribeEntry(topic, cb)]
    case SubscribeMultipleCall(_, cb, order) => SubscribeEntries(order, cb)
    case UnsubscribeCall(topics) => seq(|topics|, i requires 0 <= i < |topics| => UnsubscribeEntry(topics[i]))
    case _ => []
  }

  /** What a call posts to the connection handler. */
  function Events(call: Call): seq<DeviceState> {
    if call.DisconnectCall? then [Terminating] else []
  }

  /** The contributions of every call, concatenated in call order. */
  function Collect<T>(calls: seq<Call>, f: Call -> seq<T>): seq<T> {
    if calls == [] then [] else f(calls[0]) + Collect(calls[1..], f)
  }

  lemma CollectPair<T>(x: Call, y: Call, f: Call -> seq<T>)
    ensures Collect([x, y], f) == f(x) + f(y)
  {
    assert [x, y][1..] == [y];
    assert Collect([y], f) == f(y) + Collect([], f);
    assert Collect([x, y], f) == f(x) + Collect([y], f);
  }

  /** Every call of the run is admissible. */
  predicate AllAdmissible(calls: seq<Call>) {
    calls == [] || (Admissible(calls[0]) && AllAdmissible(calls[1..]))
  }

  /** Every call is admissible and no channel send in the run would block. */
  predicate Fits(c: DeviceClient, calls: seq<Call>) {
    && AllAdmissible(calls)
    && |c.publishCh.items| + |Collect(calls, Queued)| <= c.publishCh.cap
    && |c.subscribeCh.items| + |Collect(calls, Requests)| <= c.subscribeCh.cap
    && |c.stateUpdateCh.items| + |Collect(calls, Events)| <= c.stateUpdateCh.cap
  }

  /** Performs one call; its token is dropped. */
  function Step(c: DeviceClient, call: Call): (r: DeviceClient)
    requires Admissible(call)
    requires |c.publishCh.items| + |Queued(call)| <= c.publishCh.cap
    requires |c.subscribeCh.items| + |Requests(call)| <= c.subscribeCh.cap
    requires |c.stateUpdateCh.items| + |Events(call)| <= c.stateUpdateCh.cap
    ensures c.Valid() ==> r.Valid()
    ensures r.opt == c.opt && r.reconnectPeriod == c.reconnectPeriod && r.stableTimerCh == c.stableTimerCh
    ensures r.publishCh.cap == c.publishCh.cap
    ensures r.subscribeCh.cap == c.subscribeCh.cap
    ensures r.stateUpdateCh.cap == c.stateUpdateCh.cap
    ensures r.publishCh.items == c.publishCh.items + Queued(call)
    ensures r.subscribeCh.items == c.subscribeCh.items + Requests(call)
    ensures r.stateUpdateCh.items == c.stateUpdateCh.items + Events(call)
    ensures r.transport == c.transport + Direct(call)
  {
    match call
    case PublishCall(topic, qos, retained, payload) => Publish(c, topic, qos, retained, payload).client
    case SubscribeCall(topic, qos, cb) => Subscribe(c, topic, qos, cb).client
    case SubscribeMultipleCall(_, cb, order) => SubscribeInOrder(c, order, cb)
    case UnsubscribeCall(topics) =>
      var r := Unsubscribe(c, topics).client;
      assert r.subscribeCh.items == c.subscribeCh.items + Requests(call);
      r
    case DisconnectCall(quiesce) => Disconnect(c, quiesce)
  }

  /** After the first call of a run that fits, the rest of the run still fits. */
  lemma FitsRest(c: DeviceClient, calls: seq<Call>)
    requires calls != [] && Fits(c, calls)
    ensures Fits(Step(c, calls[0]), calls[1..])
  {
  }

  /** Performs the calls in order; only the three channels and the transport log change. */
  function Run(c: DeviceClient, calls: seq<Call>): (r: DeviceClient)
    requires Fits(c, calls)
    ensures c.Valid() ==> r.Valid()
    ensures r.opt == c.opt && r.reconnectPeriod == c.reconnectPeriod && r.stableTimerCh == c.stableTimerCh
    ensures r.publishCh.cap == c.publishCh.cap
    ensures r.subscribeCh.cap == c.subscribeCh.cap
    ensures r.stateUpdateCh.cap == c.stateUpdateCh.cap
    decreases |calls|
  {
    if calls == [] then c
    else
      var next := Step(c, calls[0]);
      FitsRest(c, calls);
      Run(next, calls[1..])
  }

  /**
    The publish queue ends up holding its old records followed by exactly the
    QoS>0 publishes of the run, in call order: none dropped, none duplicated.
   */
  lemma {:induction false} RunPublishQueue(c: DeviceClient, calls: seq<Call>)
    requires Fits(c, calls)
    ensures Run(c, calls).publishCh.items == c.publishCh.items + Collect(calls, Queued)
    decreases |calls|
  {
    if calls != [] {
      var next := Step(c, calls[0]);
      FitsRest(c, calls);
      assert Run(c, calls) == Run(next, calls[1..]);
      assert next.publishCh.items == c.publishCh.items + Queued(calls[0]);
      assert Collect(calls, Queued) == Queued(calls[0]) + Collect(calls[1..], Queued);
      RunPublishQueue(next, calls[1..]);
    }
  }

  /** The subscription queue gains exactly the run's requests, in call order, with no merging. */
  lemma {:induction false} RunSubscribeQueue(c: DeviceClient, calls: seq<Call>)
    requires Fits(c, calls)
    ensures Run(c, calls).subscribeCh.items == c.subscribeCh.items + Collect(calls, Requests)
    decreases |calls|
  {
    if calls != [] {
      var next := Step(c, calls[0]);
      FitsRest(c, calls);
      assert Run(c, calls) == Run(next, calls[1..]);
      assert next.subscribeCh.items == c.subscribeCh.items + Requests(calls[0]);
      assert Collect(calls, Requests) == Requests(calls[0]) + Collect(calls[1..], Requests);
      RunSubscribeQueue(next, calls[1..]);
    }
  }

  /** The state-update queue gains one `Terminating` per disconnect, and nothing else. */
  lemma {:induction false} RunStateUpdates(c: DeviceClient, calls: seq<Call>)
    requires Fits(c, calls)
    ensures Run(c, calls).stateUpdateCh.items == c.stateUpdateCh.items + Collect(calls, Events)
    decreases |calls|
  {
    if calls != [] {
      var next := Step(c, calls[0]);
      FitsRest(c, calls);
      assert Run(c, calls) == Run(next, calls[1..]);
      assert next.stateUpdateCh.items == c.stateUpdateCh.items + Events(calls[0]);
      assert Collect(calls, Events) == Events(calls[0]) + Collect(calls[1..], Events);
      RunStateUpdates(next, calls[1..]);
    }
  }

  /** The transport sees exactly the run's QoS 0 publishes, in call order. */
  lemma {:induction false} RunTransport(c: DeviceClient, calls: seq<Call>)
    requires Fits(c, calls)
    ensures Run(c, calls).transport == c.transport + Collect(calls, Direct)
    decreases |calls|
  {
    if calls != [] {
      var next := Step(c, calls[0]);
      FitsRest(c, calls);
      assert Run(c, calls) == Run(next, calls[1..]);
      assert next.transport == c.transport + Direct(calls[0]);
      assert Collect(calls, Direct) == Direct(calls[0]) + Collect(calls[1..], Direct);
      RunTransport(next, calls[1..]);
    }
  }

  /** Every call is a publish with QoS above 0. */
  predicate AllQueuedPublishes(calls: seq<Call>) {
    forall k :: 0 <= k < |calls| ==> calls[k].PublishCall? && calls[k].qos != 0
  }

  /** Every call is a QoS 0 publish. */
  predicate AllDirectPublishes(calls: seq<Call>) {
    forall k :: 0 <= k < |calls| ==> calls[k].PublishCall? && calls[k].qos == 0
  }

  /** The records a run of QoS>0 publishes should leave queued, one per call, in call order. */
  function Records(calls: seq<Call>): seq<Pubqueue.Data>
    requires AllQueuedPublishes(calls)
  {
    seq(|calls|, k requires 0 <= k < |calls| => Pubqueue.Data(calls[k].topic, calls[k].payload))
  }

  lemma {:induction false} CollectQueuedPublishes(calls: seq<Call>)
    requires AllQueuedPublishes(calls)
    ensures AllAdmissible(calls)
    ensures Collect(calls, Queued) == Records(calls)
    ensures Collect(calls, Requests) == [] && Collect(calls, Events) == [] && Collect(calls, Direct) == []
    decreases |calls|
  {
    if calls != [] {
      assert AllQueuedPublishes(calls[1..]) by {
        forall k | 0 <= k < |calls[1..]| ensures calls[1..][k].PublishCall? && calls[1..][k].qos != 0 {
          assert calls[1..][k] == calls[k + 1];
        }
      }
      CollectQueuedPublishes(calls[1..]);
      assert Records(calls) == [Pubqueue.Data(calls[0].topic, calls[0].payload)] + Records(calls[1..]);
    }
  }

  lemma {:induction false} CollectDirectPublishes(calls: seq<Call>)
    requires AllDirectPublishes(calls)
    ensures AllAdmissible(calls)
    ensures Collect(calls, Queued) == [] && Collect(calls, Requests) == [] && Collect(calls, Events) == []
    ensures |Collect(calls, Direct)| == |calls|
    ensures forall k :: 0 <= k < |calls| ==>
      Collect(calls, Direct)[k] == DirectPublish(calls[k].topic, 0, calls[k].retained, calls[k].payload)
    decreases |calls|
  {
    if calls != [] {
      assert AllDirectPublishes(calls[1..]) by {
        forall k | 0 <= k < |calls[1..]| ensures calls[1..][k].PublishCall? && calls[1..][k].qos == 0 {
          assert calls[1..][k] == calls[k + 1];
        }
      }
      CollectDirectPublishes(calls[1..]);
    }
  }

  /**
    Publishes with QoS above 0 made on a fresh, never-connected client are all
    queued, each exactly once and in the order they were issued, and none of
    them reaches the transport directly. Up to the capacity of 100 no call blocks.
   */
  lemma OfflinePublishesQueuedInOrder(opt: Options, calls: seq<Call>)
    requires AllQueuedPublishes(calls)
    requires |calls| <= PublishChCap
    ensures Fits(New(opt), calls)
    ensures Run(New(opt), calls).publishCh.items == Records(calls)
    ensures Run(New(opt), calls).transport == []
    ensures Run(New(opt), calls).subscribeCh.items == []
  {
    CollectQueuedPublishes(calls);
    RunPublishQueue(New(opt), calls);
    RunTransport(New(opt), calls);
    RunSubscribeQueue(New(opt), calls);
  }

  /**
    QoS 0 publishes never touch any queue and never block: whatever the
    state of a valid client, they all go to the transport, in call order.
   */
  lemma QosZeroBypassesQueue(c: DeviceClient, calls: seq<Call>)
    requires c.Valid()
    requires AllDirectPublishes(calls)
    ensures Fits(c, calls)
    ensures Run(c, calls).publishCh == c.publishCh
    ensures Run(c, calls).subscribeCh == c.subscribeCh
    ensures Run(c, calls).stateUpdateCh == c.stateUpdateCh
    ensures |Run(c, calls).transport| == |c.transport| + |calls|
    ensures forall k :: 0 <= k < |calls| ==>
      Run(c, calls).transport[|c.transport| + k] == DirectPublish(calls[k].topic, 0, calls[k].retained, calls[k].payload)
  {
    CollectDirectPublishes(calls);
    RunPublishQueue(c, calls);
    RunSubscribeQueue(c, calls);
    RunStateUpdates(c, calls);
    RunTransport(c, calls);
  }

  /**
    Queued subscription changes are not merged: a subscribe followed by an
    unsubscribe of the same topic leaves both entries queued, in that order.
   */
  lemma SubscribeThenUnsubscribeBothQueued(c: DeviceClient, topic: Topic, qos: byte, cb: Option<MessageHandler>)
    requires |c.subscribeCh.items| + 2 <= c.subscribeCh.cap
    requires c.Valid()
    ensures Fits(c, [SubscribeCall(topic, qos, cb), UnsubscribeCall([topic])])
    ensures Run(c, [SubscribeCall(topic, qos, cb), UnsubscribeCall([topic])]).subscribeCh.items
      == c.subscribeCh.items + [SubscribeEntry(topic, cb), UnsubscribeEntry(topic)]
  {
    var calls := [SubscribeCall(topic, qos, cb), UnsubscribeCall([topic])];
    CollectPair(calls[0], calls[1], Queued);
    CollectPair(calls[0], calls[1], Events);
    CollectPair(calls[0], calls[1], Requests);
    assert AllAdmissible(calls) by {
      assert calls[1..] == [calls[1]] && calls[1..][1..] == [];
    }
    assert Requests(calls[1]) == [UnsubscribeEntry(topic)];
    RunSubscribeQueue(c, calls);
  }
}
