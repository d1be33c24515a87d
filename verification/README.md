# Offline-queuing MQTT device client, modelled in Dafny

This project models the caller-facing half of `DeviceClient` in the AWS IoT
device SDK for Go (`device.go`). `IsConnectionOpen` always reports true, and
requests are accepted while offline; `IsConnected` reports the transport's own
state.
Publishes with QoS above 0 and subscription changes go into bounded buffered
channels, and a background connection handler replays them once the broker is
reachable. QoS 0 publishes go straight to the transport client.

The model stops at the enqueue side:

- The client is an immutable value (`Device.DeviceClient`). It holds the
  options, the reconnect period, the four channels that `New` creates, and a
  log of direct transport publishes.
- Each operation is a pure transition to the next client value, except
  `SubscribeMultiple`, whose key order is chosen nondeterministically.
- A buffered Go channel is a bounded FIFO (`Channel.Chan`). A send that would
  block on a full channel is a precondition that the channel has room.

Modules:

- `Wrappers`: `Option`, which stands for a Go value that may be nil.
- `Mqtt`: `byte`, topics, payloads, message handlers and tokens.
- `Channel`: the bounded FIFO.
- `Pubqueue` and `Subqueue`: the record shapes that `device.go` puts on its channels.
- `Device`: the client and its operations.
- `DeviceTrace`: sequences of caller requests. Its lemmas say what a whole run
  leaves on each channel.

## Model

| member | source | states |
|---|---|---|
| `Device.New` | device.go:30-64 | a new client has empty state-update, publish and subscribe channels of capacity 100, an unbuffered stable-timer channel, the given options, no direct publishes, and a reconnect period equal to the base reconnect time |
| `Device.Publish` | device.go:141-149 | QoS 0 is appended to the transport log with its QoS and retained flag; the queues stay the same and the transport's token is returned. Any other QoS needs room on the publish channel; it appends exactly one `{topic, payload}` record at the tail, keeps the capacity, changes nothing else and returns a completed dummy token. The client stays valid |
| `Device.QueuedPublishIgnoresQosAndRetained` | device.go:142-148 | for QoS above 0, the outcome does not depend on the retained flag or on which non-zero QoS was given |
| `Device.Subscribe` | device.go:151-156 | needs room on the subscribe channel; appends exactly one `Subscribe` entry with the topic and callback at the tail, changes nothing else, returns a dummy token |
| `Device.SubscribeIgnoresQos` | device.go:152-155 | the QoS argument of a subscription has no effect on the outcome |
| `Device.RangeOrder` | device.go:161 | the order a `range` over the filter map visits its keys lists every key exactly once, in some order |
| `Device.SubscribeInOrder` | device.go:161-163 | once the order of the topics is fixed, one `Subscribe` call per topic, in that order, appends exactly those `Subscribe` entries with the shared callback after the unchanged old entries; nothing else changes |
| `Device.SubscribeInKeyOrder` | device.go:160-164 | subscribing in any listing of the filter map's keys queues exactly one `Subscribe` entry per key with the shared callback after the unchanged old entries, so the added topics form the key set as a multiset |
| `Device.SubscribeMultiple` | device.go:158-165 | needs room for one entry per filter; the old entries stay as a prefix; exactly one entry per filter is added, each of kind `Subscribe` with the shared callback; the multiset of added topics equals the filter map's key set; the result is what `SubscribeInOrder` gives for some listing of the keys, each exactly once; nothing else changes; returns a dummy token |
| `Device.Unsubscribe` | device.go:167-173 | needs room for every topic; appends exactly one `Unsubscribe` entry with no callback per topic, in argument order, after the unchanged old entries; nothing else changes; returns a dummy token |
| `Device.UnsubscribeSplit` | device.go:168-172 | unsubscribing from `a + b` in one call leaves the same client as unsubscribing from `a` and then from `b` |
| `Device.Disconnect` | device.go:135-139 | needs room on the state-update channel; appends a single `Terminating` event; the publish and subscribe channels and everything else stay the same; `quiesce` has no effect |
| `Device.IsConnectionOpen` | device.go:185-191 | is true in every state |
| `DeviceTrace.Step` | device.go:137-172 | one caller request adds to each channel, and to the transport log, exactly what that request queues or sends, and nothing else. The request can be a publish, subscribe, multiple subscribe (with the order its map range took), unsubscribe or disconnect |
| `DeviceTrace.Run` | device.go:135-173 | a run of requests keeps the client valid; it never changes the options, the reconnect period, the stable-timer channel or any capacity |
| `DeviceTrace.RunPublishQueue` | device.go:143-148 | after a run, the publish channel holds its old records followed by one record per QoS>0 publish, in issue order: none dropped, none duplicated |
| `DeviceTrace.RunSubscribeQueue` | device.go:153-172 | after a run, the subscribe channel holds its old entries followed by the entries of every subscribe, multiple subscribe and unsubscribe request, in issue order |
| `DeviceTrace.RunStateUpdates` | device.go:137-139 | after a run, the state-update channel has gained one `Terminating` per disconnect and nothing else |
| `DeviceTrace.RunTransport` | device.go:144-146 | after a run, the transport has received exactly the QoS 0 publishes, in issue order |
| `DeviceTrace.OfflinePublishesQueuedInOrder` | device.go:141-148 | on a fresh client, up to 100 publishes with QoS above 0 never block; they are queued one record each, in issue order; the transport and the subscribe channel receive nothing |
| `DeviceTrace.QosZeroBypassesQueue` | device.go:144-146 | on any valid client, QoS 0 publishes never block and leave all three channels unchanged; the transport receives each of them once, in issue order |
| `DeviceTrace.SubscribeThenUnsubscribeBothQueued` | device.go:153-172 | a subscribe followed by an unsubscribe of the same topic leaves both entries queued in that order; nothing is merged |

## Left out

- `Connect` and `connect` (device.go:66-133) are not modelled. They cover the protocol lookup by URL, the MQTT client options, TLS key, certificate and CA paths, keep-alive, the will message, and the goroutine that waits on the connect token. All of these are foreign calls or I/O, and the panics on bad configuration depend on code that is not part of this model.
- The transport client is treated as always present. In the source, `s.cli` is only set by `Connect`, so a QoS 0 `Publish` before `Connect` calls a method on a nil client. The model records the publish in the transport log instead.
- `connectionHandler` (started by `Connect`, device.go:71) and the `internal/pubqueue` and `internal/subqueue` packages are not part of this model. Nothing is said about how the channels are received from, or about how `connectionHandler` later changes `reconnectPeriod`; here it is only ever set by `New`.
- Concurrency is not modelled: goroutines, blocking sends, and the `OnConnect` and `OnConnectionLost` callbacks (device.go:99-116). A send that would block is a precondition that the channel has room.
- Device.Unsubscribe: requires room for every topic before it starts, because the source's per-topic sends could block part-way through, with the earlier entries already queued.
- Device.SubscribeMultiple: requires room for every filter before it starts, for the same reason.
- Device.SubscribeInOrder: requires room for every topic before it starts, for the same reason.
- `IsConnected` and `OptionsReader` (device.go:180-196) only pass through to the MQTT library. `AddRoute` (device.go:175-178) only panics. None of them is modelled.
- Debug logging (`dbg.printf`) is left out, and the `Debug` option is carried in `Options` but never used.
- Tokens are opaque. `DummyToken` stands for the already-complete `mqtt.DummyToken`, and `TransportToken` for whatever the transport's `Publish` returns.
- Payloads are byte sequences. The source accepts any value, but the client never inspects it.
- The `deviceState` type is declared outside `device.go`. Only the three values `device.go` uses are modelled: `inactive`, `established` and `terminating`.
- tunnel/server/api.go is an HTTP handler built on AWS SDK request types, JSON encoding, UUIDs and context timeouts. It is not part of this model.
- No termination state is modelled beyond the event, as in the source: `Disconnect` only posts `Terminating` (device.go:138), and calls made after it are accepted as before. A QoS 0 publish always goes to `s.cli.Publish` (device.go:144-145), connected or not.
