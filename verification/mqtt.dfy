/**
  The few MQTT client types the device client passes around. Their behaviour
  belongs to the MQTT library and is not modelled; only their identity is.
 */
module Mqtt {

  /** Go's `byte`, used for QoS levels. */
  newtype byte = x: int | 0 <= x < 256

  type Topic = string

  /** A message body. The client never inspects it, so it is kept as bytes. */
  type Payload = seq<byte>

  /** A message callback, known only by an identifier: no callback is ever invoked here. */
  datatype MessageHandler = MessageHandler(id: nat)

  /**
    The completion token an MQTT call returns. `DummyToken` is complete from
    the start and reports no error; `TransportToken` is whatever the underlying
    transport client returned, whose completion is up to the transport.
   */
  datatype Token = DummyToken | TransportToken
}
