/** The record a queued publish becomes. */
module Pubqueue {
  import opened Mqtt

  /** A publish waiting for a connection: QoS and the retained flag are not kept. */
  datatype Data = Data(topic: Topic, payload: Payload)
}

/** The record a queued subscription change becomes. */
module Subqueue {
  import opened Wrappers
  import opened Mqtt

  datatype SubscriptionType = Subscribe | Unsubscribe

  /** A subscribe or unsubscribe waiting for a connection; unsubscribes carry no callback. */
  datatype Subscription = Subscription(kind: SubscriptionType, topic: Topic, cb: Option<MessageHandler>)
}
