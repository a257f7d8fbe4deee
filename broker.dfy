/** The amqplib channel the library drives, seen from the library: every call
    it makes on the channel is appended to an effect log. The broker answers
    (a queue's assigned name, deliveries) are given to the model as inputs. */
module Broker {
  import opened Js
  import Json

  /** Who receives the deliveries of a `channel.consume`. */
  datatype ConsumerRef =
    | RpcReplies          // RPC.consumer (src/lib/rpc.js)
    | KitReplies          // MicroserviceKit.consumeRpc_
    | QueueWrapper        // the closure built by Queue.consume_
    | KitWrapper(queue: Value)  // the closure built by MicroserviceKit.consume

  datatype Effect =
    | AssertQueue(queue: Value, options: Value)
    | AssertExchange(exchange: Value, kind: Value, options: Value)
    | BindQueue(queue: Value, exchange: Value, pattern: Value)
    | UnbindQueue(queue: Value, exchange: Value, pattern: Value)
    | Consume(queue: Value, consumer: ConsumerRef, options: Value)
    | SendToQueue(queue: Value, content: Json.Body, options: Value)
    | Publish(exchange: Value, routingKey: Value, content: Json.Body, options: Value)
    | Ack(tag: nat)
    | Nack(tag: nat)
    | Prefetch(count: Value, global: Value)

  /** One delivered message: `msg.fields.deliveryTag` (which `ack`/`nack`
      name), `msg.content`, `msg.properties.correlationId`,
      `msg.properties.replyTo` and `msg.fields.routingKey`. */
  datatype Delivery = Delivery(tag: nat, content: Json.Body, correlationId: Value, replyTo: Value, routingKey: Value)

  class Channel {
    var log: seq<Effect>

    constructor ()
      ensures log == []
    {
      log := [];
    }

    method Perform(e: Effect)
      modifies this
      ensures log == old(log) + [e]
    {
      log := log + [e];
    }
  }
}
