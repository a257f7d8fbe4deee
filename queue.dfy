/** src/lib/queue.js: a queue that consumes events (through a router, with
    `done`/`progress` closures that reply and ack) and sends events, either
    fire-and-forget or as RPC calls registered with the RPC table. */
module Queues {
  import opened Wrappers
  import opened Js
  import Json
  import Messages
  import Responses
  import Errors
  import Broker
  import Rpc
  import Routers
  import Exchanges

  /** `Queue.prototype.consumeDefaults`. */
  function ConsumeDefaults(): map<string, Value> { map["noAck" := Bool(false)] }

  /** The value in `consumer_`: a callback passed to `consume_`, or the
      bound `router.handle` that `consumeEvent` installs. */
  datatype Handler = UserHandler(callback: Value) | RouterHandle

  /** `this.consumer_` is truthy. */
  predicate Installed(h: Option<Handler>) {
    h.Some? && (h.value.RouterHandle? || Truthy(h.value.callback))
  }

  /** What the `done` and `progress` closures of one delivery capture: the
      message and whether its wrapper was installed with `noAck`. */
  datatype Receipt = Receipt(msg: Broker.Delivery, noAck: bool)

  /** `v || {}`. */
  function OrEmpty(v: Value): (r: Value)
    ensures Truthy(r)
  {
    if Truthy(v) then v else EmptyObj()
  }

  /** The sender asked for a reply: `replyTo && correlationId`. */
  predicate ExpectsReply(msg: Broker.Delivery) {
    Truthy(msg.replyTo) && Truthy(msg.correlationId)
  }

  /** `channel.sendToQueue(replyTo, <response as JSON>, {correlationId})`. */
  function ReplyWith(msg: Broker.Delivery, response: Responses.Response): (e: Broker.Effect)
    ensures e.SendToQueue? && e.queue == msg.replyTo && e.options.Obj? && Field(e.options.fields, "correlationId") == msg.correlationId
    ensures Responses.ParseMessage(e.content) ==
      Some(Responses.Response(Responses.Sent(response.err), Responses.Sent(response.payload), response.done))
  {
    Responses.WireRoundTrip(response);
    Broker.SendToQueue(msg.replyTo, Responses.Encode(response), Obj(map["correlationId" := msg.correlationId]))
  }

  /** The channel calls one closure call makes, and whether it then threw. */
  datatype Outcome = Outcome(effects: seq<Broker.Effect>, threw: bool)

  function Acks(effects: seq<Broker.Effect>): nat {
    if effects == [] then 0 else (if effects[0].Ack? then 1 else 0) + Acks(effects[1..])
  }

  /** `err.toJSON` is a function: an ExtendableError, or an object with its
      own `toJSON` method. */
  predicate HasToJSON(err: Value)
    ensures Errors.HasToJSON(err) ==> HasToJSON(err)
    ensures HasToJSON(err) ==> Truthy(err)
  {
    Errors.HasToJSON(err) || (err.Obj? && Field(err.fields, "toJSON").Fn?)
  }

  /** `done(err, data)` as the source writes it: the reply, then
      `logPayload.error = err.toJSON()` for a truthy `err`, which throws when
      `err` has no `toJSON`, before the ack is reached. */
  function DoneAsWritten(rc: Receipt, err: Value, data: Value): (o: Outcome)
    ensures o.threw <==> Truthy(err) && !HasToJSON(err)
    ensures o.threw ==> Acks(o.effects) == 0
  {
    var reply := if ExpectsReply(rc.msg) then [ReplyWith(rc.msg, Responses.New(err, data, Bool(true)))] else [];
    if Truthy(err) && !HasToJSON(err) then Outcome(reply, true)
    else Outcome(reply + (if rc.noAck then [] else [Broker.Ack(rc.msg.tag)]), false)
  }

  /** `done(err, data)` with the log descriptor taken from `toJSON` only
      where the error has one: reply when the sender asked for one, then
      ack unless `noAck`. */
  function Done(rc: Receipt, err: Value, data: Value): (o: Outcome)
    ensures !o.threw
    ensures Acks(o.effects) == if rc.noAck then 0 else 1
    ensures !rc.noAck ==> o.effects[|o.effects| - 1] == Broker.Ack(rc.msg.tag)
    ensures |o.effects| == (if ExpectsReply(rc.msg) then 1 else 0) + (if rc.noAck then 0 else 1)
    ensures ExpectsReply(rc.msg) ==> o.effects[0] == ReplyWith(rc.msg, Responses.New(err, data, Bool(true)))
    ensures forall e | e in o.effects :: !e.Nack?
  {
    var reply := if ExpectsReply(rc.msg) then [ReplyWith(rc.msg, Responses.New(err, data, Bool(true)))] else [];
    var ack := if rc.noAck then [] else [Broker.Ack(rc.msg.tag)];
    assert Acks(ack) == |ack| by { if ack != [] { assert ack[1..] == []; } }
    assert Acks(reply) == 0 by { if reply != [] { assert reply[1..] == []; } }
    AcksAppend(reply, ack);
    Outcome(reply + ack, false)
  }

  lemma {:induction false} AcksAppend(a: seq<Broker.Effect>, b: seq<Broker.Effect>)
    ensures Acks(a + b) == Acks(a) + Acks(b)
  {
    if a == [] {
      assert a + b == b;
    } else {
      assert (a + b)[1..] == a[1..] + b;
      AcksAppend(a[1..], b);
    }
  }

  /** Where `done` as written does not throw, it does what `Done` does. */
  lemma DoneAgreesWhenErrorSerialisable(rc: Receipt, err: Value, data: Value)
    requires !Truthy(err) || HasToJSON(err)
    ensures DoneAsWritten(rc, err, data) == Done(rc, err, data)
  {
  }

  /** A plain `Error` passed to `done` on a message that needs an ack: the
      reply goes out, `err.toJSON()` throws, and the message is never
      acked. */
  lemma PlainErrorIsNeverAcked(msg: Broker.Delivery, message: string, data: Value)
    ensures var o := DoneAsWritten(Receipt(msg, false), ErrorInstance(PlainError, message), data);
      o.threw && Acks(o.effects) == 0 && Acks(Done(Receipt(msg, false), ErrorInstance(PlainError, message), data).effects) == 1
  {
  }

  /** `progress(data)`: a `Response(null, data, false)` to the sender when it
      asked for a reply; never an ack. */
  function Progress(rc: Receipt, data: Value): (effects: seq<Broker.Effect>)
    ensures Acks(effects) == 0 && forall e | e in effects :: !e.Nack?
    ensures ExpectsReply(rc.msg) <==> effects != []
    ensures effects != [] ==> effects == [ReplyWith(rc.msg, Responses.New(Null, data, Bool(false)))]
  {
    if ExpectsReply(rc.msg) then
      var e := ReplyWith(rc.msg, Responses.New(Null, data, Bool(false)));
      assert Acks([e]) == 0 by { assert [e][1..] == []; }
      [e]
    else []
  }

  /** A reply built by `progress` decodes at the sender as a progress
      notification with the JSON form of `data`. */
  lemma ProgressDecodesAsProgress(rc: Receipt, data: Value)
    requires ExpectsReply(rc.msg)
    ensures Progress(rc, data)[0].SendToQueue?
    ensures Responses.ParseMessage(Progress(rc, data)[0].content) == Some(Responses.Response(Null, Responses.Sent(data), false))
  {
    Responses.WireRoundTrip(Responses.New(Null, data, Bool(false)));
  }

  /** What the consume wrapper does with one delivery: the receipt its
      `done`/`progress` closures capture (None when decoding failed before
      they were made), the consumer call it made, and whether it nacked. */
  datatype Handling = Handling(receipt: Option<Receipt>, call: Option<Call>, nack: bool)

  /** The wrapper of `consume_` for delivery `msg`, the closures numbered
      `id`; `routes` is the router's table, and `handlerThrows` says whether
      the called handler throws synchronously. */
  function Wrap(consumer: Option<Handler>, routes: map<string, Value>, noAck: bool, msg: Broker.Delivery,
                id: nat, handlerThrows: bool): (h: Handling)
    ensures h.nack ==> !noAck
    ensures (Json.Parse(msg.content).None? || Messages.Parse(Json.Parse(msg.content).value).None?) <==> h.receipt.None?
    ensures h.receipt.None? ==> h.call.None? && h.nack == !noAck
    ensures h.receipt.Some? ==> h.receipt.value == Receipt(msg, noAck)
    ensures !Installed(consumer) ==> h.call.None? && (h.receipt.Some? ==> !h.nack)
    ensures h.call.Some? ==> h.receipt.Some? && Installed(consumer) && (h.nack <==> handlerThrows && !noAck)
    ensures h.receipt.Some? && Installed(consumer) && consumer.value.UserHandler? ==>
      var cb := consumer.value.callback;
      && (h.call.Some? <==> cb.Fn?)
      && (cb.Fn? ==> h.call.value == Call(cb.f, [Json.Parse(msg.content).value, Fn(DoneFn(id)), Fn(ProgressFn(id)), msg.routingKey]))
      && (!cb.Fn? ==> h.nack == !noAck)
    ensures h.receipt.Some? && consumer == Some(RouterHandle) ==>
      var r := Routers.Route(routes, Json.Parse(msg.content).value, [Fn(DoneFn(id)), Fn(ProgressFn(id)), msg.routingKey]);
      && (h.call.Some? <==> r.Invoked?)
      && (r.Invoked? ==> h.call.value == r.call)
      && (h.call.None? ==> (h.nack <==> r.Threw? && !noAck))
  {
    match Json.Parse(msg.content)
    case None => Handling(None, None, !noAck)
    case Some(data) =>
      if Messages.Parse(data).None? then Handling(None, None, !noAck)
      else
        var rc := Receipt(msg, noAck);
        var done, progress := Fn(DoneFn(id)), Fn(ProgressFn(id));
        if !Installed(consumer) then Handling(Some(rc), None, false)
        else match consumer.value
          case RouterHandle =>
            (match Routers.Route(routes, data, [done, progress, msg.routingKey])
             case Invoked(c) => Handling(Some(rc), Some(c), handlerThrows && !noAck)
             case Unhandled => Handling(Some(rc), None, false)
             case Threw => Handling(Some(rc), None, !noAck))
          case UserHandler(cb) =>
            if cb.Fn? then Handling(Some(rc), Some(Call(cb.f, [data, done, progress, msg.routingKey])), handlerThrows && !noAck)
            else Handling(Some(rc), None, !noAck)
  }

  /** A delivery whose body decodes to `data` and names a registered
      function `f` reaches `f` through the router. */
  lemma WrapRouted(routes: map<string, Value>, noAck: bool, msg: Broker.Delivery, id: nat,
                   data: Value, m: Messages.Message, f: Callable)
    requires Json.Parse(msg.content) == Some(data) && Messages.Parse(data) == Some(m)
    requires Routers.NameKey(m) in routes && routes[Routers.NameKey(m)] == Fn(f)
    ensures var h := Wrap(Some(RouterHandle), routes, noAck, msg, id, false);
      && h.receipt == Some(Receipt(msg, noAck)) && !h.nack
      && h.call == Some(Call(f, [m.payload, Fn(DoneFn(id)), Fn(ProgressFn(id)), msg.routingKey]))
  {
    var r := Routers.Route(routes, data, [Fn(DoneFn(id)), Fn(ProgressFn(id)), msg.routingKey]);
    assert [m.payload] + [Fn(DoneFn(id)), Fn(ProgressFn(id)), msg.routingKey]
        == [m.payload, Fn(DoneFn(id)), Fn(ProgressFn(id)), msg.routingKey];
    assert r == Routers.Invoked(Call(f, [m.payload, Fn(DoneFn(id)), Fn(ProgressFn(id)), msg.routingKey]));
  }

  /** An event sent by `sendEvent` and consumed through `consumeEvent`
      reaches the handler registered for its name, with its payload, this
      delivery's `done` and `progress`, and the routing key. */
  lemma RoutedEventReachesHandler(routes: map<string, Value>, noAck: bool, msg: Broker.Delivery, id: nat,
                                  eventName: string, optPayload: Value, f: Callable)
    requires Json.IsJson(optPayload) || optPayload.Undefined?
    requires msg.content == Messages.Encode(Messages.New(Str(eventName), optPayload))
    ensures var h := Wrap(Some(RouterHandle), routes[eventName := Fn(f)], noAck, msg, id, false);
      && h.receipt == Some(Receipt(msg, noAck)) && !h.nack
      && h.call == Some(Call(f, [Messages.New(Str(eventName), optPayload).payload, Fn(DoneFn(id)), Fn(ProgressFn(id)), msg.routingKey]))
  {
    var m := Messages.New(Str(eventName), optPayload);
    Messages.WireRoundTrip(Str(eventName), optPayload);
    var data := Json.Parse(msg.content).value;
    assert Messages.Parse(data) == Some(m);
    WrapRouted(routes[eventName := Fn(f)], noAck, msg, id, data, m, f);
  }

  class Queue {
    const channel: Broker.Channel
    const name: Value
    const rpc: Rpc.RpcManager?
    const options: Value
    /** `queue_.queue`, the broker-assigned name, once `init` has run. */
    var brokerName: Option<string>
    var consumer: Option<Handler>
    var router: Routers.Router?
    /** The `noAck` option of each wrapper `consume_` installed, in order. */
    var wrappers: seq<bool>
    /** The deliveries whose `done`/`progress` closures exist, by number. */
    var received: seq<Receipt>
    /** The consumer calls the wrappers made. */
    var invoked: seq<Call>

    ghost predicate Valid()
      reads this
    {
      consumer == Some(RouterHandle) ==> router != null
    }

    /** `new Queue({channel, name, rpc, options})` for a present channel:
        `name` defaults to '' and `options` to {}. */
    constructor (channel: Broker.Channel, name: Value, rpc: Rpc.RpcManager?, options: Value)
      ensures Valid()
      ensures this.channel == channel && this.rpc == rpc
      ensures this.name == (if Truthy(name) then name else Str(""))
      ensures this.options == (if Truthy(options) then options else EmptyObj())
      ensures brokerName.None? && consumer.None? && router == null
      ensures wrappers == [] && received == [] && invoked == []
    {
      this.channel := channel;
      this.name := if Truthy(name) then name else Str("");
      this.rpc := rpc;
      this.options := if Truthy(options) then options else EmptyObj();
      brokerName, consumer, router := None, None, null;
      wrappers, received, invoked := [], [], [];
    }

    /** `init()`: assert the queue with its name and options; the broker
        reports `reported` as its name. */
    method Init(reported: string)
      requires Valid()
      modifies this, channel
      ensures Valid()
      ensures channel.log == old(channel.log) + [Broker.AssertQueue(name, options)]
      ensures brokerName == Some(reported)
      ensures consumer == old(consumer) && router == old(router) && wrappers == old(wrappers)
      ensures received == old(received) && invoked == old(invoked)
    {
      channel.Perform(Broker.AssertQueue(name, options));
      brokerName := Some(reported);
    }

    /** `getUniqueName()`: None before `init`, where it throws. */
    function UniqueName(): (r: Option<string>)
      reads this
      ensures r == brokerName
    {
      brokerName
    }

    /** `consumeRaw_(consumer, options)`: consume without the wrapper. */
    method ConsumeRaw(raw: Broker.ConsumerRef, consumeOptions: Value) returns (threw: bool)
      modifies channel
      ensures threw <==> brokerName.None?
      ensures threw ==> unchanged(channel)
      ensures !threw ==> channel.log == old(channel.log) + [Broker.Consume(Str(brokerName.value), raw, OrEmpty(consumeOptions))]
    {
      if brokerName.None? {
        return true;
      }
      channel.Perform(Broker.Consume(Str(brokerName.value), raw, OrEmpty(consumeOptions)));
      threw := false;
    }

    /** `consume_(callback, opt_options)`: `consumer_` is set first, then
        the wrapper is installed on the broker-assigned name (which throws
        before `init`). */
    method Consume(callback: Handler, optOptions: Value) returns (threw: bool)
      requires Valid() && (callback.RouterHandle? ==> router != null)
      modifies this, channel
      ensures Valid()
      ensures consumer == Some(callback)
      ensures threw <==> brokerName.None?
      ensures threw ==> unchanged(channel) && wrappers == old(wrappers)
      ensures !threw ==>
        var opts := Merge(ConsumeDefaults(), optOptions);
        && channel.log == old(channel.log) + [Broker.Consume(Str(brokerName.value), Broker.QueueWrapper, Obj(opts))]
        && wrappers == old(wrappers) + [Truthy(Field(opts, "noAck"))]
      ensures brokerName == old(brokerName) && router == old(router)
      ensures received == old(received) && invoked == old(invoked)
    {
      var opts := Merge(ConsumeDefaults(), optOptions);
      consumer := Some(callback);
      if brokerName.None? {
        return true;
      }
      channel.Perform(Broker.Consume(Str(brokerName.value), Broker.QueueWrapper, Obj(opts)));
      wrappers := wrappers + [Truthy(Field(opts, "noAck"))];
      threw := false;
    }

    /** `consumeEvent(eventName, callback, opt_options)`: the router and
        its wrapper are installed only while no consumer is set; the handler
        is always registered unless something threw first. It throws before
        `init`, and when a callback given to `consume_` occupies the slot
        and no router exists. */
    method ConsumeEvent(eventName: Value, callback: Value, optOptions: Value) returns (threw: bool)
      requires Valid()
      modifies this, channel, router
      ensures Valid()
      ensures brokerName == old(brokerName) && received == old(received) && invoked == old(invoked)
      ensures threw <==> if Installed(old(consumer)) then old(router) == null else old(brokerName).None?
      ensures threw ==> unchanged(channel) && consumer == old(consumer) && wrappers == old(wrappers)
      ensures !threw && !Installed(old(consumer)) ==>
        && fresh(router) && router.callbacks == map[ToStr(eventName) := callback]
        && consumer == Some(RouterHandle)
        && channel.log == old(channel.log) +
             [Broker.Consume(Str(brokerName.value), Broker.QueueWrapper, Obj(Merge(ConsumeDefaults(), optOptions)))]
        && wrappers == old(wrappers) + [Truthy(Field(Merge(ConsumeDefaults(), optOptions), "noAck"))]
      ensures !threw && Installed(old(consumer)) ==>
        && router == old(router) && router.callbacks == old(router.callbacks)[ToStr(eventName) := callback]
        && consumer == old(consumer) && unchanged(channel) && wrappers == old(wrappers)
    {
      if !Installed(consumer) {
        if brokerName.None? {
          return true;
        }
        router := new Routers.Router();
        var failed := Consume(RouterHandle, optOptions);
      } else if router == null {
        return true;
      }
      router.Register(eventName, callback);
      threw := false;
    }

    /** `bind(exchange, pattern)`. */
    method Bind(exchange: Value, pattern: Value) returns (threw: bool)
      modifies channel
      ensures threw <==> brokerName.None?
      ensures threw ==> unchanged(channel)
      ensures !threw ==> channel.log == old(channel.log) + [Broker.BindQueue(Str(brokerName.value), exchange, pattern)]
    {
      if brokerName.None? {
        return true;
      }
      channel.Perform(Broker.BindQueue(Str(brokerName.value), exchange, pattern));
      threw := false;
    }

    /** `unbind(exchange, pattern)`. */
    method Unbind(exchange: Value, pattern: Value) returns (threw: bool)
      modifies channel
      ensures threw <==> brokerName.None?
      ensures threw ==> unchanged(channel)
      ensures !threw ==> channel.log == old(channel.log) + [Broker.UnbindQueue(Str(brokerName.value), exchange, pattern)]
    {
      if brokerName.None? {
        return true;
      }
      channel.Perform(Broker.UnbindQueue(Str(brokerName.value), exchange, pattern));
      threw := false;
    }

    /** The broker hands `msg` to the wrapper installed `w`-th. */
    method Deliver(w: nat, msg: Broker.Delivery, handlerThrows: bool)
      requires Valid() && w < |wrappers|
      modifies this, channel
      ensures Valid() && wrappers == old(wrappers)
      ensures var h := Wrap(old(consumer), if old(router) == null then map[] else old(router.callbacks),
                            wrappers[w], msg, |old(received)|, handlerThrows);
        && received == old(received) + (if h.receipt.Some? then [h.receipt.value] else [])
        && invoked == old(invoked) + (if h.call.Some? then [h.call.value] else [])
        && channel.log == old(channel.log) + (if h.nack then [Broker.Nack(msg.tag)] else [])
      ensures brokerName == old(brokerName) && consumer == old(consumer) && router == old(router)
    {
      var noAck := wrappers[w];
      var data := Json.Parse(msg.content);
      if data.None? || Messages.Parse(data.value).None? {
        if !noAck {
          channel.Perform(Broker.Nack(msg.tag));
        }
        return;
      }
      var id := |received|;
      received := received + [Receipt(msg, noAck)];
      var done, progress := Fn(DoneFn(id)), Fn(ProgressFn(id));
      if !Installed(consumer) {
        return;
      }
      var threw := false;
      match consumer.value {
        case RouterHandle =>
          var d := router.Handle(data.value, done, progress, msg.routingKey);
          match d {
            case Invoked(c) =>
              invoked := invoked + [c];
              threw := handlerThrows;
            case Unhandled =>
            case Threw =>
              threw := true;
          }
        case UserHandler(cb) =>
          if cb.Fn? {
            invoked := invoked + [Call(cb.f, [data.value, done, progress, msg.routingKey])];
            threw := handlerThrows;
          } else {
            threw := true;
          }
      }
      if threw && !noAck {
        channel.Perform(Broker.Nack(msg.tag));
      }
    }

    /** The consumer calls the `done` of delivery `id`. */
    method CallDone(id: nat, err: Value, data: Value)
      requires id < |received|
      modifies channel
      ensures channel.log == old(channel.log) + Done(received[id], err, data).effects
    {
      var rc := received[id];
      if ExpectsReply(rc.msg) {
        channel.Perform(ReplyWith(rc.msg, Responses.New(err, data, Bool(true))));
      }
      if !rc.noAck {
        channel.Perform(Broker.Ack(rc.msg.tag));
      }
    }

    /** The consumer calls the `progress` of delivery `id`. */
    method CallProgress(id: nat, data: Value)
      requires id < |received|
      modifies channel
      ensures channel.log == old(channel.log) + Progress(received[id], data)
    {
      var rc := received[id];
      if ExpectsReply(rc.msg) {
        channel.Perform(ReplyWith(rc.msg, Responses.New(Null, data, Bool(false))));
      }
    }

    /** `sendEvent(eventName, opt_payload, opt_options)`, with the uuid `id`
        and the clock reading `now` given. */
    method SendEvent(eventName: Value, optPayload: Value, optOptions: Value, id: string, now: int)
      returns (r: Exchanges.Sent)
      requires rpc != null ==> rpc.Valid()
      modifies channel, rpc
      ensures rpc != null ==> rpc.Valid()
      ensures !eventName.Str? ==>
        r == Exchanges.Rejected(ErrorInstance(PlainError, "Cannot send event to queue. Event name is required."))
        && unchanged(channel) && (rpc != null ==> unchanged(rpc))
      ensures eventName.Str? && brokerName.None? ==>
        r == Exchanges.Threw && unchanged(channel) && (rpc != null ==> unchanged(rpc))
      ensures eventName.Str? && brokerName.Some? ==>
        var queue := Str(brokerName.value);
        var opts := Merge(Exchanges.PublishDefaults(), optOptions);
        var content := Messages.Encode(Messages.New(eventName, optPayload));
        if rpc == null || Truthy(Field(opts, "dontExpectRpc")) then
          && r == Exchanges.Direct
          && channel.log == old(channel.log) + [Broker.SendToQueue(queue, content, Obj(opts))]
          && (rpc != null ==> unchanged(rpc))
        else if old(rpc.UniqueQueueName()).None? then
          r == Exchanges.Threw && unchanged(channel) && unchanged(rpc)
        else
          var sentOpts := Exchanges.WithExpiration(Exchanges.RpcOptions(opts, id, Str(old(rpc.UniqueQueueName()).value)));
          && r == Exchanges.Pending(id)
          && channel.log == old(channel.log) + [Broker.SendToQueue(queue, content, Obj(sentOpts))]
          && rpc.Model() == Rpc.Register(old(rpc.Model()), id, ResolveFn(id), RejectFn(id), Field(opts, "timeout"), now)
          && rpc.invoked == old(rpc.invoked) && rpc.replyQueue == old(rpc.replyQueue)
    {
      if !eventName.Str? {
        return Exchanges.Rejected(ErrorInstance(PlainError, "Cannot send event to queue. Event name is required."));
      }
      var message := Messages.New(eventName, optPayload);
      if brokerName.None? {
        return Exchanges.Threw;
      }
      var queue := Str(brokerName.value);
      var opts := Merge(Exchanges.PublishDefaults(), optOptions);
      var content := Messages.Encode(message);
      if rpc == null || Truthy(Field(opts, "dontExpectRpc")) {
        channel.Perform(Broker.SendToQueue(queue, content, Obj(opts)));
        return Exchanges.Direct;
      }
      var replyTo := rpc.UniqueQueueName();
      if replyTo.None? {
        return Exchanges.Threw;
      }
      var sentOpts := Exchanges.WithExpiration(Exchanges.RpcOptions(opts, id, Str(replyTo.value)));
      channel.Perform(Broker.SendToQueue(queue, content, Obj(sentOpts)));
      rpc.RegisterCallback(id, ResolveFn(id), RejectFn(id), Field(opts, "timeout"), now);
      r := Exchanges.Pending(id);
    }
  }

  /** `new Queue(options)`: throws (None) without a channel. */
  method Construct(channel: Broker.Channel?, name: Value, rpc: Rpc.RpcManager?, options: Value)
    returns (q: Option<Queue>)
    ensures q.None? <==> channel == null
    ensures q.Some? ==> fresh(q.value) && q.value.Valid() && q.value.channel == channel && q.value.rpc == rpc
    ensures q.Some? ==> q.value.name == (if Truthy(name) then name else Str(""))
    ensures q.Some? ==> q.value.options == (if Truthy(options) then options else EmptyObj())
    ensures q.Some? ==> q.value.brokerName.None? && q.value.consumer.None? && q.value.router == null
  {
    if channel == null {
      return None;
    }
    var x := new Queue(channel, name, rpc, options);
    q := Some(x);
  }
}
