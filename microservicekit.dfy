/** src/microservicekit.js: the older all-in-one kit. It keeps its own table
    of pending RPC calls (no timeouts), its own consume wrapper and one
    legacy router per queue. */
module MicroserviceKits {
  import opened Wrappers
  import opened Js
  import Json
  import Messages
  import Broker
  import Rpc
  import Routers
  import Queues
  import Exchanges
  import Responses

  /** `MicroserviceKit.prototype.defaults`. */
  function Defaults(): map<string, Value> { map["alias" := Str("microservice"), "rpc" := Bool(true)] }

  /** `MicroserviceKit.prototype.consumeDefaults`. */
  function ConsumeDefaults(): map<string, Value> { map["noAck" := Bool(false)] }

  /** `MicroserviceKit.prototype.publishDefaults`: no default timeout. */
  function PublishDefaults(): map<string, Value> { map["dontExpectRpc" := Bool(false)] }

  /** The value in `consumers_[queue]`: a callback given to `consume`, or
      the bound `handle` of `routers_[queue]`. */
  datatype KitConsumer = RawCallback(callback: Value) | RouterHandle

  predicate Present(c: Option<KitConsumer>) {
    c.Some? && (c.value.RouterHandle? || Truthy(c.value.callback))
  }

  /** The kit's `callbacks_` seen as an RPC table that never arms a timer:
      `consumeRpc_` is `consumer` with `options_.rpc` for `initialized`. */
  function AsTable(rpcOn: bool, callbacks: map<string, Rpc.Callbacks>): (t: Rpc.Table)
    ensures Rpc.TimersValid(t) && t.initialized == rpcOn && t.callbacks == callbacks
    ensures t.timeouts == map[] && t.armed == map[]
  {
    Rpc.Table(rpcOn, callbacks, map[], map[], map[], 0)
  }

  /** The consume wrapper of `consume(queue, ...)` for delivery `msg`: the
      consumer gets `(data, done, progress)` with the decoded body itself,
      not a parsed message. */
  function KitWrap(consumer: Option<KitConsumer>, routes: map<string, Value>, noAck: bool, msg: Broker.Delivery,
                   id: nat, handlerThrows: bool): (h: Queues.Handling)
    ensures h.nack ==> !noAck
    ensures Json.Parse(msg.content).None? <==> h.receipt.None?
    ensures h.receipt.None? ==> h.call.None? && h.nack == !noAck
    ensures h.receipt.Some? ==> h.receipt.value == Queues.Receipt(msg, noAck)
    ensures !Present(consumer) ==> h.call.None? && (h.receipt.Some? ==> !h.nack)
    ensures h.call.Some? ==> |h.call.value.args| == 3
    ensures h.call.Some? ==> h.receipt.Some? && Present(consumer) && (h.nack <==> handlerThrows && !noAck)
    ensures h.receipt.Some? && Present(consumer) && consumer.value.RawCallback? ==>
      var cb := consumer.value.callback;
      && (h.call.Some? <==> cb.Fn?)
      && (cb.Fn? ==> h.call.value == Call(cb.f, [Json.Parse(msg.content).value, Fn(DoneFn(id)), Fn(ProgressFn(id))]))
      && (!cb.Fn? ==> h.nack == !noAck)
    ensures h.receipt.Some? && consumer == Some(RouterHandle) ==>
      var r := Routers.Route(routes, Json.Parse(msg.content).value, [Fn(DoneFn(id)), Fn(ProgressFn(id))]);
      && (h.call.Some? <==> r.Invoked?)
      && (r.Invoked? ==> h.call.value == r.call)
      && (h.call.None? ==> (h.nack <==> r.Threw? && !noAck))
  {
    match Json.Parse(msg.content)
    case None => Queues.Handling(None, None, !noAck)
    case Some(data) =>
      var rc := Queues.Receipt(msg, noAck);
      var done, progress := Fn(DoneFn(id)), Fn(ProgressFn(id));
      if !Present(consumer) then Queues.Handling(Some(rc), None, false)
      else match consumer.value
        case RouterHandle =>
          (match Routers.Route(routes, data, [done, progress])
           case Invoked(c) => Queues.Handling(Some(rc), Some(c), handlerThrows && !noAck)
           case Unhandled => Queues.Handling(Some(rc), None, false)
           case Threw => Queues.Handling(Some(rc), None, !noAck))
        case RawCallback(cb) =>
          if cb.Fn? then Queues.Handling(Some(rc), Some(Call(cb.f, [data, done, progress])), handlerThrows && !noAck)
          else Queues.Handling(Some(rc), None, !noAck)
  }

  /** A delivery whose body is a message naming a registered function `f`
      reaches `f` through the kit's router, with the payload, `done` and
      `progress`. */
  lemma KitWrapRouted(routes: map<string, Value>, noAck: bool, msg: Broker.Delivery, id: nat,
                      data: Value, m: Messages.Message, f: Callable)
    requires Json.Parse(msg.content) == Some(data) && Messages.Parse(data) == Some(m)
    requires Routers.NameKey(m) in routes && routes[Routers.NameKey(m)] == Fn(f)
    ensures var h := KitWrap(Some(RouterHandle), routes, noAck, msg, id, false);
      && h.receipt == Some(Queues.Receipt(msg, noAck)) && !h.nack
      && h.call == Some(Call(f, [m.payload, Fn(DoneFn(id)), Fn(ProgressFn(id))]))
  {
    var r := Routers.Route(routes, data, [Fn(DoneFn(id)), Fn(ProgressFn(id))]);
    assert [m.payload] + [Fn(DoneFn(id)), Fn(ProgressFn(id))] == [m.payload, Fn(DoneFn(id)), Fn(ProgressFn(id))];
    assert r == Routers.Invoked(Call(f, [m.payload, Fn(DoneFn(id)), Fn(ProgressFn(id))]));
  }

  /** A body that is not JSON calls no consumer and is nacked unless
      `noAck`; whatever is installed. */
  lemma UndecodableIsNacked(consumer: Option<KitConsumer>, routes: map<string, Value>, msg: Broker.Delivery, id: nat, throws: bool)
    requires Json.Parse(msg.content).None?
    ensures KitWrap(consumer, routes, false, msg, id, throws) == Queues.Handling(None, None, true)
    ensures KitWrap(consumer, routes, true, msg, id, throws) == Queues.Handling(None, None, false)
  {
  }

  /** The pending-call table of the kit settles a call at most once: it is
      the RPC table without timers. Between replies the kit may register
      other pending calls (`send`, `publish`, `sendToQueue`, none with a
      timer) and attach progress callbacks, as long as none of them reuses
      the id or the promise's callbacks. */
  lemma KitSettlesAtMostOnce(rpcOn: bool, callbacks: map<string, Rpc.Callbacks>, id: string,
                             resolve: Callable, reject: Callable, events: seq<Rpc.Event>)
    requires forall k | k in callbacks :: !Rpc.Mentions(callbacks[k], resolve, reject)
    requires forall i | 0 <= i < |events| :: Rpc.Foreign(events[i], id, resolve, reject)
    requires forall i | 0 <= i < |events| ::
      events[i].Reply? || events[i].Progress? || (events[i].Enroll? && events[i].timeout == Undefined)
    ensures var t := AsTable(rpcOn, callbacks[id := Rpc.Callbacks(resolve, reject, Undefined)]);
      Rpc.Settlements(Rpc.Run(t, events).calls, resolve, reject) <= 1
  {
    var t := AsTable(rpcOn, callbacks[id := Rpc.Callbacks(resolve, reject, Undefined)]);
    assert t == Rpc.Register(AsTable(rpcOn, callbacks), id, resolve, reject, Undefined, 0).(registerDates := map[]);
    forall k | k in t.callbacks ensures Rpc.EntryOwned(k, t.callbacks[k], id, resolve, reject) {
    }
    Rpc.RunOwned(t, events, id, resolve, reject);
  }

  /** Where a publish goes. */
  datatype Target = ToExchange(exchange: Value, routingKey: Value) | ToQueue(queue: Value)

  function SendEffect(target: Target, content: Json.Body, options: Value): Broker.Effect {
    match target
    case ToExchange(exchange, routingKey) => Broker.Publish(exchange, routingKey, content, options)
    case ToQueue(queue) => Broker.SendToQueue(queue, content, options)
  }

  /** The channel method a send calls. */
  function ChannelOp(target: Target): string {
    match target
    case ToExchange(_, _) => "publish"
    case ToQueue(_) => "sendToQueue"
  }

  /** What a send does once a channel exists: what it returns and the one
      broker effect it has, if any. */
  datatype Plan = Plan(sent: Exchanges.Sent, effect: Option<Broker.Effect>)

  /** The entry a pending call gets: `{resolve, reject}`, no progress. */
  function PendingEntry(id: string): Rpc.Callbacks {
    Rpc.Callbacks(ResolveFn(id), RejectFn(id), Undefined)
  }

  /** `publish` / `sendToQueue`: `opt_data || {}` as JSON (no body when
      `JSON.stringify` gives `undefined`, which throws); fire and forget
      when `rpc` is off or `dontExpectRpc` is set; otherwise the options get
      the `correlationId` and `replyTo` the kit's reply queue. */
  function SendPlan(target: Target, optData: Value, optOptions: Value, id: string, rpcOn: bool, replyTo: Value): (p: Plan)
    ensures p.effect.Some? <==> !p.sent.Threw?
    ensures p.sent.Threw? || p.sent.Direct? || p.sent == Exchanges.Pending(id)
    ensures p.effect.Some? ==> (p.effect.value.SendToQueue? || p.effect.value.Publish?) && p.effect.value == SendEffect(target, p.effect.value.content, p.effect.value.options)
  {
    var opts := Merge(PublishDefaults(), optOptions);
    var content := Json.Stringify(if Truthy(optData) then optData else EmptyObj());
    if content.None? then Plan(Exchanges.Threw, None)
    else if !rpcOn || Truthy(Field(opts, "dontExpectRpc")) then
      Plan(Exchanges.Direct, Some(SendEffect(target, content.value, Obj(opts))))
    else
      Plan(Exchanges.Pending(id), Some(SendEffect(target, content.value, Obj(Exchanges.RpcOptions(opts, id, replyTo)))))
  }

  /** A send publishes exactly when it does not throw; what it publishes
      is `opt_data || {}` as JSON, to the target it was given. */
  lemma SendPublishesIffNotThrown(target: Target, optData: Value, optOptions: Value, id: string, rpcOn: bool, replyTo: Value)
    ensures var p := SendPlan(target, optData, optOptions, id, rpcOn, replyTo);
      var content := Json.Stringify(if Truthy(optData) then optData else EmptyObj());
      && (p.effect.Some? <==> p.sent != Exchanges.Threw)
      && (p.sent == Exchanges.Threw <==> content.None?)
      && (p.effect.Some? ==> p.effect.value == SendEffect(target, content.value, p.effect.value.options))
  {
  }

  /** A call expects a reply exactly when `rpc` is on and `dontExpectRpc`
      is falsy; its options then carry the correlation id and reply queue
      and keep every other caller option. */
  lemma PendingCarriesCorrelation(target: Target, optData: Value, optOptions: Value, id: string, rpcOn: bool, replyTo: Value)
    requires Json.Stringify(if Truthy(optData) then optData else EmptyObj()).Some?
    ensures var p := SendPlan(target, optData, optOptions, id, rpcOn, replyTo);
      var opts := Merge(PublishDefaults(), optOptions);
      && (p.sent.Pending? <==> rpcOn && !Truthy(Field(opts, "dontExpectRpc")))
      && (p.sent.Pending? ==> p.effect.value.options.Obj?)
      && (p.sent.Pending? ==> Get(p.effect.value.options, "correlationId") == Some(Str(id)))
      && (p.sent.Pending? ==> p.effect.value.options.fields["replyTo"] == replyTo)
      && (p.sent.Pending? ==>
            forall k | k in opts && k != "correlationId" && k != "replyTo" :: p.effect.value.options.fields[k] == opts[k])
      && (p.sent.Direct? ==> p.effect.value.options == Obj(opts))
  {
  }

  /** `publishEvent` and `sendEventToQueue` put the encoded message on the
      wire, whatever the event name. */
  lemma EventSendCarriesMessage(target: Target, eventName: Value, optPayload: Value, optOptions: Value, id: string, rpcOn: bool, replyTo: Value)
    ensures var m := Messages.New(eventName, optPayload);
      var p := SendPlan(target, Messages.ToJSON(m), optOptions, id, rpcOn, replyTo);
      p.effect.Some? && p.effect.value == SendEffect(target, Messages.Encode(m), p.effect.value.options)
  {
  }

  /** The queue and `noAck` option of one installed wrapper. */
  datatype WrapperInfo = WrapperInfo(queue: Value, noAck: bool)

  class MicroserviceKit {
    const options: map<string, Value>
    var channel: Broker.Channel?
    var rpcChannel: Broker.Channel?
    var rpcQueue: Value
    var callbacks: map<string, Rpc.Callbacks>
    var consumers: map<string, KitConsumer>
    /** The table of the legacy router in `routers_[queue]`. */
    var routers: map<string, map<string, Value>>
    var wrappers: seq<WrapperInfo>
    var received: seq<Queues.Receipt>
    var invoked: seq<Call>

    ghost predicate Valid()
      reads this
    {
      && (forall k | k in consumers :: consumers[k] == RouterHandle ==> k in routers)
      && (wrappers != [] || received != [] ==> channel != null)
    }

    function RpcOn(): bool
      reads this
    {
      Truthy(Field(options, "rpc"))
    }

    /** `new MicroserviceKit(opt_options)`: the defaults overridden by the
        caller's options; no channels; empty maps. */
    constructor (optOptions: Value)
      ensures Valid()
      ensures options == Merge(Defaults(), optOptions)
      ensures channel == null && rpcChannel == null && rpcQueue == Null
      ensures callbacks == map[] && consumers == map[] && routers == map[]
      ensures wrappers == [] && received == [] && invoked == []
    {
      options := Merge(Defaults(), optOptions);
      channel, rpcChannel, rpcQueue := null, null, Null;
      callbacks, consumers, routers := map[], map[], map[];
      wrappers, received, invoked := [], [], [];
    }

    /** `init(opt_url)` with the channels the connection created: with `rpc`
        on, assert an exclusive server-named queue on the second channel
        and, when the broker names it (`reported`), consume it without acks. */
    method Init(main: Broker.Channel, second: Broker.Channel, reported: Value)
      requires Valid() && main != second
      modifies this, second
      ensures Valid()
      ensures channel == main
      ensures !RpcOn() ==> rpcChannel == old(rpcChannel) && rpcQueue == old(rpcQueue) && unchanged(second)
      ensures RpcOn() ==>
        && rpcChannel == second
        && rpcQueue == (if Truthy(reported) then reported else old(rpcQueue))
        && second.log == old(second.log) + [Broker.AssertQueue(Str(""), Obj(map["exclusive" := Bool(true)]))]
             + (if Truthy(reported) then [Broker.Consume(reported, Broker.KitReplies, Obj(map["noAck" := Bool(true)]))] else [])
      ensures callbacks == old(callbacks) && consumers == old(consumers) && routers == old(routers)
      ensures wrappers == old(wrappers) && received == old(received) && invoked == old(invoked)
    {
      channel := main;
      if RpcOn() {
        rpcChannel := second;
        second.Perform(Broker.AssertQueue(Str(""), Obj(map["exclusive" := Bool(true)])));
        if Truthy(reported) {
          rpcQueue := reported;
          second.Perform(Broker.Consume(reported, Broker.KitReplies, Obj(map["noAck" := Bool(true)])));
        }
      }
    }

    /** `consumeRpc_(msg)`. */
    method ConsumeRpc(msg: Broker.Delivery)
      modifies this
      ensures callbacks == Rpc.OnReply(AsTable(RpcOn(), old(callbacks)), msg).table.callbacks
      ensures invoked == old(invoked) + Rpc.OnReply(AsTable(RpcOn(), old(callbacks)), msg).calls
      ensures channel == old(channel) && rpcChannel == old(rpcChannel) && rpcQueue == old(rpcQueue)
      ensures consumers == old(consumers) && routers == old(routers) && wrappers == old(wrappers) && received == old(received)
    {
      var key := Rpc.ReplyKey(msg);
      if !RpcOn() || !Truthy(msg.correlationId) || key !in callbacks {
        return;
      }
      var cbs := callbacks[key];
      var parsed := Responses.ParseMessage(msg.content);
      if parsed.None? {
        return;
      }
      var response := parsed.value;
      if !response.done {
        if cbs.progress.Fn? {
          invoked := invoked + [Call(cbs.progress.f, [response.payload])];
        }
        return;
      }
      if Truthy(response.err) {
        invoked := invoked + [Call(cbs.reject, [response.err])];
      } else {
        invoked := invoked + [Call(cbs.resolve, [response.payload])];
      }
      callbacks := callbacks - {key};
    }

    /** `assertQueue`, `assertExchange` and `bindQueue` forward to the main
        channel; each throws before `init`. */
    method AssertQueue(queue: Value, optOptions: Value) returns (threw: bool)
      modifies channel
      ensures threw <==> channel == null
      ensures !threw ==> channel.log == old(channel.log) + [Broker.AssertQueue(queue, optOptions)]
    {
      if channel == null {
        return true;
      }
      channel.Perform(Broker.AssertQueue(queue, optOptions));
      threw := false;
    }

    method AssertExchange(exchange: Value, kind: Value, optOptions: Value) returns (threw: bool)
      modifies channel
      ensures threw <==> channel == null
      ensures !threw ==> channel.log == old(channel.log) + [Broker.AssertExchange(exchange, kind, optOptions)]
    {
      if channel == null {
        return true;
      }
      channel.Perform(Broker.AssertExchange(exchange, kind, optOptions));
      threw := false;
    }

    method BindQueue(queue: Value, exchange: Value, pattern: Value) returns (threw: bool)
      modifies channel
      ensures threw <==> channel == null
      ensures !threw ==> channel.log == old(channel.log) + [Broker.BindQueue(queue, exchange, pattern)]
    {
      if channel == null {
        return true;
      }
      channel.Perform(Broker.BindQueue(queue, exchange, pattern));
      threw := false;
    }

    /** `unbindQueue` as written: it calls `channel.bindQueue`, so it binds
        the queue instead of unbinding it. */
    method UnbindQueueAsWritten(queue: Value, exchange: Value, pattern: Value) returns (threw: bool)
      modifies channel
      ensures threw <==> channel == null
      ensures !threw ==> channel.log == old(channel.log) + [Broker.BindQueue(queue, exchange, pattern)]
      ensures !threw ==> forall e | e in channel.log[|old(channel.log)|..] :: !e.UnbindQueue?
    {
      threw := BindQueue(queue, exchange, pattern);
      assert !threw ==> channel.log[|old(channel.log)|..] == [Broker.BindQueue(queue, exchange, pattern)];
    }

    /** `unbindQueue(queue, exchange, pattern)` as its name and comment
        intend: `channel.unbindQueue` on the main channel. */
    method UnbindQueue(queue: Value, exchange: Value, pattern: Value) returns (threw: bool)
      modifies channel
      ensures threw <==> channel == null
      ensures !threw ==> channel.log == old(channel.log) + [Broker.UnbindQueue(queue, exchange, pattern)]
    {
      if channel == null {
        return true;
      }
      channel.Perform(Broker.UnbindQueue(queue, exchange, pattern));
      threw := false;
    }

    /** `publish` and `sendToQueue` on the main channel, as `SendPlan`
        says; with no channel yet, a fire-and-forget send throws and an RPC
        send rejects, and nothing is registered. */
    method Send(target: Target, optData: Value, optOptions: Value, id: string) returns (r: Exchanges.Sent)
      modifies this`callbacks, channel
      ensures var p := SendPlan(target, optData, optOptions, id, RpcOn(), rpcQueue);
        if channel == null then
          && r == (if p.sent.Pending? then Exchanges.Rejected(Exchanges.NullChannelError(ChannelOp(target))) else Exchanges.Threw)
          && callbacks == old(callbacks)
        else
          && r == p.sent
          && channel.log == old(channel.log) + (if p.effect.Some? then [p.effect.value] else [])
          && callbacks == (if p.sent.Pending? then old(callbacks)[id := PendingEntry(id)] else old(callbacks))
    {
      var p := SendPlan(target, optData, optOptions, id, RpcOn(), rpcQueue);
      if channel == null {
        // the RPC path calls the channel inside the promise executor
        return if p.sent.Pending? then Exchanges.Rejected(Exchanges.NullChannelError(ChannelOp(target))) else Exchanges.Threw;
      }
      if p.effect.Some? {
        channel.Perform(p.effect.value);
      }
      if p.sent.Pending? {
        callbacks := callbacks[id := PendingEntry(id)];
      }
      r := p.sent;
    }

    /** `publish(exchange, routingKey, opt_data, opt_options)`. */
    method Publish(exchange: Value, routingKey: Value, optData: Value, optOptions: Value, id: string) returns (r: Exchanges.Sent)
      modifies this`callbacks, channel
      ensures var p := SendPlan(ToExchange(exchange, routingKey), optData, optOptions, id, RpcOn(), rpcQueue);
        if channel == null then
          && r == (if p.sent.Pending? then Exchanges.Rejected(Exchanges.NullChannelError(ChannelOp(ToExchange(exchange, routingKey)))) else Exchanges.Threw)
          && callbacks == old(callbacks)
        else
          && r == p.sent
          && channel.log == old(channel.log) + (if p.effect.Some? then [p.effect.value] else [])
          && callbacks == (if p.sent.Pending? then old(callbacks)[id := PendingEntry(id)] else old(callbacks))
    {
      r := Send(ToExchange(exchange, routingKey), optData, optOptions, id);
    }

    /** `sendToQueue(queue, opt_data, opt_options)`. */
    method SendToQueue(queue: Value, optData: Value, optOptions: Value, id: string) returns (r: Exchanges.Sent)
      modifies this`callbacks, channel
      ensures var p := SendPlan(ToQueue(queue), optData, optOptions, id, RpcOn(), rpcQueue);
        if channel == null then
          && r == (if p.sent.Pending? then Exchanges.Rejected(Exchanges.NullChannelError(ChannelOp(ToQueue(queue)))) else Exchanges.Threw)
          && callbacks == old(callbacks)
        else
          && r == p.sent
          && channel.log == old(channel.log) + (if p.effect.Some? then [p.effect.value] else [])
          && callbacks == (if p.sent.Pending? then old(callbacks)[id := PendingEntry(id)] else old(callbacks))
    {
      r := Send(ToQueue(queue), optData, optOptions, id);
    }

    /** `publishEvent(exchange, routingKey, eventName, opt_payload,
        opt_options)`: no check of the event name; the body is the message. */
    method PublishEvent(exchange: Value, routingKey: Value, eventName: Value, optPayload: Value, optOptions: Value, id: string)
      returns (r: Exchanges.Sent)
      modifies this`callbacks, channel
      ensures var p := SendPlan(ToExchange(exchange, routingKey), Messages.ToJSON(Messages.New(eventName, optPayload)),
                                optOptions, id, RpcOn(), rpcQueue);
        if channel == null then
          && r == (if p.sent.Pending? then Exchanges.Rejected(Exchanges.NullChannelError(ChannelOp(ToExchange(exchange, routingKey)))) else Exchanges.Threw)
          && callbacks == old(callbacks)
        else
          && r == p.sent
          && channel.log == old(channel.log) + (if p.effect.Some? then [p.effect.value] else [])
          && callbacks == (if p.sent.Pending? then old(callbacks)[id := PendingEntry(id)] else old(callbacks))
    {
      var message := Messages.New(eventName, optPayload);
      r := Publish(exchange, routingKey, Messages.ToJSON(message), optOptions, id);
    }

    /** `sendEventToQueue(queue, eventName, opt_payload, opt_options)`. */
    method SendEventToQueue(queue: Value, eventName: Value, optPayload: Value, optOptions: Value, id: string)
      returns (r: Exchanges.Sent)
      modifies this`callbacks, channel
      ensures var p := SendPlan(ToQueue(queue), Messages.ToJSON(Messages.New(eventName, optPayload)),
                                optOptions, id, RpcOn(), rpcQueue);
        if channel == null then
          && r == (if p.sent.Pending? then Exchanges.Rejected(Exchanges.NullChannelError(ChannelOp(ToQueue(queue)))) else Exchanges.Threw)
          && callbacks == old(callbacks)
        else
          && r == p.sent
          && channel.log == old(channel.log) + (if p.effect.Some? then [p.effect.value] else [])
          && callbacks == (if p.sent.Pending? then old(callbacks)[id := PendingEntry(id)] else old(callbacks))
    {
      var message := Messages.New(eventName, optPayload);
      r := SendToQueue(queue, Messages.ToJSON(message), optOptions, id);
    }

    /** `rv.progress(cb)` of a pending publish: only a live entry gets it. */
    method SetProgress(id: string, cb: Value)
      modifies this`callbacks
      ensures callbacks == Rpc.AttachProgress(AsTable(RpcOn(), old(callbacks)), id, cb).callbacks
    {
      if id in callbacks {
        callbacks := callbacks[id := callbacks[id].(progress := cb)];
      }
    }

    /** `consume(queue, callback, opt_options)`: `consumers_[queue]` is set
        first; the wrapper is installed on the main channel. */
    method Consume(queue: Value, callback: KitConsumer, optOptions: Value) returns (threw: bool)
      requires Valid() && (callback.RouterHandle? ==> ToStr(queue) in routers)
      modifies this, channel
      ensures Valid()
      ensures channel == old(channel) && rpcChannel == old(rpcChannel) && rpcQueue == old(rpcQueue)
      ensures consumers == old(consumers)[ToStr(queue) := callback]
      ensures threw <==> channel == null
      ensures !threw ==>
        var opts := Merge(ConsumeDefaults(), optOptions);
        && channel.log == old(channel.log) + [Broker.Consume(queue, Broker.KitWrapper(queue), Obj(opts))]
        && wrappers == old(wrappers) + [WrapperInfo(queue, Truthy(Field(opts, "noAck")))]
      ensures threw ==> wrappers == old(wrappers)
      ensures callbacks == old(callbacks) && routers == old(routers) && received == old(received) && invoked == old(invoked)
    {
      var opts := Merge(ConsumeDefaults(), optOptions);
      consumers := consumers[ToStr(queue) := callback];
      if channel == null {
        return true;
      }
      channel.Perform(Broker.Consume(queue, Broker.KitWrapper(queue), Obj(opts)));
      wrappers := wrappers + [WrapperInfo(queue, Truthy(Field(opts, "noAck")))];
      threw := false;
    }

    function ConsumerOf(key: string): Option<KitConsumer>
      reads this
    {
      if key in consumers then Some(consumers[key]) else None
    }

    /** The first `consumeEvent` on a queue: `routers_[queue]` becomes an
        empty router, then `consume(queue, <the router>, opt_options)`. */
    method InstallRouter(queue: Value, optOptions: Value) returns (threw: bool)
      requires Valid()
      modifies this, channel
      ensures Valid()
      ensures channel == old(channel) && rpcChannel == old(rpcChannel) && rpcQueue == old(rpcQueue)
      ensures threw <==> channel == null
      ensures routers == old(routers)[ToStr(queue) := map[]]
      ensures consumers == old(consumers)[ToStr(queue) := RouterHandle]
      ensures !threw ==>
        var opts := Merge(ConsumeDefaults(), optOptions);
        && channel.log == old(channel.log) + [Broker.Consume(queue, Broker.KitWrapper(queue), Obj(opts))]
        && wrappers == old(wrappers) + [WrapperInfo(queue, Truthy(Field(opts, "noAck")))]
      ensures threw ==> wrappers == old(wrappers)
      ensures callbacks == old(callbacks) && received == old(received) && invoked == old(invoked)
    {
      routers := routers[ToStr(queue) := map[]];
      threw := Consume(queue, RouterHandle, optOptions);
    }

    /** `consumeEvent(queue, eventName, callback, opt_options)`: a router
        and a consumer are made only while `consumers_[queue]` is unset; the
        handler is then registered on `routers_[queue]`, which throws when a
        plain callback occupies the queue and no router exists. */
    method ConsumeEvent(queue: Value, eventName: Value, callback: Value, optOptions: Value) returns (threw: bool)
      requires Valid()
      modifies this, channel
      ensures Valid()
      ensures channel == old(channel) && rpcChannel == old(rpcChannel) && rpcQueue == old(rpcQueue)
      ensures var key := ToStr(queue);
        threw <==> if Present(old(ConsumerOf(ToStr(queue)))) then key !in old(routers) else channel == null
      ensures var key := ToStr(queue);
        !threw && !Present(old(ConsumerOf(key))) ==>
          && routers == old(routers)[key := map[ToStr(eventName) := callback]]
          && consumers == old(consumers)[key := RouterHandle]
          && var opts := Merge(ConsumeDefaults(), optOptions);
          && channel.log == old(channel.log) + [Broker.Consume(queue, Broker.KitWrapper(queue), Obj(opts))]
          && wrappers == old(wrappers) + [WrapperInfo(queue, Truthy(Field(opts, "noAck")))]
      ensures Present(old(ConsumerOf(ToStr(queue)))) && channel != null ==> channel.log == old(channel.log)
      ensures var key := ToStr(queue);
        !threw && Present(old(ConsumerOf(key))) ==>
          && routers == old(routers)[key := old(routers)[key][ToStr(eventName) := callback]]
          && consumers == old(consumers) && wrappers == old(wrappers) && channel == old(channel)
      ensures var key := ToStr(queue);
        threw && !Present(old(ConsumerOf(key))) ==>
          && routers == old(routers)[key := map[]]
          && consumers == old(consumers)[key := RouterHandle]
          && wrappers == old(wrappers)
      ensures threw && Present(old(ConsumerOf(ToStr(queue)))) ==>
        routers == old(routers) && consumers == old(consumers) && wrappers == old(wrappers)
      ensures callbacks == old(callbacks) && received == old(received) && invoked == old(invoked)
    {
      var key := ToStr(queue);
      if !Present(ConsumerOf(key)) {
        var failed := InstallRouter(queue, optOptions);
        if failed {
          return true;
        }
      } else if key !in routers {
        return true;
      }
      routers := routers[key := routers[key][ToStr(eventName) := callback]];
      threw := false;
    }

    /** The broker hands `msg` to the wrapper installed `w`-th. */
    method Deliver(w: nat, msg: Broker.Delivery, handlerThrows: bool)
      requires Valid() && w < |wrappers|
      modifies this, channel
      ensures Valid() && wrappers == old(wrappers) && channel == old(channel)
      ensures var key := ToStr(wrappers[w].queue);
        var h := KitWrap(old(ConsumerOf(key)), if key in old(routers) then old(routers)[key] else map[],
                         wrappers[w].noAck, msg, |old(received)|, handlerThrows);
        && received == old(received) + (if h.receipt.Some? then [h.receipt.value] else [])
        && invoked == old(invoked) + (if h.call.Some? then [h.call.value] else [])
        && channel.log == old(channel.log) + (if h.nack then [Broker.Nack(msg.tag)] else [])
      ensures callbacks == old(callbacks) && consumers == old(consumers) && routers == old(routers)
    {
      var info := wrappers[w];
      var key := ToStr(info.queue);
      var data := Json.Parse(msg.content);
      if data.None? {
        if !info.noAck {
          channel.Perform(Broker.Nack(msg.tag));
        }
        return;
      }
      var id := |received|;
      received := received + [Queues.Receipt(msg, info.noAck)];
      var done, progress := Fn(DoneFn(id)), Fn(ProgressFn(id));
      var consumer := ConsumerOf(key);
      if !Present(consumer) {
        return;
      }
      var threw := false;
      match consumer.value {
        case RouterHandle =>
          var d := Routers.Route(routers[key], data.value, [done, progress]);
          match d {
            case Invoked(c) =>
              invoked := invoked + [c];
              threw := handlerThrows;
            case Unhandled =>
            case Threw =>
              threw := true;
          }
        case RawCallback(cb) =>
          if cb.Fn? {
            invoked := invoked + [Call(cb.f, [data.value, done, progress])];
            threw := handlerThrows;
          } else {
            threw := true;
          }
      }
      if threw && !info.noAck {
        channel.Perform(Broker.Nack(msg.tag));
      }
    }

    /** The consumer calls the `done` of delivery `id`: reply when asked,
        then ack unless `noAck`. */
    method CallDone(id: nat, err: Value, data: Value)
      requires Valid() && id < |received|
      modifies channel
      ensures channel.log == old(channel.log) + Queues.Done(received[id], err, data).effects
    {
      var rc := received[id];
      if Queues.ExpectsReply(rc.msg) {
        channel.Perform(Queues.ReplyWith(rc.msg, Responses.New(err, data, Bool(true))));
      }
      if !rc.noAck {
        channel.Perform(Broker.Ack(rc.msg.tag));
      }
    }

    /** The consumer calls the `progress` of delivery `id`. */
    method CallProgress(id: nat, data: Value)
      requires Valid() && id < |received|
      modifies channel
      ensures channel.log == old(channel.log) + Queues.Progress(received[id], data)
    {
      var rc := received[id];
      if Queues.ExpectsReply(rc.msg) {
        channel.Perform(Queues.ReplyWith(rc.msg, Responses.New(Null, data, Bool(false))));
      }
    }
  }
}
