/** src/lib/exchange.js: an exchange publishing events, with the same choice
    as a queue's `sendEvent` between fire-and-forget and an RPC call whose
    reply settles a pending entry of the RPC table. */
module Exchanges {
  import opened Wrappers
  import opened Js
  import Json
  import Messages
  import Broker
  import Rpc

  /** `Exchange.publishDefaults`, shared by queues (src/lib/queue.js). */
  function PublishDefaults(): map<string, Value> {
    map["dontExpectRpc" := Bool(false), "timeout" := Num(30000)]
  }

  /** How a publish or send ended: a rejected promise (bad event name, or a
      channel still `null` when the promise runs), a synchronous throw (no
      broker name known yet), a fire-and-forget send,
      or an RPC call pending under its correlation id. */
  datatype Sent = Rejected(error: Value) | Threw | Direct | Pending(correlationId: string)

  /** The error a promise executor rejects with when it calls `op` on a
      channel that is still `null`; it has no `toJSON`. */
  function NullChannelError(op: string): (e: Value)
    ensures e.ErrorInstance? && !Extendable(e.cls)
    ensures Get(e, "message") == Some(Str("Cannot read property '" + op + "' of null"))
  {
    ErrorInstance(TypeError, "Cannot read property '" + op + "' of null")
  }

  /** The options of an RPC send: the merged options plus a fresh
      `correlationId` and the `replyTo` queue. */
  function RpcOptions(options: map<string, Value>, id: string, replyTo: Value): (o: map<string, Value>)
    ensures o.Keys == options.Keys + {"correlationId", "replyTo"}
    ensures o["correlationId"] == Str(id) && o["replyTo"] == replyTo
    ensures forall k | k in options && k != "correlationId" && k != "replyTo" :: o[k] == options[k]
  {
    options["correlationId" := Str(id)]["replyTo" := replyTo]
  }

  predicate PositiveNumber(v: Value) { v.Num? && v.n > 0 }

  /** `options.expiration = options.timeout.toString()` when the timeout is
      a number greater than 0; the options are unchanged otherwise. */
  function WithExpiration(options: map<string, Value>): (o: map<string, Value>)
    ensures PositiveNumber(Field(options, "timeout")) ==>
      o == options["expiration" := Str(IntToString(Field(options, "timeout").n))]
    ensures !PositiveNumber(Field(options, "timeout")) ==> o == options
  {
    var timeout := Field(options, "timeout");
    if PositiveNumber(timeout) then options["expiration" := Str(IntToString(timeout.n))] else options
  }

  /** With the default options, an RPC message expires after 30000 ms. */
  lemma DefaultExpiration(id: string, replyTo: Value)
    ensures var o := WithExpiration(RpcOptions(Merge(PublishDefaults(), Undefined), id, replyTo));
      o["expiration"] == Str("30000") && o["dontExpectRpc"] == Bool(false)
  {
    var o := RpcOptions(Merge(PublishDefaults(), Undefined), id, replyTo);
    assert Field(o, "timeout") == Num(30000);
    assert IntToString(30000) == "30000" by {
      assert NatToString(3) == "3";
      assert NatToString(30) == NatToString(3) + [Digit(0)];
      assert NatToString(300) == NatToString(30) + [Digit(0)];
      assert NatToString(3000) == NatToString(300) + [Digit(0)];
      assert NatToString(30000) == NatToString(3000) + [Digit(0)];
    }
  }

  /** `_.assign({}, this.publishDefaults, opt_options || {})` builds a fresh
      object: whatever the RPC path adds goes to the copy, and the caller's
      own object gives exactly its own properties. */
  lemma CallerOptionsKept(optOptions: Value, id: string, replyTo: Value)
    requires optOptions.Obj?
    ensures var o := WithExpiration(RpcOptions(Merge(PublishDefaults(), optOptions), id, replyTo));
      forall k | k in optOptions.fields && k !in {"correlationId", "replyTo", "expiration"} :: o[k] == optOptions.fields[k]
  {
  }

  class Exchange {
    const channel: Broker.Channel
    const name: Value
    const key: Value
    const kind: Value
    const options: Value
    const rpc: Rpc.RpcManager?

    /** `new Exchange({channel, name, key, type, options, rpc})` for a present
        channel: `name` defaults to '', `key` to the name, `type` to
        'direct', `options` to {}. */
    constructor (channel: Broker.Channel, name: Value, key: Value, kind: Value, options: Value, rpc: Rpc.RpcManager?)
      ensures this.channel == channel && this.rpc == rpc
      ensures this.name == (if Truthy(name) then name else Str(""))
      ensures this.key == (if Truthy(key) then key else this.name)
      ensures this.kind == (if Truthy(kind) then kind else Str("direct"))
      ensures this.options == (if Truthy(options) then options else EmptyObj())
    {
      this.channel := channel;
      this.name := if Truthy(name) then name else Str("");
      this.key := if Truthy(key) then key else (if Truthy(name) then name else Str(""));
      this.kind := if Truthy(kind) then kind else Str("direct");
      this.options := if Truthy(options) then options else EmptyObj();
      this.rpc := rpc;
    }

    /** `init()`: assert the exchange with its name, type and options; the
        promise resolves to the exchange itself. */
    method Init() returns (self: Exchange)
      modifies channel
      ensures self == this
      ensures channel.log == old(channel.log) + [Broker.AssertExchange(name, kind, options)]
    {
      channel.Perform(Broker.AssertExchange(name, kind, options));
      self := this;
    }

    /** `publishEvent(routingKey, eventName, opt_payload, opt_options)`, with
        the uuid `id` and the clock reading `now` given. */
    method PublishEvent(routingKey: Value, eventName: Value, optPayload: Value, optOptions: Value, id: string, now: int)
      returns (r: Sent)
      requires rpc != null ==> rpc.Valid()
      modifies channel, rpc
      ensures rpc != null ==> rpc.Valid()
      ensures !eventName.Str? ==>
        r == Rejected(ErrorInstance(PlainError, "Cannot publish. Event name is required.")) && unchanged(channel) && (rpc != null ==> unchanged(rpc))
      ensures eventName.Str? ==>
        var opts := Merge(PublishDefaults(), optOptions);
        var content := Messages.Encode(Messages.New(eventName, optPayload));
        if rpc == null || Truthy(Field(opts, "dontExpectRpc")) then
          && r == Direct
          && channel.log == old(channel.log) + [Broker.Publish(name, routingKey, content, Obj(opts))]
          && (rpc != null ==> unchanged(rpc))
        else if old(rpc.UniqueQueueName()).None? then
          r == Threw && unchanged(channel) && unchanged(rpc)
        else
          var sentOpts := WithExpiration(RpcOptions(opts, id, Str(old(rpc.UniqueQueueName()).value)));
          && r == Pending(id)
          && channel.log == old(channel.log) + [Broker.Publish(name, routingKey, content, Obj(sentOpts))]
          && rpc.Model() == Rpc.Register(old(rpc.Model()), id, ResolveFn(id), RejectFn(id), Field(opts, "timeout"), now)
          && rpc.invoked == old(rpc.invoked) && rpc.replyQueue == old(rpc.replyQueue)
    {
      if !eventName.Str? {
        return Rejected(ErrorInstance(PlainError, "Cannot publish. Event name is required."));
      }
      var message := Messages.New(eventName, optPayload);
      var opts := Merge(PublishDefaults(), optOptions);
      var content := Messages.Encode(message);
      if rpc == null || Truthy(Field(opts, "dontExpectRpc")) {
        channel.Perform(Broker.Publish(name, routingKey, content, Obj(opts)));
        return Direct;
      }
      var replyTo := rpc.UniqueQueueName();
      if replyTo.None? {
        return Threw;
      }
      var sentOpts := WithExpiration(RpcOptions(opts, id, Str(replyTo.value)));
      channel.Perform(Broker.Publish(name, routingKey, content, Obj(sentOpts)));
      rpc.RegisterCallback(id, ResolveFn(id), RejectFn(id), Field(opts, "timeout"), now);
      r := Pending(id);
    }
  }

  /** `new Exchange(options)`: throws (None) without a channel. */
  method Construct(channel: Broker.Channel?, name: Value, key: Value, kind: Value, options: Value, rpc: Rpc.RpcManager?)
    returns (e: Option<Exchange>)
    ensures e.None? <==> channel == null
    ensures e.Some? ==> fresh(e.value) && e.value.channel == channel && e.value.rpc == rpc
    ensures e.Some? ==> e.value.name == (if Truthy(name) then name else Str(""))
    ensures e.Some? ==> e.value.key == (if Truthy(key) then key else e.value.name)
    ensures e.Some? ==> e.value.kind == (if Truthy(kind) then kind else Str("direct"))
    ensures e.Some? ==> e.value.options == (if Truthy(options) then options else EmptyObj())
  {
    if channel == null {
      return None;
    }
    var x := new Exchange(channel, name, key, kind, options, rpc);
    e := Some(x);
  }
}
