/** src/amqpkit.js: the kit built from the library's Queue, Exchange and
    RPC classes. */
module AmqpKits {
  import opened Wrappers
  import opened Js
  import Json
  import Messages
  import Broker
  import Rpc
  import Queues
  import Exchanges
  import Shutdown

  /** `AmqpKit.prototype.defaults`. */
  function Defaults(): map<string, Value> { map["alias" := Str("microservice"), "rpc" := Bool(true)] }

  /** How `init` ends: a synchronous throw, a rejected promise (an item of
      the queue or exchange list that is null or undefined), or ready. */
  datatype InitOutcome = InitThrew(error: Value) | InitRejected | Ready

  function ArrayError(option: string): Value {
    ErrorInstance(PlainError, "MicroserviceKit init failed. options." + option + " must be an array.")
  }

  /** The synchronous check of `init`: `exchanges` first, then `queues`,
      must each be falsy or an array. */
  function CheckOptions(options: map<string, Value>): (r: Option<Value>)
    ensures r.None? <==>
      && (Truthy(Field(options, "exchanges")) ==> Field(options, "exchanges").Arr?)
      && (Truthy(Field(options, "queues")) ==> Field(options, "queues").Arr?)
    ensures Truthy(Field(options, "exchanges")) && !Field(options, "exchanges").Arr? ==> r == Some(ArrayError("exchanges"))
    ensures (!Truthy(Field(options, "exchanges")) || Field(options, "exchanges").Arr?)
      && Truthy(Field(options, "queues")) && !Field(options, "queues").Arr?
      ==> r == Some(ArrayError("queues"))
  {
    if Truthy(Field(options, "exchanges")) && !Field(options, "exchanges").Arr? then Some(ArrayError("exchanges"))
    else if Truthy(Field(options, "queues")) && !Field(options, "queues").Arr? then Some(ArrayError("queues"))
    else None
  }

  /** `options_.queues || []` (or `exchanges`) once the check has passed. */
  function Listed(v: Value): seq<Value> {
    if v.Arr? then v.items else []
  }

  /** `item.name` and `item.options` throw for a null or undefined item. */
  predicate Readable(item: Value) {
    !item.Undefined? && !item.Null?
  }

  function Prop(item: Value, key: string): Value {
    Get(item, key).GetOr(Undefined)
  }

  /** The number of leading items that can be read: the first one that
      cannot rejects the whole `init`. */
  function ReadablePrefix(items: seq<Value>): (n: nat)
    ensures n <= |items|
    ensures forall i | 0 <= i < n :: Readable(items[i])
    ensures n < |items| ==> !Readable(items[n])
  {
    if items == [] then 0
    else if Readable(items[0]) then 1 + ReadablePrefix(items[1..])
    else 0
  }

  /** The name `new Queue` (and `new Exchange`) gives an item. */
  function ItemName(item: Value): Value {
    if Truthy(Prop(item, "name")) then Prop(item, "name") else Str("")
  }

  /** What `queue.init()` asserts for an item. */
  function QueueAssert(item: Value): Broker.Effect {
    Broker.AssertQueue(ItemName(item), Queues.OrEmpty(Prop(item, "options")))
  }

  function QueueAsserts(items: seq<Value>): seq<Broker.Effect> {
    seq(|items|, i requires 0 <= i < |items| => QueueAssert(items[i]))
  }

  /** What `exchange.init()` asserts for an item: type 'direct' by default. */
  function ExchangeAssert(item: Value): Broker.Effect {
    var kind := Prop(item, "type");
    Broker.AssertExchange(ItemName(item), if Truthy(kind) then kind else Str("direct"), Queues.OrEmpty(Prop(item, "options")))
  }

  function ExchangeAsserts(items: seq<Value>): seq<Broker.Effect> {
    seq(|items|, i requires 0 <= i < |items| => ExchangeAssert(items[i]))
  }

  /** The key `queues_[item.name]` / `exchanges_[item.name]` stores under. */
  function Key(item: Value): string {
    ToStr(Prop(item, "name"))
  }

  /** Which item each key of `queues_` (or `exchanges_`) holds after the
      items are stored in order. */
  function Registry(items: seq<Value>): (r: map<string, nat>)
    ensures forall k | k in r :: r[k] < |items|
  {
    if items == [] then map[]
    else Registry(items[..|items| - 1])[Key(items[|items| - 1]) := |items| - 1]
  }

  /** A key is stored exactly when some item has it, and it holds the last
      such item. */
  lemma {:induction false} RegistryLastWins(items: seq<Value>, k: string)
    ensures k in Registry(items) <==> exists i | 0 <= i < |items| :: Key(items[i]) == k
    ensures k in Registry(items) ==>
      && Key(items[Registry(items)[k]]) == k
      && forall j | Registry(items)[k] < j < |items| :: Key(items[j]) != k
  {
    if items != [] {
      var init := items[..|items| - 1];
      RegistryLastWins(init, k);
      if k != Key(items[|items| - 1]) {
        forall i | 0 <= i < |init| ensures init[i] == items[i] {
        }
      }
    }
  }

  class AmqpKit {
    /** `options_`: unset until `init`. */
    var options: Option<map<string, Value>>
    var channel: Broker.Channel?
    var rpc: Rpc.RpcManager?
    var queues: map<string, Queues.Queue>
    var exchanges: map<string, Exchanges.Exchange>

    function RpcOn(): bool
      reads this
    {
      options.Some? && Truthy(Field(options.value, "rpc"))
    }

    /** `new AmqpKit()`. */
    constructor ()
      ensures options.None? && channel == null && rpc == null && queues == map[] && exchanges == map[]
    {
      options, channel, rpc := None, null, null;
      queues, exchanges := map[], map[];
    }

    /** `init(opt_options)` with the channels the connection creates, the
        reply-queue name the broker reports to the RPC manager and, for the
        `i`-th listed queue, the name it reports for it. The queue and
        exchange lists are handled in order. */
    method Init(optOptions: Value, main: Broker.Channel, second: Broker.Channel, rpcName: string,
                reported: nat -> string, shutdown: Shutdown.ShutdownKit) returns (r: InitOutcome)
      requires main != second
      modifies this, main, second, shutdown
      ensures options == Some(Merge(Defaults(), optOptions))
      ensures CheckOptions(options.value).Some? ==>
        && r == InitThrew(CheckOptions(options.value).value)
        && unchanged(main) && unchanged(second) && unchanged(shutdown)
        && channel == old(channel) && rpc == old(rpc) && queues == old(queues) && exchanges == old(exchanges)
      ensures CheckOptions(options.value).None? ==>
        && channel == main
        && shutdown.jobs == old(shutdown.jobs) + [CloseConnection]
        && shutdown.ran == old(shutdown.ran) && shutdown.isShuttingDown == old(shutdown.isShuttingDown)
      ensures CheckOptions(options.value).None? && RpcOn() ==>
        && rpc != null && fresh(rpc) && rpc.Valid() && rpc.initialized && rpc.channel == second
        && rpc.replyQueue == Some(rpcName) && rpc.callbacks == map[] && rpc.armed == map[]
        && second.log == old(second.log) + [
             Broker.AssertQueue(Str(""), Obj(map["exclusive" := Bool(true)])),
             Broker.Consume(Str(rpcName), Broker.RpcReplies, Obj(map["noAck" := Bool(true)]))]
      ensures CheckOptions(options.value).None? && !RpcOn() ==> rpc == old(rpc) && unchanged(second)
      ensures CheckOptions(options.value).None? ==>
        var qs := Listed(Field(options.value, "queues"));
        var es := Listed(Field(options.value, "exchanges"));
        var n := ReadablePrefix(qs);
        var m := if n < |qs| then 0 else ReadablePrefix(es);
        && r == (if n < |qs| || m < |es| then InitRejected else Ready)
        && main.log == old(main.log) + QueueAsserts(qs[..n]) + ExchangeAsserts(es[..m])
        && QueuesFrom(queues, qs[..n], reported, old(queues).Keys)
        && ExchangesFrom(exchanges, es[..m], rpc, old(exchanges).Keys)
    {
      options := Some(Merge(Defaults(), optOptions));
      var check := CheckOptions(options.value);
      if check.Some? {
        return InitThrew(check.value);
      }
      Connect(main, second, rpcName, shutdown);
      r := Populate(Listed(Field(options.value, "queues")), Listed(Field(options.value, "exchanges")), reported);
    }

    /** The queue and exchange phases of `init`, in that order; a rejected
        queue phase skips the exchanges. */
    method Populate(qs: seq<Value>, es: seq<Value>, reported: nat -> string) returns (r: InitOutcome)
      requires channel != null
      modifies this`queues, this`exchanges, channel
      ensures var n := ReadablePrefix(qs);
        var m := if n < |qs| then 0 else ReadablePrefix(es);
        && r == (if n < |qs| || m < |es| then InitRejected else Ready)
        && channel.log == old(channel.log) + QueueAsserts(qs[..n]) + ExchangeAsserts(es[..m])
        && QueuesFrom(queues, qs[..n], reported, old(queues).Keys)
        && ExchangesFrom(exchanges, es[..m], rpc, old(exchanges).Keys)
    {
      var queuesOk := AssertQueues(qs, reported);
      if !queuesOk {
        assert ExchangeAsserts(es[..0]) == [];
        assert ExchangesFrom(exchanges, es[..0], rpc, old(exchanges).Keys);
        return InitRejected;
      }
      var exchangesOk := AssertExchanges(es);
      r := if exchangesOk then Ready else InitRejected;
    }

    /** The part of `init` after the connection opens: the RPC manager on
        the second channel when `rpc` is on, the main channel, and the
        shutdown job that closes the connection. */
    method Connect(main: Broker.Channel, second: Broker.Channel, rpcName: string, shutdown: Shutdown.ShutdownKit)
      requires main != second
      modifies this`rpc, this`channel, second, shutdown
      ensures channel == main
      ensures shutdown.jobs == old(shutdown.jobs) + [CloseConnection]
      ensures shutdown.ran == old(shutdown.ran) && shutdown.isShuttingDown == old(shutdown.isShuttingDown)
      ensures RpcOn() ==>
        && rpc != null && fresh(rpc) && rpc.Valid() && rpc.initialized && rpc.channel == second
        && rpc.replyQueue == Some(rpcName) && rpc.callbacks == map[] && rpc.armed == map[]
        && second.log == old(second.log) + [
             Broker.AssertQueue(Str(""), Obj(map["exclusive" := Bool(true)])),
             Broker.Consume(Str(rpcName), Broker.RpcReplies, Obj(map["noAck" := Bool(true)]))]
      ensures !RpcOn() ==> rpc == old(rpc) && unchanged(second)
    {
      if RpcOn() {
        var manager := new Rpc.RpcManager();
        manager.Init(second, Undefined, rpcName);
        rpc := manager;
      }
      channel := main;
      shutdown.AddJob(CloseConnection);
    }

    /** The queue stored for `item`: made on the main channel without an
        RPC manager, asserted, and named by the broker. */
    ghost predicate Stored(q: Queues.Queue, item: Value, name: string)
      reads q
    {
      && q.rpc == null
      && q.name == ItemName(item) && q.options == Queues.OrEmpty(Prop(item, "options"))
      && q.brokerName == Some(name) && q.consumer.None?
    }

    /** The exchange stored for `item`: on the main channel with the kit's
        RPC manager. */
    ghost predicate Made(e: Exchanges.Exchange, item: Value, rpc: Rpc.RpcManager?)
    {
      && e.rpc == rpc && e.name == ItemName(item)
      && e.kind == (if Truthy(Prop(item, "type")) then Prop(item, "type") else Str("direct"))
      && e.options == Queues.OrEmpty(Prop(item, "options"))
    }

    /** A `queues_` map `m` after the items `done` were stored over the keys
        `before`: every key holds the queue of the last item with it. */
    ghost predicate QueuesFrom(m: map<string, Queues.Queue>, done: seq<Value>, reported: nat -> string, before: set<string>)
      reads m.Values
    {
      && (forall k | k in Registry(done) :: k in m && Stored(m[k], done[Registry(done)[k]], reported(Registry(done)[k])))
      && (forall k | k in m :: k in before || k in Registry(done))
    }

    /** An `exchanges_` map `m` after the items `done` were stored. */
    ghost predicate ExchangesFrom(m: map<string, Exchanges.Exchange>, done: seq<Value>, rpc: Rpc.RpcManager?, before: set<string>)
    {
      && (forall k | k in Registry(done) :: k in m && Made(m[k], done[Registry(done)[k]], rpc))
      && (forall k | k in m :: k in before || k in Registry(done))
    }

    lemma StoreQueue(m: map<string, Queues.Queue>, done: seq<Value>, item: Value, q: Queues.Queue,
                     reported: nat -> string, before: set<string>)
      requires QueuesFrom(m, done, reported, before) && Stored(q, item, reported(|done|))
      ensures QueuesFrom(m[Key(item) := q], done + [item], reported, before)
    {
      assert (done + [item])[..|done|] == done;
    }

    lemma StoreExchange(m: map<string, Exchanges.Exchange>, done: seq<Value>, item: Value, e: Exchanges.Exchange,
                        rpc: Rpc.RpcManager?, before: set<string>)
      requires ExchangesFrom(m, done, rpc, before) && Made(e, item, rpc)
      ensures ExchangesFrom(m[Key(item) := e], done + [item], rpc, before)
    {
      assert (done + [item])[..|done|] == done;
    }

    /** `new Queue({channel, name, options})` and `queue.init()` for one item. */
    method MakeQueue(item: Value, name: string) returns (q: Queues.Queue)
      requires channel != null
      modifies channel
      ensures fresh(q) && Stored(q, item, name) && q.channel == channel
      ensures channel.log == old(channel.log) + [QueueAssert(item)]
    {
      q := new Queues.Queue(channel, Prop(item, "name"), null, Prop(item, "options"));
      q.Init(name);
    }

    /** `new Exchange({channel, name, type, options, rpc})` and
        `exchange.init()` for one item. */
    method MakeExchange(item: Value) returns (e: Exchanges.Exchange)
      requires channel != null
      modifies channel
      ensures Made(e, item, rpc) && e.channel == channel
      ensures channel.log == old(channel.log) + [ExchangeAssert(item)]
    {
      var x := new Exchanges.Exchange(channel, Prop(item, "name"), Undefined, Prop(item, "type"), Prop(item, "options"), rpc);
      e := x.Init();
    }

    /** The queue phase of `init`: each item becomes an asserted `Queue`
        stored under its name; an unreadable item stops it. */
    method AssertQueues(items: seq<Value>, reported: nat -> string) returns (ok: bool)
      requires channel != null
      modifies this`queues, channel
      ensures ok <==> ReadablePrefix(items) == |items|
      ensures channel.log == old(channel.log) + QueueAsserts(items[..ReadablePrefix(items)])
      ensures QueuesFrom(queues, items[..ReadablePrefix(items)], reported, old(queues).Keys)
    {
      var n := ReadablePrefix(items);
      var i := 0;
      while i < n
        invariant 0 <= i <= n
        invariant channel.log == old(channel.log) + QueueAsserts(items[..i])
        invariant QueuesFrom(queues, items[..i], reported, old(queues).Keys)
      {
        var item := items[i];
        assert QueueAsserts(items[..i + 1]) == QueueAsserts(items[..i]) + [QueueAssert(item)];
        assert items[..i + 1] == items[..i] + [item];
        AddQueue(item, items[..i], reported, old(queues).Keys);
        i := i + 1;
      }
      ok := n == |items|;
    }

    /** One queue item: made, asserted and stored under its name. */
    method AddQueue(item: Value, done: seq<Value>, reported: nat -> string, ghost before: set<string>)
      requires channel != null && QueuesFrom(queues, done, reported, before)
      modifies this`queues, channel
      ensures channel.log == old(channel.log) + [QueueAssert(item)]
      ensures QueuesFrom(queues, done + [item], reported, before)
    {
      var q := MakeQueue(item, reported(|done|));
      StoreQueue(queues, done, item, q, reported, before);
      queues := queues[Key(item) := q];
    }

    /** The exchange phase of `init`. */
    method AssertExchanges(items: seq<Value>) returns (ok: bool)
      requires channel != null
      modifies this`exchanges, channel
      ensures ok <==> ReadablePrefix(items) == |items|
      ensures channel.log == old(channel.log) + ExchangeAsserts(items[..ReadablePrefix(items)])
      ensures ExchangesFrom(exchanges, items[..ReadablePrefix(items)], rpc, old(exchanges).Keys)
    {
      var n := ReadablePrefix(items);
      var i := 0;
      while i < n
        invariant 0 <= i <= n
        invariant channel.log == old(channel.log) + ExchangeAsserts(items[..i])
        invariant ExchangesFrom(exchanges, items[..i], rpc, old(exchanges).Keys)
      {
        var item := items[i];
        assert ExchangeAsserts(items[..i + 1]) == ExchangeAsserts(items[..i]) + [ExchangeAssert(item)];
        assert items[..i + 1] == items[..i] + [item];
        AddExchange(item, items[..i], old(exchanges).Keys);
        i := i + 1;
      }
      ok := n == |items|;
    }

    /** One exchange item: made, asserted and stored under its name. */
    method AddExchange(item: Value, done: seq<Value>, ghost before: set<string>)
      requires channel != null && ExchangesFrom(exchanges, done, rpc, before)
      modifies this`exchanges, channel
      ensures channel.log == old(channel.log) + [ExchangeAssert(item)]
      ensures ExchangesFrom(exchanges, done + [item], rpc, before)
    {
      var e := MakeExchange(item);
      StoreExchange(exchanges, done, item, e, rpc, before);
      exchanges := exchanges[Key(item) := e];
    }

    /** `prefetch(count, opt_global)` on the main channel. */
    method Prefetch(count: Value, optGlobal: Value) returns (threw: bool)
      modifies channel
      ensures threw <==> channel == null
      ensures !threw ==> channel.log == old(channel.log) + [Broker.Prefetch(count, optGlobal)]
    {
      if channel == null {
        return true;
      }
      channel.Perform(Broker.Prefetch(count, optGlobal));
      threw := false;
    }

    /** `sendToQueue(queue, opt_data, opt_options)` with the uuid `id` and
        the clock reading `now`: `publishDefaults` is not defined on this
        class, so only the caller's options are sent; a call expecting a
        reply is registered without a timeout. */
    method SendToQueue(queue: Value, optData: Value, optOptions: Value, id: string, now: int) returns (r: Exchanges.Sent)
      requires rpc != null ==> rpc.Valid()
      modifies channel, rpc
      ensures rpc != null ==> rpc.Valid()
      ensures var opts := Merge(map[], optOptions);
        var content := Json.Stringify(if Truthy(optData) then optData else EmptyObj());
        if content.None? || options.None? then
          r == Exchanges.Threw && (channel != null ==> unchanged(channel)) && (rpc != null ==> unchanged(rpc))
        else if !RpcOn() || Truthy(Field(opts, "dontExpectRpc")) then
          && (rpc != null ==> unchanged(rpc))
          && (channel == null ==> r == Exchanges.Threw)
          && (channel != null ==> r == Exchanges.Direct && channel.log == old(channel.log) + [Broker.SendToQueue(queue, content.value, Obj(opts))])
        else if rpc == null || old(rpc.UniqueQueueName()).None? then
          r == Exchanges.Threw && (channel != null ==> unchanged(channel)) && (rpc != null ==> unchanged(rpc))
        else if channel == null then
          r == Exchanges.Rejected(Exchanges.NullChannelError("sendToQueue")) && unchanged(rpc)
        else
          var sentOpts := Exchanges.RpcOptions(opts, id, Str(old(rpc.UniqueQueueName()).value));
          && r == Exchanges.Pending(id)
          && channel.log == old(channel.log) + [Broker.SendToQueue(queue, content.value, Obj(sentOpts))]
          && rpc.Model() == Rpc.Register(old(rpc.Model()), id, ResolveFn(id), RejectFn(id), Undefined, now)
          && rpc.invoked == old(rpc.invoked) && rpc.replyQueue == old(rpc.replyQueue)
    {
      var opts := Merge(map[], optOptions);
      var content := Json.Stringify(if Truthy(optData) then optData else EmptyObj());
      if content.None? || options.None? {
        return Exchanges.Threw;
      }
      if !RpcOn() || Truthy(Field(opts, "dontExpectRpc")) {
        if channel == null {
          return Exchanges.Threw;
        }
        channel.Perform(Broker.SendToQueue(queue, content.value, Obj(opts)));
        return Exchanges.Direct;
      }
      if rpc == null {
        return Exchanges.Threw;
      }
      var replyTo := rpc.UniqueQueueName();
      if replyTo.None? {
        return Exchanges.Threw;
      }
      if channel == null {
        // inside the promise executor: the promise rejects
        return Exchanges.Rejected(Exchanges.NullChannelError("sendToQueue"));
      }
      var sentOpts := Exchanges.RpcOptions(opts, id, Str(replyTo.value));
      channel.Perform(Broker.SendToQueue(queue, content.value, Obj(sentOpts)));
      rpc.RegisterCallback(id, ResolveFn(id), RejectFn(id), Undefined, now);
      r := Exchanges.Pending(id);
    }

    /** `sendEventToQueue(queue, eventName, opt_payload, opt_options)`: the
        message, whatever its event name, as the data. */
    method SendEventToQueue(queue: Value, eventName: Value, optPayload: Value, optOptions: Value, id: string, now: int)
      returns (r: Exchanges.Sent)
      requires rpc != null ==> rpc.Valid()
      modifies channel, rpc
      ensures rpc != null ==> rpc.Valid()
      ensures var opts := Merge(map[], optOptions);
        var data := Messages.ToJSON(Messages.New(eventName, optPayload));
        var content := Json.Stringify(if Truthy(data) then data else EmptyObj());
        if content.None? || options.None? then
          r == Exchanges.Threw && (channel != null ==> unchanged(channel)) && (rpc != null ==> unchanged(rpc))
        else if !RpcOn() || Truthy(Field(opts, "dontExpectRpc")) then
          && (rpc != null ==> unchanged(rpc))
          && (channel == null ==> r == Exchanges.Threw)
          && (channel != null ==> r == Exchanges.Direct && channel.log == old(channel.log) + [Broker.SendToQueue(queue, content.value, Obj(opts))])
        else if rpc == null || old(rpc.UniqueQueueName()).None? then
          r == Exchanges.Threw && (channel != null ==> unchanged(channel)) && (rpc != null ==> unchanged(rpc))
        else if channel == null then
          r == Exchanges.Rejected(Exchanges.NullChannelError("sendToQueue")) && unchanged(rpc)
        else
          var sentOpts := Exchanges.RpcOptions(opts, id, Str(old(rpc.UniqueQueueName()).value));
          && r == Exchanges.Pending(id)
          && channel.log == old(channel.log) + [Broker.SendToQueue(queue, content.value, Obj(sentOpts))]
          && rpc.Model() == Rpc.Register(old(rpc.Model()), id, ResolveFn(id), RejectFn(id), Undefined, now)
          && rpc.invoked == old(rpc.invoked) && rpc.replyQueue == old(rpc.replyQueue)
      ensures options.None? ==> r == Exchanges.Threw
      ensures r.Direct? || r.Pending? ==>
        channel != null && |channel.log| == |old(channel.log)| + 1 &&
        channel.log[|channel.log| - 1].SendToQueue? &&
        channel.log[|channel.log| - 1].queue == queue &&
        channel.log[|channel.log| - 1].content == Messages.Encode(Messages.New(eventName, optPayload))
    {
      var message := Messages.New(eventName, optPayload);
      r := SendToQueue(queue, Messages.ToJSON(message), optOptions, id, now);
    }

    /** `rv.progress(callback)` of a pending send. */
    method SetProgress(id: string, cb: Value)
      requires rpc != null ==> rpc.Valid()
      modifies rpc
      ensures rpc != null ==> rpc.Valid() && rpc.Model() == Rpc.AttachProgress(old(rpc.Model()), id, cb)
    {
      if rpc != null {
        rpc.SetProgress(id, cb);
      }
    }

    /** `getQueue(queueKey)`: None where the source returns `undefined`. */
    method GetQueue(queueKey: string) returns (q: Option<Queues.Queue>)
      ensures q.Some? <==> queueKey in queues
      ensures q.Some? ==> q.value == queues[queueKey]
    {
      q := if queueKey in queues then Some(queues[queueKey]) else None;
    }

    /** `getExchange(exchangeKey)`. */
    method GetExchange(exchangeKey: string) returns (e: Option<Exchanges.Exchange>)
      ensures e.Some? <==> exchangeKey in exchanges
      ensures e.Some? ==> e.value == exchanges[exchangeKey]
    {
      e := if exchangeKey in exchanges then Some(exchanges[exchangeKey]) else None;
    }
  }
}
