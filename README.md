# microservice-kit, modelled in Dafny

microservice-kit is a Node.js library that puts RabbitMQ (through amqplib)
behind a small message-passing API. Services exchange *events*: JSON
envelopes `{eventName, payload}`. They send events to queues or publish them
on exchanges, either fire-and-forget or as RPC calls. An RPC call's reply
comes back on a private reply queue, paired with the call by a correlation
id. A consumer of a queue gets `done` and `progress` callbacks. `done` sends
the final reply and acks the message; `progress` sends intermediate replies.
A router dispatches incoming events to handlers by event name. `Queue`,
`Exchange`, `RPC` and `ShutdownKit` are also event emitters
(`event-emitter-extra`): a registry of listeners kept by event name, each
with an optional execution limit. A shutdown kit
runs registered jobs, newest first, before the process exits.

This project models the library and proves properties about the model:

- **Values.** JavaScript values are the datatype `Js.Value`: undefined, null,
  booleans, integers, strings, arrays, objects, error instances and function
  ids. The builtins the library relies on are functions on it: truthiness,
  property reads, `_.assign` copies, `String(v)` for property keys, and
  `JSON.stringify`/`JSON.parse`.
- **Envelopes.** `Message`, `Response` and the error classes are values with
  encoders and decoders. The round trips are proved over the wire, as JSON
  text.
- **Broker.** The broker is seen from the library's side. A `Broker.Channel`
  records every call made on it (assert, bind, consume, send, publish, ack,
  nack, prefetch) in an effect log. Whatever the broker decides is given to
  the model as an input: a name it assigns, a message it delivers.
- **Classes.** Every class whose fields the source updates (`Queue`,
  `Exchange`, `RPC`, `Router`, `AmqpKit`, `MicroserviceKit`, `ShutdownKit`,
  `EventEmitterExtra`, `Listener`) is a Dafny class with those fields. Its
  methods are proved against pure functions of the old state. Examples:
  - `Rpc.RpcManager.Consumer` against `Rpc.OnReply`;
  - `EventEmitters.EventEmitter.RemoveListener` against
    `EventEmitters.RemovePairs`;
  - `Queues.Queue.Deliver` against `Queues.Wrap`.
- **Properties proved.** They are the ones the library promises or relies
  on:
  - a pending RPC call is settled at most once, whatever replies, timeouts
    and other calls follow;
  - a reply for an unknown or already settled id is ignored;
  - an error passed to `done` reaches the caller's `reject` with its `name`
    and `message`;
  - an event sent to a queue reaches the handler registered for its name;
  - the listener tables stay consistent under every add and remove;
  - a listener whose execution limit is reached is gone after `emit`;
  - shutdown jobs run in reverse order of registration and stop at the first
    failure.

Callbacks supplied by users are opaque ids (`Js.Callable`). What a call
returns is given as a parameter (`outcome`). Whether a queue consumer
throws is a parameter too; emitter listeners are taken not to throw (see
"Left out"). The same goes for the uuid generator, the clock and the broker's
answers. Timers are explicit: `Rpc.RpcManager.FireTimeout` is the runtime
running a pending `setTimeout` closure.

## Model

| member | source | states |
|---|---|---|
| Js.Get | src/lib/queue.js:60 | a property read throws exactly on `null`/`undefined`; on an object it yields the field or `undefined` |
| Js.Merge | src/lib/queue.js:53 | `_.assign({}, defaults, v \|\| {})` has the defaults' keys plus the caller's own keys, with the caller's values winning |
| Js.NatToStringInjective | src/lib/message.js:15 | different array indices become different property keys, so copying an array keeps every element |
| Js.IndexKeyedValues | src/lib/message.js:15 | the copy of an array-like value holds element `i` under key `String(i)` |
| Js.IndexKeyedKeys | src/lib/message.js:15 | the copy of an array-like value has no keys except index keys |
| Errors.New | src/lib/errors/extendableerror.js:5-10 | a constructed error has the concrete class name as `name` and the argument as `message` |
| Errors.ToJSON | src/lib/errors/extendableerror.js:14-19 | `toJSON` gives an object with exactly `message` and `name`, equal to the error's |
| Json.Jsonify | src/lib/message.js:38 | `JSON.stringify` gives no text exactly for `undefined` and functions |
| Json.JsonifyIsJson | src/lib/queue.js:79 | what `JSON.stringify` writes is a JSON document |
| Json.JsonifyOfJson | src/lib/queue.js:79 | a JSON document is written unchanged |
| Json.Parse | src/lib/queue.js:58 | `JSON.parse` succeeds only on a JSON document |
| Json.RoundTrip | src/lib/response.js:39 | parsing what was stringified gives back the stringified form, and the value itself when it was already JSON |
| Messages.New | src/lib/message.js:13-16 | the name is kept unvalidated; the payload is a shallow copy, `{}` when absent or falsy, and equal to an object argument |
| Messages.ToJSON | src/lib/message.js:23-28 | the JSON form has exactly the keys `eventName` and `payload` |
| Messages.Parse | src/lib/message.js:48-50 | `parse` throws exactly on `null`/`undefined` and otherwise rebuilds the message from those two fields |
| Messages.ParseMessage | src/lib/message.js:37-40 | `parseMessage` fails when the body is not JSON and is `parse` of the decoded body otherwise |
| Messages.ParseOfToJSON | src/lib/message.js:23-50 | every constructed message parses back from its JSON form |
| Messages.ParseIgnoresOtherFields | src/lib/message.js:48-50 | fields other than `eventName` and `payload` never influence the parsed message |
| Messages.PayloadIsJson | src/lib/message.js:15 | the copied payload of a JSON argument is JSON |
| Messages.JsonifyDropsAbsentName | src/lib/message.js:23-28 | an undefined event name is left out of the written JSON |
| Messages.WireRoundTrip | src/lib/message.js:13-50 | a message with a string or absent name and a JSON or absent payload decodes from its body as itself |
| Responses.New | src/lib/response.js:13-17 | `err` and `payload` are kept, and `done` is the boolean argument or true otherwise |
| Responses.ToJSON | src/lib/response.js:24-30 | the JSON form has exactly `err`, `payload` and `done` |
| Responses.Parse | src/lib/response.js:50-52 | `parse` throws exactly on `null`/`undefined` and copies the three fields without rebuilding error classes |
| Responses.ParseMessage | src/lib/response.js:39-42 | `parseMessage` fails on a body that is not JSON and otherwise parses the decoded body |
| Responses.ParseOfToJSON | src/lib/response.js:24-52 | every response parses back from its JSON form |
| Responses.ParseMessageFails | src/lib/response.js:39-42 | decoding fails exactly when the body is not JSON or is `null` |
| Responses.WireRoundTrip | src/lib/response.js:13-52 | the receiver sees the same `done`, and `err`/`payload` as JSON wrote them (an error as its `toJSON` object) |
| Broker.Channel.Perform | src/lib/queue.js:34 | each channel call appends one effect to the log |
| Listeners.Check | src/lib/event-emitter-extra/listener.js:9-21 | the constructor accepts exactly a string name, a function handler and a numeric or absent limit; otherwise it throws the message of the first check that fails, each of the three stated |
| Listeners.ExpiryByLimit | src/lib/event-emitter-extra/listener.js:33 | a limit of 0 never expires, and a positive limit expires from that many executions on |
| Listeners.Listener.Execute | src/lib/event-emitter-extra/listener.js:29-38 | `execute` returns the handler's result, counts one execution, and reports expiry exactly when the limit is reached |
| Listeners.Listener.constructor | src/lib/event-emitter-extra/listener.js:23-25 | a listener keeps its name, handler and limit and starts with no executions |
| Listeners.Make | src/lib/event-emitter-extra/listener.js:8-26 | a listener is built exactly when the checks pass, with the given name, handler and limit (default 0) and no executions |
| EventEmitters.AddOneWellFormed | src/lib/event-emitter-extra/index.js:32-60 | adding an unregistered listener keeps both tables consistent |
| EventEmitters.CapThrows | src/lib/event-emitter-extra/index.js:38-39 | at the cap `addListener` throws; nothing is registered and no count changes |
| EventEmitters.AddPlacesListener | src/lib/event-emitter-extra/index.js:43-60 | below the cap the listener goes last in its list, or first with prepend; it is appended to `listeners_`; other names are untouched |
| EventEmitters.AddAppendsHandler | src/lib/event-emitter-extra/index.js:201-218 | after `on(name, h)` below the cap, `listeners(name)` is the old handlers followed by `h` |
| EventEmitters.RemoveOneSpec | src/lib/event-emitter-extra/index.js:81-94 | `removeListener_` takes exactly that listener out of both tables |
| EventEmitters.RemoveAllSpec | src/lib/event-emitter-extra/index.js:101-104 | removing listeners in turn takes exactly those out of both tables and keeps them consistent |
| EventEmitters.RemovedWellFormed | src/lib/event-emitter-extra/index.js:81-94 | taking any set of listeners out of both tables keeps them consistent |
| EventEmitters.RemovedCounts | src/lib/event-emitter-extra/index.js:81-94 | removal never raises a listener count |
| EventEmitters.LastListenerLeavesEventNames | src/lib/event-emitter-extra/index.js:87-88 | removing a name's last listener drops the name from `eventNames()`, and removing one of several keeps it |
| EventEmitters.ClearNameOnly | src/lib/event-emitter-extra/index.js:100-104 | clearing a name leaves it no listener; other names keep theirs; `listeners_` loses exactly that name's listeners |
| EventEmitters.Matching | src/lib/event-emitter-extra/index.js:128 | the filter keeps exactly the listeners of the list whose handler is the given one |
| EventEmitters.MatchingGone | src/lib/event-emitter-extra/index.js:127-129 | the listeners the filter selects are exactly the name's listeners with that handler |
| EventEmitters.RemoveMatchingExact | src/lib/event-emitter-extra/index.js:127-129 | that name keeps exactly its listeners with other handlers, in order, and loses its key when none is left |
| EventEmitters.RemoveMatchingOthers | src/lib/event-emitter-extra/index.js:127-129 | no other name changes, and `listeners_` loses exactly the removed listeners |
| EventEmitters.PairsOfNames | src/lib/event-emitter-extra/index.js:21-28 | an array of plain names with one handler expands to one (name, handler) pair per name, in order |
| EventEmitters.ExpiredIn | src/lib/event-emitter-extra/index.js:249-254 | exactly the snapshot's listeners whose limit is reached |
| EventEmitters.NamedAreCounted | src/lib/event-emitter-extra/index.js:34-46 | every registered listener with a name is counted under that name |
| EventEmitters.AddOne | src/lib/event-emitter-extra/index.js:32-60 | a listener is added exactly when it has no name or its name is below the cap, and then it goes last in `listeners_`, which is otherwise unchanged |
| EventEmitters.AddEach | src/lib/event-emitter-extra/index.js:20-63 | the listeners are added in order up to the first that hits the cap, so `listeners_` grows by a prefix of them, all of them exactly when none throws |
| EventEmitters.RemoveOne | src/lib/event-emitter-extra/index.js:81-94 | removing a listener never adds a listener or a name key |
| EventEmitters.RemoveAll | src/lib/event-emitter-extra/index.js:101-104 | removing listeners in turn never adds a listener or a name key |
| EventEmitters.PairsAreSingle | src/lib/event-emitter-extra/index.js:21-28 | the array expansion bottoms out at single pairs: no pair has an array name or an array handler |
| EventEmitters.RemovePairs | src/lib/event-emitter-extra/index.js:118-143 | removal succeeds only when every expanded name is a string, and never adds a listener |
| EventEmitters.EventEmitter.GetMaxListeners | src/lib/event-emitter-extra/index.js:155-157 | the current cap, the one the constructor or `setMaxListeners` last set |
| Exchanges.NullChannelError | src/microservicekit.js:153-156 | what a promise executor rejects with when it calls the channel while it is `null`: an error without `toJSON` whose message names the call |
| AmqpKits.Registry | src/amqpkit.js:80 | every stored key refers to one of the items stored (queues at line 80, exchanges at line 99) |
| MicroserviceKits.SendPlan | src/microservicekit.js:143-166 | a send publishes exactly when it does not throw, to the target it was given; it is fire-and-forget or pending under the given id, never rejected |
| MicroserviceKits.AsTable | src/microservicekit.js:72-98 | the kit's `callbacks_` is an RPC table with no timers, so what is proved of `Rpc.OnReply` applies to it |
| Queues.HasToJSON | src/lib/queue.js:94-97 | an ExtendableError has `toJSON`; only a truthy value can have one |
| Queues.ReplyWith | src/lib/queue.js:74-84 | the reply goes to `replyTo` with the sender's correlation id, and decodes at the sender as the response as JSON carries it |
| Queues.Queue.UniqueName | src/lib/queue.js:174-176 | the broker-assigned name `init` stored; none before `init`, where the source throws |
| Rpc.RpcManager.UniqueQueueName | src/lib/rpc.js:99-101 | an initialized manager always knows its reply queue name |
| Shutdown.Series | src/shutdownkit.js:75 | the series never runs more jobs than it was given |
| EventEmitters.ExpiredAreGone | src/lib/event-emitter-extra/index.js:249-254 | after `emit`, an expired listener is in neither table, and one that did not expire is still registered |
| EventEmitters.EventEmitter.constructor | src/lib/event-emitter-extra/index.js:11-17 | empty tables, and the cap is `defaultMaxListeners` (10) |
| EventEmitters.EventEmitter.Insert | src/lib/event-emitter-extra/index.js:34-60 | the tables become the update the single-listener add specifies, and the returned flag is whether it did not throw |
| EventEmitters.EventEmitter.AddPair | src/lib/event-emitter-extra/index.js:32-60 | a failed check changes nothing; otherwise a fresh listener is built and added |
| EventEmitters.EventEmitter.AddListener | src/lib/event-emitter-extra/index.js:20-63 | one listener per expanded (name, handler) pair is added in order; it throws exactly at the cap or at the first pair failing a check |
| EventEmitters.EventEmitter.On | src/lib/event-emitter-extra/index.js:218-220 | `addListener` with no limit and no prepend |
| EventEmitters.EventEmitter.Once | src/lib/event-emitter-extra/index.js:223-225 | `addListener` with limit 1; every listener made has limit 1 |
| EventEmitters.EventEmitter.Many | src/lib/event-emitter-extra/index.js:228-230 | `addListener` with the given count as limit |
| EventEmitters.EventEmitter.PrependListener | src/lib/event-emitter-extra/index.js:66-68 | `addListener` with prepend, which the array expansion drops |
| EventEmitters.EventEmitter.PrependOnceListener | src/lib/event-emitter-extra/index.js:71-73 | prepend with limit 1 |
| EventEmitters.EventEmitter.PrependManyListener | src/lib/event-emitter-extra/index.js:76-78 | prepend with the given count as limit |
| EventEmitters.EventEmitter.Unregister | src/lib/event-emitter-extra/index.js:81-94 | `removeListener_` removes that listener from both tables; the name key goes when the list empties |
| EventEmitters.EventEmitter.UnregisterAll | src/lib/event-emitter-extra/index.js:101-104 | removing a snapshot of listeners one by one |
| EventEmitters.EventEmitter.RemoveAllListeners | src/lib/event-emitter-extra/index.js:97-115 | exactly the listeners whose names the argument clears leave both tables (each array item in turn, a string its name, `undefined`/`null` every name, anything else none); a name whose listeners all went leaves `eventNames()`; unnamed listeners and other names stay; no count grows |
| EventEmitters.EventEmitter.RemoveEach | src/lib/event-emitter-extra/index.js:98-99 | an array argument clears its items in turn: exactly the listeners named by some item leave both tables |
| EventEmitters.EventEmitter.ClearName | src/lib/event-emitter-extra/index.js:100-104 | a registered name ends with no listener, and no count grows |
| EventEmitters.EventEmitter.ClearEveryName | src/lib/event-emitter-extra/index.js:109-110 | exactly the named listeners leave both tables, so every name ends with no listener; unnamed listeners stay |
| EventEmitters.EventEmitter.RemoveMatching | src/lib/event-emitter-extra/index.js:127-129 | removes exactly a snapshot of the name's listeners with that handler |
| EventEmitters.EventEmitter.RemoveListener | src/lib/event-emitter-extra/index.js:118-143 | processes the expanded pairs in order and throws at the first name that is not a registered string |
| EventEmitters.EventEmitter.EventNames | src/lib/event-emitter-extra/index.js:146-148 | a name is listed exactly when it has a key in `eventListeners_` |
| EventEmitters.EventEmitter.SetMaxListeners | src/lib/event-emitter-extra/index.js:161-167 | throws exactly on a non-integer; otherwise sets the cap and leaves the tables alone |
| EventEmitters.EventEmitter.ListenerCount | src/lib/event-emitter-extra/index.js:184-198 | throws exactly on a non-string name; otherwise the name's list length, 0 for an unknown name |
| EventEmitters.EventEmitter.ListenersOf | src/lib/event-emitter-extra/index.js:201-215 | throws exactly on a non-string name; otherwise the handlers of the name's list, in order |
| EventEmitters.EventEmitter.Fire | src/lib/event-emitter-extra/index.js:251-254 | one execution: the handler's result, one more count, and removal exactly when the limit is reached |
| EventEmitters.EventEmitter.FireAll | src/lib/event-emitter-extra/index.js:249-255 | every snapshot listener runs once, in order; the results are theirs; exactly the expired ones are removed |
| EventEmitters.EventEmitter.EmitName | src/lib/event-emitter-extra/index.js:245-267 | `emit` of a string name runs a snapshot of its list once each and returns the results, or `false` when none ran |
| EventEmitters.EventEmitter.Emit | src/lib/event-emitter-extra/index.js:233-268 | throws exactly when the name, or an array item at any depth, is not a string; an array gives an array |
| Routers.Route | src/lib/router.js:37-47 | `handle` throws without a message; an unknown name calls nothing; a registered function is called with the payload and trailing arguments |
| Routers.Router.constructor | src/lib/router.js:14-16 | a router starts with no handlers |
| Routers.LastRegistrationWins | src/lib/router.js:20-27 | registering a name again replaces the earlier handler |
| Routers.RegisteredNameDispatches | src/lib/router.js:37-47 | a message whose name was registered with `f` calls `f` once with its payload |
| Routers.UnknownNameCallsNothing | src/lib/router.js:43-46 | a message whose name has no handler calls nothing, so it is neither acked nor nacked |
| Routers.Router.Register | src/lib/router.js:25-27 | `register` overwrites the name's entry |
| Routers.Router.Handle | src/lib/router.js:37-47 | `handle` dispatches as `Route` says, with done, progress and the routing key |
| LegacyRouters.Router.Register | src/router.js:23-25 | `register` overwrites the name's entry |
| LegacyRouters.Router.constructor | src/router.js:12-14 | a router starts with no handlers |
| LegacyRouters.Router.Handle | src/router.js:34-42 | the same dispatch, with three handler arguments and no routing key |
| Exchanges.RpcOptions | src/lib/exchange.js:71-72 | the options of an RPC publish add `correlationId` and `replyTo` and keep every other option |
| Exchanges.WithExpiration | src/lib/exchange.js:74-76 | `expiration` is the decimal text of a positive numeric timeout; otherwise the options are unchanged |
| Exchanges.DefaultExpiration | src/lib/exchange.js:116-119 | with the default options an RPC message expires after "30000" ms |
| Exchanges.CallerOptionsKept | src/lib/exchange.js:58 | the caller's own options reach the wire unchanged |
| Exchanges.Exchange.constructor | src/lib/exchange.js:14-28 | name defaults to '', key to the name, type to 'direct', options to {} |
| Exchanges.Exchange.Init | src/lib/exchange.js:34-41 | asserts the exchange with its name, type and options, and resolves to itself |
| Exchanges.Exchange.PublishEvent | src/lib/exchange.js:53-99 | rejects a non-string name; sends fire-and-forget without RPC or with `dontExpectRpc`; otherwise publishes with correlation id and reply queue and registers the call |
| Exchanges.Construct | src/lib/exchange.js:17-19 | construction throws exactly without a channel |
| Queues.DoneAsWritten | src/lib/queue.js:68-104 | `done` as written throws on a truthy error without `toJSON`, and then never acks |
| Queues.OrEmpty | src/lib/queue.js:53 | `v \|\| {}` is always truthy |
| Queues.Done | src/lib/queue.js:68-104 | `done` replies when the sender asked for a reply, then acks exactly once unless `noAck`, and never nacks |
| Queues.DoneAgreesWhenErrorSerialisable | src/lib/queue.js:94-97 | where the written `done` does not throw it does exactly what the corrected one does |
| Queues.PlainErrorIsNeverAcked | src/lib/queue.js:94-103 | a plain `Error` passed to `done` leaves the message unacked |
| Queues.Progress | src/lib/queue.js:106-115 | `progress` sends one `done: false` reply exactly when the sender asked for one, and never acks |
| Queues.ProgressDecodesAsProgress | src/lib/queue.js:106-115 | a progress reply decodes at the sender as a progress notification with the data |
| Queues.Wrap | src/lib/queue.js:56-128 | an undecodable body or missing message nacks unless `noAck`; with no consumer nothing is called; a function consumer is called with the decoded message, `done`, `progress` and the routing key; a router dispatches by name; a nack follows exactly a throw (of the handler, of a non-function consumer, or of the router), unless `noAck` |
| Queues.WrapRouted | src/lib/queue.js:117-119 | a decoded message for a registered name reaches that handler with done, progress and the routing key |
| Queues.RoutedEventReachesHandler | src/lib/queue.js:187-194 | an event encoded by `sendEvent` and consumed through `consumeEvent` reaches its handler with its payload |
| Queues.Queue.constructor | src/lib/queue.js:15-26 | name defaults to '' and options to {} |
| Queues.Queue.Init | src/lib/queue.js:32-39 | asserts the queue with its name and options and records the broker's name |
| Queues.Queue.ConsumeRaw | src/lib/queue.js:42-44 | consumes the broker-assigned name, and throws before `init` |
| Queues.Queue.Consume | src/lib/queue.js:52-56 | sets `consumer_` first, then installs the wrapper with the merged options; throws before `init` |
| Queues.Queue.ConsumeEvent | src/lib/queue.js:138-145 | the first call makes the router and consumes; later calls only register; it throws when a plain callback holds the slot |
| Queues.Queue.Bind | src/lib/queue.js:154-156 | binds the broker-assigned name, and throws before `init` |
| Queues.Queue.Unbind | src/lib/queue.js:165-167 | unbinds the broker-assigned name, and throws before `init` |
| Queues.Queue.Deliver | src/lib/queue.js:56-128 | one delivery does what `Wrap` says: the closures' receipt, exactly the consumer call `Wrap` names, and a nack exactly when `Wrap` says |
| Queues.Queue.CallDone | src/lib/queue.js:68-104 | calling a delivery's `done` performs the effects of the corrected `Done` |
| Queues.Queue.CallProgress | src/lib/queue.js:106-115 | calling a delivery's `progress` performs the effects `Progress` says |
| Queues.Queue.SendEvent | src/lib/queue.js:187-260 | rejects a non-string name; throws before `init`; otherwise sends fire-and-forget or as a registered RPC call |
| Queues.Construct | src/lib/queue.js:17-19 | construction throws exactly without a channel |
| Rpc.OnReply | src/lib/rpc.js:61-97 | a reply touches only its own id's entry, makes at most one call, and keeps the timer handles valid |
| Rpc.Forget | src/lib/rpc.js:88-93 | the id is gone from `callbacks_`, `timeouts_` and `registerDates_`, and every other id keeps its entry |
| Rpc.Register | src/lib/rpc.js:103-117 | stores the entry and date; arms a fresh timer exactly for a positive numeric timeout; other ids are untouched |
| Rpc.Answer | src/lib/rpc.js:67-96 | a decoded reply affects only its own id and makes at most one call; an undecodable one changes nothing |
| Rpc.Fire | src/lib/rpc.js:108-115 | a pending timer is removed and its id forgotten in all three maps; other ids are untouched |
| Rpc.AttachProgress | src/lib/rpc.js:119-121 | `.progress(cb)` sets `progress` on a live entry only |
| Rpc.ReplyIgnored | src/lib/rpc.js:64-65 | a reply is ignored before `init`, without a correlation id, or for an unregistered id |
| Rpc.ReplyUndecodable | src/lib/rpc.js:94-96 | an undecodable reply is swallowed and changes nothing |
| Rpc.ReplyProgress | src/lib/rpc.js:72-75 | a progress reply calls the attached `progress` and keeps the entry |
| Rpc.ReplyTerminal | src/lib/rpc.js:77-93 | a final reply calls `reject(err)` for a truthy err and `resolve(payload)` otherwise, then removes the id and its timer |
| Rpc.SecondReplyIgnored | src/lib/rpc.js:93 | once settled, a second reply for the same id does nothing |
| Rpc.ErrorReachesReject | src/lib/rpc.js:83-84 | an ExtendableError passed to the responder's `done` reaches `reject` with the same name and message |
| Rpc.FireRejects | src/lib/rpc.js:108-115 | a timer rejects a live entry once with 'Timeout exceed.' and forgets the id |
| Rpc.UntimedEntryPersists | src/lib/rpc.js:107 | an entry registered without a positive timeout is never removed by a timer |
| Rpc.StaleTimerRejectsNewerRegistration | src/lib/rpc.js:103-117 | in any table, re-registering an id without a timeout keeps the first registration's timer, which then rejects the new registration and removes it |
| Rpc.AtMostOneSettlement | src/lib/rpc.js:61-117 | a registered call is resolved or rejected at most once, whatever replies, timers and other calls follow |
| Rpc.RpcManager.constructor | src/lib/rpc.js:12-21 | not initialized, and empty maps |
| Rpc.RpcManager.Init | src/lib/rpc.js:27-53 | asserts an exclusive reply queue, consumes it with `noAck`, and becomes initialized |
| Rpc.RpcManager.Consumer | src/lib/rpc.js:61-97 | the new table and the calls made are those of `OnReply` |
| Rpc.RpcManager.Settle | src/lib/rpc.js:67-96 | the part after the guard, as `Answer` specifies |
| Rpc.RpcManager.RegisterCallback | src/lib/rpc.js:103-117 | the new table is `Register` of the old |
| Rpc.RpcManager.FireTimeout | src/lib/rpc.js:108-115 | the new table and the calls made are those of `Fire` |
| Rpc.RpcManager.GetCallback | src/lib/rpc.js:119-121 | the registered entry, exactly when one exists |
| Rpc.RpcManager.SetProgress | src/lib/exchange.js:90-96 | the new table is `AttachProgress` of the old |
| AmqpKits.CheckOptions | src/amqpkit.js:39-45 | `init` throws synchronously exactly when `exchanges` or `queues` is truthy and not an array, with `exchanges` checked first; the error names the option that failed |
| AmqpKits.ReadablePrefix | src/amqpkit.js:71-76 | the items before the first null or undefined one |
| AmqpKits.RegistryLastWins | src/amqpkit.js:80 | a key is stored exactly when some item has it, and holds the last such item |
| AmqpKits.AmqpKit.constructor | src/amqpkit.js:20-27 | no connection, channel or RPC manager, and empty maps |
| AmqpKits.AmqpKit.Init | src/amqpkit.js:36-104 | merges defaults; throws on bad options; makes the RPC manager when `rpc` is on; adds the shutdown job; asserts and stores queues, then exchanges |
| AmqpKits.AmqpKit.Connect | src/amqpkit.js:49-67 | with `rpc` on, an initialized RPC manager on the second channel; the main channel; the close-connection job |
| AmqpKits.AmqpKit.Populate | src/amqpkit.js:68-103 | queues first, then exchanges; a rejected queue phase skips the exchanges |
| AmqpKits.AmqpKit.AssertQueues | src/amqpkit.js:68-84 | each readable item becomes an asserted queue without RPC, stored under its name |
| AmqpKits.AmqpKit.AssertExchanges | src/amqpkit.js:85-103 | each readable item becomes an asserted exchange with the kit's RPC manager, stored under its name |
| AmqpKits.AmqpKit.AddQueue | src/amqpkit.js:72-80 | one queue item adds one assert to the log, and the stored queues go on matching the items handled so far |
| AmqpKits.AmqpKit.MakeQueue | src/amqpkit.js:72-78 | a fresh queue on the main channel, asserted with the item's name and options |
| AmqpKits.AmqpKit.AddExchange | src/amqpkit.js:89-101 | one exchange item adds one assert to the log, and the stored exchanges go on matching the items handled so far |
| AmqpKits.AmqpKit.MakeExchange | src/amqpkit.js:89-97 | an exchange with the item's name, type and options, asserted |
| AmqpKits.AmqpKit.Prefetch | src/amqpkit.js:142-144 | forwards to the main channel, and throws before `init` |
| AmqpKits.AmqpKit.SendToQueue | src/amqpkit.js:156-180 | sends `opt_data \|\| {}` as JSON; throws before `init`; registers an RPC call, without a timeout, unless rpc is off or `dontExpectRpc`; with no channel a direct send throws and an RPC send rejects with the engine's `TypeError` |
| AmqpKits.AmqpKit.SendEventToQueue | src/amqpkit.js:191-194 | `sendToQueue` of the message's JSON, with every outcome of it; what goes on the wire to that queue is the encoded message, whatever its name |
| AmqpKits.AmqpKit.SetProgress | src/amqpkit.js:171-177 | `.progress(cb)` sets `progress` on a live entry |
| AmqpKits.AmqpKit.GetQueue | src/amqpkit.js:202-204 | the stored queue, exactly when the key is stored |
| AmqpKits.AmqpKit.GetExchange | src/amqpkit.js:211-213 | the stored exchange, exactly when the key is stored |
| MicroserviceKits.KitWrap | src/microservicekit.js:243-282 | an undecodable body nacks unless `noAck`; a function consumer is called with the decoded body itself, `done` and `progress`; a router dispatches by name; a nack follows exactly a throw, unless `noAck` |
| MicroserviceKits.KitWrapRouted | src/microservicekit.js:293-301 | a delivered message for a registered name reaches that handler with its payload, `done` and `progress`, and is not nacked |
| MicroserviceKits.UndecodableIsNacked | src/microservicekit.js:273-281 | a body that is not JSON calls no consumer and is nacked unless `noAck` |
| MicroserviceKits.KitSettlesAtMostOnce | src/microservicekit.js:72-98 | the kit's own pending-call table settles each call at most once, whatever replies, other timer-free sends and `.progress` attaches follow (src/microservicekit.js:143-166, 193-216) |
| MicroserviceKits.SendPublishesIffNotThrown | src/microservicekit.js:143-148 | a send puts something on the wire exactly when it does not throw, and what it sends is `opt_data \|\| {}` as JSON |
| MicroserviceKits.PendingCarriesCorrelation | src/microservicekit.js:147-155 | a reply is expected exactly with rpc on and no `dontExpectRpc`, and the options then carry the id and reply queue |
| MicroserviceKits.EventSendCarriesMessage | src/microservicekit.js:178-181 | `publishEvent`/`sendEventToQueue` put the encoded message on the wire |
| MicroserviceKits.MicroserviceKit.constructor | src/microservicekit.js:17-26 | the defaults overridden by the caller's options, no channels, empty maps |
| MicroserviceKits.MicroserviceKit.Init | src/microservicekit.js:34-65 | with `rpc` on, asserts an exclusive reply queue and consumes it once the broker names it |
| MicroserviceKits.MicroserviceKit.ConsumeRpc | src/microservicekit.js:72-98 | the new table and calls are those of the shared reply handling, with no timers |
| MicroserviceKits.MicroserviceKit.AssertQueue | src/microservicekit.js:104-106 | forwards to the main channel, and throws before `init` |
| MicroserviceKits.MicroserviceKit.AssertExchange | src/microservicekit.js:112-114 | forwards to the main channel, and throws before `init` |
| MicroserviceKits.MicroserviceKit.BindQueue | src/microservicekit.js:120-122 | forwards to the main channel, and throws before `init` |
| MicroserviceKits.MicroserviceKit.UnbindQueueAsWritten | src/microservicekit.js:128-130 | `unbindQueue` as written binds and never unbinds |
| MicroserviceKits.MicroserviceKit.UnbindQueue | src/microservicekit.js:128-130 | `unbindQueue` as intended unbinds on the main channel |
| MicroserviceKits.MicroserviceKit.Publish | src/microservicekit.js:143-166 | puts the send on the wire as `SendPlan` says, registering an RPC call when one is expected; without a channel it throws, or rejects on the RPC path |
| MicroserviceKits.MicroserviceKit.Send | src/microservicekit.js:143-166 | without a channel a fire-and-forget send throws and an RPC send rejects with the engine's `TypeError`, and nothing is registered; otherwise it sends what `SendPlan` computes and registers a pending call exactly when a reply is expected |
| MicroserviceKits.MicroserviceKit.SendToQueue | src/microservicekit.js:193-216 | the same for a queue, with the rejection naming `sendToQueue` |
| MicroserviceKits.MicroserviceKit.PublishEvent | src/microservicekit.js:178-181 | `publish` of the message's JSON, with the same outcomes, null channel included |
| MicroserviceKits.MicroserviceKit.SendEventToQueue | src/microservicekit.js:227-230 | `sendToQueue` of the message's JSON, with the same outcomes, null channel included |
| MicroserviceKits.MicroserviceKit.SetProgress | src/microservicekit.js:158-163 | `.progress(cb)` sets `progress` on a live entry only |
| MicroserviceKits.MicroserviceKit.Consume | src/microservicekit.js:239-243 | sets `consumers_[queue]` first, then installs the wrapper with the merged options |
| MicroserviceKits.MicroserviceKit.InstallRouter | src/microservicekit.js:294-297 | the queue gets an empty router and the router as its consumer; the broker `Consume` is performed and the wrapper installed exactly when a channel exists |
| MicroserviceKits.MicroserviceKit.ConsumeEvent | src/microservicekit.js:293-301 | the first call makes the queue's router and consumes, performing the broker `Consume` with the merged options and installing its wrapper; later calls only register and leave the channel log alone; a plain callback without a router throws and changes nothing; without a channel the empty router and the router consumer stay set and no wrapper is installed |
| MicroserviceKits.MicroserviceKit.Deliver | src/microservicekit.js:243-282 | one delivery does what `KitWrap` says: the receipt, exactly the consumer call it names, and a nack exactly when it says |
| MicroserviceKits.MicroserviceKit.CallDone | src/microservicekit.js:247-259 | `done` replies when asked and acks unless `noAck` |
| MicroserviceKits.MicroserviceKit.CallProgress | src/microservicekit.js:261-270 | `progress` sends one progress reply when asked |
| Shutdown.Reverse | src/shutdownkit.js:75 | the jobs in reverse order |
| Shutdown.SeriesStopsAtFirstFailure | src/shutdownkit.js:75 | the series runs a prefix that stops right after the first failing job, and runs everything when nothing fails |
| Shutdown.ReverseReverse | src/shutdownkit.js:75 | reversing twice gives back the jobs |
| Shutdown.NewestJobFirst | src/shutdownkit.js:75 | with no failure the job added last runs first, and the jobs run in exactly reverse order of adding |
| Shutdown.ShutdownKit.constructor | src/shutdownkit.js:10-17 | no jobs, and not shutting down |
| Shutdown.ShutdownKit.AddJob | src/shutdownkit.js:24-26 | appends the job |
| Shutdown.ShutdownKit.GracefulShutdown | src/shutdownkit.js:70-85 | a second call does nothing; the first reverses the jobs in place, runs the series and exits once whatever the result |
| Shutdown.RunSeries | src/shutdownkit.js:75 | the jobs `async.series` starts are `Series` of them |

## Left out

- **I/O.** The connection, logging (`log_`, `debug`, `console.log`) and the
  'log'/'consumedEvent' emissions are not modelled. Neither are tracer spans
  (src/lib/queue.js:213-245) or connection events. What the broker answers is
  a parameter.
- **Asynchrony.** Promises are modelled by their outcome. `async.mapLimit`
  over queues and exchanges is sequential in the model: concurrency and its
  interleavings are not captured.
- **Randomness and time.** uuids, clock readings, handler results and
  timer ids are parameters.
- **Process.** `process.exit`, signal handlers and `stdin.resume` in
  src/shutdownkit.js are not modelled. `exit_` is a counter.
- **Emitter self-events.** Listeners of 'newListener' and 'removeListener'
  run re-entrantly mid-operation, so those self-emissions are left out.
- **Regex listeners.** `regexListeners_`, `regexes`, the regex cap and its
  getter/setter, `testRegexWith` and `regexEquals` are not modelled.
  Regular expressions are not part of the value model.
- **emitAsync.** It only wraps `emit` in `Promise.all`, and promises are not
  modelled.
- **`this` inside handlers.** `execute` binds it to a copy of the listener.
  That binding is left out: handler results are parameters.
- **Numbers.** They are integers: floats, NaN and the float cases of
  `parseInt(n, 10) != n` are not modelled.
- **Property keys.** `Object.prototype` names such as `"constructor"` are
  treated like any other key.
- EventEmitters.EventEmitter.EventNames: a set, so the key order of
  `Object.keys` is not captured; `removeAllListeners()` clears names in
  any order, which is equivalent.
- EventEmitters.EventEmitter.AddListener: the nested `forEach` loops over
  array arguments are one loop over the expanded pairs, in the same order.
  The contract does not state that the listeners made are distinct fresh
  objects, only that each came from its pair.
- EventEmitters.EventEmitter.Emit: for an array name it states when the
  call throws and that the result is an array. It does not state the
  contents of that array or the new tables, which depend on listener counts
  that each item's emit updates.
- EventEmitters.EventEmitter.SetMaxListeners: any `Num` is an integer
  here.
- AmqpKits.AmqpKit.Init: AmqpKit's `callbacks_` map is never used by the
  source, so it is not modelled.
- Exchanges.NullChannelError: the message is the one V8 engines of the
  library's time gave ("Cannot read property 'publish' of null"); newer
  engines word it differently.
- Json.Jsonify: an object whose own `toJSON` property is a function is
  written field by field, with that function dropped. `JSON.stringify`
  would call it; what it returns is opaque here.
- Listeners.Listener.Execute: the handler is taken not to throw. In the
  source a throw escapes before `execCount` is incremented.
- EventEmitters.EventEmitter.Fire: a listener whose handler throws is
  not modelled. In the source the throw leaves its count unchanged and the
  listener registered.
- EventEmitters.EventEmitter.FireAll: a throwing handler, which would
  stop the remaining listeners of the snapshot, is not modelled.
- EventEmitters.EventEmitter.EmitName: a throwing handler, which would
  make `emit` throw after the earlier listeners ran, is not modelled.
- EventEmitters.EventEmitter.Emit: as for `EmitName`, handlers are taken
  not to throw.
- Queues.Queue.CallDone: models the corrected `done` (see Findings). The
  as-written behaviour is `Queues.DoneAsWritten`.
- Shutdown.ShutdownKit.GracefulShutdown: every job is taken to call back.
  A job that never calls `done` leaves `async.series` pending, so `exit_`
  is never reached (the source has no timeout, src/shutdownkit.js:71); the
  contract's `exits == old(exits) + 1` does not capture that case.

## Findings

| source | as written | input that shows it | evidently intended | confidence | as-written member | corrected member |
|---|---|---|---|---|---|---|
| src/lib/queue.js:94-103 | `done(err)` builds its log payload with `err.toJSON()` before it acks | `done(new Error("x"))`: a plain `Error` has no `toJSON`, so the call throws after the reply is sent and the message is never acked | the reply is sent and the message acked whatever `err` is; only the log descriptor depends on `toJSON` | not executed | Queues.DoneAsWritten, Queues.PlainErrorIsNeverAcked | Queues.Done |
| src/microservicekit.js:128-130 | `unbindQueue` calls `this.channel.bindQueue` | `unbindQueue(q, x, p)` binds `q` to `x` over `p` instead of removing that binding | call `channel.unbindQueue` | not executed | MicroserviceKits.MicroserviceKit.UnbindQueueAsWritten | MicroserviceKits.MicroserviceKit.UnbindQueue |
