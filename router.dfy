/** src/lib/router.js: the event-name to handler table behind
    `Queue.consumeEvent`; `handle` is the queue's consumer. */
module Routers {
  import opened Wrappers
  import opened Js
  import Messages

  /** What one `handle` call does: call one handler, call nothing (an
      unknown name), or throw (no message in `data`, or the registered value
      is truthy but not a function). */
  datatype Dispatch = Invoked(call: Call) | Unhandled | Threw

  /** The property key `callbacks_[message.eventName]` reads. */
  function NameKey(m: Messages.Message): string { ToStr(m.eventName) }

  /** Dispatch of `data` over `callbacks`; the handler receives the message
      payload followed by `trailing` (done, progress and, for this router,
      the routing key). */
  function Route(callbacks: map<string, Value>, data: Value, trailing: seq<Value>): (r: Dispatch)
    ensures Messages.Parse(data).None? ==> r.Threw?
    ensures Messages.Parse(data).Some? ==>
      var m := Messages.Parse(data).value;
      var h := if NameKey(m) in callbacks then callbacks[NameKey(m)] else Undefined;
      && (r.Invoked? <==> h.Fn?)
      && (r.Unhandled? <==> !Truthy(h))
      && (r.Invoked? ==> r.call == Call(h.f, [m.payload] + trailing))
  {
    match Messages.Parse(data)
    case None => Threw
    case Some(m) =>
      var h := if NameKey(m) in callbacks then callbacks[NameKey(m)] else Undefined;
      if !Truthy(h) then Unhandled
      else if h.Fn? then Invoked(Call(h.f, [m.payload] + trailing))
      else Threw
  }

  /** The last registration for a name wins. */
  lemma LastRegistrationWins(callbacks: map<string, Value>, name: Value, first: Value, second: Value,
                             data: Value, trailing: seq<Value>)
    ensures Route(callbacks[ToStr(name) := first][ToStr(name) := second], data, trailing)
         == Route(callbacks[ToStr(name) := second], data, trailing)
  {
    assert callbacks[ToStr(name) := first][ToStr(name) := second] == callbacks[ToStr(name) := second];
  }

  /** A message whose event name was registered with function `f` calls `f`
      once with the payload and the trailing arguments. */
  lemma RegisteredNameDispatches(callbacks: map<string, Value>, name: Value, f: Callable,
                                 optPayload: Value, trailing: seq<Value>)
    requires name.Str?
    ensures var data := Messages.ToJSON(Messages.New(name, optPayload));
      Route(callbacks[ToStr(name) := Fn(f)], data, trailing)
        == Invoked(Call(f, [Messages.New(name, optPayload).payload] + trailing))
  {
    Messages.ParseOfToJSON(name, optPayload);
  }

  /** A message whose event name has no handler calls nothing; in
      particular its `done` is never called, so it is neither acked nor
      nacked. */
  lemma UnknownNameCallsNothing(callbacks: map<string, Value>, data: Value, trailing: seq<Value>)
    requires Messages.Parse(data).Some? && NameKey(Messages.Parse(data).value) !in callbacks
    ensures Route(callbacks, data, trailing) == Unhandled
  {
  }

  class Router {
    var callbacks: map<string, Value>

    constructor ()
      ensures callbacks == map[]
    {
      callbacks := map[];
    }

    /** `register(eventName, callback)`: overwrites any earlier handler. */
    method Register(eventName: Value, callback: Value)
      modifies this
      ensures callbacks == old(callbacks)[ToStr(eventName) := callback]
    {
      callbacks := callbacks[ToStr(eventName) := callback];
    }

    /** `handle(data, done, progress, routingKey)`; it changes nothing, so
        `n` calls with the same data make `n` identical calls. */
    method Handle(data: Value, done: Value, progress: Value, routingKey: Value) returns (r: Dispatch)
      ensures r == Route(callbacks, data, [done, progress, routingKey])
    {
      var parsed := Messages.Parse(data);
      if parsed.None? {
        return Threw;
      }
      var message := parsed.value;
      var key := NameKey(message);
      var callback := if key in callbacks then callbacks[key] else Undefined;
      if !Truthy(callback) {
        r := Unhandled;
      } else if callback.Fn? {
        r := Invoked(Call(callback.f, [message.payload, done, progress, routingKey]));
      } else {
        r := Threw;
      }
    }
  }
}
