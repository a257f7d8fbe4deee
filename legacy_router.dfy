/** src/router.js: the router of the older MicroserviceKit; the same table
    as src/lib/router.js, but handlers get no routing key. */
module LegacyRouters {
  import opened Js
  import Messages
  import Routers

  class Router {
    var callbacks: map<string, Value>

    constructor ()
      ensures callbacks == map[]
    {
      callbacks := map[];
    }

    /** `register(eventName, callback)`: overwrites any earlier handler. */
    method Register(eventName: Value, callback: Value)
      modifies this
      ensures callbacks == old(callbacks)[ToStr(eventName) := callback]
    {
      callbacks := callbacks[ToStr(eventName) := callback];
    }

    /** `handle(data, done, progress)`: three arguments, no routing key. */
    method Handle(data: Value, done: Value, progress: Value) returns (r: Routers.Dispatch)
      ensures r == Routers.Route(callbacks, data, [done, progress])
      ensures r.Invoked? ==> |r.call.args| == 3
    {
      var parsed := Messages.Parse(data);
      if parsed.None? {
        return Routers.Threw;
      }
      var message := parsed.value;
      var key := Routers.NameKey(message);
      var callback := if key in callbacks then callbacks[key] else Undefined;
      if !Truthy(callback) {
        r := Routers.Unhandled;
      } else if callback.Fn? {
        r := Routers.Invoked(Call(callback.f, [message.payload, done, progress]));
      } else {
        r := Routers.Threw;
      }
    }
  }
}
