/** src/lib/event-emitter-extra/listener.js: one registered handler with an
    optional execution limit. Only string event names are modelled. */
module Listeners {
  import opened Wrappers
  import opened Js

  /** The constructor's checks, in order: the error it throws, if any. */
  function Check(eventName: Value, handler: Value, execLimit: Value): (r: Option<Value>)
    ensures r.None? <==> eventName.Str? && handler.Fn? && (execLimit.Undefined? || execLimit.Num?)
    ensures !eventName.Str? ==> r == Some(ErrorInstance(PlainError, "Event name to be listened should be string or regex"))
    ensures eventName.Str? && !handler.Fn? ==> r == Some(ErrorInstance(PlainError, "Handler should be a function"))
    ensures eventName.Str? && handler.Fn? && !(execLimit.Undefined? || execLimit.Num?) ==>
      r == Some(ErrorInstance(PlainError, "Execute limit should be integer"))
  {
    if !eventName.Str? then Some(ErrorInstance(PlainError, "Event name to be listened should be string or regex"))
    else if !handler.Fn? then Some(ErrorInstance(PlainError, "Handler should be a function"))
    else if !(execLimit.Undefined? || execLimit.Num?) then Some(ErrorInstance(PlainError, "Execute limit should be integer"))
    else None
  }

  /** `execLimit = 0`: the default applies to `undefined` only. */
  function LimitOf(execLimit: Value): int {
    if execLimit.Num? then execLimit.n else 0
  }

  /** `this.execLimit && this.execCount >= this.execLimit`. */
  predicate Expires(limit: int, count: nat) {
    limit != 0 && count >= limit
  }

  /** A limit of 0 never expires; a positive limit `n` expires from the
      `n`-th execution on, so a `once` listener expires on its first. */
  lemma ExpiryByLimit(limit: int, count: nat)
    ensures limit == 0 ==> !Expires(limit, count)
    ensures limit > 0 ==> (Expires(limit, count) <==> count >= limit)
    ensures Expires(1, count) <==> count >= 1
  {
  }

  class Listener {
    const eventName: string
    const handler: Callable
    const execLimit: int
    var execCount: nat

    /** `new Listener(eventName, handler, execLimit)` once the checks pass. */
    constructor (eventName: string, handler: Callable, execLimit: int)
      ensures this.eventName == eventName && this.handler == handler && this.execLimit == execLimit
      ensures execCount == 0
    {
      this.eventName := eventName;
      this.handler := handler;
      this.execLimit := execLimit;
      execCount := 0;
    }

    predicate Expired()
      reads this
    {
      Expires(execLimit, execCount)
    }

    /** `execute(that, args)`: run the handler, whose result is
        `outcome(call)`, count the run, and report whether `onExpire`
        fires. */
    method Execute(args: seq<Value>, outcome: Call -> Value) returns (rv: Value, expired: bool)
      modifies this
      ensures execCount == old(execCount) + 1
      ensures rv == outcome(Call(handler, args))
      ensures expired <==> Expires(execLimit, execCount)
    {
      rv := outcome(Call(handler, args));
      execCount := execCount + 1;
      expired := Expired();
    }
  }

  /** `new Listener(...)`: None when a check throws. */
  method Make(eventName: Value, handler: Value, execLimit: Value) returns (r: Option<Listener>)
    ensures r.None? <==> Check(eventName, handler, execLimit).Some?
    ensures r.Some? ==>
      && fresh(r.value) && eventName == Str(r.value.eventName) && handler == Fn(r.value.handler)
      && r.value.execLimit == LimitOf(execLimit) && r.value.execCount == 0
  {
    if Check(eventName, handler, execLimit).Some? {
      return None;
    }
    var l := new Listener(eventName.s, handler.f, LimitOf(execLimit));
    r := Some(l);
  }
}
