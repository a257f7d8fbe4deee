/** src/lib/rpc.js: the table of pending RPC calls, keyed by correlation id.
    Each id is registered by a sender, then settled by the first terminal
    reply on the reply queue, or rejected by its timer. */
module Rpc {
  import opened Wrappers
  import opened Js
  import Json
  import Responses
  import Broker
  import Errors

  /** The `{resolve, reject}` object a sender registers, plus the `progress`
      property that `.progress(cb)` may set on it later. */
  datatype Callbacks = Callbacks(resolve: Callable, reject: Callable, progress: Value)

  /** The state of an RPC object: `initialized`, `callbacks_`, `timeouts_`
      (id to timer handle), `registerDates_`, and the timers still pending in
      the runtime (handle to the id whose closure it runs). */
  datatype Table = Table(
    initialized: bool,
    callbacks: map<string, Callbacks>,
    timeouts: map<string, nat>,
    registerDates: map<string, int>,
    armed: map<nat, string>,
    nextTimer: nat)

  /** A table after one operation, with the callbacks that operation called. */
  datatype Step = Step(table: Table, calls: seq<Call>)

  /** `new Error('Timeout exceed.')`. */
  function TimeoutError(): Value { ErrorInstance(PlainError, "Timeout exceed.") }

  /** The property key `callbacks_[correlationId]` reads. */
  function ReplyKey(msg: Broker.Delivery): string { ToStr(msg.correlationId) }

  /** Every timer handle in use was handed out before `nextTimer`. */
  predicate TimersValid(t: Table) {
    (forall h | h in t.armed :: h < t.nextTimer) &&
    (forall k | k in t.timeouts :: t.timeouts[k] < t.nextTimer)
  }

  /** `t` and `u` hold the same entry for `k` in all three maps. */
  predicate SameEntry(t: Table, u: Table, k: string) {
    (k in t.callbacks <==> k in u.callbacks) && (k in t.callbacks ==> t.callbacks[k] == u.callbacks[k]) &&
    (k in t.timeouts <==> k in u.timeouts) && (k in t.timeouts ==> t.timeouts[k] == u.timeouts[k]) &&
    (k in t.registerDates <==> k in u.registerDates) && (k in t.registerDates ==> t.registerDates[k] == u.registerDates[k])
  }

  /** `t` without any entry for `k`. */
  function Forget(t: Table, k: string): (u: Table)
    ensures k !in u.callbacks && k !in u.timeouts && k !in u.registerDates
    ensures forall j :: j != k ==> SameEntry(t, u, j)
    ensures u.initialized == t.initialized && u.nextTimer == t.nextTimer
  {
    t.(callbacks := t.callbacks - {k}, timeouts := t.timeouts - {k}, registerDates := t.registerDates - {k})
  }

  /** `consumer(msg)`: what one delivery on the reply queue does. */
  function OnReply(t: Table, msg: Broker.Delivery): (r: Step)
    ensures forall k :: k != ReplyKey(msg) ==> SameEntry(t, r.table, k)
    ensures r.table.initialized == t.initialized && r.table.nextTimer == t.nextTimer
    ensures r.table.armed.Keys <= t.armed.Keys
    ensures TimersValid(t) ==> TimersValid(r.table)
    ensures |r.calls| <= 1
  {
    var key := ReplyKey(msg);
    if !t.initialized || !Truthy(msg.correlationId) || key !in t.callbacks then Step(t, [])
    else Answer(t, key, Responses.ParseMessage(msg.content))
  }

  /** The part of `consumer` after the guard: the reply for the live entry
      `key`, decoded (None where decoding threw and the error was caught). */
  function Answer(t: Table, key: string, parsed: Option<Responses.Response>): (r: Step)
    requires key in t.callbacks
    ensures forall k :: k != key ==> SameEntry(t, r.table, k)
    ensures r.table.initialized == t.initialized && r.table.nextTimer == t.nextTimer
    ensures r.table.armed.Keys <= t.armed.Keys
    ensures TimersValid(t) ==> TimersValid(r.table)
    ensures |r.calls| <= 1
  {
    var cbs := t.callbacks[key];
    match parsed
    case None => Step(t, [])
    case Some(response) =>
      if !response.done then
        Step(t, if cbs.progress.Fn? then [Call(cbs.progress.f, [response.payload])] else [])
      else
        var call := if Truthy(response.err) then Call(cbs.reject, [response.err])
                    else Call(cbs.resolve, [response.payload]);
        var armed := if key in t.timeouts then t.armed - {t.timeouts[key]} else t.armed;
        Step(Forget(t, key).(armed := armed), [call])
  }

  /** `registerCallback(key, {resolve, reject}, opt_timeout)`. */
  function Register(t: Table, key: string, resolve: Callable, reject: Callable, timeout: Value, now: int): (r: Table)
    ensures key in r.callbacks && r.callbacks[key] == Callbacks(resolve, reject, Undefined)
    ensures key in r.registerDates && r.registerDates[key] == now
    ensures forall k :: k != key ==> SameEntry(t, r, k)
    ensures r.initialized == t.initialized
    ensures key in r.timeouts <==> key in t.timeouts || (timeout.Num? && timeout.n > 0)
    ensures timeout.Num? && timeout.n > 0 ==>
      r.timeouts[key] == t.nextTimer && r.armed == t.armed[t.nextTimer := key] && r.nextTimer == t.nextTimer + 1
    ensures !(timeout.Num? && timeout.n > 0) ==> r.armed == t.armed && r.timeouts == t.timeouts && r.nextTimer == t.nextTimer
    ensures TimersValid(t) ==> TimersValid(r) && (timeout.Num? && timeout.n > 0 ==> t.nextTimer !in t.armed)
  {
    var u := t.(callbacks := t.callbacks[key := Callbacks(resolve, reject, Undefined)],
                registerDates := t.registerDates[key := now]);
    if timeout.Num? && timeout.n > 0 then
      u.(timeouts := u.timeouts[key := t.nextTimer], armed := u.armed[t.nextTimer := key], nextTimer := t.nextTimer + 1)
    else u
  }

  /** The closure `setTimeout` runs for timer `timer`; nothing when that
      timer is no longer pending. */
  function Fire(t: Table, timer: nat): (r: Step)
    ensures timer !in r.table.armed && r.table.armed == t.armed - {timer}
    ensures timer in t.armed ==> Registered(r.table, t.armed[timer]) == false
    ensures forall k :: (timer !in t.armed || k != t.armed[timer]) ==> SameEntry(t, r.table, k)
    ensures r.table.initialized == t.initialized && r.table.nextTimer == t.nextTimer
    ensures TimersValid(t) ==> TimersValid(r.table)
    ensures |r.calls| <= 1
  {
    if timer !in t.armed then Step(t, [])
    else
      var key := t.armed[timer];
      var calls := if key in t.callbacks then [Call(t.callbacks[key].reject, [TimeoutError()])] else [];
      Step(Forget(t, key).(armed := t.armed - {timer}), calls)
  }

  predicate Registered(t: Table, key: string) { key in t.callbacks }

  /** `rv.progress(cb)` on a sender's promise: sets `progress` on the live
      entry, and does nothing once the entry is gone. */
  function AttachProgress(t: Table, key: string, cb: Value): (r: Table)
    ensures r.callbacks.Keys == t.callbacks.Keys
    ensures key in t.callbacks ==> r.callbacks[key] == t.callbacks[key].(progress := cb)
    ensures key !in t.callbacks ==> r == t
    ensures forall k :: k != key ==> SameEntry(t, r, k)
    ensures r.timeouts == t.timeouts && r.registerDates == t.registerDates && r.armed == t.armed
  {
    if key in t.callbacks then t.(callbacks := t.callbacks[key := t.callbacks[key].(progress := cb)]) else t
  }

  // ---------------------------------------------------------------------
  // What one reply does, case by case.

  /** A reply is ignored when the table is not initialized, the reply has no
      correlation id, or no entry is registered under it. */
  lemma ReplyIgnored(t: Table, msg: Broker.Delivery)
    requires !t.initialized || !Truthy(msg.correlationId) || ReplyKey(msg) !in t.callbacks
    ensures OnReply(t, msg) == Step(t, [])
  {
  }

  /** A body that does not decode is swallowed: nothing runs, the entry stays. */
  lemma ReplyUndecodable(t: Table, msg: Broker.Delivery)
    requires Responses.ParseMessage(msg.content).None?
    ensures OnReply(t, msg) == Step(t, [])
  {
  }

  /** A progress reply calls the attached `progress` with the payload, when
      a function is attached, and leaves the entry registered. */
  lemma ReplyProgress(t: Table, msg: Broker.Delivery)
    requires t.initialized && Truthy(msg.correlationId) && ReplyKey(msg) in t.callbacks
    requires Responses.ParseMessage(msg.content).Some? && !Responses.ParseMessage(msg.content).value.done
    ensures OnReply(t, msg).table == t
    ensures var p := t.callbacks[ReplyKey(msg)].progress;
      OnReply(t, msg).calls == if p.Fn? then [Call(p.f, [Responses.ParseMessage(msg.content).value.payload])] else []
  {
  }

  /** A terminal reply calls exactly one of `reject(err)` (when `err` is
      truthy) and `resolve(payload)`, and removes the id from all three maps
      and its timer from the pending ones. */
  lemma ReplyTerminal(t: Table, msg: Broker.Delivery)
    requires t.initialized && Truthy(msg.correlationId) && ReplyKey(msg) in t.callbacks
    requires Responses.ParseMessage(msg.content).Some? && Responses.ParseMessage(msg.content).value.done
    ensures var key, response := ReplyKey(msg), Responses.ParseMessage(msg.content).value;
      var cbs := t.callbacks[key];
      && OnReply(t, msg).calls == [if Truthy(response.err) then Call(cbs.reject, [response.err]) else Call(cbs.resolve, [response.payload])]
      && !Registered(OnReply(t, msg).table, key)
      && key !in OnReply(t, msg).table.timeouts && key !in OnReply(t, msg).table.registerDates
      && (key in t.timeouts ==> t.timeouts[key] !in OnReply(t, msg).table.armed)
  {
  }

  /** Once settled, a second reply for the same id does nothing. */
  lemma SecondReplyIgnored(t: Table, first: Broker.Delivery, second: Broker.Delivery)
    requires ReplyKey(first) == ReplyKey(second)
    requires ReplyKey(first) in t.callbacks && !Registered(OnReply(t, first).table, ReplyKey(first))
    ensures OnReply(OnReply(t, first).table, second) == Step(OnReply(t, first).table, [])
  {
  }

  /** An error instance the responder passes to `done` reaches `reject` with
      the same `name` and `message`: the reply body carries the error's
      `toJSON()` object, which is truthy. */
  lemma ErrorReachesReject(t: Table, msg: Broker.Delivery, cls: ErrorClass, message: string, data: Value)
    requires Extendable(cls)
    requires t.initialized && Truthy(msg.correlationId) && ReplyKey(msg) in t.callbacks
    requires msg.content == Responses.Encode(Responses.New(Errors.New(cls, message), data, Bool(true)))
    ensures |OnReply(t, msg).calls| == 1
    ensures var c := OnReply(t, msg).calls[0];
      && c.fn == t.callbacks[ReplyKey(msg)].reject && |c.args| == 1
      && Get(c.args[0], "name") == Some(Str(ClassName(cls)))
      && Get(c.args[0], "message") == Some(Str(message))
  {
    var e := Errors.New(cls, message);
    Responses.WireRoundTrip(Responses.New(e, data, Bool(true)));
    assert Responses.Sent(e) == Errors.ToJSON(e);
  }

  // ---------------------------------------------------------------------
  // Timers.

  /** A timer fires `reject(new Error('Timeout exceed.'))` once for a live
      entry and then deletes the id from all three maps. */
  lemma FireRejects(t: Table, timer: nat)
    requires timer in t.armed && t.armed[timer] in t.callbacks
    ensures Fire(t, timer).calls == [Call(t.callbacks[t.armed[timer]].reject, [TimeoutError()])]
    ensures var key := t.armed[timer];
      key !in Fire(t, timer).table.timeouts && key !in Fire(t, timer).table.registerDates
  {
  }

  /** An entry registered without a positive timeout is never removed by a
      timer, as long as no older timer was set up for the same id. */
  lemma UntimedEntryPersists(t: Table, key: string, resolve: Callable, reject: Callable, timeout: Value, now: int, timer: nat)
    requires !(timeout.Num? && timeout.n > 0)
    requires forall h | h in t.armed :: t.armed[h] != key
    ensures var r := Register(t, key, resolve, reject, timeout, now);
      Registered(Fire(r, timer).table, key) && SameEntry(r, Fire(r, timer).table, key)
  {
    var r := Register(t, key, resolve, reject, timeout, now);
    assert r.armed == t.armed;
  }

  /** Re-registering an id does not cancel the earlier timer: whatever the
      table, a timer armed for the first registration rejects the second
      one when the second arms none of its own, and removes it. */
  lemma StaleTimerRejectsNewerRegistration(t: Table, key: string, res1: Callable, rej1: Callable, timeout1: Value, now1: int,
                                           res2: Callable, rej2: Callable, timeout2: Value, now2: int)
    requires TimersValid(t)
    requires timeout1.Num? && timeout1.n > 0
    requires !(timeout2.Num? && timeout2.n > 0)
    ensures var t2 := Register(Register(t, key, res1, rej1, timeout1, now1), key, res2, rej2, timeout2, now2);
      t.nextTimer in t2.armed &&
      Fire(t2, t.nextTimer).calls == [Call(rej2, [TimeoutError()])] && !Registered(Fire(t2, t.nextTimer).table, key)
  {
    var t1 := Register(t, key, res1, rej1, timeout1, now1);
    var t2 := Register(t1, key, res2, rej2, timeout2, now2);
    assert t2.armed == t1.armed && t1.armed[t.nextTimer] == key;
  }

  // ---------------------------------------------------------------------
  // At most one settlement per registration.

  /** The events that reach the table after a registration. */
  datatype Event =
    | Reply(msg: Broker.Delivery)
    | Timeout(timer: nat)
    | Progress(key: string, cb: Value)
    | Enroll(key: string, resolve: Callable, reject: Callable, timeout: Value, now: int)

  function Apply(t: Table, e: Event): Step {
    match e
    case Reply(msg) => OnReply(t, msg)
    case Timeout(timer) => Fire(t, timer)
    case Progress(key, cb) => Step(AttachProgress(t, key, cb), [])
    case Enroll(key, resolve, reject, timeout, now) => Step(Register(t, key, resolve, reject, timeout, now), [])
  }

  function Run(t: Table, events: seq<Event>): (r: Step)
    decreases |events|
  {
    if events == [] then Step(t, [])
    else
      var first := Apply(t, events[0]);
      var rest := Run(first.table, events[1..]);
      Step(rest.table, first.calls + rest.calls)
  }

  /** How many calls go to one registration's `resolve` or `reject`. */
  function Settlements(calls: seq<Call>, resolve: Callable, reject: Callable): nat {
    if calls == [] then 0
    else (if calls[0].fn == resolve || calls[0].fn == reject then 1 else 0) + Settlements(calls[1..], resolve, reject)
  }

  lemma {:induction false} SettlementsAppend(a: seq<Call>, b: seq<Call>, resolve: Callable, reject: Callable)
    ensures Settlements(a + b, resolve, reject) == Settlements(a, resolve, reject) + Settlements(b, resolve, reject)
  {
    if a != [] {
      assert (a + b)[1..] == a[1..] + b;
      SettlementsAppend(a[1..], b, resolve, reject);
    } else {
      assert a + b == b;
    }
  }

  predicate Mentions(c: Callbacks, resolve: Callable, reject: Callable) {
    c.resolve == resolve || c.resolve == reject || c.reject == resolve || c.reject == reject ||
    c.progress == Fn(resolve) || c.progress == Fn(reject)
  }

  /** Entry `c` under id `k` is either unrelated to `resolve`/`reject` or is
      the registration of `key` that holds them. */
  predicate EntryOwned(k: string, c: Callbacks, key: string, resolve: Callable, reject: Callable) {
    !Mentions(c, resolve, reject) ||
    (k == key && c.resolve == resolve && c.reject == reject && c.progress != Fn(resolve) && c.progress != Fn(reject))
  }

  predicate Owned(t: Table, key: string, resolve: Callable, reject: Callable) {
    forall k | k in t.callbacks :: EntryOwned(k, t.callbacks[k], key, resolve, reject)
  }

  predicate Live(t: Table, key: string, resolve: Callable, reject: Callable) {
    key in t.callbacks && Mentions(t.callbacks[key], resolve, reject)
  }

  /** Events from other senders: they never register `key` again and never
      hand out `resolve` or `reject`. */
  predicate Foreign(e: Event, key: string, resolve: Callable, reject: Callable) {
    match e
    case Reply(_) => true
    case Timeout(_) => true
    case Progress(_, cb) => cb != Fn(resolve) && cb != Fn(reject)
    case Enroll(k, res, rej, _, _) => k != key && res != resolve && res != reject && rej != resolve && rej != reject
  }

  /** What one event does to the ownership of `resolve` and `reject`. */
  predicate StepOwned(t: Table, s: Step, key: string, resolve: Callable, reject: Callable) {
    && Owned(s.table, key, resolve, reject)
    && Settlements(s.calls, resolve, reject) <= (if Live(t, key, resolve, reject) then 1 else 0)
    && (Settlements(s.calls, resolve, reject) > 0 || !Live(t, key, resolve, reject) ==> !Live(s.table, key, resolve, reject))
  }

  lemma SettlementsOfOne(c: Call, resolve: Callable, reject: Callable)
    ensures Settlements([c], resolve, reject) == if c.fn == resolve || c.fn == reject then 1 else 0
  {
    assert [c][1..] == [];
  }

  /** Dropping `k` from an owned table keeps it owned. */
  lemma ForgetOwned(t: Table, k: string, armed: map<nat, string>, key: string, resolve: Callable, reject: Callable)
    requires Owned(t, key, resolve, reject)
    ensures Owned(Forget(t, k).(armed := armed), key, resolve, reject)
  {
    var u := Forget(t, k).(armed := armed);
    forall j | j in u.callbacks ensures EntryOwned(j, u.callbacks[j], key, resolve, reject) {
      assert SameEntry(t, Forget(t, k), j);
    }
  }

  lemma SettleOwned(t: Table, k: string, call: Call, armed: map<nat, string>, key: string, resolve: Callable, reject: Callable)
    requires k in t.callbacks && Owned(t, key, resolve, reject)
    requires call.fn == t.callbacks[k].resolve || call.fn == t.callbacks[k].reject
    ensures StepOwned(t, Step(Forget(t, k).(armed := armed), [call]), key, resolve, reject)
  {
    var u := Forget(t, k).(armed := armed);
    assert EntryOwned(k, t.callbacks[k], key, resolve, reject);
    SettlementsOfOne(call, resolve, reject);
    ForgetOwned(t, k, armed, key, resolve, reject);
    if k == key {
      assert !Live(u, key, resolve, reject);
    } else {
      assert SameEntry(t, Forget(t, k), key);
      assert Live(u, key, resolve, reject) == Live(t, key, resolve, reject);
      assert Settlements([call], resolve, reject) == 0;
    }
  }

  lemma AnswerOwned(t: Table, k: string, parsed: Option<Responses.Response>, key: string, resolve: Callable, reject: Callable)
    requires k in t.callbacks && Owned(t, key, resolve, reject)
    ensures StepOwned(t, Answer(t, k, parsed), key, resolve, reject)
  {
    var cbs := t.callbacks[k];
    if parsed.None? {
      return;
    }
    var response := parsed.value;
    if !response.done {
      if cbs.progress.Fn? {
        assert EntryOwned(k, cbs, key, resolve, reject);
        SettlementsOfOne(Call(cbs.progress.f, [response.payload]), resolve, reject);
      }
      return;
    }
    var call := if Truthy(response.err) then Call(cbs.reject, [response.err]) else Call(cbs.resolve, [response.payload]);
    var armed := if k in t.timeouts then t.armed - {t.timeouts[k]} else t.armed;
    SettleOwned(t, k, call, armed, key, resolve, reject);
  }

  lemma ReplyOwned(t: Table, msg: Broker.Delivery, key: string, resolve: Callable, reject: Callable)
    requires Owned(t, key, resolve, reject)
    ensures StepOwned(t, OnReply(t, msg), key, resolve, reject)
  {
    var k := ReplyKey(msg);
    if t.initialized && Truthy(msg.correlationId) && k in t.callbacks {
      AnswerOwned(t, k, Responses.ParseMessage(msg.content), key, resolve, reject);
    }
  }

  lemma FireOwned(t: Table, timer: nat, key: string, resolve: Callable, reject: Callable)
    requires Owned(t, key, resolve, reject)
    ensures StepOwned(t, Fire(t, timer), key, resolve, reject)
  {
    if timer !in t.armed {
      return;
    }
    var k := t.armed[timer];
    var u := Forget(t, k).(armed := t.armed - {timer});
    assert Fire(t, timer).table == u;
    ForgetOwned(t, k, t.armed - {timer}, key, resolve, reject);
    if k in t.callbacks {
      assert EntryOwned(k, t.callbacks[k], key, resolve, reject);
      SettlementsOfOne(Call(t.callbacks[k].reject, [TimeoutError()]), resolve, reject);
    } else {
      assert Fire(t, timer).calls == [];
    }
    if k == key {
      assert !Live(u, key, resolve, reject);
    } else {
      assert SameEntry(t, Forget(t, k), key);
      assert Live(u, key, resolve, reject) == Live(t, key, resolve, reject);
    }
  }

  lemma ProgressOwned(t: Table, k: string, cb: Value, key: string, resolve: Callable, reject: Callable)
    requires Owned(t, key, resolve, reject) && cb != Fn(resolve) && cb != Fn(reject)
    ensures StepOwned(t, Step(AttachProgress(t, k, cb), []), key, resolve, reject)
  {
    var u := AttachProgress(t, k, cb);
    forall j | j in u.callbacks ensures EntryOwned(j, u.callbacks[j], key, resolve, reject) {
      assert EntryOwned(j, t.callbacks[j], key, resolve, reject);
    }
  }

  lemma EnrollOwned(t: Table, k: string, res: Callable, rej: Callable, timeout: Value, now: int,
                    key: string, resolve: Callable, reject: Callable)
    requires Owned(t, key, resolve, reject)
    requires k != key && res != resolve && res != reject && rej != resolve && rej != reject
    ensures StepOwned(t, Step(Register(t, k, res, rej, timeout, now), []), key, resolve, reject)
  {
    var u := Register(t, k, res, rej, timeout, now);
    forall j | j in u.callbacks ensures EntryOwned(j, u.callbacks[j], key, resolve, reject) {
      if j != k {
        assert SameEntry(t, u, j);
        assert EntryOwned(j, t.callbacks[j], key, resolve, reject);
      }
    }
    assert SameEntry(t, u, key);
  }

  lemma ApplyOwned(t: Table, e: Event, key: string, resolve: Callable, reject: Callable)
    requires Owned(t, key, resolve, reject) && Foreign(e, key, resolve, reject)
    ensures StepOwned(t, Apply(t, e), key, resolve, reject)
  {
    match e
    case Reply(msg) => ReplyOwned(t, msg, key, resolve, reject);
    case Timeout(timer) => FireOwned(t, timer, key, resolve, reject);
    case Progress(k, cb) => ProgressOwned(t, k, cb, key, resolve, reject);
    case Enroll(k, res, rej, timeout, now) => EnrollOwned(t, k, res, rej, timeout, now, key, resolve, reject);
  }

  lemma {:induction false} RunOwned(t: Table, events: seq<Event>, key: string, resolve: Callable, reject: Callable)
    requires Owned(t, key, resolve, reject)
    requires forall i | 0 <= i < |events| :: Foreign(events[i], key, resolve, reject)
    ensures Settlements(Run(t, events).calls, resolve, reject) <= (if Live(t, key, resolve, reject) then 1 else 0)
    decreases |events|
  {
    if events != [] {
      var first := Apply(t, events[0]);
      ApplyOwned(t, events[0], key, resolve, reject);
      RunOwned(first.table, events[1..], key, resolve, reject);
      SettlementsAppend(first.calls, Run(first.table, events[1..]).calls, resolve, reject);
    }
  }

  /** A call registered under a fresh pair of callbacks is settled at most
      once, whatever replies, timers and other registrations follow, as long
      as the id is not registered again. */
  lemma AtMostOneSettlement(t: Table, key: string, resolve: Callable, reject: Callable, timeout: Value, now: int,
                              events: seq<Event>)
    requires forall k | k in t.callbacks :: !Mentions(t.callbacks[k], resolve, reject)
    requires forall i | 0 <= i < |events| :: Foreign(events[i], key, resolve, reject)
    ensures Settlements(Run(Register(t, key, resolve, reject, timeout, now), events).calls, resolve, reject) <= 1
  {
    RunOwned(Register(t, key, resolve, reject, timeout, now), events, key, resolve, reject);
  }

  // ---------------------------------------------------------------------

  /** An RPC object: the table's maps as fields, the reply queue it owns and
      the channel it consumes, and the callbacks it has called so far. */
  class RpcManager {
    var initialized: bool
    var channel: Broker.Channel?
    var replyQueue: Option<string>
    var callbacks: map<string, Callbacks>
    var timeouts: map<string, nat>
    var registerDates: map<string, int>
    var armed: map<nat, string>
    var nextTimer: nat
    var invoked: seq<Call>

    ghost function Model(): Table
      reads this
    {
      Table(initialized, callbacks, timeouts, registerDates, armed, nextTimer)
    }

    ghost predicate Valid()
      reads this
    {
      TimersValid(Model()) && (initialized ==> replyQueue.Some?)
    }

    /** `new RPC()`: not initialized, no channel, empty maps. */
    constructor ()
      ensures Valid() && !initialized && channel == null && replyQueue.None?
      ensures callbacks == map[] && timeouts == map[] && registerDates == map[] && armed == map[]
      ensures invoked == []
    {
      initialized := false;
      channel := null;
      replyQueue := None;
      callbacks, timeouts, registerDates, armed := map[], map[], map[], map[];
      nextTimer := 0;
      invoked := [];
    }

    /** `init(connection, opt_queueName)` on the channel `ch` the connection
        created: assert an exclusive reply queue (named `opt_queueName`, or
        by the broker when that is falsy), consume it without acks, and
        become initialized. `brokerName` is the name the broker reports. */
    method Init(ch: Broker.Channel, optQueueName: Value, brokerName: string)
      requires Valid()
      modifies this, ch
      ensures Valid() && initialized && channel == ch && replyQueue == Some(brokerName)
      ensures ch.log == old(ch.log) + [
        Broker.AssertQueue(if Truthy(optQueueName) then optQueueName else Str(""), Obj(map["exclusive" := Bool(true)])),
        Broker.Consume(Str(brokerName), Broker.RpcReplies, Obj(map["noAck" := Bool(true)]))]
      ensures callbacks == old(callbacks) && timeouts == old(timeouts) && registerDates == old(registerDates)
      ensures armed == old(armed) && nextTimer == old(nextTimer) && invoked == old(invoked)
    {
      channel := ch;
      var name := if Truthy(optQueueName) then optQueueName else Str("");
      ch.Perform(Broker.AssertQueue(name, Obj(map["exclusive" := Bool(true)])));
      replyQueue := Some(brokerName);
      ch.Perform(Broker.Consume(Str(brokerName), Broker.RpcReplies, Obj(map["noAck" := Bool(true)])));
      initialized := true;
    }

    /** `getUniqueQueueName()`: the broker-assigned reply queue name; None
        before `init`, where the call throws. */
    function UniqueQueueName(): (r: Option<string>)
      reads this
      ensures Valid() && initialized ==> r.Some?
    {
      replyQueue
    }

    /** `consumer(msg)`. */
    method Consumer(msg: Broker.Delivery)
      requires Valid()
      modifies this
      ensures Valid()
      ensures Model() == OnReply(old(Model()), msg).table
      ensures invoked == old(invoked) + OnReply(old(Model()), msg).calls
      ensures channel == old(channel) && replyQueue == old(replyQueue)
    {
      var key := ReplyKey(msg);
      if !initialized || !Truthy(msg.correlationId) || key !in callbacks {
        return;
      }
      var parsed := Responses.ParseMessage(msg.content);
      Settle(key, parsed);
    }

    /** The part of `consumer` after the guard, for the live entry `key`. */
    method Settle(key: string, parsed: Option<Responses.Response>)
      requires Valid() && key in callbacks
      modifies this
      ensures Valid()
      ensures Model() == Answer(old(Model()), key, parsed).table
      ensures invoked == old(invoked) + Answer(old(Model()), key, parsed).calls
      ensures channel == old(channel) && replyQueue == old(replyQueue)
    {
      ghost var a := Answer(Model(), key, parsed);
      var cbs := callbacks[key];
      if parsed.None? {
        return;
      }
      var response := parsed.value;
      if !response.done {
        if cbs.progress.Fn? {
          invoked := invoked + [Call(cbs.progress.f, [response.payload])];
        }
        return;
      }
      registerDates := registerDates - {key};
      var call := if Truthy(response.err) then Call(cbs.reject, [response.err]) else Call(cbs.resolve, [response.payload]);
      invoked := invoked + [call];
      if key in timeouts {
        armed := armed - {timeouts[key]};
      }
      timeouts := timeouts - {key};
      callbacks := callbacks - {key};
      assert Model() == a.table;
    }

    /** `registerCallback(key, {resolve, reject}, opt_timeout)` at time `now`. */
    method RegisterCallback(key: string, resolve: Callable, reject: Callable, timeout: Value, now: int)
      requires Valid()
      modifies this
      ensures Valid()
      ensures Model() == Register(old(Model()), key, resolve, reject, timeout, now)
      ensures invoked == old(invoked) && channel == old(channel) && replyQueue == old(replyQueue)
    {
      callbacks := callbacks[key := Callbacks(resolve, reject, Undefined)];
      registerDates := registerDates[key := now];
      if timeout.Num? && timeout.n > 0 {
        timeouts := timeouts[key := nextTimer];
        armed := armed[nextTimer := key];
        nextTimer := nextTimer + 1;
      }
    }

    /** The runtime runs the closure of pending timer `timer`. */
    method FireTimeout(timer: nat)
      requires Valid()
      modifies this
      ensures Valid()
      ensures Model() == Fire(old(Model()), timer).table
      ensures invoked == old(invoked) + Fire(old(Model()), timer).calls
      ensures channel == old(channel) && replyQueue == old(replyQueue)
    {
      if timer !in armed {
        return;
      }
      var key := armed[timer];
      armed := armed - {timer};
      if key in callbacks {
        invoked := invoked + [Call(callbacks[key].reject, [TimeoutError()])];
      }
      callbacks := callbacks - {key};
      timeouts := timeouts - {key};
      registerDates := registerDates - {key};
    }

    /** `getCallback(key)`: the registered entry; None where the source
        returns `undefined`. */
    method GetCallback(key: string) returns (r: Option<Callbacks>)
      ensures r.Some? <==> Registered(Model(), key)
      ensures r.Some? ==> r.value == callbacks[key]
    {
      r := if key in callbacks then Some(callbacks[key]) else None;
    }

    /** `rv.progress(cb)` of a sender: `getCallback` then set `progress`. */
    method SetProgress(key: string, cb: Value)
      requires Valid()
      modifies this
      ensures Valid()
      ensures Model() == AttachProgress(old(Model()), key, cb)
      ensures invoked == old(invoked) && channel == old(channel) && replyQueue == old(replyQueue)
    {
      var entry := GetCallback(key);
      if entry.Some? {
        callbacks := callbacks[key := entry.value.(progress := cb)];
      }
    }
  }
}
