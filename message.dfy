/** src/lib/message.js: the event envelope `{eventName, payload}` carried in
    the body of every event sent to a queue or published on an exchange. */
module Messages {
  import opened Wrappers
  import opened Js
  import Json

  datatype Message = Message(eventName: Value, payload: Value)

  /** `new Message(eventName, opt_payload)`: the name is kept as given (it is
      not validated) and the payload is a shallow copy of `opt_payload`, or
      `{}` when that is absent or falsy. */
  function New(eventName: Value, optPayload: Value): (m: Message)
    ensures m.eventName == eventName
    ensures m.payload.Obj?
    ensures !Truthy(optPayload) ==> m.payload == EmptyObj()
    ensures Truthy(optPayload) ==> m.payload.fields == OwnProps(optPayload)
    ensures optPayload.Obj? ==> m.payload == optPayload
  {
    Message(eventName, Obj(OwnProps(if Truthy(optPayload) then optPayload else EmptyObj())))
  }

  /** `toJSON()`: exactly the two fields of the message. */
  function ToJSON(m: Message): (r: Value)
    ensures r.Obj? && r.fields.Keys == {"eventName", "payload"}
    ensures Get(r, "eventName") == Some(m.eventName) && Get(r, "payload") == Some(m.payload)
  {
    Obj(map["eventName" := m.eventName, "payload" := m.payload])
  }

  /** `Message.parse(raw)`: only `raw.eventName` and `raw.payload` are read;
      None where reading them throws (`raw` is null or undefined). */
  function Parse(raw: Value): (r: Option<Message>)
    ensures r.None? <==> raw.Undefined? || raw.Null?
    ensures r.Some? ==> r.value == New(Get(raw, "eventName").value, Get(raw, "payload").value)
  {
    match (Get(raw, "eventName"), Get(raw, "payload"))
    case (Some(e), Some(p)) => Some(New(e, p))
    case _ => None
  }

  /** `Message.parseMessage(msg)`: JSON-decode the body, then `parse`. */
  function ParseMessage(content: Json.Body): (r: Option<Message>)
    ensures r.Some? ==> Json.Parse(content).Some? && r == Parse(Json.Parse(content).value)
    ensures Json.Parse(content).None? ==> r.None?
  {
    match Json.Parse(content)
    case None => None
    case Some(raw) => Parse(raw)
  }

  /** The body `JSON.stringify(message.toJSON())`; always defined. */
  function Encode(m: Message): (b: Json.Body)
  {
    Json.Stringify(ToJSON(m)).value
  }

  /** Every message the constructor builds parses back from its own JSON. */
  lemma ParseOfToJSON(eventName: Value, optPayload: Value)
    ensures Parse(ToJSON(New(eventName, optPayload))) == Some(New(eventName, optPayload))
  {
  }

  /** Fields other than `eventName` and `payload` do not influence `parse`. */
  lemma ParseIgnoresOtherFields(f: map<string, Value>, g: map<string, Value>)
    requires Field(f, "eventName") == Field(g, "eventName")
    requires Field(f, "payload") == Field(g, "payload")
    ensures Parse(Obj(f)) == Parse(Obj(g))
  {
  }

  /** A shallow copy of a JSON document holds only JSON documents. */
  lemma {:induction false} IndexKeyedJson(items: seq<Value>)
    requires forall i :: 0 <= i < |items| ==> Json.IsJson(items[i])
    ensures forall k :: k in IndexKeyed(items) ==> Json.IsJson(IndexKeyed(items)[k])
  {
    if items != [] {
      IndexKeyedJson(items[..|items| - 1]);
    }
  }

  lemma PayloadIsJson(optPayload: Value)
    requires Json.IsJson(optPayload) || optPayload.Undefined?
    ensures Json.IsJson(New(Str(""), optPayload).payload)
  {
    match optPayload
    case Arr(items) => IndexKeyedJson(items);
    case Str(s) =>
      var chars := seq(|s|, i requires 0 <= i < |s| => Str([s[i]]));
      IndexKeyedJson(chars);
    case _ =>
  }

  /** `JSON.stringify` leaves out an undefined `eventName`. */
  lemma JsonifyDropsAbsentName(payload: Value)
    requires Json.IsJson(payload)
    ensures Json.Jsonify(ToJSON(Message(Undefined, payload))) == Some(Obj(map["payload" := payload]))
  {
    var f := ToJSON(Message(Undefined, payload)).fields;
    Json.JsonifyOfJson(payload);
    var written := map k | k in f && Json.Jsonify(f[k]).Some? :: Json.Jsonify(f[k]).value;
    assert written.Keys == {"payload"};
    assert written == map["payload" := payload];
  }

  /** Round trip over the wire: a message whose name is a string (or absent)
      and whose payload is JSON (or absent) is decoded from its body as the
      very message that was encoded. */
  lemma WireRoundTrip(eventName: Value, optPayload: Value)
    requires eventName.Str? || eventName.Undefined?
    requires Json.IsJson(optPayload) || optPayload.Undefined?
    ensures ParseMessage(Encode(New(eventName, optPayload))) == Some(New(eventName, optPayload))
  {
    var m := New(eventName, optPayload);
    PayloadIsJson(optPayload);
    assert m.payload == New(Str(""), optPayload).payload;
    var j := ToJSON(m);
    if eventName.Str? {
      assert Json.IsJson(j);
      Json.RoundTrip(j);
    } else {
      JsonifyDropsAbsentName(m.payload);
      Json.JsonifyIsJson(j);
    }
  }
}
