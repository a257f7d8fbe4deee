/** src/lib/response.js: the reply envelope `{err, payload, done}` sent back
    to an RPC caller; `done == false` marks a progress notification. */
module Responses {
  import opened Wrappers
  import opened Js
  import Json

  datatype Response = Response(err: Value, payload: Value, done: bool)

  /** `new Response(opt_err, opt_payload, opt_done)`: `err` and `payload` are
      stored as given; `done` is `opt_done` when that is a boolean and true
      otherwise. */
  function New(optErr: Value, optPayload: Value, optDone: Value): (r: Response)
    ensures r.err == optErr && r.payload == optPayload
    ensures optDone.Bool? ==> r.done == optDone.b
    ensures !optDone.Bool? ==> r.done
  {
    Response(optErr, optPayload, if optDone.Bool? then optDone.b else true)
  }

  /** `toJSON()`: exactly the three fields of the response. */
  function ToJSON(r: Response): (j: Value)
    ensures j.Obj? && j.fields.Keys == {"err", "payload", "done"}
    ensures Get(j, "err") == Some(r.err) && Get(j, "payload") == Some(r.payload)
    ensures Get(j, "done") == Some(Bool(r.done))
  {
    Obj(map["err" := r.err, "payload" := r.payload, "done" := Bool(r.done)])
  }

  /** `Response.parse(raw)`: `err` and `payload` are copied as they are (no
      error class is rebuilt); None where reading them throws. */
  function Parse(raw: Value): (r: Option<Response>)
    ensures r.None? <==> raw.Undefined? || raw.Null?
    ensures r.Some? ==> r.value == New(Get(raw, "err").value, Get(raw, "payload").value, Get(raw, "done").value)
  {
    match (Get(raw, "err"), Get(raw, "payload"), Get(raw, "done"))
    case (Some(e), Some(p), Some(d)) => Some(New(e, p, d))
    case _ => None
  }

  /** `Response.parseMessage(msg)`: JSON-decode the body, then `parse`. */
  function ParseMessage(content: Json.Body): (r: Option<Response>)
    ensures r.Some? ==> Json.Parse(content).Some? && r == Parse(Json.Parse(content).value)
    ensures Json.Parse(content).None? ==> r.None?
  {
    match Json.Parse(content)
    case None => None
    case Some(raw) => Parse(raw)
  }

  /** The body `new Buffer(JSON.stringify(response.toJSON()))`. */
  function Encode(r: Response): Json.Body {
    Json.Stringify(ToJSON(r)).value
  }

  /** A field as it arrives after a trip through JSON text. */
  function Sent(v: Value): Value {
    Json.Jsonify(v).GetOr(Undefined)
  }

  lemma ParseOfToJSON(r: Response)
    ensures Parse(ToJSON(r)) == Some(r)
  {
  }

  /** `parseMessage` fails exactly when the body is not JSON or is `null`. */
  lemma ParseMessageFails(content: Json.Body)
    ensures ParseMessage(content).None? <==>
      (Json.Parse(content).None? || Json.Parse(content).value.Null?)
  {
  }

  /** Round trip over the wire: the receiver of an encoded response sees the
      same `done` flag and the `err` and `payload` as `JSON.stringify` wrote
      them; so an error instance arrives as the plain object its `toJSON`
      returned, and JSON fields arrive unchanged. */
  lemma WireRoundTrip(r: Response)
    ensures ParseMessage(Encode(r)) == Some(Response(Sent(r.err), Sent(r.payload), r.done))
  {
    var j := ToJSON(r);
    Json.JsonifyIsJson(j);
    var w := Json.Jsonify(j).value;
    assert w.Obj?;
    assert Get(w, "err") == Some(Sent(r.err));
    assert Get(w, "payload") == Some(Sent(r.payload));
    assert Get(w, "done") == Some(Bool(r.done));
  }
}
