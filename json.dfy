/** JSON text as the library uses it: `JSON.stringify` of a value and
    `JSON.parse` of a message body. Bytes are abstract: a body is either the
    text of a JSON document or something that does not parse. */
module Json {
  import opened Wrappers
  import opened Js
  import Errors

  /** Values that a JSON document can denote. */
  predicate IsJson(v: Value) {
    match v
    case Null => true
    case Bool(_) => true
    case Num(_) => true
    case Str(_) => true
    case Arr(items) => forall i :: 0 <= i < |items| ==> IsJson(items[i])
    case Obj(m) => forall k :: k in m ==> IsJson(m[k])
    case _ => false
  }

  /** The value `JSON.stringify` writes out: `undefined` and functions are
      dropped from objects (and are `null` inside arrays, nothing at the top),
      an error calls its `toJSON` when it has one and is otherwise `{}`. */
  function Jsonify(v: Value): (r: Option<Value>)
    ensures r.None? <==> v.Undefined? || v.Fn?
  {
    match v
    case Undefined => None
    case Fn(_) => None
    case Arr(items) => Some(Arr(seq(|items|, i requires 0 <= i < |items| => Jsonify(items[i]).GetOr(Null))))
    case Obj(m) => Some(Obj(map k | k in m && Jsonify(m[k]).Some? :: Jsonify(m[k]).value))
    case ErrorInstance(cls, _) => Some(if !Extendable(cls) then EmptyObj() else Errors.ToJSON(v))
    case _ => Some(v)
  }

  /** What `JSON.stringify` writes is a JSON document. */
  lemma {:induction false} JsonifyIsJson(v: Value)
    requires Jsonify(v).Some?
    ensures IsJson(Jsonify(v).value)
  {
    match v
    case Arr(items) =>
      forall i | 0 <= i < |items| ensures IsJson(Jsonify(items[i]).GetOr(Null)) {
        if Jsonify(items[i]).Some? { JsonifyIsJson(items[i]); }
      }
    case Obj(m) =>
      forall k | k in m && Jsonify(m[k]).Some? ensures IsJson(Jsonify(m[k]).value) {
        JsonifyIsJson(m[k]);
      }
    case _ =>
  }

  /** A JSON document is written out unchanged. */
  lemma {:induction false} JsonifyOfJson(v: Value)
    requires IsJson(v)
    ensures Jsonify(v) == Some(v)
  {
    match v
    case Arr(items) =>
      forall i | 0 <= i < |items| ensures Jsonify(items[i]) == Some(items[i]) {
        JsonifyOfJson(items[i]);
      }
      assert Jsonify(v).value.items == items;
    case Obj(m) =>
      forall k | k in m ensures Jsonify(m[k]) == Some(m[k]) {
        JsonifyOfJson(m[k]);
      }
      assert Jsonify(v).value.fields == m;
    case _ =>
  }

  /** A message body. */
  datatype Body = Text(doc: Value) | Malformed(bytes: seq<int>)

  /** `new Buffer(JSON.stringify(v))`; None where `JSON.stringify` returns
      `undefined` and the Buffer constructor throws. */
  function Stringify(v: Value): Option<Body> {
    match Jsonify(v)
    case Some(d) => Some(Text(d))
    case None => None
  }

  /** `JSON.parse(msg.content.toString())`; None where it throws. */
  function Parse(b: Body): (r: Option<Value>)
    ensures r.Some? ==> IsJson(r.value)
  {
    if b.Text? && IsJson(b.doc) then Some(b.doc) else None
  }

  /** Parsing what was written gives back the value `JSON.stringify` saw,
      which is the value itself when it already was a JSON document. */
  lemma RoundTrip(v: Value)
    requires Stringify(v).Some?
    ensures Parse(Stringify(v).value) == Jsonify(v)
    ensures IsJson(v) ==> Parse(Stringify(v).value) == Some(v)
  {
    JsonifyIsJson(v);
    if IsJson(v) { JsonifyOfJson(v); }
  }
}
