/** The JavaScript values the library passes around, with the few builtin
    operations it relies on: truthiness, property reads, `_.assign` copies and
    conversion of a value to a property key. */
module Js {
  import opened Wrappers

  /** A function value. User code is an opaque id; the closures the library
      itself creates are named after their owner (a delivery, an RPC call). */
  datatype Callable =
    | UserFn(id: nat)
    | DoneFn(delivery: nat)
    | ProgressFn(delivery: nat)
    | ResolveFn(call: string)
    | RejectFn(call: string)
    | CloseConnection     // the shutdown job AmqpKit.bindEvents adds

  /** `Error`, the `TypeError` the engine throws on a property read of
      `null`, and the classes of src/lib/errors. */
  datatype ErrorClass = PlainError | TypeError | ExtendableError | InternalError | ClientError

  /** The classes of src/lib/errors, which assign `name` and define `toJSON`. */
  predicate Extendable(cls: ErrorClass) {
    cls.ExtendableError? || cls.InternalError? || cls.ClientError?
  }

  datatype Value =
    | Undefined
    | Null
    | Bool(b: bool)
    | Num(n: int)
    | Str(s: string)
    | Arr(items: seq<Value>)
    | Obj(fields: map<string, Value>)
    | ErrorInstance(cls: ErrorClass, message: string)
    | Fn(f: Callable)

  /** One call of a function value with its arguments; also stands for the
      (opaque) value that call returns. */
  datatype Call = Call(fn: Callable, args: seq<Value>)

  /** `this.constructor.name` of an error instance. */
  function ClassName(cls: ErrorClass): string {
    match cls
    case PlainError => "Error"
    case TypeError => "TypeError"
    case ExtendableError => "ExtendableError"
    case InternalError => "InternalError"
    case ClientError => "ClientError"
  }

  /** JavaScript truthiness (`if (v)`, `v && ...`, `v || d`). */
  predicate Truthy(v: Value) {
    match v
    case Undefined => false
    case Null => false
    case Bool(b) => b
    case Num(n) => n != 0
    case Str(s) => s != ""
    case _ => true
  }

  function EmptyObj(): Value { Obj(map[]) }

  /** `v[key]` for the named fields the library reads (never an array index).
      None: reading a property of `null` or `undefined` throws a TypeError. */
  function Get(v: Value, key: string): (r: Option<Value>)
    ensures r.None? <==> v.Undefined? || v.Null?
    ensures v.Obj? ==> r == Some(if key in v.fields then v.fields[key] else Undefined)
  {
    match v
    case Undefined => None
    case Null => None
    case Obj(m) => Some(if key in m then m[key] else Undefined)
    case Arr(items) => Some(if key == "length" then Num(|items|) else Undefined)
    case Str(s) => Some(if key == "length" then Num(|s|) else Undefined)
    case ErrorInstance(cls, msg) =>
      Some(if key == "name" then Str(ClassName(cls)) else if key == "message" then Str(msg) else Undefined)
    case _ => Some(Undefined)
  }

  /** Reads a property of an object literal the library built itself. */
  function Field(m: map<string, Value>, key: string): Value {
    if key in m then m[key] else Undefined
  }

  function Digit(d: nat): char
    requires d < 10
  {
    ['0', '1', '2', '3', '4', '5', '6', '7', '8', '9'][d]
  }

  /** Decimal text of a natural number, as `String(n)` prints it. */
  function NatToString(n: nat): (s: string)
    ensures |s| >= 1
  {
    if n < 10 then [Digit(n)] else NatToString(n / 10) + [Digit(n % 10)]
  }

  lemma DigitInjective(a: nat, b: nat)
    requires a < 10 && b < 10 && Digit(a) == Digit(b)
    ensures a == b
  {
  }

  /** Different numbers print differently, so index keys never collide. */
  lemma {:induction false} NatToStringInjective(a: nat, b: nat)
    requires NatToString(a) == NatToString(b)
    ensures a == b
  {
    var sa, sb := NatToString(a), NatToString(b);
    if a < 10 && b < 10 {
      DigitInjective(a, b);
    } else if a >= 10 && b >= 10 {
      assert sa[|sa| - 1] == Digit(a % 10) && sb[|sb| - 1] == Digit(b % 10);
      DigitInjective(a % 10, b % 10);
      assert NatToString(a / 10) == sa[..|sa| - 1] == sb[..|sb| - 1] == NatToString(b / 10);
      NatToStringInjective(a / 10, b / 10);
    }
  }

  /** `String(n)` for an integer. */
  function IntToString(i: int): string {
    if i < 0 then "-" + NatToString(-i) else NatToString(i)
  }

  /** The enumerable own properties of an array-like value, keyed by index. */
  function IndexKeyed(items: seq<Value>): map<string, Value>
  {
    if items == [] then map[]
    else IndexKeyed(items[..|items| - 1])[NatToString(|items| - 1) := items[|items| - 1]]
  }

  /** Index `i` is stored under its decimal key. */
  lemma {:induction false} IndexKeyedValues(items: seq<Value>)
    ensures forall i | 0 <= i < |items| :: NatToString(i) in IndexKeyed(items) && IndexKeyed(items)[NatToString(i)] == items[i]
  {
    if items != [] {
      var n := |items| - 1;
      var prev := IndexKeyed(items[..n]);
      var m := IndexKeyed(items);
      assert m == prev[NatToString(n) := items[n]];
      IndexKeyedValues(items[..n]);
      NewIndexKey(n);
      forall i | 0 <= i < n ensures NatToString(i) in m && m[NatToString(i)] == items[i] {
        assert items[..n][i] == items[i];
      }
    }
  }

  /** Every key is the decimal key of an index. */
  lemma {:induction false} IndexKeyedKeys(items: seq<Value>)
    ensures forall k | k in IndexKeyed(items) :: exists i: nat :: i < |items| && k == NatToString(i)
  {
    if items != [] {
      var n := |items| - 1;
      assert IndexKeyed(items) == IndexKeyed(items[..n])[NatToString(n) := items[n]];
      IndexKeyedKeys(items[..n]);
      forall k | k in IndexKeyed(items) ensures exists i: nat :: i < |items| && k == NatToString(i) {
        if k != NatToString(n) {
          var i: nat :| i < |items[..n]| && k == NatToString(i);
          assert i < |items| && k == NatToString(i);
        } else {
          assert n < |items| && k == NatToString(n);
        }
      }
      assert forall k | k in IndexKeyed(items) :: exists i: nat :: i < |items| && k == NatToString(i);
    }
  }

  /** The key of index `n` is none of the keys of smaller indices. */
  lemma NewIndexKey(n: nat)
    ensures forall i | 0 <= i < n :: NatToString(i) != NatToString(n)
  {
    forall i | 0 <= i < n ensures NatToString(i) != NatToString(n) {
      if NatToString(i) == NatToString(n) { NatToStringInjective(i, n); }
    }
  }

  /** The own enumerable properties `_.assign` copies from a source value. */
  function OwnProps(v: Value): map<string, Value> {
    match v
    case Obj(m) => m
    case Arr(items) => IndexKeyed(items)
    case Str(s) => IndexKeyed(seq(|s|, i requires 0 <= i < |s| => Str([s[i]])))
    case ErrorInstance(cls, _) =>
      // `name` is assigned in the constructor; `message` and `stack` are not enumerable
      if !Extendable(cls) then map[] else map["name" := Str(ClassName(cls))]
    case _ => map[]
  }

  /** `_.assign({}, defaults, v || {})`: the defaults overridden by the caller's properties. */
  function Merge(defaults: map<string, Value>, v: Value): (m: map<string, Value>)
    ensures m.Keys == defaults.Keys + (if Truthy(v) then OwnProps(v).Keys else {})
    ensures forall k :: k in m ==> m[k] == if Truthy(v) && k in OwnProps(v) then OwnProps(v)[k] else defaults[k]
  {
    if Truthy(v) then defaults + OwnProps(v) else defaults
  }

  /** `items.join(",")` for the value-to-string conversion of an array. */
  function Join(items: seq<Value>): string
    decreases items, 0
  {
    if items == [] then ""
    else
      var first := if items[0].Undefined? || items[0].Null? then "" else ToStr(items[0]);
      if |items| == 1 then first else first + "," + Join(items[1..])
  }

  /** `String(v)`: how the value becomes a property key (`table[v]`). */
  function ToStr(v: Value): string
    decreases v, 1
  {
    match v
    case Undefined => "undefined"
    case Null => "null"
    case Bool(b) => if b then "true" else "false"
    case Num(n) => IntToString(n)
    case Str(s) => s
    case Arr(items) => Join(items)
    case Obj(_) => "[object Object]"
    case ErrorInstance(cls, m) => if m == "" then ClassName(cls) else ClassName(cls) + ": " + m
    case Fn(_) => "function"
  }
}
