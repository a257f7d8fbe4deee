/** src/lib/errors: ExtendableError and its two subclasses, InternalError and
    ClientError, as instances of one value variant tagged by class. */
module Errors {
  import opened Wrappers
  import opened Js

  /** `new C(message)` for C one of the ExtendableError classes: `name` is the
      concrete class name and `message` the argument. */
  function New(cls: ErrorClass, message: string): (e: Value)
    requires Extendable(cls)
    ensures Get(e, "message") == Some(Str(message))
    ensures cls == ExtendableError ==> Get(e, "name") == Some(Str("ExtendableError"))
    ensures cls == InternalError ==> Get(e, "name") == Some(Str("InternalError"))
    ensures cls == ClientError ==> Get(e, "name") == Some(Str("ClientError"))
  {
    ErrorInstance(cls, message)
  }

  /** Whether the value has a `toJSON` method (the ExtendableError classes do,
      a plain `Error` and a `TypeError` do not). */
  predicate HasToJSON(v: Value) {
    v.ErrorInstance? && Extendable(v.cls)
  }

  /** `ExtendableError.prototype.toJSON`: exactly the `message` and `name`
      of the error, with no stack and no other property. */
  function ToJSON(e: Value): (r: Value)
    requires HasToJSON(e)
    ensures r.Obj? && r.fields.Keys == {"message", "name"}
    ensures Get(r, "message") == Get(e, "message") && Get(r, "name") == Get(e, "name")
  {
    Obj(map["message" := Str(e.message), "name" := Str(ClassName(e.cls))])
  }
}
