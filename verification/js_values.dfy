/**
 The JavaScript values the Graph client inspects: response bodies, parsed JSON,
 the error objects it builds, and the library functions it calls but whose code
 is not part of this model.
 */
module JsValues {

  datatype Option<+T> = None | Some(value: T)

  datatype Result<+R, +E> = Success(value: R) | Failure(error: E)

  /** A JavaScript value, restricted to the shapes the client can meet.
      Numbers are integers (no fractions, no NaN); `Exception` stands for an
      `Error` object thrown by the runtime or by a library, named by its kind.
      An object is an unordered map: the insertion order of its keys, which
      `querystring.stringify` and `JSON.parse` follow, is not modelled. */
  datatype Value =
    | Undefined
    | Null
    | Bool(b: bool)
    | Num(n: int)
    | Str(s: string)
    | Arr(items: seq<Value>)
    | Obj(fields: map<string, Value>)
    | Exception(name: string)

  /** JavaScript truthiness: `false`, `0`, `""`, `null` and `undefined` are falsy,
      every object, array and error is truthy. */
  predicate Truthy(v: Value)
  {
    match v
    case Undefined => false
    case Null => false
    case Bool(b) => b
    case Num(n) => n != 0
    case Str(s) => s != ""
    case _ => true
  }

  /** Exactly five values are falsy; every object, array and error is truthy. */
  lemma FalsyValues(v: Value)
    ensures !Truthy(v) <==> v == Undefined || v == Null || v == Bool(false) || v == Num(0) || v == Str("")
    ensures v.Obj? || v.Arr? || v.Exception? ==> Truthy(v)
  {
  }

  /** The property read `v.key` for the keys the client reads (`error`, `mobile`):
      only plain objects carry them as own fields, every other value yields `undefined`. */
  function Prop(v: Value, key: string): (r: Value)
    ensures !v.Obj? ==> r == Undefined
    ensures v.Obj? && key !in v.fields ==> r == Undefined
    ensures v.Obj? && key in v.fields ==> r == v.fields[key]
  {
    if v.Obj? && key in v.fields then v.fields[key] else Undefined
  }

  /** The error the runtime throws when a method is called on `null`,
      `undefined`, `false` or `0`. */
  const TypeError := Exception("TypeError")

  /** The object literal `{ message: m }`. */
  function MessageObject(message: string): Value
  {
    Obj(map["message" := Str(message)])
  }

  /** The object literal `{ message: m, exception: e }`. */
  function WrappedError(message: string, exception: Value): Value
  {
    Obj(map["message" := Str(message), "exception" := exception])
  }

  /** The library functions the client calls, kept abstract:
      - `jsonParse` is `JSON.parse`: the parsed value, or the exception it throws;
      - `queryOf` is `url.parse(s, true).query`: the decoded key/value mapping;
      - `stringify` is `querystring.stringify`. */
  datatype Natives = Natives(
    jsonParse: string -> Result<Value, Value>,
    queryOf: string -> map<string, Value>,
    stringify: Value -> string)
}
