/** JavaScript values as the messaging code sees them: JSON data, property reads that may give
    `undefined`, thrown errors, and the foreign JSON / URI library calls as an abstract codec. */
module Js {

  datatype Option<+T> = None | Some(value: T)

  /** A value JSON.parse can produce. `undefined` is not a JSON value: a property read that finds
      nothing gives `None` (see `Get`). Numbers are integers here. */
  datatype Value =
    | Null
    | Bool(b: bool)
    | Num(n: int)
    | Str(s: string)
    | Arr(items: seq<Value>)
    | Obj(fields: map<string, Value>)

  /** The errors the core can throw. */
  datatype JsError = TypeError | SyntaxError | ReferenceError | URIError

  /** How a JavaScript call ends: it returns a value or it throws. */
  datatype Completion<+T> = Normal(value: T) | Throw(error: JsError)

  /** The property read `v.key` on a non-null value: `None` is `undefined`. Reading a property of
      a string, number, boolean or array that JSON data could carry also gives `undefined`. */
  function Get(v: Value, key: string): Option<Value> {
    if v.Obj? && key in v.fields then Some(v.fields[key]) else None
  }

  /** The foreign calls: JSON.stringify, JSON.parse (None: it throws a SyntaxError) and decodeURI
      (None: it throws a URIError). */
  datatype Codec = Codec(
    stringify: Value -> string,
    parse: string -> Option<Value>,
    decodeUri: string -> Option<string>)

  /** The one law the model relies on: parsing what JSON.stringify produced gives the value back. */
  ghost predicate Lawful(codec: Codec) {
    forall v :: codec.parse(codec.stringify(v)) == Some(v)
  }
}
