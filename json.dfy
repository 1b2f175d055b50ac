/** The upstream response bodies that the cache stores and serves. */
module Json {

  /** A parsed JSON value. Numbers are reals: JavaScript's NaN and the
      infinities have no counterpart (JSON cannot carry them either). */
  datatype Value =
    | Null
    | Bool(b: bool)
    | Num(n: real)
    | Str(s: string)
    | Arr(items: seq<Value>)
    | Obj(fields: map<string, Value>)

  /** JavaScript truthiness of a parsed value, as used by the `data && ...`
      guard of every handler: null, false, 0 and the empty string are falsy;
      every array and every object, even an empty one, is truthy. */
  predicate Truthy(v: Value) {
    match v
    case Null => false
    case Bool(b) => b
    case Num(n) => n != 0.0
    case Str(s) => s != ""
    case Arr(_) => true
    case Obj(_) => true
  }
}
