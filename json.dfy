/**
 * JavaScript values as the article renderer sees them: the optional wrapper
 * used for fields that may be missing, an opaque JSON value for every field
 * the renderer only copies, and JavaScript's notion of a "truthy" value,
 * which decides every branch of the renderer.
 */
module Json {

  /** A field that may be absent (`undefined` or `null` in the source). */
  datatype Option<+T> = None | Some(value: T) {
    /** The value, or `default` when absent (lodash's `_.get` with a default). */
    function GetOr(default: T): T {
      match this
      case Some(v) => v
      case None => default
    }
  }

  /**
   * A JSON value. Numbers are integers: every number the renderer itself
   * writes (the layout geometry) is one, and the rest are only copied.
   */
  datatype Value =
    | Null
    | Bool(b: bool)
    | Num(n: int)
    | Str(s: string)
    | Arr(items: seq<Value>)
    | Obj(fields: map<string, Value>)

  /** JavaScript truthiness: `null`, `false`, `0` and `""` are falsy, arrays and objects are truthy. */
  predicate Truthy(v: Value) {
    match v
    case Null => false
    case Bool(b) => b
    case Num(n) => n != 0
    case Str(s) => s != ""
    case Arr(_) => true
    case Obj(_) => true
  }
}
