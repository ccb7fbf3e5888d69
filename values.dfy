/** Plain values shared by the documentation model: an optional value and
    the JSON-like fragments that PHP associative arrays stand for. */
module Values {

  datatype Option<+T> = None | Some(value: T) {
    /** The wrapped value, or `default` when there is none (PHP's `??`). */
    function GetOr(default: T): T {
      match this
      case Some(v) => v
      case None => default
    }
  }

  /** A documentation fragment as it is later serialised to JSON. */
  datatype Value =
    | Null
    | Bool(b: bool)
    | Str(s: string)
    | Obj(fields: map<string, Value>)

  /** A PHP associative array with string keys. */
  type Fragment = map<string, Value>
}
