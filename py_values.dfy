/** Python values as they appear in the proxy's option dictionaries, the
    `Option` and `Result` wrappers used throughout, and the two exceptions
    that construction of the proxy can raise. */
module PyValues {

  /** A value held in an options dictionary, restricted here to None, a
      bool, an int, a str or a list; keys are taken to be strings. */
  datatype Value =
    | VNone
    | VBool(b: bool)
    | VInt(i: int)
    | VStr(s: string)
    | VList(items: seq<Value>)

  type Options = map<string, Value>

  datatype Option<+T> = None | Some(value: T)

  /** The two exceptions construction can raise: the `ValueError` for
      distinct HTTP and HTTPS upstream proxies, and the `TypeError` Python
      raises when a keyword reaches a call twice (`keys` are all keywords
      that did so). */
  datatype ConfigError =
    | DifferentUpstreamProxies
    | DuplicateKeyword(keys: set<string>)

  datatype Result<+T, +E> = Success(value: T) | Failure(error: E) {
    predicate IsFailure() {
      Failure?
    }

    function PropagateFailure<U>(): Result<U, E>
      requires Failure?
    {
      Failure(error)
    }

    function Extract(): T
      requires Success?
    {
      value
    }
  }

  /** Python's truth test `bool(v)`. */
  predicate Truthy(v: Value) {
    match v
    case VNone => false
    case VBool(b) => b
    case VInt(i) => i != 0
    case VStr(s) => s != ""
    case VList(items) => items != []
  }

  /** `d.get(key, default)`. */
  function Get(d: Options, key: string, default: Value): (v: Value)
    ensures key in d ==> v == d[key]
    ensures key !in d ==> v == default
  {
    if key in d then d[key] else default
  }

  /** `'{}'.format(o)` for an optional string: None prints as "None". */
  function Format(o: Option<string>): string {
    match o
    case None => "None"
    case Some(s) => s
  }

  /** Python's truth test for an optional string. */
  predicate NonEmpty(o: Option<string>) {
    o.Some? && o.value != ""
  }
}
