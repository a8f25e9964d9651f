/**
 * The few Python values the facade inspects dynamically: the `url` and `key`
 * arguments of the constructor (which may be of any type) and the `**kwargs`
 * bags from which the factories read their mode flag.
 */
module PyValues {

  /** A Python value, as far as truthiness and `isinstance(_, str)` can tell values apart. */
  datatype PyValue =
    | PyNone
    | PyBool(b: bool)
    | PyInt(i: int)
    | PyStr(s: string)
    | PyCollection(size: nat)  // a list, tuple, dict or set with `size` elements

  /** `bool(v)`. */
  predicate Truthy(v: PyValue) {
    match v
    case PyNone => false
    case PyBool(b) => b
    case PyInt(i) => i != 0
    case PyStr(s) => s != ""
    case PyCollection(n) => n != 0
  }

  /** Keyword arguments collected by `**kwargs`. */
  type Kwargs = map<string, PyValue>

  /** A `Dict[str, str]`, as used for HTTP headers. */
  type Headers = map<string, string>

  /** `kwargs.get(name, default)`. */
  function Get(kwargs: Kwargs, name: string, default: PyValue): PyValue {
    if name in kwargs then kwargs[name] else default
  }

  /**
   * `bool(kwargs.get(name, False))`: set exactly when the keyword is present
   * with a truthy value, so an absent keyword selects the synchronous variant.
   */
  predicate FlagSet(kwargs: Kwargs, name: string)
    ensures FlagSet(kwargs, name) <==> name in kwargs && Truthy(kwargs[name])
  {
    Truthy(Get(kwargs, name, PyBool(false)))
  }
}
