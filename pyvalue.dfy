/** The Python values the service handles: JSON data as `json.loads` and Flask
    decode it, the exceptions the code can raise on such data, and the few
    builtins (`float`, `str`, `len`, indexing, iteration, truthiness) whose
    behaviour on JSON values the service relies on. */
module PyValue {

  datatype Option<T> = None | Some(value: T)

  /** The exception classes that the data-shaping code can raise on JSON input. */
  datatype PyError = AttributeError | TypeError | KeyError

  /** A computation that either returns a value or raises a Python exception. */
  datatype Result<T> = Ok(value: T) | Err(error: PyError)

  /** A decoded JSON value. Integers and floats are both `JNum`. */
  datatype Json =
    | JNull
    | JBool(b: bool)
    | JNum(n: real)
    | JStr(s: string)
    | JArr(items: seq<Json>)
    | JObj(fields: map<string, Json>)

  /** Library behaviour the model takes as given: `float()` applied to a string
      (`None` when it raises `ValueError`), and the text `str()` gives a number. */
  datatype Builtins = Builtins(parseFloat: string -> Option<real>, formatNumber: real -> string)

  /** Python truthiness: `None`, `False`, zero, and empty containers are falsy. */
  predicate Truthy(v: Json) {
    match v
    case JNull => false
    case JBool(b) => b
    case JNum(x) => x != 0.0
    case JStr(s) => s != ""
    case JArr(xs) => xs != []
    case JObj(m) => m != map[]
  }

  /** `d.get(key, default)` on a dict. */
  function Get(d: map<string, Json>, key: string, default: Json): Json {
    if key in d then d[key] else default
  }

  /** Values that can be part of a dict key: everything but lists and dicts. */
  predicate Hashable(v: Json) {
    !v.JArr? && !v.JObj?
  }

  /** Python's `==` on hashable JSON values, case by case: `True == 1` and
      `False == 0`, numbers compare by value, and values of different
      kinds are otherwise unequal. */
  predicate PyEq(a: Json, b: Json) {
    match (a, b)
    case (JNull, JNull) => true
    case (JBool(x), JBool(y)) => x == y
    case (JBool(x), JNum(y)) => y == (if x then 1.0 else 0.0)
    case (JNum(x), JBool(y)) => x == (if y then 1.0 else 0.0)
    case (JNum(x), JNum(y)) => x == y
    case (JStr(x), JStr(y)) => x == y
    case _ => false
  }

  /** `float(v)`; `None` stands for the `ValueError` or `TypeError` it raises. */
  function FloatOf(v: Json, lib: Builtins): (r: Option<real>)
    ensures v.JNum? ==> r == Some(v.n)
    ensures v.JNull? || v.JArr? || v.JObj? ==> r == None
  {
    match v
    case JNum(x) => Some(x)
    case JBool(b) => Some(if b then 1.0 else 0.0)
    case JStr(s) => lib.parseFloat(s)
    case _ => None
  }

  /** `str(v)` for a hashable value, as an f-string embeds it. */
  function Str(v: Json, lib: Builtins): string
    requires Hashable(v)
  {
    match v
    case JNull => "None"
    case JBool(b) => if b then "True" else "False"
    case JNum(x) => lib.formatNumber(x)
    case JStr(s) => s
  }

  /** `len(v)`; `None` stands for the `TypeError` raised on unsized values. */
  function Len(v: Json): (r: Option<nat>)
    ensures r.Some? <==> v.JStr? || v.JArr? || v.JObj?
  {
    match v
    case JStr(s) => Some(|s|)
    case JArr(xs) => Some(|xs|)
    case JObj(m) => Some(|m|)
    case _ => None
  }

  /** The one-character strings that iterating or indexing a string yields. */
  function Chars(s: string): (r: seq<Json>)
    ensures |r| == |s|
    ensures forall i :: 0 <= i < |s| ==> r[i] == JStr([s[i]])
  {
    seq(|s|, i requires 0 <= i < |s| => JStr([s[i]]))
  }

  /** `v[i]` for an index below `len(v)`. Dict keys decoded from JSON are
      strings, so subscripting a dict with an integer raises `KeyError`. */
  function Index(v: Json, i: nat): (r: Result<Json>)
    requires Len(v).Some? && i < Len(v).value
    ensures v.JArr? ==> r == Ok(v.items[i])
    ensures v.JStr? ==> r == Ok(JStr([v.s[i]]))
    ensures v.JObj? ==> r == Err(KeyError)
  {
    match v
    case JArr(xs) => Ok(xs[i])
    case JStr(s) => Ok(JStr([s[i]]))
    case JObj(_) => Err(KeyError)
  }

  /** The elements a `for` loop of the normalizer visits, or the exception it
      raises. Only lists, strings and dicts are iterable (`TypeError` otherwise).
      Iterating a dict yields its keys, which are strings; each loop of the
      normalizer calls `.get` on its element first, so a non-empty dict raises
      `AttributeError` at its first key, and the model raises it here. */
  function Iterate(v: Json): (r: Result<seq<Json>>)
    ensures v.JArr? ==> r == Ok(v.items)
    ensures v.JNull? || v.JBool? || v.JNum? ==> r == Err(TypeError)
  {
    match v
    case JArr(xs) => Ok(xs)
    case JStr(s) => Ok(Chars(s))
    case JObj(m) => if m == map[] then Ok([]) else Err(AttributeError)
    case _ => Err(TypeError)
  }
}
