/** JSON values as `json.loads` produces them, with the handful of Python operations the
    agents apply to them: `dict.get`, truthiness, numeric comparison, `str()` and iteration. */
module Json {
  import opened Wrappers
  import opened Strings

  /** A decoded JSON value. Numbers with a fraction or exponent become `JFloat`; NaN and
      the infinities that Python's decoder also accepts are not represented. */
  datatype Json =
    | JNull
    | JBool(b: bool)
    | JInt(i: int)
    | JFloat(r: real)
    | JStr(s: string)
    | JArr(items: seq<Json>)
    | JObj(fields: map<string, Json>)

  /** A decoded JSON object, Python's `dict` with string keys. */
  type Object = map<string, Json>

  /** `d.get(k, default)`. */
  function Get(o: Object, k: string, default: Json): Json {
    if k in o then o[k] else default
  }

  /** Python truthiness: `None`, `False`, zero, the empty string, list and dict are false. */
  predicate Truthy(j: Json) {
    match j
    case JNull => false
    case JBool(b) => b
    case JInt(i) => i != 0
    case JFloat(r) => r != 0.0
    case JStr(s) => s != []
    case JArr(xs) => xs != []
    case JObj(m) => m != map[]
  }

  /** The value a numeric comparison sees: `bool` is an `int` subclass in Python, every
      other non-number makes `<` and `>=` against a number raise `TypeError`. */
  function AsNumber(j: Json): (r: Option<real>)
    ensures r.Some? <==> (j.JInt? || j.JFloat? || j.JBool?)
  {
    match j
    case JBool(b) => Some(if b then 1.0 else 0.0)
    case JInt(i) => Some(i as real)
    case JFloat(r) => Some(r)
    case _ => None
  }

  /** `j == n` for a Python int `n`: true exactly for the numbers (and booleans) equal to it. */
  predicate EqualsInt(j: Json, n: int) {
    AsNumber(j) == Some(n as real)
  }

  /** Python `str(j)` (also what an f-string interpolates) for the scalars this model
      renders; floats, lists and dicts come back as `Unsupported`. */
  function Render(j: Json): (r: Result<string>)
    ensures j.JStr? ==> r == Ok(j.s)
    ensures r.Ok? <==> (j.JNull? || j.JBool? || j.JInt? || j.JStr?)
  {
    match j
    case JNull => Ok("None")
    case JBool(b) => Ok(if b then "True" else "False")
    case JInt(i) => Ok(IntToString(i))
    case JStr(s) => Ok(s)
    case _ => Err(Unsupported("str() of a JSON float, list or object"))
  }

  /** `len(j)` works: strings, lists and dicts. */
  predicate HasLen(j: Json) {
    j.JStr? || j.JArr? || j.JObj?
  }

  /** `j[:n]` works: strings and lists. */
  predicate Sliceable(j: Json) {
    j.JStr? || j.JArr?
  }

  /** The elements `for item in j` visits when every element is then used as a `dict`:
      a list gives its elements; an empty string or dict gives none; a non-empty string
      or dict yields a `str`, whose `.get` raises `AttributeError`; any other value is
      not iterable and raises `TypeError`. */
  function DictItems(j: Json): (r: Result<seq<Json>>)
    ensures j.JArr? ==> r == Ok(j.items)
    ensures r.Ok? ==> (j.JArr? || !Truthy(j))
  {
    match j
    case JArr(xs) => Ok(xs)
    case JStr(s) =>
      if s == [] then Ok([]) else Err(AttributeError("'str' object has no attribute 'get'"))
    case JObj(m) =>
      if m == map[] then Ok([]) else Err(AttributeError("'str' object has no attribute 'get'"))
    case JNull => Err(TypeError("'NoneType' object is not iterable"))
    case JBool(_) => Err(TypeError("'bool' object is not iterable"))
    case JInt(_) => Err(TypeError("'int' object is not iterable"))
    case JFloat(_) => Err(TypeError("'float' object is not iterable"))
  }

  /** `item.get(k, default)` on an element that must be a `dict`. */
  function ItemGet(item: Json, k: string, default: Json): (r: Result<Json>)
    ensures r.Ok? <==> item.JObj?
    ensures item.JObj? ==> r == Ok(Get(item.fields, k, default))
  {
    if item.JObj? then Ok(Get(item.fields, k, default))
    else Err(AttributeError("object has no attribute 'get'"))
  }

  /** The text both agents hand to `json.loads`: from the first `{` of the reply to its last
      `}` inclusive, provided that `}` comes after the `{`. */
  function ObjectSlice(response: string): Option<string> {
    var start := CharIndexFrom(response, '{', 0);
    var last := LastCharIndex(response, '}');
    if start < |response| && last + 1 > start then Some(response[start..last + 1]) else None
  }

  /** There is a slice exactly when some `}` follows some `{`; it then runs from the first
      `{` to the last `}`. */
  lemma ObjectSliceSpec(response: string)
    ensures ObjectSlice(response).Some? <==>
      exists i, j :: 0 <= i < j < |response| && response[i] == '{' && response[j] == '}'
    ensures ObjectSlice(response).Some? ==>
      exists i, j :: 0 <= i < j < |response| && ObjectSlice(response).value == response[i..j + 1]
        && response[i] == '{' && response[j] == '}'
        && (forall k :: 0 <= k < i ==> response[k] != '{')
        && (forall k :: j < k < |response| ==> response[k] != '}')
  {
    var start := CharIndexFrom(response, '{', 0);
    var last := LastCharIndex(response, '}');
    if exists i, j :: 0 <= i < j < |response| && response[i] == '{' && response[j] == '}' {
      var i, j :| 0 <= i < j < |response| && response[i] == '{' && response[j] == '}';
      assert start <= i && j <= last;
    }
  }
}
