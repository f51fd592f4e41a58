/** Values that `json.load` produces, with the parts of Python's semantics that the
    modelled code uses on them: `d[k]`, `d.get(k, default)`, truthiness, iteration
    with `for`, `dict.items()` and `str(v)` inside f-strings.  Exceptions that
    the code lets propagate are `PyError` values. */
module PyJson {
  import opened Wrappers
  import opened PyText

  /** A decoded JSON value.  Objects keep their members in insertion order, as
      Python dicts do; a decoded object has each key once.  Numbers are integers. */
  datatype Json =
    | JNull
    | JBool(b: bool)
    | JInt(i: int)
    | JStr(s: string)
    | JArr(items: seq<Json>)
    | JObj(members: seq<(string, Json)>)

  /** The exceptions raised by the modelled code, with what `str(e)` shows. */
  datatype PyError =
    | KeyError(key: string)
    | TypeError(message: string)
    | ValueError(message: string)
    | AttributeError(message: string)
    | IndexError(message: string)
    | FileNotFoundError(message: string)
    | JsonDecodeError(message: string)
    | PdfError(message: string)
    | OsError(message: string)

  /** `str(e)` for an exception; a `KeyError` shows its key in quotes. */
  function ErrorText(e: PyError): string {
    match e
    case KeyError(k) => "'" + k + "'"
    case TypeError(m) => m
    case ValueError(m) => m
    case AttributeError(m) => m
    case IndexError(m) => m
    case FileNotFoundError(m) => m
    case JsonDecodeError(m) => m
    case PdfError(m) => m
    case OsError(m) => m
  }

  /** A JSON text together with what `json.loads` makes of it: the value, or the
      message of the `JSONDecodeError` it raises (decoding itself is not modelled). */
  datatype JsonText = JsonText(raw: string, parsed: Result<Json, string>)

  /** `json.loads(text)` / `json.load(f)`. */
  function Loads(t: JsonText): (r: Result<Json, PyError>)
    ensures r.Ok? <==> t.parsed.Ok?
    ensures r.Err? ==> r.error == JsonDecodeError(t.parsed.error)
  {
    match t.parsed
    case Ok(v) => Ok(v)
    case Err(m) => Err(JsonDecodeError(m))
  }

  function TypeName(v: Json): string {
    match v
    case JNull => "NoneType"
    case JBool(_) => "bool"
    case JInt(_) => "int"
    case JStr(_) => "str"
    case JArr(_) => "list"
    case JObj(_) => "dict"
  }

  function Lookup(members: seq<(string, Json)>, key: string): (r: Option<Json>)
    ensures r.Some? <==> exists i :: 0 <= i < |members| && members[i].0 == key
    ensures r.Some? ==> exists i :: 0 <= i < |members| && members[i] == (key, r.value)
  {
    if members == [] then None
    else if members[0].0 == key then Some(members[0].1)
    else
      var r := Lookup(members[1..], key);
      assert forall i :: 1 <= i < |members| ==> members[i] == members[1..][i - 1];
      r
  }

  /** `v[key]` with a string key. */
  function Subscript(v: Json, key: string): Result<Json, PyError> {
    match v
    case JObj(ms) =>
      (match Lookup(ms, key)
       case Some(x) => Ok(x)
       case None => Err(KeyError(key)))
    case JStr(_) => Err(TypeError("string indices must be integers, not 'str'"))
    case JArr(_) => Err(TypeError("list indices must be integers or slices, not str"))
    case _ => Err(TypeError("'" + TypeName(v) + "' object is not subscriptable"))
  }

  /** `v[k1][k2]...`, evaluated left to right. */
  function At(v: Json, path: seq<string>): Result<Json, PyError>
    decreases |path|
  {
    if path == [] then Ok(v)
    else
      var x :- Subscript(v, path[0]);
      At(x, path[1..])
  }

  /** `v.get(key, default)`; only dicts have `get`. */
  function Get(v: Json, key: string, default: Json): Result<Json, PyError> {
    match v
    case JObj(ms) =>
      (match Lookup(ms, key)
       case Some(x) => Ok(x)
       case None => Ok(default))
    case _ => Err(AttributeError("'" + TypeName(v) + "' object has no attribute 'get'"))
  }

  /** Python truthiness. */
  predicate Truthy(v: Json) {
    match v
    case JNull => false
    case JBool(b) => b
    case JInt(i) => i != 0
    case JStr(s) => s != ""
    case JArr(xs) => xs != []
    case JObj(ms) => ms != []
  }

  /** `f"{x}"` for each item. */
  function Strs(items: seq<Json>): (r: seq<string>)
    ensures |r| == |items| && forall i :: 0 <= i < |items| ==> r[i] == Str(items[i])
  {
    seq(|items|, i requires 0 <= i < |items| => Str(items[i]))
  }

  /** What `for x in v` visits: list items, the characters of a string, the keys of a dict. */
  function Iterate(v: Json): (r: Result<seq<Json>, PyError>)
    ensures r.Ok? ==> (|r.value| == 0 <==> !Truthy(v))
    ensures r.Err? <==> v.JNull? || v.JBool? || v.JInt?
  {
    match v
    case JArr(xs) => Ok(xs)
    case JStr(s) => Ok(seq(|s|, i requires 0 <= i < |s| => JStr([s[i]])))
    case JObj(ms) => Ok(seq(|ms|, i requires 0 <= i < |ms| => JStr(ms[i].0)))
    case _ => Err(TypeError("'" + TypeName(v) + "' object is not iterable"))
  }

  /** `v.items()`; only dicts have `items`. */
  function Items(v: Json): Result<seq<(string, Json)>, PyError> {
    match v
    case JObj(ms) => Ok(ms)
    case _ => Err(AttributeError("'" + TypeName(v) + "' object has no attribute 'items'"))
  }

  /** `str(v)`: a string as itself, anything else as its `repr`. */
  function Str(v: Json): string {
    match v
    case JStr(s) => s
    case _ => Repr(v)
  }

  /** Python's `repr`, with strings always in single quotes and no escaping. */
  function Repr(v: Json): string {
    match v
    case JNull => "None"
    case JBool(b) => if b then "True" else "False"
    case JInt(i) => IntToString(i)
    case JStr(s) => "'" + s + "'"
    case JArr(xs) => "[" + Join(", ", seq(|xs|, i requires 0 <= i < |xs| => Repr(xs[i]))) + "]"
    case JObj(ms) =>
      "{" + Join(", ", seq(|ms|, i requires 0 <= i < |ms| => "'" + ms[i].0 + "': " + Repr(ms[i].1))) + "}"
  }
}
