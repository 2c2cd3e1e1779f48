/** JSON-shaped values, article records and the Python exceptions the pipeline can raise. */
module Records {
  import opened Wrappers

  /** The process environment, as `os.getenv` sees it. */
  type Env = map<string, string>

  function GetEnv(env: Env, name: string): Option<string>
  {
    if name in env then Some(env[name]) else None
  }

  /** A JSON value as `json.loads` and NewsAPI produce it (integers only, see README). */
  datatype Json =
    | JNull
    | JBool(b: bool)
    | JNum(n: int)
    | JStr(s: string)
    | JArr(items: seq<Json>)
    | JObj(fields: map<string, Json>)

  /** An article, a summary record or any other Python `dict` with string keys. */
  type Article = map<string, Json>

  /** The exceptions the modelled code can raise; each carries what `str(e)` shows. */
  datatype Exception =
    | ValueError(msg: string)
    | KeyError(key: string)
    | TypeError(msg: string)
    | AttributeError(msg: string)

  /** `str(e)`: a KeyError shows the repr of its key (quote escaping is not modelled). */
  function Message(e: Exception): string
  {
    match e
    case ValueError(m) => m
    case KeyError(k) => "'" + k + "'"
    case TypeError(m) => m
    case AttributeError(m) => m
  }

  /** `type(j).__name__` for the Python value `json.loads` gives for `j`. */
  function TypeName(j: Json): string
  {
    match j
    case JNull => "NoneType"
    case JBool(_) => "bool"
    case JNum(_) => "int"
    case JStr(_) => "str"
    case JArr(_) => "list"
    case JObj(_) => "dict"
  }

  /** `d.get(key, default)`. */
  function Get(d: Article, key: string, default: Json): (r: Json)
    ensures key in d ==> r == d[key]
    ensures key !in d ==> r == default
  {
    if key in d then d[key] else default
  }

  /** `j.get(key, default)` on a value that may not be a dict: anything else raises AttributeError. */
  function GetOn(j: Json, key: string, default: Json): (r: Result<Json, Exception>)
    ensures r.Ok? <==> j.JObj?
    ensures j.JObj? ==> r.value == Get(j.fields, key, default)
    ensures !j.JObj? ==> r.error == AttributeError("'" + TypeName(j) + "' object has no attribute 'get'")
  {
    match j
    case JObj(m) => Ok(Get(m, key, default))
    case _ => Err(AttributeError("'" + TypeName(j) + "' object has no attribute 'get'"))
  }

  /** Python truthiness (`bool(j)`). */
  predicate Truthy(j: Json)
  {
    match j
    case JNull => false
    case JBool(b) => b
    case JNum(n) => n != 0
    case JStr(s) => s != ""
    case JArr(xs) => xs != []
    case JObj(m) => m != map[]
  }

  /**
   * `j[:n]`: strings and lists keep their first `n` elements (all of them when
   * shorter); the other kinds raise TypeError.
   */
  function Slice(j: Json, n: nat): (r: Result<Json, Exception>)
    ensures r.Ok? <==> j.JStr? || j.JArr?
    ensures j.JStr? ==> r.value.JStr? && r.value.s == j.s[..if |j.s| < n then |j.s| else n]
    ensures j.JArr? ==> r.value.JArr? && r.value.items == j.items[..if |j.items| < n then |j.items| else n]
  {
    match j
    case JStr(s) => Ok(JStr(if |s| <= n then s else s[..n]))
    case JArr(xs) => Ok(JArr(if |xs| <= n then xs else xs[..n]))
    case JObj(_) => Err(TypeError("unhashable type: 'slice'"))
    case _ => Err(TypeError("'" + TypeName(j) + "' object is not subscriptable"))
  }
}
