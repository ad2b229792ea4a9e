/** The library functions the core calls but does not define. Each is a
    parameter of the model: nothing is assumed about it beyond its type. */
module Host {
  import opened Text
  import opened Json

  datatype Env = Env(
    /** `json.loads(text)`, or `None` where it raises. */
    loads: string -> Option<JsonValue>,
    /** `json.dumps(value, ensure_ascii=True)`. */
    dumps: JsonValue -> string,
    /** `float(s)` for a str, or `None` where it raises. */
    pyFloat: string -> Option<real>,
    /** The coercion a tool applies to an argument declared `float`, or `None`
        where validation fails. */
    toolFloat: JsonValue -> Option<real>,
    /** `haversine((lat1, lng1), (lat2, lng2))` in km, or `None` where it
        raises (a latitude or longitude out of range). */
    dist: (real, real, real, real) -> Option<real>)

  /** Python's `float(v)` on a JSON value: numbers and bools convert, a str
      goes through `pyFloat`, anything else raises (`None`). */
  function PyFloat(env: Env, v: JsonValue): (r: Option<real>)
    ensures AsNumber(v).Some? ==> r == AsNumber(v)
    ensures v.JNull? || v.JArray? || v.JObject? ==> r.None?
  {
    match v
    case JNum(n) => Some(n)
    case JBool(b) => Some(if b then 1.0 else 0.0)
    case JStr(s) => env.pyFloat(s)
    case _ => None
  }
}
