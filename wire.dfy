/**
 * The JSON-like values that the dictionaries of the system hold, with the
 * Python behaviours the model needs: truthiness, reading a keyword argument
 * out of a dictionary and dropping the None-valued entries.
 */
module Wire {
  import opened Wrappers

  /** JNull is Python's None; JInt and JNum are Python int and float. */
  datatype Json =
    | JNull
    | JBool(b: bool)
    | JInt(i: int)
    | JNum(r: real)
    | JStr(s: string)
    | JArr(items: seq<Json>)
    | JObj(fields: map<string, Json>)

  /** Python's bool(x): None, False, zero and empty containers are false. */
  predicate Truthy(j: Json)
  {
    match j
    case JNull => false
    case JBool(b) => b
    case JInt(i) => i != 0
    case JNum(r) => r != 0.0
    case JStr(s) => s != ""
    case JArr(items) => items != []
    case JObj(fields) => fields != map[]
  }

  /** A float field as written by to_dict: None for absent. */
  function OptNum(o: Option<real>): (j: Json)
    ensures o.None? <==> j == JNull
    ensures o.Some? ==> j == JNum(o.value)
  {
    if o.Some? then JNum(o.value) else JNull
  }

  /**
   * The real number a JSON number stands for; Python's bool is an int, so
   * True and False count as 1 and 0. Anything else is not a number.
   */
  function AsReal(j: Json): (r: Option<real>)
    ensures r.Some? <==> j.JNum? || j.JInt? || j.JBool?
    ensures j.JNum? ==> r == Some(j.r)
    ensures j.JInt? ==> r == Some(j.i as real)
    ensures j.JBool? ==> r == Some(if j.b then 1.0 else 0.0)
  {
    match j
    case JNum(x) => Some(x)
    case JInt(i) => Some(i as real)
    case JBool(b) => Some(if b then 1.0 else 0.0)
    case _ => None
  }

  /**
   * A number with no fractional part, read as a whole number: an int, a bool
   * or a float such as 4.0.
   */
  function AsWhole(j: Json): (r: Option<int>)
    ensures r.Some? <==> AsReal(j).Some? && AsReal(j).value == AsReal(j).value.Floor as real
    ensures r.Some? ==> AsReal(j) == Some(r.value as real)
  {
    var x := AsReal(j);
    if x.Some? && x.value == x.value.Floor as real then Some(x.value.Floor) else None
  }

  /** `cls(**d)` for a required float argument: missing or non-numeric raises. */
  function RequiredNum(d: map<string, Json>, key: string): (r: Result<real>)
    ensures r.Ok? <==> key in d && AsReal(d[key]).Some?
    ensures r.Ok? ==> r.value == AsReal(d[key]).value
  {
    if key !in d then Err("missing required argument " + key)
    else if AsReal(d[key]).None? then Err("not a number: " + key)
    else Ok(AsReal(d[key]).value)
  }

  /**
   * `cls(**d)` for an Optional[float] argument with default `dflt`: a missing
   * key takes the default, None stays None, a number is kept.
   */
  function OptionalNum(d: map<string, Json>, key: string, dflt: Option<real>): (r: Result<Option<real>>)
    ensures key !in d ==> r == Ok(dflt)
    ensures key in d && d[key] == JNull ==> r == Ok(None)
    ensures key in d && AsReal(d[key]).Some? ==> r == Ok(Some(AsReal(d[key]).value))
    ensures r.Err? <==> key in d && d[key] != JNull && AsReal(d[key]).None?
  {
    if key !in d then Ok(dflt)
    else if d[key] == JNull then Ok(None)
    else if AsReal(d[key]).None? then Err("not a number: " + key)
    else Ok(Some(AsReal(d[key]).value))
  }

  /** `cls(**d)` refuses keyword arguments the class does not declare. */
  predicate OnlyKeys(d: map<string, Json>, allowed: set<string>)
  {
    forall k :: k in d ==> k in allowed
  }

  /** `{k: v for k, v in d.items() if v is not None}`. */
  function OmitNone(d: map<string, Json>): (r: map<string, Json>)
    ensures forall k :: k in r <==> k in d && d[k] != JNull
    ensures forall k :: k in r ==> r[k] == d[k]
  {
    map k | k in d && d[k] != JNull :: d[k]
  }
}
