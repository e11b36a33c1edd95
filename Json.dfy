/** Python dictionaries and lists as the scheduler passes them around. */
module Json {
  import opened Wrappers

  datatype Json =
    | JNull
    | JBool(b: bool)
    | JInt(i: int)
    | JStr(s: string)
      /** The text `isoformat()` gives for a datetime: the instant `at` written with UTC offset
          `offset` minutes, or as a naive wall clock when `offset` is `None`. Only this text
          reading is modelled: no modelled flow hands a datetime object itself to a parser. */
    | JTime(at: int, offset: Option<int>)
    | JList(items: seq<Json>)
    | JObj(fields: map<string, Json>)

  /** Python truthiness (`bool(v)`). */
  predicate Truthy(j: Json)
  {
    match j
    case JNull => false
    case JBool(b) => b
    case JInt(i) => i != 0
    case JStr(s) => s != ""
    case JTime(_, _) => true
    case JList(xs) => xs != []
    case JObj(m) => m != map[]
  }

  /** `j.get(key, default)`; `Err` when `j` is not a dict (an `AttributeError`). */
  function Get(j: Json, key: string, default: Json): (r: Result<Json>)
    ensures r.Ok? <==> j.JObj?
    ensures j.JObj? && key in j.fields ==> r == Ok(j.fields[key])
    ensures j.JObj? && key !in j.fields ==> r == Ok(default)
  {
    match j
    case JObj(m) => Ok(if key in m then m[key] else default)
    case _ => Err("object has no attribute 'get'")
  }

  function Strings(xs: seq<string>): (r: seq<Json>)
    ensures |r| == |xs| && forall i :: 0 <= i < |xs| ==> r[i] == JStr(xs[i])
  {
    seq(|xs|, i requires 0 <= i < |xs| => JStr(xs[i]))
  }

  /** A dict whose values are all strings (`Dict[str, str]`). */
  predicate IsStrDict(j: Json)
  {
    j.JObj? && forall k :: k in j.fields ==> j.fields[k].JStr?
  }

  function AsStrDict(j: Json): (m: map<string, string>)
    requires IsStrDict(j)
    ensures m.Keys == j.fields.Keys && forall k :: k in m ==> j.fields[k] == JStr(m[k])
  {
    map k | k in j.fields :: j.fields[k].s
  }

  function FromStrDict(m: map<string, string>): (j: Json)
    ensures IsStrDict(j) && AsStrDict(j) == m
  {
    JObj(map k | k in m :: JStr(m[k]))
  }
}
