/**
 * Values produced by `JSON.parse`, and the few JavaScript operators the core
 * applies to them: truthiness, `??`, `&&`, optional property access `v?.k`
 * and `v?.[0]`. A property that is absent reads as `undefined`, written
 * here as `None`.
 */
module Json {
  import opened Wrappers

  datatype Json =
    | JNull
    | JBool(b: bool)
    | JNum(n: real)
    | JStr(s: string)
    | JArr(items: seq<Json>)
    | JObj(fields: map<string, Json>)

  /** A JavaScript value as property access sees it: `None` is `undefined`. */
  type Value = Option<Json>

  /** JavaScript truthiness: `undefined`, `null`, `false`, `0`, `-0` and `""` are falsy. */
  predicate Truthy(v: Value) {
    match v
    case None => false
    case Some(j) =>
      match j
      case JNull => false
      case JBool(b) => b
      case JNum(n) => n != 0.0
      case JStr(s) => s != ""
      case JArr(_) => true
      case JObj(_) => true
  }

  /** `a ?? b`: `b` exactly when `a` is `null` or `undefined`. */
  function Coalesce(a: Value, b: Value): (r: Value)
    ensures a.None? || a == Some(JNull) ==> r == b
    ensures a.Some? && a != Some(JNull) ==> r == a
  {
    if a.None? || a == Some(JNull) then b else a
  }

  /** `a && b`: `a` when it is falsy, otherwise `b`. */
  function And(a: Value, b: Value): (r: Value)
    ensures Truthy(r) <==> Truthy(a) && Truthy(b)
  {
    if Truthy(a) then b else a
  }

  /** `v?.k` for a key that is neither an array index nor a property every
      value inherits: only an object can hold it. */
  function Member(v: Value, k: string): (r: Value)
    ensures r.Some? ==> v.Some? && v.value.JObj? && k in v.value.fields && r.value == v.value.fields[k]
    ensures v.Some? && v.value.JObj? && k in v.value.fields ==> r.Some?
  {
    match v
    case Some(JObj(m)) => if k in m then Some(m[k]) else None
    case _ => None
  }

  /** `v?.[0]`: the first element of an array, the key `"0"` of an object,
      the first character of a string, otherwise `undefined`. */
  function First(v: Value): Value {
    match v
    case Some(JArr(a)) => if |a| > 0 then Some(a[0]) else None
    case Some(JObj(m)) => if "0" in m then Some(m["0"]) else None
    case Some(JStr(s)) => if |s| > 0 then Some(JStr(s[..1])) else None
    case _ => None
  }
}
