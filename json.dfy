/**
 * Decoded JSON values as the client sees them after `json.loads`, with the
 * three Python operations the client applies to them: truthiness (`if x:`),
 * `dict.get(key, default)` and `==`.
 */
module JsonValues {
  import opened Wrappers
  import opened Exceptions

  /** What `json.loads` returns (floating-point numbers are not modelled). */
  datatype Json =
    | JNull
    | JBool(b: bool)
    | JInt(i: int)
    | JString(s: string)
    | JArray(items: seq<Json>)
    | JObject(fields: map<string, Json>)

  const EmptyObject: Json := JObject(map[])

  /** Python truthiness: None, False, 0, "", [] and {} are falsy. */
  predicate Truthy(v: Json): (r: bool)
    ensures !r <==> v == JNull || v == JBool(false) || v == JInt(0) || v == JString("") || v == JArray([]) || v == EmptyObject
  {
    match v
    case JNull => false
    case JBool(b) => b
    case JInt(i) => i != 0
    case JString(s) => s != ""
    case JArray(items) => items != []
    case JObject(fields) => fields != map[]
  }

  /** The Python type name of a decoded value. */
  function TypeName(v: Json): string
  {
    match v
    case JNull => "NoneType"
    case JBool(_) => "bool"
    case JInt(_) => "int"
    case JString(_) => "str"
    case JArray(_) => "list"
    case JObject(_) => "dict"
  }

  /**
   * `v.get(key, default)`: the default is used only when the key is absent
   * (a present `null` is returned as is); any value other than a dict has no
   * `get` and raises AttributeError.
   */
  function Get(v: Json, key: string, default: Json): (r: Result<Json, Raised>)
    ensures r.Success? <==> v.JObject?
    ensures r.Failure? ==> r.error == AttributeError(TypeName(v))
    ensures r.Success? && key in v.fields ==> r.value == v.fields[key]
    ensures r.Success? && key !in v.fields ==> r.value == default
  {
    match v
    case JObject(fields) => Success(if key in fields then fields[key] else default)
    case _ => Failure(AttributeError(TypeName(v)))
  }

  function BoolToInt(b: bool): int { if b then 1 else 0 }

  /**
   * Python's `==` on decoded values: `True == 1` and `False == 0` (bool is a
   * subclass of int), lists compare element by element, dicts key by key.
   */
  predicate PyEq(a: Json, b: Json)
  {
    match (a, b)
    case (JNull, JNull) => true
    case (JBool(x), JBool(y)) => x == y
    case (JBool(x), JInt(y)) => BoolToInt(x) == y
    case (JInt(x), JBool(y)) => x == BoolToInt(y)
    case (JInt(x), JInt(y)) => x == y
    case (JString(x), JString(y)) => x == y
    case (JArray(x), JArray(y)) => |x| == |y| && forall k :: 0 <= k < |x| ==> PyEq(x[k], y[k])
    case (JObject(x), JObject(y)) => x.Keys == y.Keys && forall k :: k in x ==> PyEq(x[k], y[k])
    case _ => false
  }

  /** Every value is `==` to itself. */
  lemma {:induction false} PyEqReflexive(a: Json)
    ensures PyEq(a, a)
  {
    match a
    case JArray(x) =>
      forall k | 0 <= k < |x| ensures PyEq(x[k], x[k]) { PyEqReflexive(x[k]); }
    case JObject(x) =>
      forall k | k in x ensures PyEq(x[k], x[k]) { PyEqReflexive(x[k]); }
    case _ =>
  }

  /** `==` is symmetric on decoded values. */
  lemma {:induction false} PyEqSymmetric(a: Json, b: Json)
    requires PyEq(a, b)
    ensures PyEq(b, a)
  {
    match (a, b)
    case (JArray(x), JArray(y)) =>
      forall k | 0 <= k < |y| ensures PyEq(y[k], x[k]) { PyEqSymmetric(x[k], y[k]); }
    case (JObject(x), JObject(y)) =>
      forall k | k in y ensures PyEq(y[k], x[k]) { PyEqSymmetric(x[k], y[k]); }
    case _ =>
  }

  /** A string is `==` only to the same string. */
  lemma PyEqString(s: string, v: Json)
    ensures PyEq(JString(s), v) <==> v == JString(s)
  {
  }

  /** Python's `==` is coarser than equality of decoded values. */
  lemma PyEqBoolInt()
    ensures PyEq(JBool(true), JInt(1)) && JBool(true) != JInt(1)
    ensures PyEq(JInt(0), JBool(false)) && JInt(0) != JBool(false)
  {
  }

  /** The parameter annotations the constructors declare. */
  datatype PyType = Str | Int | Bool | OptionalStr

  /** `isinstance` against an annotation (a bool is also an int in Python). */
  predicate HasType(v: Json, t: PyType)
  {
    match t
    case Str => v.JString?
    case Int => v.JInt? || v.JBool?
    case Bool => v.JBool?
    case OptionalStr => v.JString? || v.JNull?
  }

  /** The default the client passes to `get` for a field of each annotation. */
  function DefaultOf(t: PyType): (d: Json)
    ensures HasType(d, t)
    ensures !Truthy(d)
    ensures d.JNull? <==> t == OptionalStr
  {
    match t
    case Str => JString("")
    case Int => JInt(0)
    case Bool => JBool(false)
    case OptionalStr => JNull
  }

  /** `d.get(key, default)` on a value already known to be a dict. */
  function Lookup(fields: map<string, Json>, key: string, default: Json): (r: Json)
    ensures Get(JObject(fields), key, default) == Success(r)
  {
    if key in fields then fields[key] else default
  }

  /** The value `obj.get(key, DefaultOf(t))` yields on a dict. */
  function FieldOr(fields: map<string, Json>, key: string, t: PyType): Json
  {
    Lookup(fields, key, DefaultOf(t))
  }
}
