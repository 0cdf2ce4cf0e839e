/**
 * Decoded JSON values as Python holds them after `json.loads`, with
 * Python's truthiness and Python's `==` on them (numbers compare by value
 * and `True == 1`, `False == 0`).
 */
module Json {
  import opened Wrappers
  import PyStr

  datatype Json =
    | JNull
    | JBool(b: bool)
    | JNum(x: real)
    | JStr(s: string)
    | JArr(arr: seq<Json>)
    | JObj(obj: map<string, Json>)

  /** `bool(v)` in Python. */
  predicate Truthy(j: Json) {
    match j
    case JNull => false
    case JBool(b) => b
    case JNum(x) => x != 0.0
    case JStr(s) => s != []
    case JArr(xs) => xs != []
    case JObj(m) => m != map[]
  }

  /** Python can hash a decoded value unless it is a list or a dict. */
  predicate Hashable(j: Json) {
    !j.JArr? && !j.JObj?
  }

  /** The number a scalar stands for under `==`: booleans are 0 and 1. */
  function NumericValue(j: Json): (r: Option<real>)
    ensures r.Some? <==> (j.JNum? || j.JBool?)
    ensures j.JNum? ==> r == Some(j.x)
    ensures j.JBool? ==> r == Some(if j.b then 1.0 else 0.0)
  {
    match j
    case JNum(x) => Some(x)
    case JBool(b) => Some(if b then 1.0 else 0.0)
    case _ => None
  }

  /**
   * `float(v)` on a decoded value: a number is itself, a boolean is 0 or 1,
   * a string is read as decimal text; `None`, a list or a dict raise.
   */
  function PyFloat(j: Json): (r: Option<real>)
    ensures NumericValue(j).Some? ==> r == NumericValue(j)
    ensures j.JStr? ==> r == PyStr.ParseFloat(j.s)
    ensures j.JNull? || j.JArr? || j.JObj? ==> r.None?
  {
    if j.JStr? then PyStr.ParseFloat(j.s) else NumericValue(j)
  }

  /** `float(str(n)) == n`: a number sent as its decimal text converts back. */
  lemma PyFloatOfText(n: nat)
    ensures PyFloat(JStr(PyStr.NatToString(n))) == Some(n as real)
  {
    PyStr.ParseNatToString(n);
    PyStr.ParseFloatOfInt(PyStr.NatToString(n), n);
  }

  /** Python `a == b` on decoded JSON values. */
  predicate PyEq(a: Json, b: Json)
    decreases a
  {
    match a
    case JNull => b.JNull?
    case JStr(s) => b.JStr? && b.s == s
    case JBool(_) => NumericValue(b).Some? && NumericValue(a) == NumericValue(b)
    case JNum(_) => NumericValue(b).Some? && NumericValue(a) == NumericValue(b)
    case JArr(xs) =>
      b.JArr? && |xs| == |b.arr| && forall i | 0 <= i < |xs| :: PyEq(xs[i], b.arr[i])
    case JObj(m) =>
      b.JObj? && m.Keys == b.obj.Keys && forall k | k in m :: PyEq(m[k], b.obj[k])
  }

  /** Every value equals itself. */
  lemma {:induction false} PyEqReflexive(a: Json)
    ensures PyEq(a, a)
    decreases a
  {
    match a
    case JArr(xs) =>
      forall i | 0 <= i < |xs|
        ensures PyEq(xs[i], xs[i])
      {
        PyEqReflexive(xs[i]);
      }
    case JObj(m) =>
      forall k | k in m
        ensures PyEq(m[k], m[k])
      {
        PyEqReflexive(m[k]);
      }
    case _ =>
  }

  /** `==` is symmetric. */
  lemma {:induction false} PyEqSymmetric(a: Json, b: Json)
    requires PyEq(a, b)
    ensures PyEq(b, a)
    decreases a
  {
    match a
    case JArr(xs) =>
      forall i | 0 <= i < |xs|
        ensures PyEq(b.arr[i], xs[i])
      {
        PyEqSymmetric(xs[i], b.arr[i]);
      }
    case JObj(m) =>
      forall k | k in b.obj
        ensures PyEq(b.obj[k], m[k])
      {
        PyEqSymmetric(m[k], b.obj[k]);
      }
    case _ =>
  }

  /** `d.get(key, default)` on a decoded dict. */
  function Get(d: map<string, Json>, key: string, default: Json): (r: Json)
    ensures key in d ==> r == d[key]
    ensures key !in d ==> r == default
  {
    if key in d then d[key] else default
  }
}
