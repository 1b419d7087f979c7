/**
 * Structured values as they travel in request payloads and response results:
 * the JSON-shaped values a decoded JSON body holds in Python (None, bool, int,
 * str, list, dict with string keys), together with Python's `==` on them.
 */
module Json {

  /** A decoded JSON value. Numbers are integers only. */
  datatype Json =
    | Null
    | Bool(b: bool)
    | Int(i: int)
    | Str(s: string)
    | Arr(items: seq<Json>)
    | Obj(fields: map<string, Json>)

  /** True when `v` takes part in numeric comparison (Python's `bool` is a subclass of `int`). */
  predicate IsNumeric(v: Json) {
    v.Bool? || v.Int?
  }

  /** The integer a numeric value compares as: `True == 1`, `False == 0`. */
  function NumericValue(v: Json): (n: int)
    requires IsNumeric(v)
    ensures v.Int? ==> n == v.i
    ensures v.Bool? ==> (n == 1 <==> v.b) && (n == 0 <==> !v.b)
  {
    match v
    case Bool(b) => if b then 1 else 0
    case Int(i) => i
  }

  /**
   * Python's `==` on decoded JSON values: dicts compare key set and values,
   * lists compare length and elements, and `bool` compares equal to the
   * integer with the same numeric value.
   */
  predicate PyEq(a: Json, b: Json)
    ensures PyEq(a, b) ==> (IsNumeric(a) <==> IsNumeric(b))
    ensures PyEq(a, b) && (a.Null? || a.Str?) ==> a == b
    ensures PyEq(a, b) && a.Arr? ==> b.Arr? && |a.items| == |b.items|
    ensures PyEq(a, b) && a.Obj? ==> b.Obj? && a.fields.Keys == b.fields.Keys
  {
    if IsNumeric(a) && IsNumeric(b) then NumericValue(a) == NumericValue(b)
    else match (a, b)
      case (Null, Null) => true
      case (Str(s), Str(t)) => s == t
      case (Arr(xs), Arr(ys)) =>
        |xs| == |ys| && forall i :: 0 <= i < |xs| ==> PyEq(xs[i], ys[i])
      case (Obj(m), Obj(n)) =>
        m.Keys == n.Keys && forall k :: k in m ==> PyEq(m[k], n[k])
      case _ => false
  }

  /** Python's `==` on two dicts, as used on a payload and a result. */
  predicate PyEqDict(m: map<string, Json>, n: map<string, Json>) {
    PyEq(Obj(m), Obj(n))
  }

  /** Every value is Python-equal to itself, however deeply nested. */
  lemma {:induction false} PyEqReflexive(a: Json)
    ensures PyEq(a, a)
  {
    match a
    case Arr(xs) =>
      forall i | 0 <= i < |xs| ensures PyEq(xs[i], xs[i]) {
        PyEqReflexive(xs[i]);
      }
    case Obj(m) =>
      forall k | k in m ensures PyEq(m[k], m[k]) {
        PyEqReflexive(m[k]);
      }
    case _ =>
  }

  /** Python's `==` on JSON values is symmetric. */
  lemma {:induction false} PyEqSymmetric(a: Json, b: Json)
    requires PyEq(a, b)
    ensures PyEq(b, a)
  {
    if !(IsNumeric(a) && IsNumeric(b)) {
      match (a, b)
      case (Arr(xs), Arr(ys)) =>
        forall i | 0 <= i < |ys| ensures PyEq(ys[i], xs[i]) {
          PyEqSymmetric(xs[i], ys[i]);
        }
      case (Obj(m), Obj(n)) =>
        forall k | k in n ensures PyEq(n[k], m[k]) {
          PyEqSymmetric(m[k], n[k]);
        }
      case _ =>
    }
  }

  /**
   * The converse fails: Python-equal values need not be identical, since
   * `True == 1` although a `bool` and an `int` are different values.
   */
  lemma PyEqIsCoarserThanIdentity()
    ensures PyEq(Bool(true), Int(1)) && Bool(true) != Int(1)
    ensures PyEqDict(map["flag" := Bool(false)], map["flag" := Int(0)])
  {
  }
}
