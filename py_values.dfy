/**
  The dynamically typed values that a data entry (a Python `dict`) may hold,
  with the parts of Python's semantics the annotation tool relies on:
  truth values, the numeric view used by `sum` and `==`, and `in range(..)`.
 */
module PyValues {
  import opened Wrappers

  datatype Value =
    | PyStr(s: string)
    | PyInt(n: int)
    | PyFloat(x: real)       // exact real stands in for the binary float
    | PyBool(b: bool)
    | PyNone
    | PyOther(truth: bool)   // any other object (list, dict, ...), known by its truth value

  /** A Python dict with string keys; key order is not modelled. */
  type Entry = map<string, Value>

  /** Python's `bool(v)`: empty strings, zeros, False and None are false. */
  predicate Truthy(v: Value)
  {
    match v
    case PyStr(s) => s != ""
    case PyInt(n) => n != 0
    case PyFloat(x) => x != 0.0
    case PyBool(b) => b
    case PyNone => false
    case PyOther(t) => t
  }

  /** The number `v` stands for in arithmetic and in `==` against an int
      (bool is a subclass of int); None when `v` is not a number. */
  function Numeric(v: Value): (r: Option<real>)
    ensures r.Some? <==> (v.PyInt? || v.PyFloat? || v.PyBool?)
    ensures v.PyBool? ==> r == Some(if v.b then 1.0 else 0.0)
  {
    match v
    case PyInt(n) => Some(n as real)
    case PyFloat(x) => Some(x)
    case PyBool(b) => Some(if b then 1.0 else 0.0)
    case _ => None
  }

  /** `d.get(key)`: the value stored under `key`, or None when it is absent. */
  function Get(d: Entry, key: string): Value
  {
    if key in d then d[key] else PyNone
  }

  /** `v in range(lo, hi)` for the built-in types: ints and bools by the fast
      integer path, floats by `==` against each member; strings, None and
      other objects (taken never to equal an int) are not members. */
  predicate InRange(v: Value, lo: int, hi: int)
  {
    match v
    case PyInt(n) => lo <= n < hi
    case PyBool(b) => lo <= (if b then 1 else 0) < hi
    case PyFloat(x) => x.Floor as real == x && lo <= x.Floor < hi
    case _ => false
  }

  /** Python's `v == k` for an int `k`. */
  predicate EqualsInt(v: Value, k: int)
  {
    Numeric(v) == Some(k as real)
  }

  /** Membership in a range means being equal, as a number, to one of its members. */
  lemma InRangeIffEqualsMember(v: Value, lo: int, hi: int)
    ensures InRange(v, lo, hi) <==> exists k :: lo <= k < hi && EqualsInt(v, k)
  {
    if InRange(v, lo, hi) {
      var k := match v
        case PyInt(n) => n
        case PyBool(b) => if b then 1 else 0
        case PyFloat(x) => x.Floor
        case _ => lo;
      assert lo <= k < hi && EqualsInt(v, k);
    }
  }
}
