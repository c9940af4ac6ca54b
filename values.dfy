/** The values a log field or a table cell can hold, and Python's notion of
    truthiness on them. */
module Values {

  /** A point in time, in whole seconds. Time zones are not modelled. */
  type Instant = int

  datatype Value =
    | Null              // Python's None (NaN once it sits in a table)
    | Str(s: string)
    | Int(i: int)
    | Real(r: real)     // a Python float, taken as an exact real
    | Time(t: Instant)  // a datetime object

  /** Python's `bool(v)`. */
  predicate Truthy(v: Value) {
    match v
    case Null => false
    case Str(s) => s != ""
    case Int(i) => i != 0
    case Real(r) => r != 0.0
    case Time(_) => true
  }

  /** No two entries of `keys` are equal: the keys of a dict in insertion order. */
  predicate Distinct<T(==)>(keys: seq<T>) {
    forall i, j :: 0 <= i < j < |keys| ==> keys[i] != keys[j]
  }
}
