/** The pandas DataFrame as the dashboard uses it: named columns with an
    inferred kind each, and rows that carry a timestamp label. */
module Tables {
  import opened Wrappers
  import opened Values

  /** The dtype pandas infers for a column built from Python objects: int64,
      float64 (numbers mixed with floats or missing values), or object. */
  datatype Kind = Integer | Float | Other

  /** A row: its index label (None is NaT) and one cell per column. */
  datatype Row = Row(stamp: Option<Instant>, cells: seq<Value>)

  /** `timeIndexed` is false once the time index has been replaced by a plain
      range index. */
  datatype Table = Table(columns: seq<string>, kinds: seq<Kind>, rows: seq<Row>, timeIndexed: bool)

  predicate WellFormed(t: Table) {
    && |t.kinds| == |t.columns|
    && forall r :: r in t.rows ==> |r.cells| == |t.columns|
  }

  predicate IsNumber(v: Value) {
    v.Int? || v.Real?
  }

  predicate AllInt(cells: seq<Value>) {
    forall i :: 0 <= i < |cells| ==> cells[i].Int?
  }

  predicate NumbersOrMissing(cells: seq<Value>) {
    forall i :: 0 <= i < |cells| ==> IsNumber(cells[i]) || cells[i].Null?
  }

  predicate SomeNumber(cells: seq<Value>) {
    exists i :: 0 <= i < |cells| && IsNumber(cells[i])
  }

  /** The dtype pandas gives a column holding `cells`: int64 when every cell is an
      int, float64 when every cell is a number or missing and one at least is a
      number, object otherwise (an all-missing or empty column included). */
  function InferKind(cells: seq<Value>): (k: Kind)
    ensures k == Integer <==> |cells| > 0 && AllInt(cells)
    ensures k == Float <==> !(|cells| > 0 && AllInt(cells)) && NumbersOrMissing(cells) && SomeNumber(cells)
    ensures k == Other <==> !NumbersOrMissing(cells) || !SomeNumber(cells)
  {
    if |cells| > 0 && AllInt(cells) then
      assert IsNumber(cells[0]);
      Integer
    else if NumbersOrMissing(cells) && SomeNumber(cells) then Float
    else Other
  }

  /** A cell as stored in a column of kind `k`: a float column holds floats. */
  function Coerce(k: Kind, v: Value): Value {
    if k == Float && v.Int? then Real(v.i as real) else v
  }

  /** The cells of column `c`. */
  function Column(rows: seq<Row>, c: nat): (cells: seq<Value>)
    requires forall r :: r in rows ==> c < |r.cells|
    ensures |cells| == |rows|
    ensures forall i :: 0 <= i < |rows| ==> cells[i] == rows[i].cells[c]
  {
    if |rows| == 0 then [] else [rows[0].cells[c]] + Column(rows[1..], c)
  }

  /** Position of the first column named `name`, if any. */
  function ColumnIndex(columns: seq<string>, name: string): (r: Option<nat>)
    ensures r.None? <==> name !in columns
    ensures r.Some? ==>
      && r.value < |columns| && columns[r.value] == name
      && forall j :: 0 <= j < r.value ==> columns[j] != name
  {
    if |columns| == 0 then None
    else if columns[0] == name then Some(0)
    else match ColumnIndex(columns[1..], name)
      case None => None
      case Some(j) => Some(j + 1)
  }

  /** `a` may come before `b` when sorting on these keys; a missing key goes last
      whatever the direction, as pandas' `na_position="last"` does. */
  predicate KeyLe(a: Option<int>, b: Option<int>, descending: bool) {
    match (a, b)
    case (_, None) => true
    case (None, Some(_)) => false
    case (Some(x), Some(y)) => if descending then x >= y else x <= y
  }

  lemma KeyLeTotal(a: Option<int>, b: Option<int>, descending: bool)
    ensures KeyLe(a, b, descending) || KeyLe(b, a, descending)
  {
  }

  lemma KeyLeTransitive(a: Option<int>, b: Option<int>, c: Option<int>, descending: bool)
    requires KeyLe(a, b, descending) && KeyLe(b, c, descending)
    ensures KeyLe(a, c, descending)
  {
  }

  predicate SortedBy(rows: seq<Row>, key: Row -> Option<int>, descending: bool) {
    forall i, j :: 0 <= i < j < |rows| ==> KeyLe(key(rows[i]), key(rows[j]), descending)
  }

  function InsertBy(r: Row, rows: seq<Row>, key: Row -> Option<int>, descending: bool): (s: seq<Row>)
    requires SortedBy(rows, key, descending)
    ensures SortedBy(s, key, descending)
    ensures multiset(s) == multiset(rows) + multiset{r}
  {
    if |rows| == 0 then [r]
    else if KeyLe(key(r), key(rows[0]), descending) then
      forall j | 0 <= j < |rows|
        ensures KeyLe(key(r), key(rows[j]), descending)
      {
        if j > 0 { KeyLeTransitive(key(r), key(rows[0]), key(rows[j]), descending); }
      }
      [r] + rows
    else
      var head, rest := rows[0], rows[1..];
      var tail := InsertBy(r, rest, key, descending);
      assert rows == [head] + rest;
      InsertedAfter(r, head, rest, tail, key, descending);
      [head] + tail
  }

  /** A row that goes after `head` lands, with the rest, behind it in order. */
  lemma InsertedAfter(r: Row, head: Row, rest: seq<Row>, tail: seq<Row>, key: Row -> Option<int>, descending: bool)
    requires SortedBy([head] + rest, key, descending) && !KeyLe(key(r), key(head), descending)
    requires SortedBy(tail, key, descending) && multiset(tail) == multiset(rest) + multiset{r}
    ensures SortedBy([head] + tail, key, descending)
  {
    KeyLeTotal(key(r), key(head), descending);
    forall j | 0 <= j < |tail|
      ensures KeyLe(key(head), key(tail[j]), descending)
    {
      assert tail[j] in multiset(tail);
      if tail[j] != r {
        assert tail[j] in multiset(rest);
        var k :| 0 <= k < |rest| && rest[k] == tail[j];
        var rows := [head] + rest;
        assert rows[0] == head && rows[k + 1] == rest[k];
        assert KeyLe(key(rows[0]), key(rows[k + 1]), descending);
      } else {
        assert KeyLe(key(head), key(r), descending);
      }
    }
    var s := [head] + tail;
    forall i, j | 0 <= i < j < |s|
      ensures KeyLe(key(s[i]), key(s[j]), descending)
    {
      assert s[j] == tail[j - 1];
      if i > 0 {
        assert s[i] == tail[i - 1];
      }
    }
  }

  /** The rows reordered on `key`: the ordering `sort_index` and `sort_values`
      promise. Rows with equal keys may come out in any order there (the sort is
      not stable); the contract only fixes what pandas fixes. */
  function SortBy(rows: seq<Row>, key: Row -> Option<int>, descending: bool): (s: seq<Row>)
    ensures SortedBy(s, key, descending)
    ensures multiset(s) == multiset(rows)
  {
    if |rows| == 0 then []
    else
      assert rows == [rows[0]] + rows[1..];
      InsertBy(rows[0], SortBy(rows[1..], key, descending), key, descending)
  }

  function StampKey(r: Row): Option<int> {
    r.stamp
  }

  /** The rows in index order, NaT last: `sort_index()`. */
  function SortByStamp(rows: seq<Row>): (s: seq<Row>)
    ensures forall i, j :: 0 <= i < j < |s| ==> KeyLe(s[i].stamp, s[j].stamp, false)
    ensures multiset(s) == multiset(rows)
  {
    var s := SortBy(rows, StampKey, false);
    assert forall i, j :: 0 <= i < j < |s| ==> KeyLe(StampKey(s[i]), StampKey(s[j]), false);
    s
  }
}
