/** `DashboardApp.get_dashboard_table_data`: the four stages that turn the
    dataset snapshot into a dashboard's table. Filter, projection, group-by with
    a count column, and time bucketing, each skipped when its option is falsy. */
module Query {
  import opened Wrappers
  import opened Text
  import opened Values
  import opened Tables

  /** The pandas parsers and formatter the pipeline calls. */
  datatype Parsers = Parsers(
    timestamp: string -> Option<Instant>,  // pandas.Timestamp(value); None is ValueError
    timedelta: string -> Option<int>,      // pandas.Timedelta(filter), in seconds; None is ValueError
    float: string -> Option<real>,         // float(value); None is ValueError
    frequency: string -> Option<nat>,      // the bucket width of pandas.Grouper(freq=...), in seconds
    exportText: Instant -> string)         // strftime with DASHBOARD_TIMESTAMP_EXPORT_FORMAT

  /** A string option the code tests for truthiness: given and not empty. */
  predicate Given(o: Option<string>) {
    o.Some? && o.value != ""
  }

  // ---- rows kept by a condition

  /** The rows for which `keep` holds, in their order (a boolean mask). */
  function Keep(rows: seq<Row>, keep: Row -> bool): (r: seq<Row>)
    ensures |r| <= |rows|
    ensures forall x :: x in r <==> x in rows && keep(x)
    decreases |rows|
  {
    if |rows| == 0 then []
    else
      assert rows == [rows[0]] + rows[1..];
      (if keep(rows[0]) then [rows[0]] else []) + Keep(rows[1..], keep)
  }

  /** A mask applied to two runs of rows is the two masked runs in turn: the
      rows that remain keep their relative order. */
  lemma {:induction false} KeepAppend(a: seq<Row>, b: seq<Row>, keep: Row -> bool)
    ensures Keep(a + b, keep) == Keep(a, keep) + Keep(b, keep)
    decreases |a|
  {
    if |a| > 0 {
      assert (a + b)[1..] == a[1..] + b;
      KeepAppend(a[1..], b, keep);
    } else {
      assert a + b == b;
    }
  }

  /** Each kept row appears as often as in the input, every other row not at all. */
  lemma {:induction false} KeepCount(rows: seq<Row>, keep: Row -> bool, x: Row)
    ensures multiset(Keep(rows, keep))[x] == if keep(x) then multiset(rows)[x] else 0
    decreases |rows|
  {
    if |rows| > 0 {
      assert rows == [rows[0]] + rows[1..];
      KeepCount(rows[1..], keep, x);
    }
  }

  // ---- stage 1: filter

  /** Cell equality as `Series == value` evaluates it: numbers compare by value
      whatever their type, strings by content, and a missing value equals nothing. */
  predicate CellEquals(cell: Value, v: Value) {
    match (cell, v)
    case (Int(a), Int(b)) => a == b
    case (Int(a), Real(b)) => a as real == b
    case (Real(a), Int(b)) => a == b as real
    case (Real(a), Real(b)) => a == b
    case (Str(a), Str(b)) => a == b
    case (Time(a), Time(b)) => a == b
    case _ => false
  }

  /** The filter value as the code converts it: an int for a digit string, else a
      float when `float()` accepts it, else the string itself. */
  function FilterValue(value: string, p: Parsers): Value {
    if IsDigits(value) then Int(DigitsValue(value))
    else if p.float(value).Some? then Real(p.float(value).value)
    else Str(value)
  }

  /** A count shown in a table, clicked and passed back as text, filters as that
      same integer. */
  lemma ShownCountFiltersAsInt(n: nat, p: Parsers)
    ensures FilterValue(NatText(n), p) == Int(n)
    ensures CellEquals(Int(n), FilterValue(NatText(n), p)) && CellEquals(Real(n as real), FilterValue(NatText(n), p))
  {
    NatTextValue(n);
  }

  /** The rows whose cell in column `c` equals `v`. */
  function MatchingRows(rows: seq<Row>, c: nat, v: Value): seq<Row> {
    Keep(rows, (x: Row) => c < |x.cells| && CellEquals(x.cells[c], v))
  }

  /** The rows labelled within `[start, end]`, both ends included, as `loc` label
      slicing on a sorted time index selects them; rows without a label are out. */
  function WindowRows(rows: seq<Row>, start: Instant, end: Instant): seq<Row> {
    Keep(rows, (x: Row) => x.stamp.Some? && start <= x.stamp.value <= end)
  }

  /** Stage 1. With a filter that names a column, the rows whose cell equals the
      converted value; with one that does not, the rows in the time window from
      `Timestamp(value)` lasting `Timedelta(filter)`, or every row when either does
      not parse; every row when filter or value is falsy. Columns never change. */
  function FilterStage(t: Table, filter: Option<string>, value: Option<string>, p: Parsers): (r: Table)
    requires WellFormed(t)
    ensures WellFormed(r)
    ensures r.columns == t.columns && r.kinds == t.kinds && r.timeIndexed == t.timeIndexed
    ensures !Given(filter) || !Given(value) ==> r == t
    ensures Given(filter) && Given(value) && filter.value in t.columns ==>
      var c := ColumnIndex(t.columns, filter.value).value;
      forall x :: x in r.rows <==> x in t.rows && CellEquals(x.cells[c], FilterValue(value.value, p))
    ensures Given(filter) && Given(value) && filter.value !in t.columns ==>
      var start, delta := p.timestamp(value.value), p.timedelta(filter.value);
      if start.Some? && delta.Some? then
        forall x :: x in r.rows <==> x in t.rows && x.stamp.Some? && start.value <= x.stamp.value <= start.value + delta.value
      else r == t
  {
    if !Given(filter) || !Given(value) then t
    else if filter.value !in t.columns then
      var start, delta := p.timestamp(value.value), p.timedelta(filter.value);
      if start.Some? && delta.Some? then t.(rows := WindowRows(t.rows, start.value, start.value + delta.value))
      else t
    else
      var c := ColumnIndex(t.columns, filter.value).value;
      t.(rows := MatchingRows(t.rows, c, FilterValue(value.value, p)))
  }

  // ---- stage 2: projection

  /** Every index is a cell position of `row`. */
  predicate Fits(row: Row, idxs: seq<nat>) {
    forall i :: 0 <= i < |idxs| ==> idxs[i] < |row.cells|
  }

  /** The cells of `row` at `idxs`, in that order, under the same label. */
  function Select(row: Row, idxs: seq<nat>): (r: Row)
    requires Fits(row, idxs)
    ensures r.stamp == row.stamp && |r.cells| == |idxs|
    ensures forall i :: 0 <= i < |idxs| ==> r.cells[i] == row.cells[idxs[i]]
  {
    Row(row.stamp, seq(|idxs|, i requires 0 <= i < |idxs| => row.cells[idxs[i]]))
  }

  /** Every row restricted to `idxs`. */
  function SelectAll(rows: seq<Row>, idxs: seq<nat>): (r: seq<Row>)
    requires forall x :: x in rows ==> Fits(x, idxs)
    ensures |r| == |rows|
    ensures forall i :: 0 <= i < |rows| ==> r[i] == Select(rows[i], idxs)
  {
    if |rows| == 0 then [] else [Select(rows[0], idxs)] + SelectAll(rows[1..], idxs)
  }

  /** The position of each name among `columns` (the first, for a repeated name);
      None when one of them is not a column, where pandas raises KeyError. */
  function Indices(columns: seq<string>, names: seq<string>): (r: Option<seq<nat>>)
    ensures r.None? <==> exists i :: 0 <= i < |names| && names[i] !in columns
    ensures r.Some? ==> |r.value| == |names|
    ensures r.Some? ==> forall i :: 0 <= i < |names| ==> ColumnIndex(columns, names[i]) == Some(r.value[i])
    ensures r.Some? ==> forall i :: 0 <= i < |names| ==> r.value[i] < |columns| && columns[r.value[i]] == names[i]
  {
    if |names| == 0 then Some([])
    else
      match (ColumnIndex(columns, names[0]), Indices(columns, names[1..]))
      case (Some(c), Some(cs)) => Some([c] + cs)
      case (None, _) => None
      case (_, None) =>
        var i :| 0 <= i < |names[1..]| && names[1..][i] !in columns;
        assert names[i + 1] !in columns;
        None
  }

  /** No cell of the row is missing: what `dropna()` keeps. */
  predicate Complete(x: Row) {
    forall i :: 0 <= i < |x.cells| ==> x.cells[i] != Null
  }

  /** Stage 2, `tabledata[display_cols].dropna()`: the named columns in the given
      order (KeyError when one is missing), and only the rows with no missing cell
      among them. The dtypes of the kept columns do not change. */
  function Project(t: Table, cols: seq<string>): (r: Result<Table, string>)
    requires WellFormed(t)
    ensures r.Failure? <==> exists i :: 0 <= i < |cols| && cols[i] !in t.columns
    ensures r.Success? ==>
      && WellFormed(r.value) && r.value.columns == cols && r.value.timeIndexed == t.timeIndexed
      && forall i :: 0 <= i < |cols| ==> r.value.kinds[i] == t.kinds[ColumnIndex(t.columns, cols[i]).value]
    ensures r.Success? ==> forall x :: x in r.value.rows ==> Complete(x)
  {
    match Indices(t.columns, cols)
    case None => Failure("KeyError")
    case Some(idxs) =>
      var kinds := seq(|idxs|, i requires 0 <= i < |idxs| => t.kinds[idxs[i]]);
      Success(Table(cols, kinds, Keep(SelectAll(t.rows, idxs), Complete), t.timeIndexed))
  }

  /** The projected rows are the input rows cut down to the named columns, each
      once per occurrence, except those with a missing cell. */
  lemma ProjectedRows(t: Table, cols: seq<string>, x: Row)
    requires WellFormed(t) && Project(t, cols).Success?
    ensures var idxs := Indices(t.columns, cols).value;
      multiset(Project(t, cols).value.rows)[x] == if Complete(x) then multiset(SelectAll(t.rows, idxs))[x] else 0
  {
    KeepCount(SelectAll(t.rows, Indices(t.columns, cols).value), Complete, x);
  }

  // ---- stage 3: group-by with a count column

  /** The cells of the grouping columns: the row's group key. */
  function KeyOf(x: Row, idxs: seq<nat>): (key: seq<Value>)
    ensures |key| == |idxs|
    ensures Fits(x, idxs) ==> key == Select(x, idxs).cells
  {
    seq(|idxs|, i requires 0 <= i < |idxs| => if idxs[i] < |x.cells| then x.cells[idxs[i]] else Null)
  }

  /** The row belongs to the group `key`. */
  predicate HasKey(x: Row, idxs: seq<nat>, key: seq<Value>) {
    KeyOf(x, idxs) == key
  }

  /** The rows of group `key`, in their order. */
  function Group(rows: seq<Row>, idxs: seq<nat>, key: seq<Value>): (g: seq<Row>)
    ensures forall x :: x in g <==> x in rows && HasKey(x, idxs, key)
  {
    Keep(rows, (x: Row) => HasKey(x, idxs, key))
  }

  /** A key with a missing part: `groupby` drops such rows (dropna=True). */
  predicate HasNull(key: seq<Value>) {
    exists i :: 0 <= i < |key| && key[i] == Null
  }

  /** `groupby(cols)[cols[0]].transform('size')` at one row: the size of the row's
      group, or NaN when its key has a missing part. */
  function SizeCell(rows: seq<Row>, idxs: seq<nat>, x: Row): Value {
    var key := KeyOf(x, idxs);
    if HasNull(key) then Null else Int(|Group(rows, idxs, key)|)
  }

  /** The transformed column: one cell per row, and its dtype (float64 as soon as
      one NaN is among them, so every count is then a float). */
  function SizeColumn(rows: seq<Row>, idxs: seq<nat>): (r: (Kind, seq<Value>))
    ensures |r.1| == |rows|
    ensures r.0 == Integer <==> forall i :: 0 <= i < |rows| ==> !HasNull(KeyOf(rows[i], idxs))
    ensures r.0 != Integer ==> r.0 == Float
    ensures forall i :: 0 <= i < |rows| ==> r.1[i] == Coerce(r.0, SizeCell(rows, idxs, rows[i]))
  {
    var kind := if forall i :: 0 <= i < |rows| ==> !HasNull(KeyOf(rows[i], idxs)) then Integer else Float;
    (kind, seq(|rows|, i requires 0 <= i < |rows| => Coerce(kind, SizeCell(rows, idxs, rows[i]))))
  }

  /** One row after `df[name] = v`: every column named `name` takes `v`, or a new
      last column holds it. */
  function SetCell(x: Row, columns: seq<string>, name: string, v: Value): (r: Row)
    requires |x.cells| == |columns|
    ensures r.stamp == x.stamp
    ensures |r.cells| == |columns| + (if name in columns then 0 else 1)
    ensures forall j :: 0 <= j < |columns| ==> r.cells[j] == if columns[j] == name then v else x.cells[j]
    ensures name !in columns ==> r.cells[|columns|] == v
  {
    if name in columns then
      Row(x.stamp, seq(|columns|, j requires 0 <= j < |columns| => if columns[j] == name then v else x.cells[j]))
    else Row(x.stamp, x.cells + [v])
  }

  /** The assigned value is read back under its column name. */
  lemma SetCellRead(x: Row, columns: seq<string>, name: string, v: Value)
    requires |x.cells| == |columns|
    ensures var cols := if name in columns then columns else columns + [name];
      var c := ColumnIndex(cols, name).value;
      c < |SetCell(x, columns, name, v).cells| && SetCell(x, columns, name, v).cells[c] == v
  {
    if name !in columns {
      assert (columns + [name])[|columns|] == name;
    }
  }

  /** `df[name] = cells`: the column is replaced, or appended when it is new, with
      the dtype of the assigned values; every other column keeps its cells. */
  function SetColumn(t: Table, name: string, kind: Kind, cells: seq<Value>): (r: Table)
    requires WellFormed(t) && |cells| == |t.rows|
    ensures WellFormed(r) && r.timeIndexed == t.timeIndexed && |r.rows| == |t.rows|
    ensures r.columns == if name in t.columns then t.columns else t.columns + [name]
    ensures forall j :: 0 <= j < |t.columns| ==> r.kinds[j] == if t.columns[j] == name then kind else t.kinds[j]
    ensures name !in t.columns ==> r.kinds[|t.columns|] == kind
    ensures forall i :: 0 <= i < |t.rows| ==> r.rows[i] == SetCell(t.rows[i], t.columns, name, cells[i])
  {
    var kinds := if name in t.columns
      then seq(|t.kinds|, j requires 0 <= j < |t.kinds| => if t.columns[j] == name then kind else t.kinds[j])
      else t.kinds + [kind];
    var rows := seq(|t.rows|, i requires 0 <= i < |t.rows| => assert t.rows[i] in t.rows; SetCell(t.rows[i], t.columns, name, cells[i]));
    Table(if name in t.columns then t.columns else t.columns + [name], kinds, rows, t.timeIndexed)
  }

  /** Some row of `rows` is in group `key`. */
  predicate KeyIn(rows: seq<Row>, idxs: seq<nat>, key: seq<Value>) {
    exists y :: y in rows && HasKey(y, idxs, key)
  }

  /** `drop_duplicates(subset=cols)` on what is left after the keys in `seen`:
      the first row of every other key, in order. */
  function DedupFrom(rows: seq<Row>, idxs: seq<nat>, seen: set<seq<Value>>): (r: seq<Row>)
    ensures multiset(r) <= multiset(rows)
    ensures forall x :: x in r ==> KeyOf(x, idxs) !in seen
    ensures forall i, j :: 0 <= i < j < |r| ==> KeyOf(r[i], idxs) != KeyOf(r[j], idxs)
  {
    if |rows| == 0 then []
    else
      assert rows == [rows[0]] + rows[1..];
      var key := KeyOf(rows[0], idxs);
      if key in seen then DedupFrom(rows[1..], idxs, seen)
      else [rows[0]] + DedupFrom(rows[1..], idxs, seen + {key})
  }

  /** `drop_duplicates(subset=cols)`: one row per key, in order. */
  function Dedup(rows: seq<Row>, idxs: seq<nat>): (r: seq<Row>)
    ensures multiset(r) <= multiset(rows)
    ensures forall i, j :: 0 <= i < j < |r| ==> KeyOf(r[i], idxs) != KeyOf(r[j], idxs)
  {
    DedupFrom(rows, idxs, {})
  }

  /** No key is lost: every row not already seen has its key among the kept rows. */
  lemma {:induction false} DedupCovers(rows: seq<Row>, idxs: seq<nat>, seen: set<seq<Value>>, x: Row)
    requires x in rows && KeyOf(x, idxs) !in seen
    ensures KeyIn(DedupFrom(rows, idxs, seen), idxs, KeyOf(x, idxs))
    decreases |rows|
  {
    var key := KeyOf(rows[0], idxs);
    if x == rows[0] {
      assert rows[0] in DedupFrom(rows, idxs, seen);
    } else {
      assert x in rows[1..] by { assert rows == [rows[0]] + rows[1..]; }
      if key in seen {
        DedupCovers(rows[1..], idxs, seen, x);
      } else {
        if KeyOf(x, idxs) == key {
          assert rows[0] in DedupFrom(rows, idxs, seen);
        } else {
          DedupCovers(rows[1..], idxs, seen + {key}, x);
        }
      }
    }
  }

  /** The row kept for a key is its first: a row that no earlier row shares its
      key with survives `drop_duplicates`. */
  lemma {:induction false} DedupKeepsFirst(rows: seq<Row>, idxs: seq<nat>, seen: set<seq<Value>>, i: nat)
    requires i < |rows| && KeyOf(rows[i], idxs) !in seen
    requires forall j :: 0 <= j < i ==> KeyOf(rows[j], idxs) != KeyOf(rows[i], idxs)
    ensures rows[i] in DedupFrom(rows, idxs, seen)
    decreases i
  {
    assert rows == [rows[0]] + rows[1..];
    if i > 0 {
      var key := KeyOf(rows[0], idxs);
      var seen' := if key in seen then seen else seen + {key};
      assert rows[1..][i - 1] == rows[i];
      DedupKeepsFirst(rows[1..], idxs, seen', i - 1);
    }
  }

  /** Setting a column outside the key leaves every row's key as it was. */
  lemma SetCellKeepsKey(x: Row, columns: seq<string>, name: string, v: Value, idxs: seq<nat>)
    requires |x.cells| == |columns|
    requires forall i :: 0 <= i < |idxs| ==> idxs[i] < |columns| && columns[idxs[i]] != name
    ensures KeyOf(SetCell(x, columns, name, v), idxs) == KeyOf(x, idxs)
  {
    var y := SetCell(x, columns, name, v);
    assert forall i :: 0 <= i < |idxs| ==> y.cells[idxs[i]] == x.cells[idxs[i]];
  }

  /** A numeric cell as a sort key (a count is a whole number, as a float too). */
  function NumberKey(v: Value): Option<int> {
    match v
    case Int(i) => Some(i)
    case Real(r) => Some(r.Floor)
    case _ => None
  }

  /** Sort key on column `c`. */
  function CellKey(c: nat): Row -> Option<int> {
    (x: Row) => if c < |x.cells| then NumberKey(x.cells[c]) else None
  }

  /** The table with the count column set, before duplicates are dropped. */
  function Counted(t: Table, idxs: seq<nat>, countTitle: string): (r: Table)
    requires WellFormed(t)
    ensures WellFormed(r)
  {
    var sizes := SizeColumn(t.rows, idxs);
    SetColumn(t, countTitle, sizes.0, sizes.1)
  }

  /** Stage 3: the count column gets each row's group size, one row per group is
      kept, and the rows are ordered by count, largest first, under a fresh range
      index. KeyError when a grouping column is missing. */
  function GroupStage(t: Table, groupBy: seq<string>, countTitle: string): (r: Result<Table, string>)
    requires WellFormed(t)
    ensures r.Failure? <==> exists i :: 0 <= i < |groupBy| && groupBy[i] !in t.columns
    ensures r.Success? ==>
      && WellFormed(r.value) && !r.value.timeIndexed
      && r.value.columns == (if countTitle in t.columns then t.columns else t.columns + [countTitle])
      && SortedBy(r.value.rows, CellKey(ColumnIndex(r.value.columns, countTitle).value), true)
    ensures r.Success? ==> Indices(t.columns, groupBy).Some?
    ensures r.Success? ==> forall x :: x in r.value.rows ==> x in Counted(t, Indices(t.columns, groupBy).value, countTitle).rows
  {
    match Indices(t.columns, groupBy)
    case None => Failure("KeyError")
    case Some(idxs) =>
      var counted := Counted(t, idxs, countTitle);
      assert countTitle in counted.columns;
      var c := ColumnIndex(counted.columns, countTitle).value;
      var kept := Dedup(counted.rows, idxs);
      var sorted := SortBy(kept, CellKey(c), true);
      assert forall x :: x in sorted ==> x in counted.rows by {
        forall x | x in sorted ensures x in counted.rows {
          assert x in multiset(kept);
        }
      }
      Success(Table(counted.columns, counted.kinds, sorted, false))
  }

  /** In rows whose keys are pairwise different, no row occurs twice. */
  lemma {:induction false} DistinctKeysOnce(s: seq<Row>, idxs: seq<nat>, x: Row)
    requires forall i, j :: 0 <= i < j < |s| ==> KeyOf(s[i], idxs) != KeyOf(s[j], idxs)
    ensures multiset(s)[x] <= 1
    decreases |s|
  {
    if |s| > 0 {
      assert s == [s[0]] + s[1..];
      DistinctKeysOnce(s[1..], idxs, x);
      if x == s[0] {
        assert x !in s[1..];
      }
    }
  }

  /** A row at two positions occurs at least twice. */
  lemma TwoPositions(s: seq<Row>, i: nat, j: nat)
    requires i < j < |s| && s[i] == s[j]
    ensures multiset(s)[s[i]] >= 2
  {
    assert s == s[..j] + s[j..];
    assert s[i] in s[..j] && s[j] in s[j..];
  }

  /** A reordering of rows with pairwise different keys has pairwise different keys. */
  lemma PermutedKeysDistinct(r: seq<Row>, s: seq<Row>, idxs: seq<nat>)
    requires multiset(r) == multiset(s)
    requires forall i, j :: 0 <= i < j < |s| ==> KeyOf(s[i], idxs) != KeyOf(s[j], idxs)
    ensures forall i, j :: 0 <= i < j < |r| ==> KeyOf(r[i], idxs) != KeyOf(r[j], idxs)
  {
    forall i, j | 0 <= i < j < |r|
      ensures KeyOf(r[i], idxs) != KeyOf(r[j], idxs)
    {
      if r[i] == r[j] {
        TwoPositions(r, i, j);
        DistinctKeysOnce(s, idxs, r[i]);
      } else {
        assert r[i] in multiset(s) && r[j] in multiset(s);
        var a :| 0 <= a < |s| && s[a] == r[i];
        var b :| 0 <= b < |s| && s[b] == r[j];
        assert a != b;
      }
    }
  }

  /** No two rows of the grouped table share a key: `drop_duplicates` leaves one
      row per group and sorting does not bring any back. */
  lemma GroupKeysDistinct(t: Table, groupBy: seq<string>, countTitle: string)
    requires WellFormed(t) && GroupStage(t, groupBy, countTitle).Success?
    ensures var rows, idxs := GroupStage(t, groupBy, countTitle).value.rows, Indices(t.columns, groupBy).value;
      forall i, j :: 0 <= i < j < |rows| ==> KeyOf(rows[i], idxs) != KeyOf(rows[j], idxs)
  {
    var idxs := Indices(t.columns, groupBy).value;
    var counted := Counted(t, idxs, countTitle);
    var kept := Dedup(counted.rows, idxs);
    PermutedKeysDistinct(GroupStage(t, groupBy, countTitle).value.rows, kept, idxs);
  }

  /** The row of the grouped table for a group is the input row it came from with
      the count cell set: the group's size, as an int or (when some key is
      missing) as a float, or NaN for a key with a missing part. */
  lemma GroupCounts(t: Table, groupBy: seq<string>, countTitle: string, x: Row)
    requires WellFormed(t) && GroupStage(t, groupBy, countTitle).Success?
    requires countTitle !in groupBy
    requires x in GroupStage(t, groupBy, countTitle).value.rows
    ensures var r, idxs := GroupStage(t, groupBy, countTitle).value, Indices(t.columns, groupBy).value;
      var c, key := ColumnIndex(r.columns, countTitle).value, KeyOf(x, idxs);
      var n := |Group(t.rows, idxs, key)|;
      && KeyIn(t.rows, idxs, key) && n >= 1
      && (HasNull(key) ==> x.cells[c] == Null)
      && (!HasNull(key) ==> x.cells[c] == Int(n) || x.cells[c] == Real(n as real))
  {
    var idxs := Indices(t.columns, groupBy).value;
    var sizes := SizeColumn(t.rows, idxs);
    var i := GroupSource(t, groupBy, countTitle, x);
    var y := t.rows[i];
    assert y in t.rows;
    SetCellRead(y, t.columns, countTitle, sizes.1[i]);
    SetCellKeepsKey(y, t.columns, countTitle, sizes.1[i], idxs);
    assert HasKey(y, idxs, KeyOf(x, idxs));
  }

  /** A row of the grouped table is an input row with its count cell set. */
  lemma GroupSource(t: Table, groupBy: seq<string>, countTitle: string, x: Row) returns (i: nat)
    requires WellFormed(t) && GroupStage(t, groupBy, countTitle).Success?
    requires x in GroupStage(t, groupBy, countTitle).value.rows
    ensures var idxs := Indices(t.columns, groupBy).value;
      i < |t.rows| && i < |SizeColumn(t.rows, idxs).1| && x == SetCell(t.rows[i], t.columns, countTitle, SizeColumn(t.rows, idxs).1[i])
  {
    var idxs := Indices(t.columns, groupBy).value;
    var counted := Counted(t, idxs, countTitle);
    assert x in counted.rows;
    i :| 0 <= i < |counted.rows| && counted.rows[i] == x;
  }

  /** Every group of the input is present in the grouped table. */
  lemma GroupKeysCovered(t: Table, groupBy: seq<string>, countTitle: string, y: Row)
    requires WellFormed(t) && GroupStage(t, groupBy, countTitle).Success?
    requires countTitle !in groupBy
    requires y in t.rows
    ensures var idxs := Indices(t.columns, groupBy).value;
      KeyIn(GroupStage(t, groupBy, countTitle).value.rows, idxs, KeyOf(y, idxs))
  {
    var r := GroupStage(t, groupBy, countTitle).value;
    var idxs := Indices(t.columns, groupBy).value;
    var sizes := SizeColumn(t.rows, idxs);
    var counted := Counted(t, idxs, countTitle);
    var kept := Dedup(counted.rows, idxs);
    var i :| 0 <= i < |t.rows| && t.rows[i] == y;
    SetCellKeepsKey(y, t.columns, countTitle, sizes.1[i], idxs);
    DedupCovers(counted.rows, idxs, {}, counted.rows[i]);
    var z :| z in kept && HasKey(z, idxs, KeyOf(y, idxs));
    assert z in multiset(r.rows);
  }

  // ---- stage 4: time bucketing

  /** The earliest and the latest label among the rows; None when no row has one. */
  function Earliest(rows: seq<Row>): (m: Option<Instant>)
    ensures m.None? <==> forall x :: x in rows ==> x.stamp.None?
    ensures m.Some? ==> (exists x :: x in rows && x.stamp == m) && forall x :: x in rows && x.stamp.Some? ==> m.value <= x.stamp.value
  {
    if |rows| == 0 then None
    else
      assert rows == [rows[0]] + rows[1..];
      match (rows[0].stamp, Earliest(rows[1..]))
      case (None, m) => m
      case (Some(s), None) => Some(s)
      case (Some(s), Some(m)) => if s <= m then Some(s) else Some(m)
  }

  function Latest(rows: seq<Row>): (m: Option<Instant>)
    ensures m.None? <==> forall x :: x in rows ==> x.stamp.None?
    ensures m.Some? ==> (exists x :: x in rows && x.stamp == m) && forall x :: x in rows && x.stamp.Some? ==> x.stamp.value <= m.value
  {
    if |rows| == 0 then None
    else
      assert rows == [rows[0]] + rows[1..];
      match (rows[0].stamp, Latest(rows[1..]))
      case (None, m) => m
      case (Some(s), None) => Some(s)
      case (Some(s), Some(m)) => if s >= m then Some(s) else Some(m)
  }

  /** The start of the period of width `w` that holds instant `s`: periods are
      aligned on multiples of the width. */
  function PeriodStart(s: Instant, w: nat): (b: Instant)
    requires w > 0
    ensures b <= s < b + w
  {
    s - s % w
  }

  /** The rows labelled within the period `[b, b + w)`. */
  function BucketRows(rows: seq<Row>, b: Instant, w: nat): seq<Row> {
    Keep(rows, (x: Row) => x.stamp.Some? && b <= x.stamp.value < b + w)
  }

  /** The sum of a column's ints, and of its numbers with NaN skipped. */
  function IntSum(cells: seq<Value>): int {
    if |cells| == 0 then 0 else (if cells[0].Int? then cells[0].i else 0) + IntSum(cells[1..])
  }

  function RealSum(cells: seq<Value>): real {
    if |cells| == 0 then 0.0
    else (match cells[0] case Int(i) => i as real case Real(r) => r case _ => 0.0) + RealSum(cells[1..])
  }

  /** A period's `sum()` of a column of kind `k` (an empty period sums to 0). */
  function Sum(k: Kind, cells: seq<Value>): Value {
    if k == Integer then Int(IntSum(cells)) else Real(RealSum(cells))
  }

  /** The positions among the first `n` of the numeric columns, which are the
      ones `sum()` keeps; the others are dropped. */
  function Numeric(kinds: seq<Kind>, n: nat): (r: seq<nat>)
    requires n <= |kinds|
    ensures forall k :: 0 <= k < |r| ==> r[k] < n && kinds[r[k]] != Other
    ensures forall j :: 0 <= j < n && kinds[j] != Other ==> j in r
    ensures forall k, l :: 0 <= k < l < |r| ==> r[k] < r[l]
  {
    if n == 0 then [] else Numeric(kinds, n - 1) + (if kinds[n - 1] != Other then [n - 1] else [])
  }

  /** `n` cells holding 1. */
  function Ones(n: nat): (r: seq<Value>)
    ensures |r| == n && forall i :: 0 <= i < n ==> r[i] == Int(1)
  {
    seq(n, _ => Int(1))
  }

  /** A cell of the table after `df[name] = cells`: the assigned cell under
      `name`, the old cell elsewhere. */
  lemma SetColumnCell(t: Table, name: string, kind: Kind, cells: seq<Value>, i: nat, j: nat)
    requires WellFormed(t) && |cells| == |t.rows|
    requires i < |t.rows| && j < |SetColumn(t, name, kind, cells).columns|
    ensures var r := SetColumn(t, name, kind, cells);
      r.rows[i].cells[j] == if r.columns[j] == name then cells[i] else t.rows[i].cells[j]
  {
    assert t.rows[i] in t.rows;
  }

  /** The table once `df[time_title] = 1` and `df['timestamp'] = 1` are done. */
  function Prepared(t: Table, timeTitle: string): (u: Table)
    requires WellFormed(t)
    ensures WellFormed(u) && |u.rows| == |t.rows|
    ensures forall i :: 0 <= i < |t.rows| ==> u.rows[i].stamp == t.rows[i].stamp
    ensures timeTitle in u.columns && "timestamp" in u.columns
    ensures forall j :: 0 <= j < |u.columns| && u.columns[j] in {timeTitle, "timestamp"} ==> u.kinds[j] == Integer
  {
    var one := SetColumn(t, timeTitle, Integer, Ones(|t.rows|));
    SetColumn(one, "timestamp", Integer, Ones(|one.rows|))
  }

  /** After the two assignments, the time-title column holds 1 in every row. */
  lemma PreparedOnes(t: Table, timeTitle: string, i: nat, j: nat)
    requires WellFormed(t) && i < |t.rows|
    requires j < |Prepared(t, timeTitle).columns| && Prepared(t, timeTitle).columns[j] == timeTitle
    ensures Prepared(t, timeTitle).rows[i].cells[j] == Int(1)
  {
    var one := SetColumn(t, timeTitle, Integer, Ones(|t.rows|));
    SetColumnCell(one, "timestamp", Integer, Ones(|one.rows|), i, j);
    if j < |one.columns| {
      SetColumnCell(t, timeTitle, Integer, Ones(|t.rows|), i, j);
    }
  }

  /** Every prepared row holds 1 in the time title column. */
  lemma PreparedColumnOnes(t: Table, timeTitle: string, j: nat)
    requires WellFormed(t)
    requires j < |Prepared(t, timeTitle).columns| && Prepared(t, timeTitle).columns[j] == timeTitle
    ensures forall x :: x in Prepared(t, timeTitle).rows ==> j < |x.cells| && x.cells[j] == Int(1)
  {
    var u := Prepared(t, timeTitle);
    forall x | x in u.rows
      ensures j < |x.cells| && x.cells[j] == Int(1)
    {
      var i :| 0 <= i < |u.rows| && u.rows[i] == x;
      PreparedOnes(t, timeTitle, i, j);
    }
  }

  /** One row of the bucketed table: labelled with the start `b` of its period,
      each numeric column summed over the period's rows, and the timestamp column
      replaced by the label's text. */
  function PeriodRow(u: Table, num: seq<nat>, b: Instant, w: nat, exportText: Instant -> string): (x: Row)
    requires WellFormed(u)
    requires forall k :: 0 <= k < |num| ==> num[k] < |u.columns|
    ensures x.stamp == Some(b) && |x.cells| == |num|
  {
    var rows := BucketRows(u.rows, b, w);
    Row(Some(b), seq(|num|, k requires 0 <= k < |num| =>
      if u.columns[num[k]] == "timestamp" then Str(exportText(b))
      else Sum(u.kinds[num[k]], Column(rows, num[k]))))
  }

  /** The rows of the periods from the one starting at `b` to the one holding
      `hi`, one period after another. */
  function PeriodRows(u: Table, num: seq<nat>, b: Instant, hi: Instant, w: nat, exportText: Instant -> string): (rows: seq<Row>)
    requires WellFormed(u) && w > 0
    requires forall k :: 0 <= k < |num| ==> num[k] < |u.columns|
    ensures |rows| > 0 <==> b <= hi
    ensures forall k :: 0 <= k < |rows| ==> rows[k].stamp.Some? && b <= rows[k].stamp.value <= hi
    ensures forall k :: 0 <= k < |rows| ==> rows[k] == PeriodRow(u, num, rows[k].stamp.value, w, exportText)
    ensures |rows| > 0 ==> rows[0].stamp == Some(b)
    ensures forall k :: 0 <= k < |rows| - 1 ==> rows[k + 1].stamp.value == rows[k].stamp.value + w
    decreases hi - b
  {
    if b > hi then []
    else [PeriodRow(u, num, b, w, exportText)] + PeriodRows(u, num, b + w, hi, w, exportText)
  }

  /** The columns `sum()` keeps: the numeric ones, in order; the timestamp
      column becomes text. */
  function SummedColumns(u: Table): (r: (seq<string>, seq<Kind>))
    requires WellFormed(u)
    ensures |r.0| == |r.1| == |Numeric(u.kinds, |u.kinds|)|
    ensures var num := Numeric(u.kinds, |u.kinds|);
      forall k :: 0 <= k < |num| ==> r.0[k] == u.columns[num[k]] && r.1[k] == if r.0[k] == "timestamp" then Other else u.kinds[num[k]]
  {
    var num := Numeric(u.kinds, |u.kinds|);
    (seq(|num|, k requires 0 <= k < |num| => u.columns[num[k]]),
     seq(|num|, k requires 0 <= k < |num| => if u.columns[num[k]] == "timestamp" then Other else u.kinds[num[k]]))
  }

  /** The bucketed rows of `t`: every period from the one holding the earliest
      label to the one holding the latest. */
  function Periods(t: Table, timeTitle: string, w: nat, exportText: Instant -> string): (rows: seq<Row>)
    requires WellFormed(t) && w > 0
    ensures |rows| > 0 <==> Earliest(t.rows).Some?
    ensures |rows| > 0 ==> rows[0].stamp == Some(PeriodStart(Earliest(t.rows).value, w))
    ensures forall k :: 0 <= k < |rows| ==> rows[k].stamp.Some? && rows[k].stamp.value <= Latest(t.rows).value
    ensures forall k :: 0 <= k < |rows| - 1 ==> rows[k + 1].stamp.value == rows[k].stamp.value + w
    ensures forall k :: 0 <= k < |rows| ==> |rows[k].cells| == |SummedColumns(Prepared(t, timeTitle)).0|
    ensures var u := Prepared(t, timeTitle);
      forall k :: 0 <= k < |rows| ==> rows[k] == PeriodRow(u, Numeric(u.kinds, |u.kinds|), rows[k].stamp.value, w, exportText)
  {
    var u := Prepared(t, timeTitle);
    var num := Numeric(u.kinds, |u.kinds|);
    match Earliest(t.rows)
    case None => []
    case Some(lo) => PeriodRows(u, num, PeriodStart(lo, w), Latest(t.rows).value, w, exportText)
  }

  /** Stage 4, `groupby(Grouper(freq=time_group)).sum()` after the two
      assignments: one row per period, from the earliest label's to the latest's
      (empty periods included), only the numeric columns, and the timestamp column
      turned into the period's text. ValueError for a frequency that does not
      parse, TypeError once the time index is gone. */
  function TimeStage(t: Table, width: Option<nat>, timeTitle: string, exportText: Instant -> string): (r: Result<Table, string>)
    requires WellFormed(t)
    ensures r.Failure? <==> width.None? || width.value == 0 || !t.timeIndexed
    ensures r.Failure? ==> r.error == if width.None? || width.value == 0 then "ValueError" else "TypeError"
    ensures r.Success? ==> WellFormed(r.value) && r.value.timeIndexed
    ensures r.Success? ==> (|r.value.rows| > 0 <==> Earliest(t.rows).Some?)
    ensures r.Success? && |r.value.rows| > 0 ==>
      r.value.rows[0].stamp == Some(PeriodStart(Earliest(t.rows).value, width.value))
    ensures r.Success? ==> forall k :: 0 <= k < |r.value.rows| ==>
      r.value.rows[k].stamp.Some? && r.value.rows[k].stamp.value <= Latest(t.rows).value
    ensures r.Success? ==> forall k :: 0 <= k < |r.value.rows| - 1 ==>
      r.value.rows[k + 1].stamp.value == r.value.rows[k].stamp.value + width.value
  {
    if width.None? || width.value == 0 then Failure("ValueError")
    else if !t.timeIndexed then Failure("TypeError")
    else
      var columns := SummedColumns(Prepared(t, timeTitle));
      Success(Table(columns.0, columns.1, Periods(t, timeTitle, width.value, exportText), true))
  }

  /** The prepared table's time-title and timestamp columns are kept by `sum()`. */
  lemma SummedKeepsCounters(t: Table, timeTitle: string)
    requires WellFormed(t)
    ensures var columns := SummedColumns(Prepared(t, timeTitle)).0;
      timeTitle in columns && "timestamp" in columns
  {
    SummedKeepsCounter(t, timeTitle, timeTitle);
    SummedKeepsCounter(t, timeTitle, "timestamp");
  }

  lemma SummedKeepsCounter(t: Table, timeTitle: string, name: string)
    requires WellFormed(t) && (name == timeTitle || name == "timestamp")
    ensures name in SummedColumns(Prepared(t, timeTitle)).0
  {
    var u := Prepared(t, timeTitle);
    var num := Numeric(u.kinds, |u.kinds|);
    var j := ColumnIndex(u.columns, name).value;
    assert u.kinds[j] == Integer;
    var k :| 0 <= k < |num| && num[k] == j;
    assert SummedColumns(u).0[k] == name;
  }

  /** `sum()` keeps every numeric input column. */
  lemma SummedKeepsNumbers(t: Table, timeTitle: string, j: nat)
    requires WellFormed(t) && j < |t.columns| && t.kinds[j] != Other
    requires t.columns[j] != timeTitle && t.columns[j] != "timestamp"
    ensures t.columns[j] in SummedColumns(Prepared(t, timeTitle)).0
  {
    var u := Prepared(t, timeTitle);
    var num := Numeric(u.kinds, |u.kinds|);
    var one := SetColumn(t, timeTitle, Integer, Ones(|t.rows|));
    assert one.columns[j] == t.columns[j] && one.kinds[j] == t.kinds[j];
    assert u.columns[j] == t.columns[j] && u.kinds[j] == t.kinds[j];
    var k :| 0 <= k < |num| && num[k] == j;
    assert SummedColumns(u).0[k] == t.columns[j];
  }

  /** The bucketed table has a time-title and a timestamp column; every numeric
      input column other than those is kept, and the timestamp column is the only
      non-numeric one. */
  lemma TimeColumns(t: Table, width: Option<nat>, timeTitle: string, exportText: Instant -> string)
    requires WellFormed(t) && TimeStage(t, width, timeTitle, exportText).Success?
    ensures var r := TimeStage(t, width, timeTitle, exportText).value;
      && timeTitle in r.columns && "timestamp" in r.columns
      && (forall j :: 0 <= j < |t.columns| && t.kinds[j] != Other && t.columns[j] != timeTitle ==> t.columns[j] in r.columns)
      && (forall c :: 0 <= c < |r.columns| ==> (r.kinds[c] == Other <==> r.columns[c] == "timestamp"))
  {
    var r := TimeStage(t, width, timeTitle, exportText).value;
    assert (r.columns, r.kinds) == SummedColumns(Prepared(t, timeTitle));
    SummedKeepsCounters(t, timeTitle);
    forall j | 0 <= j < |t.columns| && t.kinds[j] != Other && t.columns[j] != timeTitle
      ensures t.columns[j] in r.columns
    {
      if t.columns[j] != "timestamp" {
        SummedKeepsNumbers(t, timeTitle, j);
      }
    }
  }

  /** The row of a period that holds instant `s`. */
  predicate InPeriod(row: Row, s: Instant, w: nat) {
    row.stamp.Some? && row.stamp.value <= s < row.stamp.value + w
  }

  /** Every instant from `b` to `hi` lies in one of the periods. */
  lemma {:induction false} PeriodRowsCover(u: Table, num: seq<nat>, b: Instant, hi: Instant, w: nat, exportText: Instant -> string, s: Instant)
    requires WellFormed(u) && w > 0
    requires forall k :: 0 <= k < |num| ==> num[k] < |u.columns|
    requires b <= s <= hi
    ensures exists k :: 0 <= k < |PeriodRows(u, num, b, hi, w, exportText)| && InPeriod(PeriodRows(u, num, b, hi, w, exportText)[k], s, w)
    decreases hi - b
  {
    var rows := PeriodRows(u, num, b, hi, w, exportText);
    var rest := PeriodRows(u, num, b + w, hi, w, exportText);
    assert rows == [PeriodRow(u, num, b, w, exportText)] + rest;
    if s < b + w {
      assert InPeriod(rows[0], s, w);
    } else {
      PeriodRowsCover(u, num, b + w, hi, w, exportText, s);
      var k :| 0 <= k < |rest| && InPeriod(rest[k], s, w);
      assert rows[k + 1] == rest[k];
    }
  }

  /** Every labelled row of `t` lies in one of its periods. */
  lemma PeriodsCover(t: Table, timeTitle: string, w: nat, exportText: Instant -> string, x: Row)
    requires WellFormed(t) && w > 0
    requires x in t.rows && x.stamp.Some?
    ensures exists k :: 0 <= k < |Periods(t, timeTitle, w, exportText)| && InPeriod(Periods(t, timeTitle, w, exportText)[k], x.stamp.value, w)
  {
    var u := Prepared(t, timeTitle);
    var num := Numeric(u.kinds, |u.kinds|);
    var lo, hi := Earliest(t.rows).value, Latest(t.rows).value;
    var rows := PeriodRows(u, num, PeriodStart(lo, w), hi, w, exportText);
    assert Periods(t, timeTitle, w, exportText) == rows;
    PeriodRowsCover(u, num, PeriodStart(lo, w), hi, w, exportText, x.stamp.value);
    var k :| 0 <= k < |rows| && InPeriod(rows[k], x.stamp.value, w);
    assert InPeriod(Periods(t, timeTitle, w, exportText)[k], x.stamp.value, w);
  }

  /** Every labelled input row falls into one of the output periods. */
  lemma TimeCovers(t: Table, width: Option<nat>, timeTitle: string, exportText: Instant -> string, x: Row)
    requires WellFormed(t) && TimeStage(t, width, timeTitle, exportText).Success?
    requires x in t.rows && x.stamp.Some?
    ensures exists k :: 0 <= k < |TimeStage(t, width, timeTitle, exportText).value.rows| &&
                        InPeriod(TimeStage(t, width, timeTitle, exportText).value.rows[k], x.stamp.value, width.value)
  {
    var rows := Periods(t, timeTitle, width.value, exportText);
    assert TimeStage(t, width, timeTitle, exportText).value.rows == rows;
    PeriodsCover(t, timeTitle, width.value, exportText, x);
  }

  /** The period's rows after `[x] + rest`: `x` first when it is in the period. */
  lemma BucketRowsCons(x: Row, rest: seq<Row>, b: Instant, w: nat)
    ensures BucketRows([x] + rest, b, w) ==
      (if x.stamp.Some? && b <= x.stamp.value < b + w then [x] else []) + BucketRows(rest, b, w)
  {
    assert ([x] + rest)[1..] == rest;
  }

  /** Rows with the same labels fill each period equally. */
  lemma {:induction false} BucketSizeByStamps(a: seq<Row>, c: seq<Row>, b: Instant, w: nat)
    requires |a| == |c|
    requires forall i :: 0 <= i < |a| ==> a[i].stamp == c[i].stamp
    ensures |BucketRows(a, b, w)| == |BucketRows(c, b, w)|
    decreases |a|
  {
    if |a| > 0 {
      assert a == [a[0]] + a[1..] && c == [c[0]] + c[1..];
      BucketRowsCons(a[0], a[1..], b, w);
      BucketRowsCons(c[0], c[1..], b, w);
      BucketSizeByStamps(a[1..], c[1..], b, w);
    }
  }

  /** A column of ones sums to the number of rows. */
  lemma {:induction false} IntSumOnes(rows: seq<Row>, c: nat)
    requires forall x :: x in rows ==> c < |x.cells| && x.cells[c] == Int(1)
    ensures IntSum(Column(rows, c)) == |rows|
    decreases |rows|
  {
    if |rows| > 0 {
      assert Column(rows, c)[1..] == Column(rows[1..], c);
      IntSumOnes(rows[1..], c);
    }
  }

  /** The time-title cell of a period's row counts the input rows labelled within it. */
  lemma PeriodCount(t: Table, timeTitle: string, b: Instant, w: nat, exportText: Instant -> string, c: nat)
    requires WellFormed(t) && timeTitle != "timestamp"
    requires var u := Prepared(t, timeTitle); var num := Numeric(u.kinds, |u.kinds|);
      c < |num| && u.columns[num[c]] == timeTitle
    ensures var u := Prepared(t, timeTitle);
      PeriodRow(u, Numeric(u.kinds, |u.kinds|), b, w, exportText).cells[c] == Int(|BucketRows(t.rows, b, w)|)
  {
    var u := Prepared(t, timeTitle);
    var num := Numeric(u.kinds, |u.kinds|);
    var j := num[c];
    var rows := BucketRows(u.rows, b, w);
    assert u.kinds[j] == Integer;
    PreparedColumnOnes(t, timeTitle, j);
    IntSumOnes(rows, j);
    BucketSizeByStamps(u.rows, t.rows, b, w);
  }

  /** The time-title column of each period counts the input rows labelled within it. */
  lemma TimeCounts(t: Table, width: Option<nat>, timeTitle: string, exportText: Instant -> string, k: nat, c: nat)
    requires WellFormed(t) && TimeStage(t, width, timeTitle, exportText).Success?
    requires timeTitle != "timestamp"
    requires k < |TimeStage(t, width, timeTitle, exportText).value.rows|
    requires c < |TimeStage(t, width, timeTitle, exportText).value.columns|
    requires TimeStage(t, width, timeTitle, exportText).value.columns[c] == timeTitle
    ensures var r := TimeStage(t, width, timeTitle, exportText).value;
      r.rows[k].cells[c] == Int(|BucketRows(t.rows, r.rows[k].stamp.value, width.value)|)
  {
    var r := TimeStage(t, width, timeTitle, exportText).value;
    assert r.rows == Periods(t, timeTitle, width.value, exportText);
    assert r.columns == SummedColumns(Prepared(t, timeTitle)).0;
    PeriodCount(t, timeTitle, r.rows[k].stamp.value, width.value, exportText, c);
  }

  // ---- the whole query

  /** The arguments of `get_dashboard_table_data` after the logged data: an empty
      list stands for a falsy (or absent) one. */
  datatype QueryOptions = QueryOptions(
    displayCols: seq<string>,
    groupBy: seq<string>,
    countTitle: string,
    filter: Option<string>,
    value: Option<string>,
    timeGroup: Option<string>,
    timeTitle: string)

  /** The projection stage as the pipeline runs it: skipped for no display columns. */
  function ProjectStep(t: Table, cols: seq<string>): (r: Result<Table, string>)
    requires WellFormed(t)
    ensures r.Success? ==> WellFormed(r.value) && r.value.timeIndexed == t.timeIndexed
    ensures |cols| == 0 ==> r == Success(t)
    ensures r.Failure? <==> |cols| > 0 && exists i :: 0 <= i < |cols| && cols[i] !in t.columns
    ensures r.Failure? ==> r == Failure("KeyError")
  {
    if |cols| == 0 then Success(t) else Project(t, cols)
  }

  /** The group-by stage as the pipeline runs it: skipped for no grouping columns.
      As written, `sort_values(..., ignore_index=True)` replaces the time index by
      a range index; with `keepIndex` the rows keep their labels and the table its
      time index, which the time-bucketing stage after it needs. */
  function GroupStep(t: Table, groupBy: seq<string>, countTitle: string, keepIndex: bool): (r: Result<Table, string>)
    requires WellFormed(t)
    ensures r.Success? ==> WellFormed(r.value)
    ensures |groupBy| == 0 ==> r == Success(t)
    ensures |groupBy| > 0 ==> (r.Success? <==> GroupStage(t, groupBy, countTitle).Success?)
    ensures |groupBy| > 0 && r.Success? ==>
      var g := GroupStage(t, groupBy, countTitle).value;
      && r.value.columns == g.columns && r.value.kinds == g.kinds && r.value.rows == g.rows
      && r.value.timeIndexed == (keepIndex && t.timeIndexed)
  {
    if |groupBy| == 0 then Success(t)
    else match GroupStage(t, groupBy, countTitle)
      case Failure(e) => Failure(e)
      case Success(g) => Success(if keepIndex then g.(timeIndexed := t.timeIndexed) else g)
  }

  /** `get_dashboard_table_data`: filter, projection, group-by and time bucketing
      in that order, each skipped when its option is falsy; an exception raised by
      a stage ends the query. `keepIndex` false is the code as written, true the
      group-by that keeps the time index (see `GroupStep`). */
  function TableData(t: Table, q: QueryOptions, p: Parsers, keepIndex: bool): (r: Result<Table, string>)
    requires WellFormed(t)
    ensures r.Success? ==> WellFormed(r.value)
    ensures r.Failure? ==> r.error in {"KeyError", "ValueError", "TypeError"}
    ensures |q.displayCols| > 0 && (exists i :: 0 <= i < |q.displayCols| && q.displayCols[i] !in t.columns) ==>
      r == Failure("KeyError")
    ensures r.Success? && Given(q.timeGroup) ==> r.value.timeIndexed && (|q.groupBy| == 0 || keepIndex)
    ensures r.Success? && !Given(q.timeGroup) && |q.groupBy| > 0 ==> r.value.timeIndexed == (keepIndex && t.timeIndexed)
  {
    var filtered := FilterStage(t, q.filter, q.value, p);
    match ProjectStep(filtered, q.displayCols)
    case Failure(e) => Failure(e)
    case Success(projected) =>
      match GroupStep(projected, q.groupBy, q.countTitle, keepIndex)
      case Failure(e) => Failure(e)
      case Success(grouped) =>
        if Given(q.timeGroup) then TimeStage(grouped, p.frequency(q.timeGroup.value), q.timeTitle, p.exportText)
        else Success(grouped)
  }

  /** With every option falsy the query hands back the data as it is. */
  lemma NoOptionsNoChange(t: Table, q: QueryOptions, p: Parsers, keepIndex: bool)
    requires WellFormed(t)
    requires !Given(q.filter) && |q.displayCols| == 0 && |q.groupBy| == 0 && !Given(q.timeGroup)
    ensures TableData(t, q, p, keepIndex) == Success(t)
  {
  }

  /** Grouping and time bucketing never combine: the sorted group-by result has
      lost its time index, so a valid frequency then raises TypeError. */
  lemma GroupedThenTimedFails(t: Table, q: QueryOptions, p: Parsers)
    requires WellFormed(t) && t.timeIndexed
    requires |q.groupBy| > 0 && Given(q.timeGroup)
    requires p.frequency(q.timeGroup.value).Some? && p.frequency(q.timeGroup.value).value > 0
    ensures TableData(t, q, p, false).Failure?
    ensures ProjectStep(FilterStage(t, q.filter, q.value, p), q.displayCols).Success? &&
            GroupStage(ProjectStep(FilterStage(t, q.filter, q.value, p), q.displayCols).value, q.groupBy, q.countTitle).Success? ==>
      TableData(t, q, p, false) == Failure("TypeError")
  {
  }

  /** With only display columns given, the result is the projection of the
      filtered rows: exactly those columns, in order, and no missing cell. */
  lemma DisplayOnly(t: Table, q: QueryOptions, p: Parsers, keepIndex: bool)
    requires WellFormed(t)
    requires |q.displayCols| > 0 && |q.groupBy| == 0 && !Given(q.timeGroup)
    requires forall i :: 0 <= i < |q.displayCols| ==> q.displayCols[i] in t.columns
    ensures TableData(t, q, p, keepIndex).Success?
    ensures TableData(t, q, p, keepIndex).value.columns == q.displayCols
    ensures forall x :: x in TableData(t, q, p, keepIndex).value.rows ==> Complete(x)
  {
  }

  /** With a time grouping and no group-by on time-indexed data, a valid frequency
      gives the bucketed table of the filtered (and projected) rows. */
  lemma TimedQuery(t: Table, q: QueryOptions, p: Parsers, keepIndex: bool)
    requires WellFormed(t) && t.timeIndexed
    requires |q.groupBy| == 0 && Given(q.timeGroup)
    requires p.frequency(q.timeGroup.value).Some? && p.frequency(q.timeGroup.value).value > 0
    requires forall i :: 0 <= i < |q.displayCols| ==> q.displayCols[i] in t.columns
    ensures var u := ProjectStep(FilterStage(t, q.filter, q.value, p), q.displayCols);
      u.Success? && TableData(t, q, p, keepIndex) == TimeStage(u.value, p.frequency(q.timeGroup.value), q.timeTitle, p.exportText)
    ensures TableData(t, q, p, keepIndex).Success?
  {
  }

  /** The count column a group-by adds holds numbers (int, or float once a key
      has a missing part), so `sum()` keeps it. */
  lemma CountColumnNumeric(t: Table, groupBy: seq<string>, countTitle: string)
    requires WellFormed(t) && GroupStage(t, groupBy, countTitle).Success?
    ensures var g := GroupStage(t, groupBy, countTitle).value;
      exists j :: 0 <= j < |g.columns| && g.columns[j] == countTitle && g.kinds[j] != Other
  {
    var g := GroupStage(t, groupBy, countTitle).value;
    var sizes := SizeColumn(t.rows, Indices(t.columns, groupBy).value);
    assert g.kinds == Counted(t, Indices(t.columns, groupBy).value, countTitle).kinds;
    if countTitle in t.columns {
      var j := ColumnIndex(t.columns, countTitle).value;
      assert g.columns[j] == countTitle && g.kinds[j] == sizes.0;
    } else {
      assert g.columns[|t.columns|] == countTitle && g.kinds[|t.columns|] == sizes.0;
    }
  }

  /** Grouping then bucketing as the `time_group` option documents it, with the
      time index kept through the group-by: the query succeeds, the count column
      survives the sum, and each period's time-title column counts the grouped
      rows labelled within it. */
  lemma GroupedThenTimed(t: Table, q: QueryOptions, p: Parsers)
    requires WellFormed(t) && t.timeIndexed
    requires |q.groupBy| > 0 && Given(q.timeGroup)
    requires p.frequency(q.timeGroup.value).Some? && p.frequency(q.timeGroup.value).value > 0
    requires q.timeTitle != "timestamp" && q.countTitle != q.timeTitle
    requires ProjectStep(FilterStage(t, q.filter, q.value, p), q.displayCols).Success?
    requires GroupStage(ProjectStep(FilterStage(t, q.filter, q.value, p), q.displayCols).value, q.groupBy, q.countTitle).Success?
    ensures TableData(t, q, p, true).Success?
    ensures q.countTitle in TableData(t, q, p, true).value.columns
    ensures var g := GroupStage(ProjectStep(FilterStage(t, q.filter, q.value, p), q.displayCols).value, q.groupBy, q.countTitle).value;
      var r := TableData(t, q, p, true).value;
      forall k, c :: 0 <= k < |r.rows| && 0 <= c < |r.columns| && r.columns[c] == q.timeTitle ==>
        r.rows[k].cells[c] == Int(|BucketRows(g.rows, r.rows[k].stamp.value, p.frequency(q.timeGroup.value).value)|)
  {
    var u := ProjectStep(FilterStage(t, q.filter, q.value, p), q.displayCols).value;
    var g := GroupStep(u, q.groupBy, q.countTitle, true).value;
    var width := p.frequency(q.timeGroup.value);
    assert TableData(t, q, p, true) == TimeStage(g, width, q.timeTitle, p.exportText);
    CountColumnNumeric(u, q.groupBy, q.countTitle);
    TimeColumns(g, width, q.timeTitle, p.exportText);
    AllTimeCounts(g, width, q.timeTitle, p.exportText);
  }

  /** `TimeCounts` at every bucket and every time title column. */
  lemma AllTimeCounts(t: Table, width: Option<nat>, timeTitle: string, exportText: Instant -> string)
    requires WellFormed(t) && TimeStage(t, width, timeTitle, exportText).Success?
    requires timeTitle != "timestamp"
    ensures var r := TimeStage(t, width, timeTitle, exportText).value;
      forall k, c :: 0 <= k < |r.rows| && 0 <= c < |r.columns| && r.columns[c] == timeTitle ==>
        r.rows[k].cells[c] == Int(|BucketRows(t.rows, r.rows[k].stamp.value, width.value)|)
  {
    var r := TimeStage(t, width, timeTitle, exportText).value;
    forall k, c | 0 <= k < |r.rows| && 0 <= c < |r.columns| && r.columns[c] == timeTitle
      ensures r.rows[k].cells[c] == Int(|BucketRows(t.rows, r.rows[k].stamp.value, width.value)|)
    {
      TimeCounts(t, width, timeTitle, exportText, k, c);
    }
  }
}
