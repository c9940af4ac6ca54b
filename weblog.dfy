/** The shared dataset (`WebLogDataSet`): an append-only list of value rows and
    of index timestamps, with the column list taken from the first record. */
module WebLog {
  import opened Wrappers
  import opened Values
  import opened Tables
  import opened WebLogData

  /** The longest row: the width pandas gives a frame built from ragged lists. */
  function MaxWidth(data: seq<seq<Value>>): (w: nat)
    ensures forall i :: 0 <= i < |data| ==> |data[i]| <= w
    ensures |data| > 0 ==> exists i :: 0 <= i < |data| && |data[i]| == w
    ensures |data| == 0 ==> w == 0
  {
    if |data| == 0 then 0
    else
      var w := MaxWidth(data[1..]);
      if |data[0]| >= w then
        assert forall i :: 1 <= i < |data| ==> |data[i]| == |data[1..][i - 1]|;
        |data[0]|
      else
        assert forall i :: 1 <= i < |data| ==> |data[i]| == |data[1..][i - 1]|;
        var k :| 0 <= k < |data[1..]| && |data[1..][k]| == w;
        assert |data[k + 1]| == w;
        w
  }

  /** A short row filled up with missing values to width `w`. */
  function Pad(cells: seq<Value>, w: nat): (r: seq<Value>)
    requires |cells| <= w
    ensures |r| == w && r[..|cells|] == cells
    ensures forall i :: |cells| <= i < w ==> r[i].Null?
  {
    cells + seq(w - |cells|, _ => Null)
  }

  /** The index label a record's timestamp gives: a datetime is itself; only a
      falsy value can stand in its place, and pandas reads 0 as the epoch and
      None or "" as NaT. */
  function IndexStamp(v: Value): Option<Instant> {
    match v
    case Time(t) => Some(t)
    case Int(_) => Some(0)
    case Real(_) => Some(0)
    case _ => None
  }

  /** The stored rows as pandas lays them out, before sorting: padded to width
      `w`, labelled with their index entry. */
  function RawRows(data: seq<seq<Value>>, index: seq<Value>, w: nat): (rows: seq<Row>)
    requires |data| == |index|
    requires forall i :: 0 <= i < |data| ==> |data[i]| <= w
    ensures |rows| == |data|
    ensures forall i :: 0 <= i < |data| ==> rows[i] == Row(IndexStamp(index[i]), Pad(data[i], w))
  {
    seq(|data|, i requires 0 <= i < |data| => Row(IndexStamp(index[i]), Pad(data[i], w)))
  }

  /** The dtype of each of the `w` columns. */
  function KindsOf(rows: seq<Row>, w: nat): (kinds: seq<Kind>)
    requires forall r :: r in rows ==> |r.cells| == w
    ensures |kinds| == w
    ensures forall c :: 0 <= c < w ==> kinds[c] == InferKind(Column(rows, c))
  {
    seq(w, c requires 0 <= c < w => InferKind(Column(rows, c)))
  }

  /** A row with each cell stored as its column's dtype holds it. */
  function CoerceRow(kinds: seq<Kind>, r: Row): (s: Row)
    requires |r.cells| == |kinds|
    ensures s.stamp == r.stamp && |s.cells| == |kinds|
    ensures forall c :: 0 <= c < |kinds| ==> s.cells[c] == Coerce(kinds[c], r.cells[c])
  {
    Row(r.stamp, seq(|kinds|, c requires 0 <= c < |kinds| => Coerce(kinds[c], r.cells[c])))
  }

  /** The frame's rows before `sort_index`: row `i` is record `i`. */
  function StoredRows(data: seq<seq<Value>>, index: seq<Value>, w: nat): (rows: seq<Row>)
    requires |data| == |index|
    requires forall i :: 0 <= i < |data| ==> |data[i]| <= w
    ensures |rows| == |data|
    ensures forall r :: r in rows ==> |r.cells| == w
  {
    var raw := RawRows(data, index, w);
    var kinds := KindsOf(raw, w);
    seq(|raw|, i requires 0 <= i < |raw| => CoerceRow(kinds, raw[i]))
  }

  class WebLogDataSet {
    /** `_fields`: the keys of the first record added. */
    var fields: seq<string>
    /** `_data`: one value list per record, in arrival order. */
    var data: seq<seq<Value>>
    /** `_index`: the `timestamp` of each record, in arrival order. */
    var index: seq<Value>

    ghost predicate Valid()
      reads this
    {
      && |data| == |index|
      && (data == [] ==> fields == [])
    }

    constructor ()
      ensures Valid()
      ensures fields == [] && data == [] && index == []
    {
      fields, data, index := [], [], [];
    }

    /** `add(log_data)`: appends the record's values and its timestamp; the first
        record fixes the column list, later ones leave it alone. */
    method Add(log: WebLogData)
      requires Valid() && log.Valid()
      modifies this
      ensures Valid()
      ensures data == old(data) + [log.ToArrays().1]
      ensures index == old(index) + [log.Stamp()]
      ensures fields == if old(fields) == [] then log.ToArrays().0 else old(fields)
    {
      var arrays := log.ToArrays();
      data := data + [arrays.1];
      index := index + [log.Stamp()];
      if fields == [] {
        fields := arrays.0;
      }
    }

    /** `get_dataframe()`: a new frame with the first record's columns and every
        stored row, in index order (NaT last). pandas raises ValueError when the
        longest row is not as wide as the column list; shorter rows are padded
        with missing values. The dataset itself is only read. */
    function GetDataframe(): (r: Result<Table, string>)
      reads this
      requires Valid()
      ensures r.Failure? <==> |data| > 0 && MaxWidth(data) != |fields|
      ensures r.Success? ==>
        && WellFormed(r.value)
        && r.value.columns == fields
        && r.value.timeIndexed
        && r.value.kinds == KindsOf(RawRows(data, index, |fields|), |fields|)
        && (forall i, j :: 0 <= i < j < |r.value.rows| ==> KeyLe(r.value.rows[i].stamp, r.value.rows[j].stamp, false))
        && multiset(r.value.rows) == multiset(StoredRows(data, index, |fields|))
    {
      var w := MaxWidth(data);
      if |data| > 0 && w != |fields| then Failure("ValueError")
      else
        var raw := RawRows(data, index, w);
        var kinds := KindsOf(raw, w);
        var rows := SortByStamp(StoredRows(data, index, w));
        assert forall x :: x in rows ==> x in multiset(StoredRows(data, index, w));
        Success(Table(fields, kinds, rows, true))
    }
  }

  /** Every record added so far is a row of the snapshot, cells in column order. */
  lemma {:induction false} RecordInSnapshot(ds: WebLogDataSet, i: nat)
    requires ds.Valid()
    requires ds.GetDataframe().Success?
    requires i < |ds.data|
    ensures exists r :: (
      && r in ds.GetDataframe().value.rows
      && r.stamp == IndexStamp(ds.index[i])
      && |r.cells| == |ds.fields|
      && forall c :: 0 <= c < |ds.data[i]| ==> r.cells[c] == Coerce(ds.GetDataframe().value.kinds[c], ds.data[i][c]))
  {
    var t := ds.GetDataframe().value;
    var w := |ds.fields|;
    var stored := StoredRows(ds.data, ds.index, w);
    var raw := RawRows(ds.data, ds.index, w);
    assert stored[i] in multiset(t.rows);
    assert stored[i] == CoerceRow(KindsOf(raw, w), raw[i]);
  }
}
