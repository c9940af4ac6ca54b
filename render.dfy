/** The per-row texts and marker sizes of a geo graph: `_render_graph_text`,
    which fills `{{column}}` placeholders from each row of the table, and the
    marker sizes read from a column and capped at `sizemax`. */
module Render {
  import opened Wrappers
  import opened Text
  import opened Values
  import opened Tables
  import opened Dicts
  import opened Graphs

  // ---- the placeholders: findall of \{\{(?P<key>[\d\s\w]*)\}\}

  /** A character of the class `[\d\s\w]`: ASCII letters, digits, `_`, white space. */
  predicate IsKeyChar(c: char) {
    'a' <= c <= 'z' || 'A' <= c <= 'Z' || IsDigit(c) || c == '_' || IsSpace(c)
  }

  predicate IsKey(f: string) {
    forall i :: 0 <= i < |f| ==> IsKeyChar(f[i])
  }

  function Placeholder(f: string): string {
    "{{" + f + "}}"
  }

  /** The end of the longest run of key characters from `j`. */
  function KeyEnd(s: string, j: nat): (e: nat)
    requires j <= |s|
    ensures j <= e <= |s|
    ensures forall k :: j <= k < e ==> IsKeyChar(s[k])
    ensures e == |s| || !IsKeyChar(s[e])
    decreases |s| - j
  {
    if j < |s| && IsKeyChar(s[j]) then KeyEnd(s, j + 1) else j
  }

  /** A run of key characters that ends at `e` ends where `KeyEnd` says. */
  lemma {:induction false} KeyEndAt(s: string, j: nat, e: nat)
    requires j <= e <= |s|
    requires forall k :: j <= k < e ==> IsKeyChar(s[k])
    requires e == |s| || !IsKeyChar(s[e])
    ensures KeyEnd(s, j) == e
    decreases e - j
  {
    if j < e {
      KeyEndAt(s, j + 1, e);
    }
  }

  /** The end of the pattern's match at `i`, if it matches there. The key run is
      greedy and cannot hold `}`, so backtracking never finds another match. */
  function MatchEnd(s: string, i: nat): (r: Option<nat>)
    requires i <= |s|
    ensures r.Some? ==> i + 4 <= r.value <= |s| && IsKey(s[i + 2..r.value - 2])
    ensures r.Some? ==> OccursAt(s, Placeholder(s[i + 2..r.value - 2]), i)
  {
    if i + 2 <= |s| && s[i] == '{' && s[i + 1] == '{' then
      var e := KeyEnd(s, i + 2);
      if e + 2 <= |s| && s[e] == '}' && s[e + 1] == '}' then
        assert s[i..e + 2] == s[i..i + 2] + s[i + 2..e] + s[e..e + 2];
        Some(e + 2)
      else None
    else None
  }

  /** The placeholder of `f` occurs in `s` at `i` or later. */
  ghost predicate FoundFrom(s: string, f: string, i: nat) {
    exists p :: i <= p && OccursAt(s, Placeholder(f), p)
  }

  /** The keys of the matches found scanning from `i`: after a match the scan goes
      on at its end, otherwise one character further. */
  function FieldsFrom(s: string, i: nat): (fields: seq<string>)
    requires i <= |s|
    ensures forall k :: 0 <= k < |fields| ==> IsKey(fields[k])
    ensures forall k :: 0 <= k < |fields| ==> FoundFrom(s, fields[k], i)
    decreases |s| - i
  {
    if i == |s| then []
    else match MatchEnd(s, i)
      case Some(e) => [s[i + 2..e - 2]] + FieldsFrom(s, e)
      case None => FieldsFrom(s, i + 1)
  }

  /** `renderer_parser.findall(text_template)`. */
  function FindFields(s: string): (fields: seq<string>) {
    FieldsFrom(s, 0)
  }

  /** A placeholder at `p` is the match found there. */
  lemma MatchAt(s: string, f: string, p: nat)
    requires IsKey(f) && OccursAt(s, Placeholder(f), p)
    ensures MatchEnd(s, p) == Some(p + |f| + 4)
    ensures s[p + 2..p + |f| + 2] == f
  {
    var e := p + 2 + |f|;
    var ph := Placeholder(f);
    assert s[p..p + |f| + 4] == ph;
    forall k | 0 <= k < |f| ensures s[p + 2 + k] == f[k] {
      assert s[p + 2 + k] == ph[k + 2];
    }
    assert s[e] == ph[|f| + 2] == '}' && s[e + 1] == ph[|f| + 3] == '}';
    assert !IsKeyChar('}');
    KeyEndAt(s, p + 2, e);
    assert s[p + 2..e] == f;
  }

  /** No match that starts before a placeholder's `{{` reaches into it. */
  lemma MatchBefore(s: string, f: string, i: nat, p: nat, e: nat)
    requires IsKey(f) && OccursAt(s, Placeholder(f), p)
    requires i < p && MatchEnd(s, i) == Some(e)
    ensures e <= p
  {
    assert s[p] == Placeholder(f)[0] && s[p + 1] == Placeholder(f)[1];
    var end := KeyEnd(s, i + 2);
    assert e == end + 2;
  }

  /** Every placeholder from `i` on is found: the scan never steps over one. */
  lemma {:induction false} FieldsFromComplete(s: string, i: nat, f: string, p: nat)
    requires i <= p && IsKey(f) && OccursAt(s, Placeholder(f), p)
    ensures f in FieldsFrom(s, i)
    decreases |s| - i
  {
    MatchAt(s, f, p);
    if i == p {
      assert FieldsFrom(s, i)[0] == f;
    } else {
      match MatchEnd(s, i)
      case Some(e) =>
        MatchBefore(s, f, i, p, e);
        FieldsFromComplete(s, e, f, p);
      case None =>
        FieldsFromComplete(s, i + 1, f, p);
    }
  }

  /** `findall` finds exactly the key texts that appear between `{{` and `}}`. */
  lemma FindFieldsExactly(s: string, f: string)
    ensures f in FindFields(s) <==> IsKey(f) && Contains(s, Placeholder(f))
  {
    if IsKey(f) && Contains(s, Placeholder(f)) {
      var p :| OccursAt(s, Placeholder(f), p);
      FieldsFromComplete(s, 0, f, p);
    }
  }

  // ---- the texts: _render_graph_text

  /** Every field names a column. */
  predicate AllColumns(fields: seq<string>, columns: seq<string>) {
    forall k :: 0 <= k < |fields| ==> fields[k] in columns
  }

  /** The text of one row: each field's placeholder in turn replaced by the text
      of the row's cell in the first column of that name. */
  function RowText(template: string, fields: seq<string>, t: Table, x: Row, show: Value -> string): string
    requires WellFormed(t) && |x.cells| == |t.columns| && AllColumns(fields, t.columns)
  {
    if |fields| == 0 then template
    else
      var n := |fields| - 1;
      var c := ColumnIndex(t.columns, fields[n]).value;
      Replace(RowText(template, fields[..n], t, x, show), Placeholder(fields[n]), show(Coerce(t.kinds[c], x.cells[c])))
  }

  /** `_render_graph_text(text_template, tabledata)`: one text per row. The column
      lookup raises KeyError for a placeholder that names no column, but only once
      there is a row to fill. */
  function GraphText(template: string, t: Table, show: Value -> string): (r: Result<seq<string>, string>)
    requires WellFormed(t)
    ensures r.Failure? <==> |t.rows| > 0 && !AllColumns(FindFields(template), t.columns)
    ensures r.Failure? ==> r.error == "KeyError"
    ensures r.Success? ==> |r.value| == |t.rows|
  {
    var fields := FindFields(template);
    if |t.rows| == 0 then Success([])
    else if !AllColumns(fields, t.columns) then Failure("KeyError")
    else Success(seq(|t.rows|, i requires 0 <= i < |t.rows| => RowText(template, fields, t, t.rows[i], show)))
  }

  /** A template with a placeholder holds `{{`. */
  lemma FieldNeedsBraces(template: string)
    ensures |FindFields(template)| > 0 ==> Contains(template, "{{")
  {
    var fields := FindFields(template);
    if |fields| > 0 {
      var p :| 0 <= p && OccursAt(template, Placeholder(fields[0]), p);
      assert template[p..p + 2] == Placeholder(fields[0])[..2];
      assert OccursAt(template, "{{", p);
    }
  }

  /** A template without `{{` is every row's text as it is. */
  lemma PlainTemplate(template: string, t: Table, show: Value -> string)
    requires WellFormed(t) && !Contains(template, "{{")
    ensures GraphText(template, t, show) == Success(seq(|t.rows|, i => template))
  {
    FieldNeedsBraces(template);
    assert forall i :: 0 <= i < |t.rows| ==> GraphText(template, t, show).value[i] == template;
    assert GraphText(template, t, show).value == seq(|t.rows|, i => template);
  }

  /** Replacing the whole text. */
  lemma ReplaceWhole(pat: string, rep: string)
    requires |pat| > 0
    ensures Replace(pat, pat, rep) == rep
  {
    assert StartsWith(pat, pat);
    assert pat[|pat|..] == "";
    assert ReplaceFrom("", pat, rep) == "";
  }

  /** A template that is one placeholder gives each row the text of its cell. */
  lemma SinglePlaceholder(f: string, t: Table, show: Value -> string)
    requires WellFormed(t) && IsKey(f) && f in t.columns
    ensures var c := ColumnIndex(t.columns, f).value;
      GraphText(Placeholder(f), t, show) ==
        Success(seq(|t.rows|, i requires 0 <= i < |t.rows| => show(Coerce(t.kinds[c], t.rows[i].cells[c]))))
  {
    var s := Placeholder(f);
    MatchAt(s, f, 0);
    assert s[2..|f| + 2] == f;
    assert FieldsFrom(s, |s|) == [];
    assert FindFields(s) == [f];
    ReplaceWhole(s, show(Null));
    forall i | 0 <= i < |t.rows|
      ensures RowText(s, [f], t, t.rows[i], show) == show(Coerce(t.kinds[ColumnIndex(t.columns, f).value], t.rows[i].cells[ColumnIndex(t.columns, f).value]))
    {
      assert t.rows[i] in t.rows;
      var c := ColumnIndex(t.columns, f).value;
      assert [f][..0] == [];
      ReplaceWhole(s, show(Coerce(t.kinds[c], t.rows[i].cells[c])));
    }
    {
      var c := ColumnIndex(t.columns, f).value;
      assert GraphText(s, t, show).value == seq(|t.rows|, i requires 0 <= i < |t.rows| => show(Coerce(t.kinds[c], t.rows[i].cells[c])));
    }
  }

  /** The inner loop of `_render_graph_text`: one row's text, field by field;
      None for the KeyError of a field that names no column. */
  method FillRow(template: string, fields: seq<string>, t: Table, x: Row, show: Value -> string) returns (r: Option<string>)
    requires WellFormed(t) && |x.cells| == |t.columns|
    ensures r.None? <==> !AllColumns(fields, t.columns)
    ensures r.Some? ==> r.value == RowText(template, fields, t, x, show)
  {
    var txt := template;
    for k := 0 to |fields|
      invariant AllColumns(fields[..k], t.columns)
      invariant txt == RowText(template, fields[..k], t, x, show)
    {
      var c := ColumnIndex(t.columns, fields[k]);
      if c.None? {
        return None;
      }
      assert fields[..k + 1][..k] == fields[..k];
      txt := Replace(txt, Placeholder(fields[k]), show(Coerce(t.kinds[c.value], x.cells[c.value])));
    }
    assert fields[..|fields|] == fields;
    r := Some(txt);
  }

  /** `_render_graph_text`, loop by loop: a text per row, built field by field. */
  method RenderGraphText(template: string, t: Table, show: Value -> string) returns (r: Result<seq<string>, string>)
    requires WellFormed(t)
    ensures r == GraphText(template, t, show)
  {
    var fields := FindFields(template);
    var labels: seq<string> := [];
    for idx := 0 to |t.rows|
      invariant |labels| == idx
      invariant idx > 0 ==> AllColumns(fields, t.columns)
      invariant forall i :: 0 <= i < idx ==> labels[i] == RowText(template, fields, t, t.rows[i], show)
    {
      assert t.rows[idx] in t.rows;
      var txt := FillRow(template, fields, t, t.rows[idx], show);
      if txt.None? {
        return Failure("KeyError");
      }
      labels := labels + [txt.value];
    }
    if |t.rows| > 0 {
      assert labels == GraphText(template, t, show).value;
    }
    r := Success(labels);
  }

  // ---- the marker sizes

  /** `DEFAULT_GEO_MARKER_MAX_SIZE`. */
  const DefaultMarkerMaxSize: int := 100

  /** `int(x)` on a float: the fraction dropped, toward zero. */
  function Truncate(x: real): (n: int)
    ensures x >= 0.0 ==> n as real <= x < n as real + 1.0
    ensures x < 0.0 ==> n as real - 1.0 < x <= n as real
  {
    if x >= 0.0 then x.Floor else -((-x).Floor)
  }

  /** Python's `int(v)` on a cell read from a column of kind `k`: a missing value
      is NaN (ValueError) in a float column and None (TypeError) otherwise. */
  function IntOf(k: Kind, v: Value): (r: Result<int, string>)
    ensures r.Failure? ==> r.error in {"ValueError", "TypeError"}
  {
    match v
    case Int(i) => Success(i)
    case Real(x) => Success(Truncate(x))
    case Str(s) => if ParseInt(s).Some? then Success(ParseInt(s).value) else Failure("ValueError")
    case Null => if k == Float then Failure("ValueError") else Failure("TypeError")
    case Time(_) => Failure("TypeError")
  }

  /** Python's `min(n, maxsz)`. */
  function Min(n: int, maxsz: int): int {
    if n < maxsz then n else maxsz
  }

  /** `[min(int(column[idx]), maxsz) for idx ...]` over `rows`. */
  function CappedSizes(rows: seq<Row>, k: Kind, c: nat, maxsz: int): (r: Result<seq<int>, string>)
    requires forall x :: x in rows ==> c < |x.cells|
    ensures r.Failure? <==> exists i :: 0 <= i < |rows| && IntOf(k, rows[i].cells[c]).Failure?
    ensures r.Failure? ==> r.error in {"ValueError", "TypeError"}
    ensures r.Success? ==> |r.value| == |rows|
    ensures r.Success? ==> forall i :: 0 <= i < |rows| ==>
      && r.value[i] <= maxsz
      && r.value[i] <= IntOf(k, rows[i].cells[c]).value
      && (r.value[i] == maxsz || r.value[i] == IntOf(k, rows[i].cells[c]).value)
  {
    if |rows| == 0 then Success([])
    else
      assert rows[0] in rows;
      match IntOf(k, rows[0].cells[c])
      case Failure(e) => Failure(e)
      case Success(n) =>
        match CappedSizes(rows[1..], k, c, maxsz)
        case Failure(e) =>
          assert forall i :: 1 <= i < |rows| ==> rows[i] == rows[1..][i - 1];
          Failure(e)
        case Success(rest) =>
          assert forall i :: 1 <= i < |rows| ==> rows[i] == rows[1..][i - 1];
          Success([if n < maxsz then n else maxsz] + rest)
  }

  /** The sizes of the column named `column`, capped at `maxsz`; the column is
      looked up once per row, so a missing one raises KeyError only when there is
      a row. */
  function MarkerSizes(t: Table, column: string, maxsz: int): (r: Result<seq<int>, string>)
    requires WellFormed(t)
    ensures |t.rows| == 0 ==> r == Success([])
    ensures |t.rows| > 0 && column !in t.columns ==> r == Failure("KeyError")
    ensures r.Success? ==> |r.value| == |t.rows| && forall i :: 0 <= i < |t.rows| ==> r.value[i] <= maxsz
    ensures |t.rows| > 0 && column in t.columns ==>
      && ColumnIndex(t.columns, column).value < |t.kinds|
      && (r.Failure? <==>
            exists i :: 0 <= i < |t.rows| &&
              IntOf(t.kinds[ColumnIndex(t.columns, column).value], t.rows[i].cells[ColumnIndex(t.columns, column).value]).Failure?)
      && (r.Success? ==> forall i :: 0 <= i < |t.rows| ==>
            r.value[i] == Min(IntOf(t.kinds[ColumnIndex(t.columns, column).value], t.rows[i].cells[ColumnIndex(t.columns, column).value]).value, maxsz))
  {
    if |t.rows| == 0 then Success([])
    else match ColumnIndex(t.columns, column)
      case None => Failure("KeyError")
      case Some(c) => CappedSizes(t.rows, t.kinds[c], c, maxsz)
  }

  function IntList(ns: seq<int>): (r: seq<Json>)
    ensures |r| == |ns| && forall i :: 0 <= i < |ns| ==> r[i] == JInt(ns[i])
  {
    seq(|ns|, i requires 0 <= i < |ns| => JInt(ns[i]))
  }

  /** The marker entry of a `scattergeo` dataset: when its `size` names a column,
      a copy whose `size` is the capped sizes of that column; None when `size` is
      not a string (nothing is added). */
  function MarkerData(marker: Json, t: Table): (r: Result<Option<Dict<Json>>, string>)
    requires WellFormed(t)
    requires marker.JObj? && Has(marker.entries, "sizemax") ==> Get(marker.entries, "sizemax").value.JInt?
    ensures !marker.JObj? ==> r == Failure("AttributeError")
    ensures r.Success? && r.value.Some? ==>
      && marker.JObj? && Get(marker.entries, "size").Some? && Get(marker.entries, "size").value.JStr?
      && Keys(r.value.value) == Keys(marker.entries)
      && var size := Get(r.value.value, "size").value;
         var maxsz := if Has(marker.entries, "sizemax") then Get(marker.entries, "sizemax").value.i else DefaultMarkerMaxSize;
         size.JList? && |size.items| == |t.rows| &&
         forall i :: 0 <= i < |size.items| ==> size.items[i].JInt? && size.items[i].i <= maxsz
    ensures r.Success? && r.value.Some? ==>
      forall k :: k != "size" ==> Get(r.value.value, k) == Get(marker.entries, k)
    ensures marker.JObj? ==>
      (r == Success(None) <==> !(Get(marker.entries, "size").Some? && Get(marker.entries, "size").value.JStr?))
    ensures marker.JObj? && Get(marker.entries, "size").Some? && Get(marker.entries, "size").value.JStr? ==>
      var sizes := MarkerSizes(t, Get(marker.entries, "size").value.s,
                               if Has(marker.entries, "sizemax") then Get(marker.entries, "sizemax").value.i else DefaultMarkerMaxSize);
      && (r.Failure? <==> sizes.Failure?)
      && (r.Failure? ==> r.error == sizes.error)
      && (r.Success? ==> r.value.Some? && Get(r.value.value, "size") == Some(JList(IntList(sizes.value))))
  {
    match marker
    case JObj(entries) =>
      var size := Get(entries, "size");
      if size.Some? && size.value.JStr? then
        var maxsz := if Has(entries, "sizemax") then Get(entries, "sizemax").value.i else DefaultMarkerMaxSize;
        match MarkerSizes(t, size.value.s, maxsz)
        case Failure(e) => Failure(e)
        case Success(sizes) => Success(Some(Put(entries, "size", JList(IntList(sizes)))))
      else Success(None)
    case _ => Failure("AttributeError")
  }
}
