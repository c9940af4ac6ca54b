/** The graph helpers of the dashboard: choosing a dataset's axis keys, filling a
    plotly graph config with defaults (`_render_config`), and the JSON values such
    a config is made of. */
module Graphs {
  import opened Wrappers
  import opened Dicts

  /** A JSON-like configuration value. */
  datatype Json =
    | JNull
    | JBool(b: bool)
    | JInt(i: int)
    | JReal(r: real)
    | JStr(s: string)
    | JList(items: seq<Json>)
    | JObj(entries: Dict<Json>)

  /** What `for x in v` goes through: the items of a list, the keys of a dict,
      the characters of a string; None for a value Python cannot iterate. */
  function Iterated(v: Json): (r: Option<seq<Json>>)
    ensures r.None? <==> !(v.JList? || v.JObj? || v.JStr?)
    ensures v.JList? ==> r == Some(v.items)
    ensures v.JObj? ==> r.Some? && |r.value| == |v.entries| && forall i :: 0 <= i < |r.value| ==> r.value[i].JStr?
    ensures v.JStr? ==> r.Some? && |r.value| == |v.s| && forall i :: 0 <= i < |r.value| ==> r.value[i].JStr?
  {
    match v
    case JList(items) => Some(items)
    case JObj(entries) => Some(seq(|entries|, i requires 0 <= i < |entries| => JStr(entries[i].0)))
    case JStr(s) => Some(seq(|s|, i requires 0 <= i < |s| => JStr([s[i]])))
    case _ => None
  }

  // ---- axis keys

  /** The key pairs a dataset can name its axis data with, in order of preference. */
  const KeySets: seq<seq<string>> := [["x", "y"], ["values", "labels"], ["lat", "lon"]]

  /** Every key of `keys` is in the dataset. */
  predicate HasAll(dataset: Dict<Json>, keys: seq<string>) {
    forall i :: 0 <= i < |keys| ==> Has(dataset, keys[i])
  }

  /** The position of the first key set that the dataset holds completely, or
      the number of key sets when none is complete. */
  function FirstComplete(dataset: Dict<Json>, sets: seq<seq<string>>): (j: nat)
    ensures j <= |sets|
    ensures j < |sets| ==> HasAll(dataset, sets[j])
    ensures forall l :: 0 <= l < j ==> !HasAll(dataset, sets[l])
  {
    if |sets| == 0 then 0
    else if HasAll(dataset, sets[0]) then 0
    else 1 + FirstComplete(dataset, sets[1..])
  }

  /** `_get_dataset_axis_labels`: the first of `[x, y]`, `[values, labels]`,
      `[lat, lon]` all of whose keys the dataset has, else `[]`. */
  function AxisLabels(dataset: Dict<Json>): (keys: seq<string>)
    ensures keys == [] <==> forall j :: 0 <= j < |KeySets| ==> !HasAll(dataset, KeySets[j])
    ensures keys != [] ==>
      exists j :: 0 <= j < |KeySets| && keys == KeySets[j] && HasAll(dataset, keys) && (forall l :: 0 <= l < j ==> !HasAll(dataset, KeySets[l]))
  {
    var j := FirstComplete(dataset, KeySets);
    if j < |KeySets| then KeySets[j] else []
  }

  /** Two datasets complete the same key sets, so the same one comes first. */
  lemma {:induction false} FirstCompleteAgree(a: Dict<Json>, b: Dict<Json>, sets: seq<seq<string>>)
    requires forall j :: 0 <= j < |sets| ==> (HasAll(a, sets[j]) <==> HasAll(b, sets[j]))
    ensures FirstComplete(a, sets) == FirstComplete(b, sets)
  {
    if |sets| > 0 && !HasAll(a, sets[0]) {
      assert forall j :: 1 <= j < |sets| ==> sets[1..][j - 1] == sets[j];
      FirstCompleteAgree(a, b, sets[1..]);
    }
  }

  /** A dataset that holds the same keys has the same axis keys. */
  lemma AxisLabelsByKeys(a: Dict<Json>, b: Dict<Json>)
    requires forall k :: Has(a, k) <==> Has(b, k)
    ensures AxisLabels(a) == AxisLabels(b)
  {
    FirstCompleteAgree(a, b, KeySets);
  }

  // ---- _render_config

  /** `DEFAULT_OPTIONS['data']`: the options every dataset gets. */
  const DefaultData: Dict<Json> := [("fill", JStr("tozeroy")), ("line", JObj([("shape", JStr("spline"))]))]

  /** `DEFAULT_OPTIONS['layout']` (its repeated `geo` keys counted once, as the
      dict literal does). */
  const DefaultLayout: Dict<Json> := [
    ("height", JInt(250)),
    ("automargin", JBool(true)),
    ("autosize", JBool(true)),
    ("margin", JObj([("l", JInt(60)), ("r", JInt(20)), ("t", JInt(30)), ("b", JInt(65)), ("pad", JInt(4))])),
    ("plot_bgcolor", JStr("#F5F5F5")),
    ("paper_bgcolor", JStr("rgba(0,0,0,0)")),
    ("geo", JObj([
      ("scope", JStr("world")), ("showland", JBool(true)), ("landcolor", JStr("rgb(217, 217, 217)")),
      ("subunitwidth", JInt(1)), ("countrywidth", JInt(1)), ("subunitcolor", JStr("rgb(255,255,255)")),
      ("countrycolor", JStr("rgb(255,255,255)")), ("showcoastlines", JBool(false)), ("showocean", JBool(true)),
      ("showcountries", JBool(true)), ("showsubunits", JBool(true)), ("resolution", JInt(50)),
      ("showframe", JBool(false))]))
  ]

  /** `DEFAULT_OPTIONS['config']`. */
  const DefaultConfig: Dict<Json> := [("scrollZoom", JBool(true)), ("responsive", JBool(true))]

  /** The config with its `config` entry: the default one when it has none. */
  function WithConfig(config: Dict<Json>): (r: Dict<Json>)
    ensures Get(r, "config") == if Has(config, "config") then Get(config, "config") else Some(JObj(DefaultConfig))
    ensures forall k :: k != "config" ==> Get(r, k) == Get(config, k)
  {
    if Has(config, "config") then config else Put(config, "config", JObj(DefaultConfig))
  }

  /** The config with the default layout filled in; AttributeError when the
      layout is not a dict. */
  function WithLayout(config: Dict<Json>): (r: Result<Dict<Json>, string>)
    requires Has(config, "layout")
    ensures r.Failure? <==> !Get(config, "layout").value.JObj?
    ensures r.Failure? ==> r.error == "AttributeError"
    ensures r.Success? ==> forall k :: k != "layout" ==> Get(r.value, k) == Get(config, k)
    ensures r.Success? ==> Get(r.value, "layout") == Some(JObj(SetDefaults(Get(config, "layout").value.entries, DefaultLayout)))
  {
    match Get(config, "layout").value
    case JObj(layout) => Success(Put(config, "layout", JObj(SetDefaults(layout, DefaultLayout))))
    case _ => Failure("AttributeError")
  }

  /** A dataset with the default options filled in (a non-dict is left as is). */
  function Filled(dataset: Json, defaults: Dict<Json>): Json {
    if dataset.JObj? then JObj(SetDefaults(dataset.entries, defaults)) else dataset
  }

  /** Every dataset with the default options filled in. `setdefault` on an item
      that is not a dict raises AttributeError (once there is a default to set). */
  function FilledDatasets(items: seq<Json>, defaults: Dict<Json>): (r: Result<seq<Json>, string>)
    ensures r.Failure? <==> |defaults| > 0 && exists j :: 0 <= j < |items| && !items[j].JObj?
    ensures r.Failure? ==> r.error == "AttributeError"
    ensures r.Success? ==> |r.value| == |items| && forall j :: 0 <= j < |items| ==> r.value[j] == Filled(items[j], defaults)
  {
    if |defaults| > 0 && exists j :: 0 <= j < |items| && !items[j].JObj? then Failure("AttributeError")
    else Success(seq(|items|, j requires 0 <= j < |items| => Filled(items[j], defaults)))
  }

  /** `config[key] = []` for every key of `keys`, in order. */
  function ClearAxes(config: Dict<Json>, keys: seq<string>): (r: Dict<Json>)
    ensures forall k :: Get(r, k) == if k in keys then Some(JList([])) else Get(config, k)
    ensures |config| <= |r| && forall i :: 0 <= i < |config| ==> r[i].0 == config[i].0
    decreases |keys|
  {
    if |keys| == 0 then config
    else
      var n := |keys| - 1;
      assert keys == keys[..n] + [keys[n]];
      Put(ClearAxes(config, keys[..n]), keys[n], JList([]))
  }

  /** Clearing keys that are already cleared changes nothing. */
  lemma {:induction false} ClearAxesDone(config: Dict<Json>, keys: seq<string>)
    requires forall i :: 0 <= i < |keys| ==> Get(config, keys[i]) == Some(JList([]))
    ensures ClearAxes(config, keys) == config
    decreases |keys|
  {
    if |keys| > 0 {
      ClearAxesDone(config, keys[..|keys| - 1]);
    }
  }

  /** Filling the datasets' defaults a second time changes nothing. */
  lemma FilledTwice(items: seq<Json>, defaults: Dict<Json>)
    requires FilledDatasets(items, defaults).Success?
    ensures FilledDatasets(FilledDatasets(items, defaults).value, defaults) == FilledDatasets(items, defaults)
  {
    var once := FilledDatasets(items, defaults).value;
    forall j | 0 <= j < |items|
      ensures Filled(once[j], defaults) == once[j]
    {
      if items[j].JObj? {
        SetDefaultsTwice(items[j].entries, defaults);
      }
    }
    assert FilledDatasets(once, defaults).value == once;
  }

  /** `_render_config(graph_config)`. None when `data` or `layout` is missing.
      Otherwise a copy with the default `config` when it has none, the default
      layout options where the layout lacks them, and the default options where a
      dataset lacks them; then, for the axis keys of the LAST dataset, an empty
      list at the top level of the config (the inner loop rebinds `dataset`, and
      the keys are set on the config rather than on a dataset). A layout or a
      dataset that is not a dict raises AttributeError, a `data` value that
      cannot be iterated TypeError. */
  function RenderedConfig(config: Dict<Json>): (r: Result<Option<Dict<Json>>, string>)
    ensures r == Success(None) <==> !Has(config, "data") || !Has(config, "layout")
    ensures r.Failure? ==> r.error == "AttributeError" || r.error == "TypeError"
  {
    if !Has(config, "data") || !Has(config, "layout") then Success(None)
    else
      match WithLayout(WithConfig(config))
      case Failure(e) => Failure(e)
      case Success(laid) =>
        match FilledData(laid)
        case Failure(e) => Failure(e)
        case Success(done) => Success(Some(done))
  }

  /** The dataset stage of `_render_config`: TypeError when `data` cannot be
      iterated, else the datasets filled and the last one's axis keys cleared. */
  function FilledData(laid: Dict<Json>): (r: Result<Dict<Json>, string>)
    requires Has(laid, "data")
    ensures r.Failure? ==> r.error == "AttributeError" || r.error == "TypeError"
  {
    match Iterated(Get(laid, "data").value)
    case None => Failure("TypeError")
    case Some(items) =>
      assert |DefaultData| > 0;
      WithDatasets(laid, items, DefaultData)
  }

  /** A rendered config holds the layout filled with the default layout and
      the `config` entry kept or defaulted. */
  lemma RenderedConfigLayout(config: Dict<Json>)
    requires RenderedConfig(config).Success? && RenderedConfig(config).value.Some?
    ensures Has(config, "layout") && Get(config, "layout").value.JObj?
    ensures var r := RenderedConfig(config).value.value;
      && Get(r, "layout") == Some(JObj(SetDefaults(Get(config, "layout").value.entries, DefaultLayout)))
      && Get(r, "config") == (if Has(config, "config") then Get(config, "config") else Some(JObj(DefaultConfig)))
  {
    LaidEntries(config);
    var laid := WithLayout(WithConfig(config)).value;
    var items := Iterated(Get(laid, "data").value).value;
    assert |DefaultData| > 0;
    assert FilledData(laid) == WithDatasets(laid, items, DefaultData);
    var done := WithDatasets(laid, items, DefaultData).value;
    assert RenderedConfig(config) == Success(Some(done));
    WithDatasetsFails(laid, items, DefaultData);
    if |items| > 0 {
      WithDatasetsCleared(laid, items, DefaultData);
      var last := FilledDatasets(items, DefaultData).value[|items| - 1];
      AxisKeysOnly(last.entries);
      ClearedAt(done, laid, AxisLabels(last.entries), [], "layout");
      ClearedAt(done, laid, AxisLabels(last.entries), [], "config");
    }
  }

  /** One entry that is neither `data`, nor excepted, nor an axis key keeps its
      value in a cleared config. */
  lemma ClearedAt(r: Dict<Json>, base: Dict<Json>, axes: seq<string>, other: seq<string>, k: string)
    requires AxesCleared(r, base, axes, other)
    requires k != "data" && k !in other && k !in axes
    ensures Get(r, k) == Get(base, k)
  {
  }

  /** `_render_config` raises exactly when the layout is not a dict, `data` cannot
      be iterated, or one of its datasets is not a dict. */
  lemma RenderedConfigFails(config: Dict<Json>)
    requires Has(config, "data") && Has(config, "layout")
    ensures RenderedConfig(config).Failure? <==>
      || !Get(config, "layout").value.JObj?
      || Iterated(Get(config, "data").value).None?
      || exists j :: 0 <= j < |Iterated(Get(config, "data").value).value| && !Iterated(Get(config, "data").value).value[j].JObj?
  {
    if Get(config, "layout").value.JObj? {
      LaidEntries(config);
      var laid := WithLayout(WithConfig(config)).value;
      if Iterated(Get(laid, "data").value).Some? {
        WithDatasetsFails(laid, Iterated(Get(laid, "data").value).value, DefaultData);
      }
    }
  }

  /** With no datasets `_render_config` keeps the `data` entry and every other
      entry but `layout` and `config`. */
  lemma RenderedConfigEmpty(config: Dict<Json>)
    requires Has(config, "data") && Has(config, "layout") && Get(config, "layout").value.JObj?
    requires Iterated(Get(config, "data").value) == Some([])
    ensures RenderedConfig(config).Success? && RenderedConfig(config).value.Some?
    ensures Get(RenderedConfig(config).value.value, "data") == Get(config, "data")
    ensures AxesCleared(RenderedConfig(config).value.value, config, [], ["layout", "config"])
  {
    LaidEntries(config);
    var laid := WithLayout(WithConfig(config)).value;
    assert |DefaultData| > 0;
    WithDatasetsFails(laid, [], DefaultData);
    ClearedOnConfig(laid, laid, config, []);
  }

  /** With datasets that are all dicts `_render_config` stores them filled under
      `data` and clears the last one's axis keys at the top level; every other
      entry but `layout` and `config` stays. */
  lemma RenderedConfigData(config: Dict<Json>, items: seq<Json>)
    requires Has(config, "data") && Has(config, "layout") && Get(config, "layout").value.JObj?
    requires Iterated(Get(config, "data").value) == Some(items)
    requires |items| > 0 && FilledDatasets(items, DefaultData).Success?
    ensures FilledDatasets(items, DefaultData).value[|items| - 1].JObj?
    ensures RenderedConfig(config).Success? && RenderedConfig(config).value.Some?
    ensures Get(RenderedConfig(config).value.value, "data") == Some(JList(FilledDatasets(items, DefaultData).value))
    ensures AxesCleared(RenderedConfig(config).value.value, config,
      AxisLabels(FilledDatasets(items, DefaultData).value[|items| - 1].entries), ["layout", "config"])
  {
    LaidEntries(config);
    var laid := WithLayout(WithConfig(config)).value;
    assert |DefaultData| > 0;
    var datasets := FilledDatasets(items, DefaultData).value;
    assert FilledData(laid) == WithDatasets(laid, items, DefaultData);
    var done := WithDatasets(laid, items, DefaultData).value;
    WithDatasetsCleared(laid, items, DefaultData);
    assert RenderedConfig(config) == Success(Some(done));
    ClearedOnConfig(done, laid, config, AxisLabels(datasets[|items| - 1].entries));
  }

  /** Clearing measured against the config after its `config` and `layout`
      stages is clearing measured against the config itself, those two entries
      aside. */
  lemma ClearedOnConfig(r: Dict<Json>, laid: Dict<Json>, config: Dict<Json>, axes: seq<string>)
    requires AxesCleared(r, laid, axes, [])
    requires forall k :: k != "layout" && k != "config" ==> Get(laid, k) == Get(config, k)
    ensures AxesCleared(r, config, axes, ["layout", "config"])
  {
  }

  /** The config after its `config` and `layout` stages: those two entries
      filled, every other entry as it was. */
  lemma LaidEntries(config: Dict<Json>)
    requires Has(config, "layout") && WithLayout(WithConfig(config)).Success?
    ensures var laid := WithLayout(WithConfig(config)).value;
      && Get(laid, "layout") == Some(JObj(SetDefaults(Get(config, "layout").value.entries, DefaultLayout)))
      && Get(laid, "config") == (if Has(config, "config") then Get(config, "config") else Some(JObj(DefaultConfig)))
      && forall k :: k != "layout" && k != "config" ==> Get(laid, k) == Get(config, k)
  {
    var c := WithConfig(config);
    assert Get(c, "layout") == Get(config, "layout");
    var laid := WithLayout(c).value;
    forall k | k != "layout" && k != "config"
      ensures Get(laid, k) == Get(config, k)
    {
      assert Get(laid, k) == Get(c, k);
    }
  }

  /** `r` is `base` with an empty list under each of `axes`, apart from its
      `data` entry and the entries of `other`. */
  ghost predicate AxesCleared(r: Dict<Json>, base: Dict<Json>, axes: seq<string>, other: seq<string>) {
    forall k :: k != "data" && k !in other ==> Get(r, k) == if k in axes then Some(JList([])) else Get(base, k)
  }

  /** The end of the dataset stage: the axis keys `axes` cleared at the top
      level, then the filled datasets stored under `data`. */
  function DataStage(laid: Dict<Json>, axes: seq<string>, data: Json): (r: Dict<Json>)
    ensures Get(r, "data") == Some(data)
    ensures AxesCleared(r, laid, axes, [])
  {
    StoredData(ClearAxes(laid, axes), data);
    ClearedThenStored(laid, axes, data);
    Put(ClearAxes(laid, axes), "data", data)
  }

  /** The `data` entry just stored. */
  lemma StoredData(config: Dict<Json>, data: Json)
    ensures Get(Put(config, "data", data), "data") == Some(data)
  {
    var r := Put(config, "data", data);
    assert Get(r, "data") == if "data" == "data" then Some(data) else Get(config, "data");
  }

  /** Storing `data` after clearing the axis keys keeps the clearing. */
  lemma ClearedThenStored(laid: Dict<Json>, axes: seq<string>, data: Json)
    ensures AxesCleared(Put(ClearAxes(laid, axes), "data", data), laid, axes, [])
  {
    var cleared := ClearAxes(laid, axes);
    var r := Put(cleared, "data", data);
    forall k | k != "data"
      ensures Get(r, k) == if k in axes then Some(JList([])) else Get(laid, k)
    {
      assert Get(r, k) == Get(cleared, k);
    }
  }

  /** No key of `defaults` is an axis key. */
  predicate NoAxisKeys(defaults: Dict<Json>) {
    forall j, i :: 0 <= j < |KeySets| && 0 <= i < |KeySets[j]| ==> !Has(defaults, KeySets[j][i])
  }

  /** Filling a dataset with options that are no axis keys does not change its
      axis keys. */
  lemma FilledAxisLabels(entries: Dict<Json>, defaults: Dict<Json>)
    requires NoAxisKeys(defaults)
    ensures AxisLabels(SetDefaults(entries, defaults)) == AxisLabels(entries)
  {
    var filled := SetDefaults(entries, defaults);
    forall j | 0 <= j < |KeySets|
      ensures HasAll(filled, KeySets[j]) <==> HasAll(entries, KeySets[j])
    {
      forall i | 0 <= i < |KeySets[j]|
        ensures Has(filled, KeySets[j][i]) <==> Has(entries, KeySets[j][i])
      {
        assert Get(filled, KeySets[j][i]) == if Has(entries, KeySets[j][i]) then Get(entries, KeySets[j][i]) else Get(defaults, KeySets[j][i]);
      }
    }
    FirstCompleteAgree(filled, entries, KeySets);
  }

  /** The default dataset options are no axis keys. */
  lemma DefaultDataNoAxisKeys()
    ensures NoAxisKeys(DefaultData)
  {
  }

  /** The keys `_render_config` clears are the axis keys of the last dataset as
      the config gives it: the default dataset options add none. */
  lemma ClearedAxesOfLast(items: seq<Json>)
    requires |items| > 0 && FilledDatasets(items, DefaultData).Success?
    ensures items[|items| - 1].JObj?
    ensures FilledDatasets(items, DefaultData).value[|items| - 1].JObj?
    ensures AxisLabels(FilledDatasets(items, DefaultData).value[|items| - 1].entries) == AxisLabels(items[|items| - 1].entries)
  {
    DefaultDataNoAxisKeys();
    FilledAxisLabels(items[|items| - 1].entries, DefaultData);
  }

  /** The axis keys never name the `data`, `layout` or `config` entries. */
  lemma AxisKeysOnly(entries: Dict<Json>)
    ensures forall k :: k in AxisLabels(entries) ==> k != "data" && k != "layout" && k != "config"
  {
  }

  /** The dataset stage of `_render_config` on the config `laid`, whose `data`
      iterates over `items`: nothing to do for no items; otherwise every dataset
      filled and the last one's axis keys cleared at the top level. */
  function WithDatasets(laid: Dict<Json>, items: seq<Json>, defaults: Dict<Json>): (r: Result<Dict<Json>, string>)
    requires |defaults| > 0
    ensures r.Failure? ==> r.error == "AttributeError"
    ensures |items| > 0 && FilledDatasets(items, defaults).Success? ==>
      var datasets := FilledDatasets(items, defaults).value;
      && datasets[|items| - 1].JObj? && r.Success?
      && Get(r.value, "data") == Some(JList(datasets))
      && AxesCleared(r.value, laid, AxisLabels(datasets[|items| - 1].entries), [])
  {
    if |items| == 0 then Success(laid)
    else
      match FilledDatasets(items, defaults)
      case Failure(e) => Failure(e)
      case Success(datasets) =>
        Success(DataStage(laid, AxisLabels(datasets[|items| - 1].entries), JList(datasets)))
  }

  /** The dataset stage fails exactly when a dataset is not a dict, and does
      nothing when there is none. */
  lemma WithDatasetsCleared(laid: Dict<Json>, items: seq<Json>, defaults: Dict<Json>)
    requires |defaults| > 0 && |items| > 0 && FilledDatasets(items, defaults).Success?
    ensures FilledDatasets(items, defaults).value[|items| - 1].JObj?
    ensures WithDatasets(laid, items, defaults).Success?
    ensures AxesCleared(WithDatasets(laid, items, defaults).value, laid, AxisLabels(FilledDatasets(items, defaults).value[|items| - 1].entries), [])
  {
  }

  lemma WithDatasetsFails(laid: Dict<Json>, items: seq<Json>, defaults: Dict<Json>)
    requires |defaults| > 0
    ensures |items| == 0 ==> WithDatasets(laid, items, defaults) == Success(laid)
    ensures WithDatasets(laid, items, defaults).Failure? <==> exists j :: 0 <= j < |items| && !items[j].JObj?
  {
  }

  /** The layout loop: `layout.setdefault(key, DEFAULT_OPTIONS['layout'][key])`
      for every default key, on the config's layout. */
  method FillLayout(config: Dict<Json>) returns (r: Result<Dict<Json>, string>)
    requires Has(config, "layout")
    ensures r == WithLayout(config)
  {
    match Get(config, "layout").value {
      case JObj(entries) =>
        var layout := entries;
        for k := 0 to |DefaultLayout|
          invariant layout == SetDefaults(entries, DefaultLayout[..k])
        {
          assert DefaultLayout[..k + 1][..k] == DefaultLayout[..k];
          layout := SetDefault(layout, DefaultLayout[k].0, DefaultLayout[k].1);
        }
        assert DefaultLayout[..|DefaultLayout|] == DefaultLayout;
        r := Success(Put(config, "layout", JObj(layout)));
      case _ =>
        r := Failure("AttributeError");
    }
  }

  /** One pass of the innermost loop: `dataset.setdefault(key, value)` on every
      dataset in turn; AttributeError at the first one that is not a dict. */
  method SetDefaultEach(datasets: seq<Json>, key: string, value: Json) returns (r: Result<seq<Json>, string>)
    ensures r.Failure? <==> exists j :: 0 <= j < |datasets| && !datasets[j].JObj?
    ensures r.Failure? ==> r.error == "AttributeError"
    ensures r.Success? ==> |r.value| == |datasets|
    ensures r.Success? ==> forall j :: 0 <= j < |datasets| ==> r.value[j] == JObj(SetDefault(datasets[j].entries, key, value))
  {
    var out := datasets;
    for j := 0 to |datasets|
      invariant |out| == |datasets|
      invariant forall l :: 0 <= l < j ==> datasets[l].JObj? && out[l] == JObj(SetDefault(datasets[l].entries, key, value))
      invariant forall l :: j <= l < |datasets| ==> out[l] == datasets[l]
    {
      match out[j] {
        case JObj(entries) =>
          out := out[j := JObj(SetDefault(entries, key, value))];
        case _ =>
          return Failure("AttributeError");
      }
    }
    r := Success(out);
  }

  /** The dataset loops: for every default key, `dataset.setdefault(key, ...)` on
      every dataset in turn. */
  method FillDatasets(items: seq<Json>, defaults: Dict<Json>) returns (r: Result<seq<Json>, string>)
    ensures r == FilledDatasets(items, defaults)
  {
    var datasets := items;
    for k := 0 to |defaults|
      invariant |datasets| == |items|
      invariant k > 0 ==> forall j :: 0 <= j < |items| ==> items[j].JObj?
      invariant forall j :: 0 <= j < |items| ==> datasets[j] == Filled(items[j], defaults[..k])
    {
      var next := SetDefaultEach(datasets, defaults[k].0, defaults[k].1);
      if next.Failure? {
        assert forall j :: 0 <= j < |items| ==> (datasets[j].JObj? <==> items[j].JObj?);
        return next;
      }
      assert defaults[..k + 1][..k] == defaults[..k];
      datasets := next.value;
    }
    assert defaults[..|defaults|] == defaults;
    assert datasets == FilledDatasets(items, defaults).value;
    r := Success(datasets);
  }

  /** `rendered_config[axis_key] = []` for each axis key. */
  method ClearAxisKeys(config: Dict<Json>, keys: seq<string>) returns (r: Dict<Json>)
    ensures r == ClearAxes(config, keys)
  {
    r := config;
    for a := 0 to |keys|
      invariant r == ClearAxes(config, keys[..a])
    {
      assert keys[..a + 1][..a] == keys[..a];
      r := Put(r, keys[a], JList([]));
    }
    assert keys[..|keys|] == keys;
  }

  /** The state after one pass or more over `items`: every dataset filled, and the
      last one's axis keys cleared in `start`. */
  predicate Passed(start: Dict<Json>, items: seq<Json>, datasets: seq<Json>, rendered: Dict<Json>) {
    && FilledDatasets(items, DefaultData) == Success(datasets)
    && |datasets| > 0
    && (forall j :: 0 <= j < |datasets| ==> datasets[j].JObj?)
    && rendered == ClearAxes(start, AxisLabels(datasets[|datasets| - 1].entries))
  }

  /** After a pass, the dataset stage is the pass's state with the datasets
      stored under `data`. */
  lemma WithDatasetsPassed(start: Dict<Json>, items: seq<Json>, datasets: seq<Json>, rendered: Dict<Json>)
    requires Passed(start, items, datasets, rendered)
    ensures WithDatasets(start, items, DefaultData) == Success(Put(rendered, "data", JList(datasets)))
  {
    assert |DefaultData| > 0;
    assert |items| == |datasets| > 0;
  }

  /** A pass after the first changes nothing: the datasets are filled already and
      the axis keys already cleared. */
  lemma PassAgain(start: Dict<Json>, items: seq<Json>, datasets: seq<Json>, rendered: Dict<Json>)
    requires Passed(start, items, datasets, rendered)
    ensures FilledDatasets(datasets, DefaultData) == Success(datasets)
    ensures ClearAxes(rendered, AxisLabels(datasets[|datasets| - 1].entries)) == rendered
  {
    FilledTwice(items, DefaultData);
    var axes := AxisLabels(datasets[|datasets| - 1].entries);
    forall l | 0 <= l < |axes| ensures Get(rendered, axes[l]) == Some(JList([])) {
      assert axes[l] in axes;
    }
    ClearAxesDone(rendered, axes);
  }

  /** The first pass of the loop over the datasets: every dataset's defaults
      filled, then the last dataset's axis keys cleared at the top level. */
  method FirstPass(start: Dict<Json>, items: seq<Json>) returns (r: Result<(seq<Json>, Dict<Json>), string>)
    requires |items| > 0
    ensures r.Failure? ==> WithDatasets(start, items, DefaultData) == Failure(r.error)
    ensures r.Success? ==> Passed(start, items, r.value.0, r.value.1)
  {
    var filled := FillDatasets(items, DefaultData);
    if filled.Failure? {
      return Failure(filled.error);
    }
    assert |DefaultData| > 0;
    var datasets := filled.value;
    // after the inner loops `dataset` is the last one
    var cleared := ClearAxisKeys(start, AxisLabels(datasets[|datasets| - 1].entries));
    r := Success((datasets, cleared));
  }

  /** A later pass of the loop over the datasets finds everything done already. */
  method LaterPass(start: Dict<Json>, items: seq<Json>, datasets: seq<Json>, rendered: Dict<Json>)
    returns (r: Result<(seq<Json>, Dict<Json>), string>)
    requires Passed(start, items, datasets, rendered)
    ensures r == Success((datasets, rendered))
  {
    PassAgain(start, items, datasets, rendered);
    var filled := FillDatasets(datasets, DefaultData);
    if filled.Failure? {
      assert false;
    }
    var cleared := ClearAxisKeys(rendered, AxisLabels(filled.value[|filled.value| - 1].entries));
    r := Success((filled.value, cleared));
  }

  /** The loop over the datasets: each pass fills the defaults of every dataset
      and clears the last dataset's axis keys at the top level. */
  method FillAndClear(start: Dict<Json>, items: seq<Json>) returns (r: Result<Dict<Json>, string>)
    ensures r == WithDatasets(start, items, DefaultData)
  {
    var datasets := items;
    var rendered := start;
    for i := 0 to |items|
      invariant i == 0 ==> datasets == items && rendered == start
      invariant i > 0 ==> Passed(start, items, datasets, rendered)
    {
      var pass;
      if i == 0 {
        pass := FirstPass(start, items);
      } else {
        pass := LaterPass(start, items, datasets, rendered);
      }
      if pass.Failure? {
        return Failure(pass.error);
      }
      datasets, rendered := pass.value.0, pass.value.1;
    }
    assert |DefaultData| > 0;
    WithDatasetsFails(start, items, DefaultData);
    if |items| > 0 {
      WithDatasetsPassed(start, items, datasets, rendered);
      // the datasets were updated in place inside the copy's `data` list
      rendered := Put(rendered, "data", JList(datasets));
    }
    r := Success(rendered);
  }

  /** The config and layout defaults: the default `config` when there is none,
      else a first pass of the layout defaults; then the layout defaults. */
  method FillConfigAndLayout(graphConfig: Dict<Json>) returns (r: Result<Dict<Json>, string>)
    requires Has(graphConfig, "layout")
    ensures r == WithLayout(WithConfig(graphConfig))
  {
    var rendered := graphConfig;
    assert Get(WithConfig(graphConfig), "layout") == Get(graphConfig, "layout");
    if !Has(rendered, "config") {
      rendered := Put(rendered, "config", JObj(DefaultConfig));
    } else {
      var once := FillLayout(rendered);
      if once.Failure? {
        return once;
      }
      rendered := once.value;
      assert Get(rendered, "layout").Some?;
      // the second pass over the layout finds every default already there
      SetDefaultsTwice(Get(graphConfig, "layout").value.entries, DefaultLayout);
    }
    r := FillLayout(rendered);
  }

  /** `_render_config`, loop by loop. The input is a value, so the deep copy the
      source takes is the parameter itself and the caller's config never changes. */
  method RenderConfig(graphConfig: Dict<Json>) returns (r: Result<Option<Dict<Json>>, string>)
    ensures r == RenderedConfig(graphConfig)
  {
    var required := ["data", "layout"];
    for i := 0 to |required|
      invariant forall l :: 0 <= l < i ==> Has(graphConfig, required[l])
    {
      if !Has(graphConfig, required[i]) {
        return Success(None);
      }
    }
    assert Has(graphConfig, required[0]) && Has(graphConfig, required[1]);
    var laid := FillConfigAndLayout(graphConfig);
    if laid.Failure? {
      return Failure(laid.error);
    }
    var rendered := laid.value;
    var data := Iterated(Get(rendered, "data").value);
    if data.None? {
      return Failure("TypeError");
    }
    var done := FillAndClear(rendered, data.value);
    if done.Failure? {
      return Failure(done.error);
    }
    r := Success(Some(done.value));
  }
}
