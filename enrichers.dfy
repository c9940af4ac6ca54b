/** Custom log enrichers (`LogEnrichers`): plugins loaded from the configured
    list, each run once on every parsed record in list order. */
module Enrichers {
  import opened Wrappers
  import opened Text
  import opened Values
  import opened WebLogData

  /** One write an `enrich_log` call makes on the record: `add_aux_info(name,
      value)`, or a direct assignment `log_data._data[key] = value`, the way left
      open for updating a core field. */
  datatype Edit = AuxInfo(name: string, value: Value) | DataItem(key: string, value: Value)

  /** What one `enrich_log` call on a record does: the writes it makes, in order,
      and whether it then raises. */
  datatype PluginRun = PluginRun(edits: seq<Edit>, raises: bool)

  /** A loaded plugin, seen through what its `enrich_log` does to a record with
      the given fields. */
  datatype Plugin = Plugin(enrich: map<string, Value> -> PluginRun)

  /** The object the configured class builds: whether its class derives from
      `LogEnricherPlugin`, and how it enriches. */
  datatype Instance = Instance(isPluginSubclass: bool, plugin: Plugin)

  /** Importing the file and calling the class: an object, or the exception raised
      on the way (missing file, missing class, failing constructor). */
  datatype Instantiation = Created(obj: Instance) | Raised(error: string)

  /** One entry of `LOG_ENRICHERS`. */
  datatype EnricherEntry = EnricherEntry(classPath: string, className: string, config: map<string, Value>)

  /** Loading and instantiating a class from a file, a foreign step here. */
  type Loader = (string, string, map<string, Value>) -> Instantiation

  /** The file an entry is loaded from: the enrichers root, a slash, the entry's
      `class_path`. */
  function PluginPath(root: string, classPath: string): (path: string)
    ensures StartsWith(path, root + "/") && EndsWith(path, classPath)
    ensures |path| == |root| + 1 + |classPath|
  {
    var path := root + "/" + classPath;
    assert path[..|root| + 1] == root + "/";
    assert path[|path| - |classPath|..] == classPath;
    path
  }

  /** `_load__and_create_enricher`: the instantiated plugin, or the exception. An
      object whose class does not derive from `LogEnricherPlugin` is refused. */
  function CreateEnricher(path: string, className: string, config: map<string, Value>, load: Loader): (r: Result<Plugin, string>)
    ensures r.Success? <==> load(path, className, config).Created? && load(path, className, config).obj.isPluginSubclass
    ensures r.Success? ==> r.value == load(path, className, config).obj.plugin
    ensures load(path, className, config).Created? && r.Failure? ==> r.error == "Not a subclass of LogEnricherPlugin"
  {
    match load(path, className, config)
    case Raised(e) => Failure(e)
    case Created(obj) =>
      if obj.isPluginSubclass then Success(obj.plugin)
      else Failure("Not a subclass of LogEnricherPlugin")
  }

  /** What creating each configured entry gives, in configuration order. */
  function Outcomes(root: string, entries: seq<EnricherEntry>, load: Loader): (outs: seq<Result<Plugin, string>>)
    ensures |outs| == |entries|
    ensures forall i :: 0 <= i < |entries| ==>
      outs[i] == CreateEnricher(PluginPath(root, entries[i].classPath), entries[i].className, entries[i].config, load)
  {
    seq(|entries|, i requires 0 <= i < |entries| =>
      CreateEnricher(PluginPath(root, entries[i].classPath), entries[i].className, entries[i].config, load))
  }

  /** The plugins among `outs`, in order. */
  function Successes(outs: seq<Result<Plugin, string>>): seq<Plugin> {
    if |outs| == 0 then []
    else (if outs[0].Success? then [outs[0].value] else []) + Successes(outs[1..])
  }

  predicate AllCreated(outs: seq<Result<Plugin, string>>) {
    forall i :: 0 <= i < |outs| ==> outs[i].Success?
  }

  /** The plugin list `_load_enrichers` builds, entries that fail to load skipped. */
  function Loaded(root: string, entries: seq<EnricherEntry>, load: Loader): seq<Plugin> {
    Successes(Outcomes(root, entries, load))
  }

  /** `_load_enrichers` as written: the handler of a failing entry calls `self.log`,
      which is not set yet, so the AttributeError it raises ends the construction. */
  function LoadedAsWritten(root: string, entries: seq<EnricherEntry>, load: Loader): Result<seq<Plugin>, string> {
    if AllCreated(Outcomes(root, entries, load)) then Success(Loaded(root, entries, load))
    else Failure("AttributeError")
  }

  /** Keeping the plugins of a list split in two keeps each part's plugins, in
      order: loaded plugins follow the configured order. */
  lemma {:induction false} SuccessesAppend(xs: seq<Result<Plugin, string>>, ys: seq<Result<Plugin, string>>)
    ensures Successes(xs + ys) == Successes(xs) + Successes(ys)
  {
    if |xs| > 0 {
      assert (xs + ys)[1..] == xs[1..] + ys;
      SuccessesAppend(xs[1..], ys);
    } else {
      assert xs + ys == ys;
    }
  }

  /** When every entry loads, the i-th plugin is the i-th entry's. */
  lemma {:induction false} SuccessesAllCreated(outs: seq<Result<Plugin, string>>)
    requires AllCreated(outs)
    ensures |Successes(outs)| == |outs|
    ensures forall i :: 0 <= i < |outs| ==> Successes(outs)[i] == outs[i].value
  {
    if |outs| > 0 {
      SuccessesAllCreated(outs[1..]);
    }
  }

  /** Every kept plugin comes from one of the outcomes. */
  lemma {:induction false} SuccessesFromOutcomes(outs: seq<Result<Plugin, string>>)
    ensures forall p :: p in Successes(outs) ==> Success(p) in outs
  {
    if |outs| > 0 {
      SuccessesFromOutcomes(outs[1..]);
      assert forall x :: x in outs[1..] ==> x in outs;
    }
  }

  /** `_load_enrichers` as written, the loop over `LOG_ENRICHERS`. */
  method LoadEnrichersAsWritten(root: string, entries: seq<EnricherEntry>, load: Loader) returns (r: Result<seq<Plugin>, string>)
    ensures r == LoadedAsWritten(root, entries, load)
  {
    var plugins: seq<Plugin> := [];
    var i := 0;
    while i < |entries|
      invariant 0 <= i <= |entries|
      invariant AllCreated(Outcomes(root, entries, load)[..i])
      invariant plugins == Successes(Outcomes(root, entries, load)[..i])
    {
      var path := PluginPath(root, entries[i].classPath);
      var created := CreateEnricher(path, entries[i].className, entries[i].config, load);
      ghost var outs := Outcomes(root, entries, load);
      assert outs[..i + 1] == outs[..i] + [outs[i]];
      SuccessesAppend(outs[..i], [outs[i]]);
      if created.Failure? {
        assert !AllCreated(outs);
        return Failure("AttributeError");
      }
      plugins := plugins + [created.value];
      i := i + 1;
    }
    assert Outcomes(root, entries, load)[..i] == Outcomes(root, entries, load);
    r := Success(plugins);
  }

  /** `_load_enrichers` as its handler means it: a failing entry is reported and
      skipped, the others are kept in configuration order. */
  method LoadEnrichers(root: string, entries: seq<EnricherEntry>, load: Loader) returns (plugins: seq<Plugin>)
    ensures plugins == Loaded(root, entries, load)
  {
    plugins := [];
    var i := 0;
    while i < |entries|
      invariant 0 <= i <= |entries|
      invariant plugins == Successes(Outcomes(root, entries, load)[..i])
    {
      var path := PluginPath(root, entries[i].classPath);
      var created := CreateEnricher(path, entries[i].className, entries[i].config, load);
      ghost var outs := Outcomes(root, entries, load);
      assert outs[..i + 1] == outs[..i] + [outs[i]];
      SuccessesAppend(outs[..i], [outs[i]]);
      if created.Success? {
        plugins := plugins + [created.value];
      }
      i := i + 1;
    }
    assert Outcomes(root, entries, load)[..i] == Outcomes(root, entries, load);
  }

  /** One configured class that fails to load: the loader as written raises, the
      intended one carries on with no plugin. */
  lemma OneBadEntry(root: string, e: EnricherEntry, load: Loader)
    requires load(PluginPath(root, e.classPath), e.className, e.config).Raised?
    ensures LoadedAsWritten(root, [e], load) == Failure("AttributeError")
    ensures Loaded(root, [e], load) == []
  {
    var outs := Outcomes(root, [e], load);
    assert outs[0].Failure?;
    assert outs[1..] == [] && Successes(outs[1..]) == [];
    assert Successes(outs) == [];
  }

  /** Where nothing fails the two loaders agree, plugin for entry. */
  lemma AllLoadAgree(root: string, entries: seq<EnricherEntry>, load: Loader)
    requires AllCreated(Outcomes(root, entries, load))
    ensures LoadedAsWritten(root, entries, load) == Success(Loaded(root, entries, load))
    ensures |Loaded(root, entries, load)| == |entries|
    ensures forall i :: 0 <= i < |entries| ==>
      Loaded(root, entries, load)[i] == load(PluginPath(root, entries[i].classPath), entries[i].className, entries[i].config).obj.plugin
  {
    SuccessesAllCreated(Outcomes(root, entries, load));
  }

  /** The key an edit writes: `aux_<name>` for `add_aux_info`, the key itself for
      a direct write. */
  function EditKey(e: Edit): string {
    match e
    case AuxInfo(name, _) => AuxPrefix + name
    case DataItem(key, _) => key
  }

  /** The keys and fields after the writes `edits`, made in order. */
  function ApplyEdits(keys: seq<string>, fields: map<string, Value>, edits: seq<Edit>): (seq<string>, map<string, Value>)
    decreases |edits|
  {
    if |edits| == 0 then (keys, fields)
    else
      var next := WithItem(keys, fields, EditKey(edits[0]), edits[0].value);
      ApplyEdits(next.0, next.1, edits[1..])
  }

  /** A record after the plugins ran on it: its keys and fields, and the position of
      the plugin that raised, if one did (later plugins do not run). */
  datatype Outcome = Outcome(keys: seq<string>, fields: map<string, Value>, raisedAt: Option<nat>)

  /** The plugins from position `i` on, run in order on a record with these keys
      and fields, up to the first that raises. */
  function RunFrom(keys: seq<string>, fields: map<string, Value>, plugins: seq<Plugin>, i: nat): Outcome
    decreases |plugins| - i
  {
    if i >= |plugins| then Outcome(keys, fields, None)
    else
      var run := plugins[i].enrich(fields);
      var after := ApplyEdits(keys, fields, run.edits);
      if run.raises then Outcome(after.0, after.1, Some(i))
      else RunFrom(after.0, after.1, plugins, i + 1)
  }

  /** Running from position `i`: the plugin there writes on the record, then
      either raises or hands the record on to the next position. */
  lemma RunFromStep(keys: seq<string>, fields: map<string, Value>, plugins: seq<Plugin>, i: nat,
                    after: (seq<string>, map<string, Value>), raises: bool)
    requires i < |plugins|
    requires after == ApplyEdits(keys, fields, plugins[i].enrich(fields).edits)
    requires raises == plugins[i].enrich(fields).raises
    ensures RunFrom(keys, fields, plugins, i) ==
      if raises then Outcome(after.0, after.1, Some(i)) else RunFrom(after.0, after.1, plugins, i + 1)
  {
  }

  /** Every plugin, in list order, on a record with these keys and fields. */
  function RunPlugins(keys: seq<string>, fields: map<string, Value>, plugins: seq<Plugin>): Outcome {
    RunFrom(keys, fields, plugins, 0)
  }

  /** Plugins appended after a run that raised change nothing; after one that did
      not, they run on the record it left. */
  lemma {:induction false} RunFromAppend(keys: seq<string>, fields: map<string, Value>, plugins: seq<Plugin>, more: seq<Plugin>, i: nat)
    requires i <= |plugins|
    ensures var o := RunFrom(keys, fields, plugins, i);
      RunFrom(keys, fields, plugins + more, i) ==
        if o.raisedAt.Some? then o else RunFrom(o.keys, o.fields, plugins + more, |plugins|)
    decreases |plugins| - i
  {
    if i < |plugins| {
      assert (plugins + more)[i] == plugins[i];
      var run := plugins[i].enrich(fields);
      var after := ApplyEdits(keys, fields, run.edits);
      if !run.raises {
        RunFromAppend(after.0, after.1, plugins, more, i + 1);
      }
    }
  }

  /** One more plugin after a run that has not raised: its writes land on the
      record as the earlier plugins left it, and it raises at its own position. */
  lemma RunPluginsStep(keys: seq<string>, fields: map<string, Value>, plugins: seq<Plugin>, p: Plugin)
    requires RunPlugins(keys, fields, plugins).raisedAt.None?
    ensures var o := RunPlugins(keys, fields, plugins);
      var run := p.enrich(o.fields);
      var after := ApplyEdits(o.keys, o.fields, run.edits);
      RunPlugins(keys, fields, plugins + [p]) == Outcome(after.0, after.1, if run.raises then Some(|plugins|) else None)
  {
    RunFromAppend(keys, fields, plugins, [p], 0);
    var o := RunPlugins(keys, fields, plugins);
    assert (plugins + [p])[|plugins|] == p;
    var run := p.enrich(o.fields);
    var after := ApplyEdits(o.keys, o.fields, run.edits);
    if !run.raises {
      assert RunFrom(after.0, after.1, plugins + [p], |plugins| + 1) == Outcome(after.0, after.1, None);
    }
  }

  /** Once a plugin raised, the later ones change nothing. */
  lemma RaisedSticks(keys: seq<string>, fields: map<string, Value>, plugins: seq<Plugin>, more: seq<Plugin>)
    requires RunPlugins(keys, fields, plugins).raisedAt.Some?
    ensures RunPlugins(keys, fields, plugins + more) == RunPlugins(keys, fields, plugins)
  {
    RunFromAppend(keys, fields, plugins, more, 0);
  }

  /** No direct write of the edits targets a `LOG_INFOS` field. */
  predicate NoCoreWrite(edits: seq<Edit>) {
    forall i :: 0 <= i < |edits| ==> edits[i].DataItem? ==> edits[i].key !in LogInfos
  }

  /** The plugin, on any record, writes no core field directly: the fields are
      "not meant to be altered". */
  ghost predicate KeepsCore(p: Plugin) {
    forall f :: NoCoreWrite(p.enrich(f).edits)
  }

  ghost predicate AllKeepCore(plugins: seq<Plugin>) {
    forall i :: 0 <= i < |plugins| ==> KeepsCore(plugins[i])
  }

  /** A key no edit writes keeps its value. */
  lemma {:induction false} UnwrittenKept(keys: seq<string>, fields: map<string, Value>, edits: seq<Edit>, k: string)
    requires k in fields
    requires forall i :: 0 <= i < |edits| ==> EditKey(edits[i]) != k
    ensures k in ApplyEdits(keys, fields, edits).1 && ApplyEdits(keys, fields, edits).1[k] == fields[k]
    decreases |edits|
  {
    if |edits| > 0 {
      var next := WithItem(keys, fields, EditKey(edits[0]), edits[0].value);
      assert forall i :: 0 <= i < |edits| - 1 ==> edits[1..][i] == edits[i + 1];
      UnwrittenKept(next.0, next.1, edits[1..], k);
    }
  }

  /** Edits without a direct core write never touch a `LOG_INFOS` field:
      `add_aux_info` only writes `aux_` keys. */
  lemma EditsKeepCore(keys: seq<string>, fields: map<string, Value>, edits: seq<Edit>)
    requires NoCoreWrite(edits)
    ensures forall k :: k in LogInfos && k in fields ==> k in ApplyEdits(keys, fields, edits).1 && ApplyEdits(keys, fields, edits).1[k] == fields[k]
  {
    forall k | k in LogInfos && k in fields
      ensures k in ApplyEdits(keys, fields, edits).1 && ApplyEdits(keys, fields, edits).1[k] == fields[k]
    {
      forall i | 0 <= i < |edits|
        ensures EditKey(edits[i]) != k
      {
        if edits[i].AuxInfo? {
          NoLogInfoIsAux(edits[i].name);
        }
      }
      UnwrittenKept(keys, fields, edits, k);
    }
  }

  /** A direct write stays in the record unless a later edit writes the same key:
      a plugin that assigns `_data[k]` for a core field `k` does change it. */
  lemma LastWriteStays(keys: seq<string>, fields: map<string, Value>, k: string, v: Value, edits: seq<Edit>)
    requires forall i :: 0 <= i < |edits| ==> EditKey(edits[i]) != k
    ensures k in ApplyEdits(keys, fields, [DataItem(k, v)] + edits).1
    ensures ApplyEdits(keys, fields, [DataItem(k, v)] + edits).1[k] == v
  {
    var next := WithItem(keys, fields, k, v);
    assert ([DataItem(k, v)] + edits)[1..] == edits;
    UnwrittenKept(next.0, next.1, edits, k);
  }

  /** Plugins that write no core field directly, from position `i` on, leave the
      required fields as the record had them. */
  lemma {:induction false} RunKeepsCore(keys: seq<string>, fields: map<string, Value>, plugins: seq<Plugin>, i: nat)
    requires AllKeepCore(plugins)
    ensures forall k :: k in LogInfos && k in fields ==>
      k in RunFrom(keys, fields, plugins, i).fields && RunFrom(keys, fields, plugins, i).fields[k] == fields[k]
    decreases |plugins| - i
  {
    if i < |plugins| {
      var run := plugins[i].enrich(fields);
      assert KeepsCore(plugins[i]);
      EditsKeepCore(keys, fields, run.edits);
      var after := ApplyEdits(keys, fields, run.edits);
      if !run.raises {
        RunKeepsCore(after.0, after.1, plugins, i + 1);
      }
    }
  }

  /** Enrichment by plugins that write no core field directly leaves the 17
      required fields as the record had them. */
  lemma PluginsKeepCore(keys: seq<string>, fields: map<string, Value>, plugins: seq<Plugin>)
    requires AllKeepCore(plugins)
    ensures forall k :: k in LogInfos && k in fields ==>
      k in RunPlugins(keys, fields, plugins).fields && RunPlugins(keys, fields, plugins).fields[k] == fields[k]
  {
    RunKeepsCore(keys, fields, plugins, 0);
  }

  /** The keys the edits write, in order. */
  function KeysWritten(edits: seq<Edit>): seq<string> {
    seq(|edits|, i requires 0 <= i < |edits| => EditKey(edits[i]))
  }

  /** The keys after some writes depend on the keys written alone. */
  lemma {:induction false} EditsKeysByKey(keys: seq<string>, f: map<string, Value>, g: map<string, Value>,
                                          xs: seq<Edit>, ys: seq<Edit>)
    requires KeysWritten(xs) == KeysWritten(ys)
    ensures ApplyEdits(keys, f, xs).0 == ApplyEdits(keys, g, ys).0
    decreases |xs|
  {
    if |xs| > 0 {
      assert |ys| == |xs| && EditKey(xs[0]) == KeysWritten(xs)[0] == KeysWritten(ys)[0] == EditKey(ys[0]);
      var nx := WithItem(keys, f, EditKey(xs[0]), xs[0].value);
      var ny := WithItem(keys, g, EditKey(ys[0]), ys[0].value);
      assert forall i :: 0 <= i < |xs| - 1 ==> KeysWritten(xs[1..])[i] == KeysWritten(xs)[i + 1];
      assert forall i :: 0 <= i < |ys| - 1 ==> KeysWritten(ys[1..])[i] == KeysWritten(ys)[i + 1];
      assert KeysWritten(xs[1..]) == KeysWritten(ys[1..]);
      EditsKeysByKey(nx.0, nx.1, ny.1, xs[1..], ys[1..]);
    }
  }

  /** The plugin writes the same fields, in the same order, on every record and
      never raises: the duty the plugin base class documents ("all logs must be
      added a value for the additional fields"). */
  ghost predicate Uniform(p: Plugin) {
    && (forall f :: !p.enrich(f).raises)
    && (forall f, g :: KeysWritten(p.enrich(f).edits) == KeysWritten(p.enrich(g).edits))
  }

  /** Uniform plugins from position `i` on, run on two records with the same keys,
      raise on neither and leave them with the same keys. */
  lemma {:induction false} UniformRunSameKeys(keys: seq<string>, f: map<string, Value>, g: map<string, Value>, plugins: seq<Plugin>, i: nat)
    requires forall j :: 0 <= j < |plugins| ==> Uniform(plugins[j])
    ensures RunFrom(keys, f, plugins, i).raisedAt.None?
    ensures RunFrom(keys, f, plugins, i).keys == RunFrom(keys, g, plugins, i).keys
    decreases |plugins| - i
  {
    if i < |plugins| {
      var p := plugins[i];
      assert Uniform(p);
      var rf, rg := p.enrich(f), p.enrich(g);
      assert !rf.raises && !rg.raises;
      assert KeysWritten(rf.edits) == KeysWritten(rg.edits);
      EditsKeysByKey(keys, f, g, rf.edits, rg.edits);
      var af, ag := ApplyEdits(keys, f, rf.edits), ApplyEdits(keys, g, rg.edits);
      UniformRunSameKeys(af.0, af.1, ag.1, plugins, i + 1);
    }
  }

  /** Records that start with the same keys and go through uniform plugins end with
      the same keys, so every row of the dataset has the first row's columns. */
  lemma UniformPluginsSameKeys(keys: seq<string>, f: map<string, Value>, g: map<string, Value>, plugins: seq<Plugin>)
    requires forall i :: 0 <= i < |plugins| ==> Uniform(plugins[i])
    ensures RunPlugins(keys, f, plugins).raisedAt.None?
    ensures RunPlugins(keys, f, plugins).keys == RunPlugins(keys, g, plugins).keys
  {
    UniformRunSameKeys(keys, f, g, plugins, 0);
  }

  /** The positions 0 .. n-1: which plugins a record went through, in order. */
  function Upto(n: nat): (s: seq<nat>)
    ensures |s| == n && forall i :: 0 <= i < n ==> s[i] == i
  {
    seq(n, i requires 0 <= i < n => i)
  }

  lemma UptoNext(n: nat)
    ensures Upto(n + 1) == Upto(n) + [n]
  {
    assert forall i :: 0 <= i < n ==> Upto(n + 1)[i] == (Upto(n) + [n])[i];
  }

  /** The writes of one plugin run, made on the record in turn. */
  method ApplyRun(log: WebLogData, edits: seq<Edit>)
    requires log.Valid()
    modifies log`keys, log`fields
    ensures log.Valid()
    ensures (log.keys, log.fields) == ApplyEdits(old(log.keys), old(log.fields), edits)
  {
    var j := 0;
    while j < |edits|
      invariant 0 <= j <= |edits|
      invariant log.Valid()
      invariant ApplyEdits(log.keys, log.fields, edits[j..]) == ApplyEdits(old(log.keys), old(log.fields), edits)
    {
      ghost var before := (log.keys, log.fields);
      match edits[j] {
        case AuxInfo(name, value) => log.AddAuxInfo(name, value);
        case DataItem(key, value) => log.SetItem(key, value);
      }
      assert edits[j..][0] == edits[j] && edits[j..][1..] == edits[j + 1..];
      assert (log.keys, log.fields) == WithItem(before.0, before.1, EditKey(edits[j]), edits[j].value);
      j := j + 1;
    }
  }

  class LogEnrichers {
    /** `_enrichers`, fixed when the object is built. */
    const enrichers: seq<Plugin>
    /** The positions of the plugins whose `enrich_log` has been called, one entry
        per call, oldest first. */
    ghost var invoked: seq<nat>

    /** `LogEnrichers(config)`, with entries that fail to load skipped. */
    constructor (root: string, entries: seq<EnricherEntry>, load: Loader)
      ensures enrichers == Loaded(root, entries, load)
      ensures invoked == []
    {
      var plugins := LoadEnrichers(root, entries, load);
      enrichers := plugins;
      invoked := [];
    }

    /** `self._enrichers[i].enrich_log(log_data)`: the plugin's writes on the
        record, and whether it raised afterwards. */
    method Invoke(log: WebLogData, i: nat) returns (raises: bool)
      requires log.Valid() && i < |enrichers|
      modifies log`keys, log`fields, this`invoked
      ensures log.Valid()
      ensures invoked == old(invoked) + [i]
      ensures var run := enrichers[i].enrich(old(log.fields));
        && raises == run.raises
        && (log.keys, log.fields) == ApplyEdits(old(log.keys), old(log.fields), run.edits)
    {
      var run := enrichers[i].enrich(log.fields);
      invoked := invoked + [i];
      ApplyRun(log, run.edits);
      raises := run.raises;
    }

    /** `enrich_log(log_data)`: every plugin, in list order, once; a plugin that
        raises ends the loop and the exception reaches the caller (`raisedAt`). */
    method EnrichLog(log: WebLogData) returns (raisedAt: Option<nat>)
      requires log.Valid()
      modifies log`keys, log`fields, this`invoked
      ensures log.Valid()
      ensures RunPlugins(old(log.keys), old(log.fields), enrichers) == Outcome(log.keys, log.fields, raisedAt)
      ensures invoked == old(invoked) + Upto(if raisedAt.Some? then raisedAt.value + 1 else |enrichers|)
    {
      var i := 0;
      while i < |enrichers|
        invariant 0 <= i <= |enrichers|
        invariant log.Valid()
        invariant RunFrom(log.keys, log.fields, enrichers, i) == RunPlugins(old(log.keys), old(log.fields), enrichers)
        invariant invoked == old(invoked) + Upto(i)
      {
        UptoNext(i);
        ghost var ks, fs := log.keys, log.fields;
        var raises := Invoke(log, i);
        RunFromStep(ks, fs, enrichers, i, (log.keys, log.fields), raises);
        if raises {
          return Some(i);
        }
        i := i + 1;
      }
      raisedAt := None;
    }
  }
}
