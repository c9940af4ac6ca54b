/** One log record (`WebLogData`): an insertion-ordered field map that always
    holds the 17 fields of `LOG_INFOS`, followed by the fields that enrichers
    add (the `aux_` fields of `add_aux_info`, or any key a plugin writes into
    `_data` directly). */
module WebLogData {
  import opened Wrappers
  import opened Text
  import opened Values

  /** The required fields, in the order the record stores them. */
  const LogInfos: seq<string> := [
    "remote_ip", "http_referer", "hostname", "timestamp", "bytes_sent",
    "request_time", "request_status", "city", "country", "lat", "long",
    "http_operation", "http_url", "protocol", "browser", "os", "device"
  ]

  /** Where `timestamp` stands in `LOG_INFOS`; it is the only field there with
      that name. */
  const TimestampAt: nat := 3

  lemma TimestampPosition()
    ensures forall i :: 0 <= i < |LogInfos| ==> (LogInfos[i] == "timestamp" <==> i == TimestampAt)
  {
  }

  /** Prefix of every field an enricher adds. */
  const AuxPrefix: string := "aux_"

  lemma LogInfosDistinct()
    ensures Distinct(LogInfos)
  {
  }

  lemma {:induction false} NoLogInfoIsAux(name: string)
    ensures AuxPrefix + name !in LogInfos
  {
    assert (AuxPrefix + name)[0] == 'a';
    assert forall k :: k in LogInfos ==> |k| > 0 && k[0] != 'a';
  }

  /** A `timestamp` argument the constructor can store: missing, falsy, or a datetime
      (any other truthy value has no `strftime`, and Python raises). */
  predicate TimestampArgumentOk(kwargs: map<string, Value>) {
    "timestamp" in kwargs ==> !Truthy(kwargs["timestamp"]) || kwargs["timestamp"].Time?
  }

  /** True when the constructor keeps a datetime for the `timestamp` attribute. */
  predicate HasTimestamp(kwargs: map<string, Value>) {
    "timestamp" in kwargs && Truthy(kwargs["timestamp"])
  }

  /** The value `__init__` stores under `field`: the argument, None when it is missing,
      and for a truthy timestamp its text in the export format. */
  function InitialValue(kwargs: map<string, Value>, field: string, exportText: Instant -> string): Value
    requires TimestampArgumentOk(kwargs)
  {
    if field == "timestamp" && HasTimestamp(kwargs) then Str(exportText(kwargs[field].t))
    else if field in kwargs then kwargs[field]
    else Null
  }

  /** The field map `__init__` builds from `kwargs`: one entry per `LOG_INFOS` field. */
  function InitialMap(kwargs: map<string, Value>, exportText: Instant -> string): map<string, Value>
    requires TimestampArgumentOk(kwargs)
  {
    map k | k in LogInfos :: InitialValue(kwargs, k, exportText)
  }

  /** A map with exactly the `LOG_INFOS` keys, each holding its initial value, is the initial map. */
  lemma InitialMapExactly(fs: map<string, Value>, kwargs: map<string, Value>, exportText: Instant -> string)
    requires TimestampArgumentOk(kwargs)
    requires forall k :: k in fs <==> k in LogInfos
    requires forall k :: k in LogInfos ==> fs[k] == InitialValue(kwargs, k, exportText)
    ensures fs == InitialMap(kwargs, exportText)
  {
  }

  /** The values of `keys` in `fields`, position by position. */
  function Cells(keys: seq<string>, fields: map<string, Value>): seq<Value> {
    seq(|keys|, i requires 0 <= i < |keys| => if keys[i] in fields then fields[keys[i]] else Null)
  }

  /** The keys and field map after `_data[key] = value`: the value is set under
      `key`, which goes last when it is new. */
  function WithItem(keys: seq<string>, fields: map<string, Value>, key: string, value: Value): (seq<string>, map<string, Value>) {
    (if key in keys then keys else keys + [key], fields[key := value])
  }

  /** The keys and field map after `add_aux_info(name, value)`: the write of
      `aux_<name>`. */
  function WithAux(keys: seq<string>, fields: map<string, Value>, name: string, value: Value): (seq<string>, map<string, Value>) {
    WithItem(keys, fields, AuxPrefix + name, value)
  }

  /** The loop of `__init__`: each `LOG_INFOS` field in turn, with its
      initial value, and the datetime kept aside for a truthy timestamp. */
  method InitialFields(kwargs: map<string, Value>, exportText: Instant -> string)
    returns (ks: seq<string>, fs: map<string, Value>, ts: Option<Instant>)
    requires TimestampArgumentOk(kwargs)
    ensures ks == LogInfos
    ensures forall k :: k in fs <==> k in ks
    ensures forall k :: k in ks ==> fs[k] == InitialValue(kwargs, k, exportText)
    ensures ts == if HasTimestamp(kwargs) then Some(kwargs["timestamp"].t) else None
  {
    TimestampPosition();
    ks, fs, ts := [], map[], None;
    var i := 0;
    while i < |LogInfos|
      invariant 0 <= i <= |LogInfos|
      invariant ks == LogInfos[..i]
      invariant forall k :: k in fs <==> k in ks
      invariant forall k :: k in ks ==> fs[k] == InitialValue(kwargs, k, exportText)
      invariant ts == if HasTimestamp(kwargs) && TimestampAt < i then Some(kwargs["timestamp"].t) else None
    {
      var field := LogInfos[i];
      assert LogInfos[..i + 1] == LogInfos[..i] + [field];
      if field == "timestamp" && HasTimestamp(kwargs) {
        ts := Some(kwargs[field].t);
        fs := fs[field := Str(exportText(kwargs[field].t))];
      } else {
        fs := fs[field := if field in kwargs then kwargs[field] else Null];
      }
      ks := ks + [field];
      i := i + 1;
    }
  }

  class WebLogData {
    /** The keys of `self._data`, in insertion order. */
    var keys: seq<string>
    /** `self._data`. */
    var fields: map<string, Value>
    /** The `timestamp` attribute, set only from a truthy timestamp argument. */
    var timestamp: Option<Instant>
    /** `datetime.strftime` with `DASHBOARD_TIMESTAMP_EXPORT_FORMAT`. */
    const exportText: Instant -> string

    /** The core fields come first, in `LOG_INFOS` order, and the key list and the
        map agree. Later keys are whatever the enrichers wrote, and a plugin may
        overwrite a stored core field, `timestamp` included. */
    ghost predicate Valid()
      reads this
    {
      && Distinct(keys)
      && (forall k :: k in fields <==> k in keys)
      && |LogInfos| <= |keys|
      && keys[..|LogInfos|] == LogInfos
      && "timestamp" in fields
    }

    /** `WebLogData(**kwargs)`: one entry per `LOG_INFOS` field, in that order;
        arguments outside `LOG_INFOS` are ignored. */
    constructor (kwargs: map<string, Value>, exportText: Instant -> string)
      requires TimestampArgumentOk(kwargs)
      ensures Valid()
      ensures keys == LogInfos
      ensures fields == InitialMap(kwargs, exportText)
      ensures forall k :: k in LogInfos ==> fields[k] == InitialValue(kwargs, k, exportText)
      ensures timestamp == if HasTimestamp(kwargs) then Some(kwargs["timestamp"].t) else None
      ensures timestamp.Some? ==> fields["timestamp"] == Str(exportText(timestamp.value))
      ensures timestamp.None? ==> !Truthy(fields["timestamp"])
      ensures this.exportText == exportText
    {
      var ks, fs, ts := InitialFields(kwargs, exportText);
      LogInfosDistinct();
      assert LogInfos[..|LogInfos|] == LogInfos && LogInfos[3] == "timestamp";
      InitialMapExactly(fs, kwargs, exportText);
      keys, fields, timestamp := ks, fs, ts;
      this.exportText := exportText;
    }

    /** `__getattr__` (and the plain attribute it falls back from): the `timestamp`
        attribute when it was set, otherwise the stored field; AttributeError when
        the name is not a field. */
    function GetAttr(name: string): (r: Result<Value, string>)
      reads this
      requires Valid()
      ensures name == "timestamp" && timestamp.Some? ==> r == Success(Time(timestamp.value))
      ensures name != "timestamp" || timestamp.None? ==>
        (r.Success? <==> name in keys) && (r.Success? ==> r.value == fields[name])
    {
      if name == "timestamp" && timestamp.Some? then Success(Time(timestamp.value))
      else if name in fields then Success(fields[name])
      else Failure("AttributeError")
    }

    /** What `record.timestamp` evaluates to: the datetime attribute when the
        constructor set it, whatever `_data` now stores otherwise. */
    function Stamp(): (v: Value)
      reads this
      requires Valid()
      ensures GetAttr("timestamp") == Success(v)
      ensures timestamp.Some? ==> v == Time(timestamp.value)
      ensures timestamp.None? ==> v == fields["timestamp"]
    {
      assert keys[3] == LogInfos[3];
      if timestamp.Some? then Time(timestamp.value) else fields["timestamp"]
    }

    /** `_data[key] = value`, the write a plugin makes directly on the dict: a new
        key goes last, an existing one keeps its place and gets the new value;
        nothing else changes, the `timestamp` attribute included. */
    method SetItem(key: string, value: Value)
      requires Valid()
      modifies this`keys, this`fields
      ensures Valid()
      ensures fields == old(fields)[key := value]
      ensures keys == if key in old(keys) then old(keys) else old(keys) + [key]
      ensures (keys, fields) == WithItem(old(keys), old(fields), key, value)
    {
      assert LogInfos[3] == "timestamp";
      if key !in fields {
        keys := keys + [key];
        assert keys[..|LogInfos|] == old(keys)[..|LogInfos|];
      }
      fields := fields[key := value];
    }

    /** `add_aux_info(name, value)`: sets `aux_<name>`; a new key goes last, an existing
        one keeps its place and gets the new value; no core field changes. */
    method AddAuxInfo(name: string, value: Value)
      requires Valid()
      modifies this`keys, this`fields
      ensures Valid()
      ensures fields == old(fields)[AuxPrefix + name := value]
      ensures keys == if AuxPrefix + name in old(keys) then old(keys) else old(keys) + [AuxPrefix + name]
      ensures (keys, fields) == WithAux(old(keys), old(fields), name, value)
    {
      NoLogInfoIsAux(name);
      SetItem(AuxPrefix + name, value);
    }

    /** `to_arrays()`: the keys, distinct and in insertion order, and position by
        position their values. */
    function ToArrays(): (r: (seq<string>, seq<Value>))
      reads this
      requires Valid()
      ensures r.0 == keys && Distinct(r.0)
      ensures |r.0| == |r.1|
      ensures |LogInfos| <= |r.0| && r.0[..|LogInfos|] == LogInfos
      ensures forall i :: 0 <= i < |r.0| ==> r.0[i] in fields && r.1[i] == fields[r.0[i]]
      ensures forall k :: k in fields ==> k in r.0
    {
      (keys, Cells(keys, fields))
    }
  }

  /** A field reached through `to_arrays` reads the same through attribute access,
      except a `timestamp` attribute that holds the datetime rather than its text. */
  lemma AttrAgreesWithArrays(d: WebLogData, i: nat)
    requires d.Valid()
    requires i < |d.ToArrays().0|
    requires d.ToArrays().0[i] != "timestamp" || d.timestamp.None?
    ensures d.GetAttr(d.ToArrays().0[i]) == Success(d.ToArrays().1[i])
  {
  }
}
