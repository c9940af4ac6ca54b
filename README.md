# pyweblogalyzer, ingestion to aggregation, in Dafny

This project models the core of pyweblogalyzer, a web-server log analyser.
A collector thread polls access-log files. It parses each new line into a
`WebLogData` record, runs the configured enricher plugins on the record and
appends it to a `WebLogDataSet`. A dashboard takes a time-sorted snapshot of
that dataset and runs each configured dashboard through a four-stage table
query: filter, projection, group-by with a count column, and time bucketing.
From the result it builds tables, badges and plotly graph configurations.

The model follows the program file by file:

| file | models |
|---|---|
| `weblogdata.dfy` | the log record: `LOG_INFOS`, `__init__`, `__getattr__`, `add_aux_info`, `to_arrays` (a class whose fields the methods update) |
| `weblog.dfy` | the append-only dataset and its sorted `get_dataframe` snapshot (a class) |
| `enrichers.dfy` | plugin loading in configured order with the subclass check, and `enrich_log` (a class; the load loop as a method) |
| `collector.dfy` | file selection, per-file offsets, the read loop, `is_remote_ip`, the geolocation cache, `_is_excluded` and record assembly (a class `CollectorApp`; the pure predicates as functions) |
| `query.dfy` | `get_dashboard_table_data` as pure stages over rows |
| `graphs.dfy` | `_get_dataset_axis_labels` and `_render_config` (the setdefault loops as methods proved against functions) |
| `render.dfy` | `{{field}}` templating (`_render_graph_text`) and the capped marker sizes of `get_dashboard_data` |
| `layout.dfy` | `get_dashboard` slot by slot, and `context_data` with its filter swap |
| `colors.dfy` | `hex_color_to_rgba` |
| `text.dfy`, `dicts.dfy`, `tables.dfy`, `values.dfy`, `wrappers.dfy` | Python string operations, insertion-ordered dicts, pandas columns and dtypes, cell values, Option/Result |

Several things are represented abstractly:

- Timestamps are integer instants.
- A dataframe is a `Table`: column names, one inferred kind per column (integer, float or other, as pandas infers dtypes), rows of cells, and a per-row time label.
- Each foreign library the code calls is a function-valued parameter: log-format parsing, `strptime`, `float()`, `ip_address`, the geoip readers, `user_agents`, UTF-8 decoding, pandas' `Timestamp`/`Timedelta`/frequency parsing and `strftime`.
- The file system is a map from path to bytes, plus a map from directory to its listing.

The collector builds an `asn` argument for every record, but `WebLogData` keeps only `LOG_INFOS` fields and `asn` is not one of them, so no record holds it. The model keeps that behaviour (`Collector.Kwargs`, `WebLogData.InitialFields`).

Each defect listed under "## Findings" is modelled twice: as written, with a lemma that shows the defect, and corrected. The rest of the model uses the corrected version. So, for instance, the collector excludes a line when its remote address is listed in `EXCLUDE_REMOTE_IP`.

## Model

| member | source | states |
|---|---|---|
| WebLogData.TimestampPosition | src/pyweblogalyzer/dataset/weblogdata.py:4-22 | "timestamp" is the fourth `LOG_INFOS` field and no other position holds it |
| WebLogData.LogInfosDistinct | src/pyweblogalyzer/dataset/weblogdata.py:4-22 | the 17 `LOG_INFOS` names are pairwise distinct, so the record has 17 keys |
| WebLogData.NoLogInfoIsAux | src/pyweblogalyzer/dataset/weblogdata.py:4-24 | no `"aux_"`-prefixed name is a `LOG_INFOS` field, so enricher fields never overwrite core fields |
| WebLogData.InitialFields | src/pyweblogalyzer/dataset/weblogdata.py:33-42 | the init loop yields exactly the `LOG_INFOS` keys in order. Each value is the keyword argument, or None when it is absent; other keyword arguments are ignored. A truthy timestamp is stored as its export text and the datetime is kept aside |
| WebLogData.WebLogData.constructor | src/pyweblogalyzer/dataset/weblogdata.py:31-42 | the record's keys are `LOG_INFOS` in order and hold the initial values. The `timestamp` attribute is set exactly when the timestamp argument is truthy |
| WebLogData.InitialMap | src/pyweblogalyzer/dataset/weblogdata.py:31-42 | definition: each `LOG_INFOS` field mapped to its argument, None when absent, and the timestamp to its export text |
| WebLogData.Cells | src/pyweblogalyzer/dataset/weblogdata.py:58-59 | definition: the values of the given keys, in order |
| WebLogData.WebLogData.GetAttr | src/pyweblogalyzer/dataset/weblogdata.py:45-49 | an attribute read returns the stored value of a present key and raises AttributeError for any other name. The datetime set by `__init__` shadows the stored timestamp text |
| WebLogData.WebLogData.Stamp | src/pyweblogalyzer/dataset/weblogdata.py:38-49 | `log_data.timestamp` is the kept datetime when there was one, and otherwise whatever `_data` now stores under `timestamp` |
| WebLogData.WebLogData.SetItem | etc/config/log_enrichers/enricher_example.py:33-36 | a plugin's direct write `log_data._data[key] = value`: that key gets the value and every other key is unchanged. A new key goes last and an existing one keeps its place. The `timestamp` attribute is untouched |
| WebLogData.WebLogData.AddAuxInfo | src/pyweblogalyzer/dataset/weblogdata.py:54-56 | key `"aux_"+name` is set to the value and every other key is unchanged. A new key goes last, and a repeated name overwrites in place |
| WebLogData.WebLogData.ToArrays | src/pyweblogalyzer/dataset/weblogdata.py:58-59 | the key list is the record's keys, distinct and in insertion order, and the value list holds each key's value at its position. The core fields come first, in `LOG_INFOS` order, and every stored key appears |
| WebLogData.AttrAgreesWithArrays | src/pyweblogalyzer/dataset/weblogdata.py:45-59 | each key of `to_arrays` read as an attribute gives the value at the same position |
| WebLog.MaxWidth | src/pyweblogalyzer/dataset/weblog.py:19-22 | the widest stored row: no row is wider, and one row has that width |
| WebLog.Pad | src/pyweblogalyzer/dataset/weblog.py:19-22 | a short row keeps its cells and is padded with missing values up to the frame width |
| WebLog.RawRows | src/pyweblogalyzer/dataset/weblog.py:19-22 | the frame's rows before sorting: row i is stored row i, padded, labelled with index entry i |
| WebLog.KindsOf | src/pyweblogalyzer/dataset/weblog.py:19-22 | each column's dtype is the one inferred from that column's cells |
| WebLog.CoerceRow | src/pyweblogalyzer/dataset/weblog.py:19-22 | a row's cells converted to their column's dtype, with its label kept |
| WebLog.StoredRows | src/pyweblogalyzer/dataset/weblog.py:19-22 | one frame row per stored row, each as wide as the frame |
| WebLog.WebLogDataSet.constructor | src/pyweblogalyzer/dataset/weblog.py:5-8 | a new dataset has no fields, no rows and no index entries |
| WebLog.WebLogDataSet.Add | src/pyweblogalyzer/dataset/weblog.py:10-17 | exactly one row (the record's values) and one index entry (its timestamp) are appended, and earlier rows are untouched. The fields are set by the first add only, and rows and index keep equal length |
| WebLog.WebLogDataSet.GetDataframe | src/pyweblogalyzer/dataset/weblog.py:19-22 | the snapshot has the first record's columns, is time indexed, its column dtypes are those inferred from the stored rows (`KindsOf`), and it is ordered by non-decreasing timestamp (missing last). It is a permutation of all stored rows. It fails only when a row is wider than the fields, and it reads without changing anything |
| WebLog.RecordInSnapshot | src/pyweblogalyzer/dataset/weblog.py:10-22 | every added record appears in the snapshot, with its timestamp label and its values |
| WebLog.IndexStamp | src/pyweblogalyzer/dataset/weblog.py:13 | definition: the index label of a record's timestamp: a datetime is itself, 0 is the epoch, None or "" is NaT |
| Tables.InferKind | src/pyweblogalyzer/dataset/weblog.py:22 | a column is integer iff all its cells are ints. It is float iff it holds numbers and missing values, at least one number, and is not all-int. Otherwise it is other |
| Tables.Column | src/pyweblogalyzer/dashboard/app.py:114 | a column's cells, one per row, in row order |
| Tables.ColumnIndex | src/pyweblogalyzer/dashboard/app.py:90 | a name's first position among the columns, None exactly when it is not a column |
| Tables.KeyLeTotal | src/pyweblogalyzer/dashboard/app.py:117 | the sort order (missing keys last) compares any two keys |
| Tables.KeyLeTransitive | src/pyweblogalyzer/dashboard/app.py:117 | the sort order is transitive |
| Tables.InsertBy | src/pyweblogalyzer/dashboard/app.py:117 | inserting into a sorted list keeps it sorted and adds exactly that row |
| Tables.InsertedAfter | src/pyweblogalyzer/dashboard/app.py:117 | a row that sorts after the head is inserted behind it, and the list stays sorted |
| Tables.SortBy | src/pyweblogalyzer/dashboard/app.py:117 | `sort_values`: sorted on the key, and a permutation of the input |
| Tables.SortByStamp | src/pyweblogalyzer/dataset/weblog.py:22 | `sort_index`: ordered by non-decreasing label (missing last), and a permutation of the input |
| Dicts.Keys | src/pyweblogalyzer/dataset/weblogdata.py:59 | a dict's keys in insertion order |
| Dicts.Get | src/pyweblogalyzer/dashboard/app.py:253-263 | `d.get(k)` is None exactly for a missing key, and otherwise a stored value |
| Dicts.Put | src/pyweblogalyzer/dashboard/app.py:269-274 | `d[k] = v` keeps an existing key's position and appends a new key. It changes only k's value, and storing a value already there changes nothing |
| Dicts.SetDefault | src/pyweblogalyzer/dashboard/app.py:206 | `setdefault` keeps every entry and adds k with the default only when k is absent |
| Dicts.GetAppend | src/pyweblogalyzer/dashboard/app.py:199-200 | a lookup in a dict with entries appended reads the first part first |
| Dicts.SetDefaults | src/pyweblogalyzer/dashboard/app.py:199-200 | a setdefault for every default key: existing values win, and absent keys take the default |
| Dicts.SetDefaultsFull | src/pyweblogalyzer/dashboard/app.py:199-200 | filling defaults that are all present already changes nothing |
| Dicts.SetDefaultsTwice | src/pyweblogalyzer/dashboard/app.py:194-200 | filling the defaults twice, as the layout is when `config` is given, is the same as filling them once |
| Text.Contains | src/pyweblogalyzer/collector/app.py:141 | `f in s` holds iff f occurs in s at some position |
| Text.LeadingSpaces | src/pyweblogalyzer/collector/app.py:95 | the length of the leading run of white space |
| Text.TrimLeft | src/pyweblogalyzer/collector/app.py:95 | a suffix that starts without white space, after removing only white space |
| Text.TrimRight | src/pyweblogalyzer/collector/app.py:95 | a prefix that ends without white space, after removing only white space |
| Text.Strip | src/pyweblogalyzer/collector/app.py:95 | `strip()`: the text framed by white space, with none at either end |
| Text.StripUnspaced | src/pyweblogalyzer/collector/app.py:95 | a text without white space at its ends is its own strip |
| Text.TokenLength | src/pyweblogalyzer/collector/app.py:164 | the length of the leading run of non-space characters |
| Text.SplitWs | src/pyweblogalyzer/collector/app.py:164 | `split()` yields tokens without white space |
| Text.SplitJoinRoundTrip | src/pyweblogalyzer/collector/app.py:164 | splitting tokens joined by single spaces gives back those tokens |
| Text.SplitLeadingSpace | src/pyweblogalyzer/collector/app.py:164 | a leading space does not change the split |
| Text.SplitLeadingToken | src/pyweblogalyzer/collector/app.py:164 | a token followed by white space or the end is the split's first token |
| Text.SplitTokenThenSpace | src/pyweblogalyzer/collector/app.py:164 | a token, a space and a rest split into the token and the rest's split |
| Text.SplitOne | src/pyweblogalyzer/collector/app.py:164 | a single token splits into itself |
| Text.SplitEmpty | src/pyweblogalyzer/collector/app.py:164 | the empty text splits into nothing |
| Text.TokenLengthAll | src/pyweblogalyzer/collector/app.py:164 | a text without white space is one token as long as the text |
| Text.TokenLengthOfToken | src/pyweblogalyzer/collector/app.py:164 | a token followed by white space or the end has its own length |
| Text.ReplaceAbsent | src/pyweblogalyzer/dashboard/app.py:218 | `replace` of a pattern that does not occur leaves the text as it is |
| Text.ReplaceBySelf | src/pyweblogalyzer/dashboard/app.py:218 | replacing a pattern by itself leaves the text as it is |
| Text.ReplaceEmptyNothing | src/pyweblogalyzer/dashboard/app.py:218 | inserting the empty text between characters leaves the text as it is |
| Text.NatText | src/pyweblogalyzer/dashboard/app.py:99-100 | `str(n)` of a count is all digits, so `isdigit()` holds for it |
| Text.NatTextValue | src/pyweblogalyzer/dashboard/app.py:99-100 | `int(str(n)) == n` for a count |
| Text.IntText | src/pyweblogalyzer/dashboard/app.py:32 | `str(i)` is non-empty, with no white space at either end |
| Text.ParseIntText | src/pyweblogalyzer/collector/app.py:174-176 | `int(str(i)) == i` |
| Text.ParseInt | src/pyweblogalyzer/collector/app.py:174-176 | definition: `int(s)` on text: optional white space and sign around ASCII decimal digits, None for ValueError |
| Text.Replace | src/pyweblogalyzer/dashboard/app.py:218 | definition: `str.replace`, every non-overlapping occurrence from left to right; its properties are the `Replace*` lemmas |
| Text.IsDigits | src/pyweblogalyzer/dashboard/app.py:99 | definition: `str.isdigit` on ASCII digits, false on the empty text |
| Enrichers.PluginPath | src/pyweblogalyzer/collector/enrichers.py:67-69 | a plugin's path is the enrichers root, "/" and the class path |
| Enrichers.CreateEnricher | src/pyweblogalyzer/collector/enrichers.py:80-89 | a plugin is created iff the module loads and the instance is a `LogEnricherPlugin`. An instance of another class is rejected with the "Not a subclass" exception |
| Enrichers.Outcomes | src/pyweblogalyzer/collector/enrichers.py:66-73 | one creation attempt per configured entry, in configured order, with the joined path |
| Enrichers.Loaded | src/pyweblogalyzer/collector/enrichers.py:60-78 | definition: the created plugins in entry order, failing entries skipped |
| Enrichers.LoadedAsWritten | src/pyweblogalyzer/collector/enrichers.py:55-78 | definition: AttributeError when some entry fails, else every created plugin |
| Enrichers.SuccessesAppend | src/pyweblogalyzer/collector/enrichers.py:65-78 | the plugins kept from two runs of entries are the first run's followed by the second's, so configured order is kept |
| Enrichers.SuccessesAllCreated | src/pyweblogalyzer/collector/enrichers.py:65-78 | when every entry loads, the list holds every plugin at its entry's position |
| Enrichers.SuccessesFromOutcomes | src/pyweblogalyzer/collector/enrichers.py:65-78 | every kept plugin is one that was created |
| Enrichers.LoadEnrichersAsWritten | src/pyweblogalyzer/collector/enrichers.py:55-78 | the load loop as written: the list of all plugins when every entry loads, and AttributeError from the handler otherwise |
| Enrichers.LoadEnrichers | src/pyweblogalyzer/collector/enrichers.py:60-78 | the load loop with failing entries skipped: exactly the created plugins, in configured order |
| Enrichers.OneBadEntry | src/pyweblogalyzer/collector/enrichers.py:57-58 | one entry whose module raises aborts construction as written and is skipped when corrected |
| Enrichers.AllLoadAgree | src/pyweblogalyzer/collector/enrichers.py:60-78 | when every entry loads, both loaders give the created plugins position by position |
| Enrichers.EditKey | etc/config/log_enrichers/enricher_example.py:36 | definition: `add_aux_info` writes `aux_`+name, a direct write writes its own key |
| Enrichers.ApplyEdits | src/pyweblogalyzer/dataset/weblogdata.py:54-56 | definition: a plugin's writes made in order, each storing its value under its key and appending the key when new |
| Enrichers.RunFrom | src/pyweblogalyzer/collector/enrichers.py:91-93 | definition: the plugins from one position on, each writing on the record in turn, until one raises, with that plugin's position |
| Enrichers.RunPlugins | src/pyweblogalyzer/collector/enrichers.py:91-93 | definition: `RunFrom` the first plugin |
| Enrichers.RunFromStep | src/pyweblogalyzer/collector/enrichers.py:92-93 | the plugin at a position writes on the record, then raises there or hands the record to the next position |
| Enrichers.RunFromAppend | src/pyweblogalyzer/collector/enrichers.py:91-93 | plugins appended after a run that raised change nothing, and after one that did not they run on the record it left |
| Enrichers.RunPluginsStep | src/pyweblogalyzer/collector/enrichers.py:91-93 | one more plugin after a run that did not raise makes its writes on the record as it stands, and raises at its own position |
| Enrichers.RaisedSticks | src/pyweblogalyzer/collector/enrichers.py:91-93 | once a plugin raises, no later plugin changes anything |
| Enrichers.UnwrittenKept | src/pyweblogalyzer/dataset/weblogdata.py:54-56 | a key that no write touches keeps its value |
| Enrichers.EditsKeepCore | src/pyweblogalyzer/collector/enrichers.py:34-36 | writes with no direct write of a `LOG_INFOS` key never change a core field, because `add_aux_info` only writes `aux_` keys |
| Enrichers.LastWriteStays | etc/config/log_enrichers/enricher_example.py:33-36 | a direct write `_data[k] = v` is what the record holds unless a later write targets `k`, so a plugin that writes a core field does change it |
| Enrichers.RunKeepsCore | etc/config/log_enrichers/enricher_example.py:33-36 | plugins that write no core field directly, from any position on, leave every core field as it was |
| Enrichers.PluginsKeepCore | etc/config/log_enrichers/enricher_example.py:33-36 | when no plugin writes a `LOG_INFOS` key directly ("not meant to be altered"), a whole enrichment leaves every core field as it was |
| Enrichers.EditsKeysByKey | src/pyweblogalyzer/collector/enrichers.py:34-36 | the keys after some writes depend on which keys are written, in order, and not on the values |
| Enrichers.UniformRunSameKeys | src/pyweblogalyzer/collector/enrichers.py:34-36 | uniform plugins from any position on raise on neither of two records with the same keys, and leave them with the same keys |
| Enrichers.UniformPluginsSameKeys | src/pyweblogalyzer/collector/enrichers.py:34-36 | plugins that write the same fields on every record and never raise give every record the same keys |
| Enrichers.Upto | src/pyweblogalyzer/collector/enrichers.py:92 | the plugin positions 0 to n-1, in order |
| Enrichers.ApplyRun | src/pyweblogalyzer/collector/enrichers.py:93 | a plugin's writes (`add_aux_info` calls and direct `_data` writes) made in turn on the record, as `ApplyEdits` says |
| Enrichers.LogEnrichers.constructor | src/pyweblogalyzer/collector/enrichers.py:55-58 | corrected: the plugin list is the loaded one (failing entries skipped), and nothing has run yet |
| Enrichers.LogEnrichers.Invoke | src/pyweblogalyzer/collector/enrichers.py:93 | one plugin call: the record gets that plugin's writes as `ApplyEdits` says, the raise flag is the plugin's, and the call is logged once |
| Enrichers.LogEnrichers.EnrichLog | src/pyweblogalyzer/collector/enrichers.py:91-93 | every plugin runs exactly once, in list order, up to the first that raises. The record is the ordered application of their writes (`RunPlugins`), and with no plugins it is unchanged |
| Collector.SelectedFiles | src/pyweblogalyzer/collector/app.py:68-74 | exactly the joined entries that are regular files and whose name contains the filter (every file when there is no filter) |
| Collector.SelectedFilesOne | src/pyweblogalyzer/collector/app.py:70-74 | one listed name gives its joined path when it is a selected regular file, and nothing otherwise |
| Collector.SelectedFilesCons | src/pyweblogalyzer/collector/app.py:68-74 | the first name's file, if any, comes before the rest's |
| Collector.SelectedFilesAppend | src/pyweblogalyzer/collector/app.py:68-74 | listing order is kept: two stretches of the listing give the first stretch's files, then the second's |
| Collector.BuildFileList | src/pyweblogalyzer/collector/app.py:61-76 | a file path gives just itself and a directory gives its selected files. Anything else raises ValueError |
| Collector.StartOffset | src/pyweblogalyzer/collector/app.py:81-89 | a new file starts at 0. An uncompressed file restarts at 0 when its offset is past the end. A name ending in "gz" never restarts, and seeking past its end reads nothing |
| Collector.LineEnd | src/pyweblogalyzer/collector/app.py:92 | `readline` stops after the first newline, or at the end |
| Collector.ScanFrom | src/pyweblogalyzer/collector/app.py:92-99 | the read loop ends within the file |
| Collector.ScanReachesEnd | src/pyweblogalyzer/collector/app.py:92-99 | a pass that finishes has read to the end of the file (when decoding keeps non-empty text non-empty) |
| Collector.ScanLinesStripped | src/pyweblogalyzer/collector/app.py:95 | every line handed to the parser is stripped |
| Collector.UnopenableFile | src/pyweblogalyzer/collector/app.py:84-104 | a file that cannot be opened raises UnboundLocalError as written. Corrected, it hands on nothing and keeps its offset |
| Collector.OpenableFilesAgree | src/pyweblogalyzer/collector/app.py:84-104 | on a file that opens, the written and corrected passes agree |
| Collector.ReadAgainAtEnd | src/pyweblogalyzer/collector/app.py:87-99 | re-reading an unchanged file from its recorded end processes no line and records the same end |
| Collector.PassRecordsEnd | src/pyweblogalyzer/collector/app.py:99 | after a pass that finishes, the recorded offset is the file's end |
| Collector.IsGzip | src/pyweblogalyzer/collector/app.py:81 | definition: the name ends in "gz" |
| Collector.FilePass | src/pyweblogalyzer/collector/app.py:78-104 | definition: the lines handed on and the end recorded by one pass, nothing for a file that does not open |
| Collector.FilePassAsWritten | src/pyweblogalyzer/collector/app.py:83-104 | definition: UnboundLocalError for a file that does not open, else `FilePass` |
| Collector.PassOver | src/pyweblogalyzer/collector/app.py:82-99 | definition: `FilePass` of a named file with its recorded offset |
| Collector.ReadFile | src/pyweblogalyzer/collector/app.py:78-104 | definition: one file's lines appended to the handled lines, and its offset recorded when the pass finishes |
| Collector.RoundOver | src/pyweblogalyzer/collector/app.py:52-56 | definition: `ReadFile` over the listed files in order |
| Collector.RoundPositions | src/pyweblogalyzer/collector/app.py:52-56 | a round only appends handled lines, forgets no offset, and records new offsets only for listed files |
| Collector.ScanEnds | src/pyweblogalyzer/collector/app.py:92-99 | when decoding never fails, a pass always finishes |
| Collector.PassEnds | src/pyweblogalyzer/collector/app.py:87-99 | a readable file's pass ends at the file's end |
| Collector.RoundRecordsEnds | src/pyweblogalyzer/collector/app.py:52-56 | after a round, every listed readable file's offset is its end |
| Collector.RoundAtEnds | src/pyweblogalyzer/collector/app.py:52-56 | a round over files already read to their ends changes nothing |
| Collector.RoundAgain | src/pyweblogalyzer/collector/app.py:46-56 | a second polling round over unchanged files reads no line and records the same offsets |
| Collector.InAnyNetwork | src/pyweblogalyzer/collector/app.py:111-113 | the address is in some configured local network |
| Collector.IsRemote | src/pyweblogalyzer/collector/app.py:106-114 | remote iff not loopback, not IPv6, and in no local network |
| Collector.InNetwork | src/pyweblogalyzer/collector/app.py:112 | definition: `addr in net`, same version and same network part |
| Collector.IsLoopback | src/pyweblogalyzer/collector/app.py:109 | definition: `is_loopback`, 127.0.0.0/8 or ::1 |
| Collector.LocalAddressesNotRemote | src/pyweblogalyzer/collector/app.py:106-114 | with the shipped `LOCAL_NETWORKS` 192.168.0.0/24 and 192.168.13.0/24 configured, 127.0.0.1, 192.168.0.199 and 192.168.13.5 are not remote, while 8.8.8.8 is remote under the shipped networks |
| Collector.RequestFiltered | src/pyweblogalyzer/collector/app.py:140-143 | a request is filtered iff some `EXCLUDE_REQUESTS` entry occurs in its text |
| Collector.IsExcluded | src/pyweblogalyzer/collector/app.py:138-148 | as written: excluded iff some `EXCLUDE_REQUESTS` entry occurs in the request, or the request text itself equals an `EXCLUDE_REMOTE_IP` entry |
| Collector.ExcludedIpNotMatched | src/pyweblogalyzer/collector/app.py:144 | as written, adding a client's address to `EXCLUDE_REMOTE_IP` leaves the decision unchanged for every request whose text differs from that address |
| Collector.IsExcludedByAddress | src/pyweblogalyzer/collector/app.py:138-148 | corrected: excluded iff some `EXCLUDE_REQUESTS` entry occurs in the request, or the parsed log's `remote_ip` is listed in `EXCLUDE_REMOTE_IP` |
| Collector.ExcludedAddressMatched | src/pyweblogalyzer/config.py:51-52 | corrected, listing a client's address excludes every line from that address |
| Collector.Geoloc | src/pyweblogalyzer/collector/app.py:124-136 | a non-remote address gives (None, None) without a lookup and leaves the cache as it was. A cached remote address answers from the cache. A new remote address is looked up once and cached, and a failing lookup leaves the cache as it was |
| Collector.GeolocMemo | src/pyweblogalyzer/collector/app.py:124-136 | while the cache holds only the readers' answers, `_get_geoloc` answers what the readers would, with (None, None) for an address that is not remote, and the cache keeps holding only their answers |
| Collector.GeolocCachedAfterward | src/pyweblogalyzer/collector/app.py:127-135 | asking again for an address just answered gives the same pair, from the cache, with no lookup |
| Collector.ParseValues | src/pyweblogalyzer/collector/app.py:163-176 | the line's values parse iff the request splits into exactly three tokens and the date, bytes, time and status parse; the values are those tokens and numbers |
| Collector.Kwargs | src/pyweblogalyzer/collector/app.py:168-188 | the keyword arguments cover every `LOG_INFOS` field plus `asn`, with the parsed datetime as timestamp |
| Collector.KwargsParsedValues | src/pyweblogalyzer/collector/app.py:173-184 | bytes, time, status and the three request tokens are passed as parsed |
| Collector.KwargsUnknownPlace | src/pyweblogalyzer/collector/app.py:177-181 | without geolocation, city and country are "unknown" and lat and long 0.0. Without ASN data, asn is "unknown" |
| Collector.LineKwargs | src/pyweblogalyzer/collector/app.py:163-188 | a record's arguments exist iff the line's values parse |
| Collector.RequestTokens | src/pyweblogalyzer/collector/app.py:164 | a request "op url proto" splits into exactly those three tokens |
| Collector.ExtendsTransitive | src/pyweblogalyzer/collector/app.py:92-99 | rows appended over successive lines add up |
| Collector.CoreFieldsRow | src/pyweblogalyzer/collector/app.py:168-194 | the record's first 17 values are its core fields built from the arguments |
| Collector.CoreRow | src/pyweblogalyzer/dataset/weblogdata.py:35-42 | definition: a row begins with the core cells of the record built from the arguments |
| Collector.Enriched | src/pyweblogalyzer/collector/app.py:168-191 | definition: the record built from the arguments, after the configured plugins ran on it |
| Collector.LineArgs | src/pyweblogalyzer/collector/app.py:150-188 | the record arguments of a matched, non-excluded, well-formed line always carry a timestamp |
| Collector.LineArgsMemo | src/pyweblogalyzer/collector/app.py:124-188 | a line's record arguments are the same whatever the geoip cache holds, as long as it holds only the readers' answers |
| Collector.OutcomeRows | src/pyweblogalyzer/collector/app.py:150-194 | what `_parse_log_line` appends for a line, as its outcome states it, is exactly that line's row and label (`Rows([line])`, `Stamps([line])`) |
| Collector.RowsOne | src/pyweblogalyzer/collector/app.py:150-194 | a single line adds its record's values as a row and its timestamp as the index label, or nothing when it has no record |
| Collector.RowsConcat | src/pyweblogalyzer/collector/app.py:92-99 | lines handled in two stretches add the rows and labels of the first stretch, then those of the second |
| Collector.RowsBound | src/pyweblogalyzer/collector/app.py:150-194 | each line adds at most one row, and one index label per row |
| Collector.RowsExtend | src/pyweblogalyzer/collector/app.py:92-99 | appending the rows of some lines keeps the earlier rows and adds at most one row per line |
| Collector.AppendedTrans | src/pyweblogalyzer/collector/app.py:92-99 | the rows appended over two successive stretches of lines are those of the joined stretch |
| Collector.CollectorApp.constructor | src/pyweblogalyzer/collector/app.py:28-43 | the offset and geolocation maps start empty, with the given dataset, enricher and settings |
| Collector.CollectorApp.GetGeoloc | src/pyweblogalyzer/collector/app.py:124-136 | the answer and the new cache are those of `Geoloc`, and a lookup is logged only when the readers were asked |
| Collector.CollectorApp.LineArguments | src/pyweblogalyzer/collector/app.py:150-188 | an unmatched line is reported as such, and so is an excluded one (`IsExcludedByAddress`). Otherwise the line's arguments are those of `LineArgs`, and cached addresses keep their entries |
| Collector.CollectorApp.Enrich | src/pyweblogalyzer/collector/app.py:168-191 | the record is built and enriched, and the call raises iff some plugin raises (`Enriched`). A record that comes through is new, and its key and value lists are the enrichment's keys and their values. Its timestamp is the argument's, whatever the plugins store under `timestamp`, because the datetime attribute shadows `_data`. When no plugin writes a core field directly, its row begins with the arguments' core fields |
| Collector.CollectorApp.ParseLogLine | src/pyweblogalyzer/collector/app.py:150-194 | a line adds a row iff its arguments exist and enrichment raises nothing. Then the added row is the enriched record's values, the index grows by the line's timestamp, and the field list is the record's keys when it was empty and unchanged otherwise. When no plugin writes a core field directly, the row begins with the line's core fields. An unmatched or excluded line, or one that raises, adds nothing |
| Collector.CollectorApp.ReadLine | src/pyweblogalyzer/collector/app.py:92-99 | one turn of the read loop. It hands one line to the parser and moves on, appending that line's row and timestamp label when it has a record (`Rows`, `Stamps`). At the end it records the offset and appends nothing |
| Collector.CollectorApp.ReadFrom | src/pyweblogalyzer/collector/app.py:92-101 | every line of the pass is parsed in order, one failing line not stopping the next. The rows and index labels appended are those of the pass's lines, in order (`Rows`, `Stamps`). The end is recorded after a full read, and a read error keeps the old offset |
| Collector.CollectorApp.ParseLogFile | src/pyweblogalyzer/collector/app.py:78-104 | corrected: one file pass from the start offset: handled lines and offsets move as `ReadFile` says (the lines of `FilePass` are parsed and its end recorded). The rows and labels appended are `Rows` and `Stamps` of the lines handled, and an unopenable file is skipped |
| Collector.CollectorApp.ReadFiles | src/pyweblogalyzer/collector/app.py:53-56 | the files are read in order: handled lines and offsets move as `RoundOver` says, and the rows and labels appended are `Rows` and `Stamps` of the lines handled |
| Collector.CollectorApp.Tick | src/pyweblogalyzer/collector/app.py:46-56 | one polling round. It fails only when the log path is neither file nor directory, and then changes nothing. Otherwise the file list is the path itself or the directory's selected files, each listed file is read in order as `RoundOver` says, and the rows and labels appended are `Rows` and `Stamps` of the lines handled |
| Query.Keep | src/pyweblogalyzer/dashboard/app.py:106 | a boolean mask keeps exactly the rows that satisfy it, in order |
| Query.KeepAppend | src/pyweblogalyzer/dashboard/app.py:106 | masking two parts is masking the whole |
| Query.KeepCount | src/pyweblogalyzer/dashboard/app.py:106 | masking keeps every copy of a kept row and none of a dropped one |
| Query.ShownCountFiltersAsInt | src/pyweblogalyzer/dashboard/app.py:99-100 | a count shown in a table and clicked comes back as that integer |
| Query.FilterStage | src/pyweblogalyzer/dashboard/app.py:88-106 | without both filter and value nothing changes. A column filter keeps exactly the rows equal to the converted value. Any other filter keeps the rows with start <= time <= start+period, both ends included, or everything when either fails to parse. Columns never change |
| Query.FilterValue | src/pyweblogalyzer/dashboard/app.py:98-105 | definition: an int for a digit string, else a float when `float()` accepts it, else the text |
| Query.CellEquals | src/pyweblogalyzer/dashboard/app.py:106 | definition: `Series == value` at one cell: numbers by value, strings by content, missing equals nothing |
| Query.MatchingRows | src/pyweblogalyzer/dashboard/app.py:106 | definition: the rows whose cell in a column equals the value |
| Query.WindowRows | src/pyweblogalyzer/dashboard/app.py:90-94 | definition: the rows labelled within a closed time window |
| Query.Select | src/pyweblogalyzer/dashboard/app.py:110 | a row's cells at the chosen columns, in that order |
| Query.SelectAll | src/pyweblogalyzer/dashboard/app.py:110 | every row projected |
| Query.Indices | src/pyweblogalyzer/dashboard/app.py:110 | the positions of the names, None exactly when one is not a column |
| Query.Project | src/pyweblogalyzer/dashboard/app.py:109-110 | KeyError iff a display column is missing. Otherwise the columns are exactly the display columns in order and no row has a missing value |
| Query.ProjectedRows | src/pyweblogalyzer/dashboard/app.py:110 | the projected rows are the projections of the input rows, every complete one kept and every incomplete one dropped |
| Query.KeyOf | src/pyweblogalyzer/dashboard/app.py:114 | a row's group key is its cells at the group-by columns |
| Query.Group | src/pyweblogalyzer/dashboard/app.py:114 | exactly the rows with a given key |
| Query.SizeColumn | src/pyweblogalyzer/dashboard/app.py:114 | `transform('size')`: each row's group size (NaN for a key with a missing value). It is integer iff no key has a missing value |
| Query.SizeCell | src/pyweblogalyzer/dashboard/app.py:114 | definition: a row's group size, NaN for a key with a missing value |
| Query.SetCell | src/pyweblogalyzer/dashboard/app.py:114 | `t[name] = v` on one row replaces that column, or appends it when new |
| Query.SetCellRead | src/pyweblogalyzer/dashboard/app.py:114 | the assigned column reads back the assigned value |
| Query.SetColumn | src/pyweblogalyzer/dashboard/app.py:114 | column assignment: same rows, the column replaced or appended, other cells kept |
| Query.SetColumnCell | src/pyweblogalyzer/dashboard/app.py:122-123 | each cell after the assignment is the new value in that column and the old cell elsewhere |
| Query.DedupFrom | src/pyweblogalyzer/dashboard/app.py:115 | `drop_duplicates` from a seen set: a sub-multiset of the rows, with distinct keys, none already seen |
| Query.Dedup | src/pyweblogalyzer/dashboard/app.py:115 | `drop_duplicates(subset)`: a sub-multiset of the rows with pairwise distinct keys |
| Query.DedupCovers | src/pyweblogalyzer/dashboard/app.py:115 | every key of the input survives deduplication |
| Query.DedupKeepsFirst | src/pyweblogalyzer/dashboard/app.py:115 | the first row of each key is the one kept |
| Query.SetCellKeepsKey | src/pyweblogalyzer/dashboard/app.py:114 | setting the count column does not change a row's group key |
| Query.Counted | src/pyweblogalyzer/dashboard/app.py:114 | the table with the count column assigned stays well formed |
| Query.GroupStage | src/pyweblogalyzer/dashboard/app.py:113-117 | KeyError iff a group-by column is missing. Otherwise the count column is added, rows are sorted by non-increasing count, the time index is dropped, and each row comes from the counted table |
| Query.DistinctKeysOnce | src/pyweblogalyzer/dashboard/app.py:115 | rows with distinct keys occur once each |
| Query.TwoPositions | src/pyweblogalyzer/dashboard/app.py:115 | a row at two positions occurs twice |
| Query.PermutedKeysDistinct | src/pyweblogalyzer/dashboard/app.py:115-117 | sorting keeps keys pairwise distinct |
| Query.GroupKeysDistinct | src/pyweblogalyzer/dashboard/app.py:113-117 | one row per distinct group key |
| Query.GroupCounts | src/pyweblogalyzer/dashboard/app.py:113-117 | each row's count is the size of its group in the input, or NaN for a key with a missing value |
| Query.GroupSource | src/pyweblogalyzer/dashboard/app.py:114-115 | every grouped row is an input row with its count set |
| Query.GroupKeysCovered | src/pyweblogalyzer/dashboard/app.py:113-117 | every input key has a row in the result |
| Query.Earliest | src/pyweblogalyzer/dashboard/app.py:124 | the first label present, which no label precedes |
| Query.Latest | src/pyweblogalyzer/dashboard/app.py:124 | the last label present, which no label follows |
| Query.PeriodStart | src/pyweblogalyzer/dashboard/app.py:124 | a label lies in the period starting at its bucket start |
| Query.Numeric | src/pyweblogalyzer/dashboard/app.py:124 | exactly the numeric columns, in order, are the ones `sum()` keeps |
| Query.Ones | src/pyweblogalyzer/dashboard/app.py:122-123 | the unit column: a 1 on every row |
| Query.Prepared | src/pyweblogalyzer/dashboard/app.py:122-123 | the time title and `timestamp` columns hold integers on every row, and the labels are kept |
| Query.PreparedOnes | src/pyweblogalyzer/dashboard/app.py:122 | the time title column is 1 on every row |
| Query.PeriodRow | src/pyweblogalyzer/dashboard/app.py:124-126 | a period's row is labelled with its start and has one cell per kept column |
| Query.PeriodRows | src/pyweblogalyzer/dashboard/app.py:124 | consecutive periods of the given width from the first start up to the last label |
| Query.SummedColumns | src/pyweblogalyzer/dashboard/app.py:124-126 | the kept columns are the numeric ones, and `timestamp` becomes text |
| Query.Periods | src/pyweblogalyzer/dashboard/app.py:124 | one period per width from the first label's bucket to the last label, including empty ones |
| Query.TimeStage | src/pyweblogalyzer/dashboard/app.py:119-126 | a missing or zero frequency raises ValueError and a table without a time index raises TypeError. Otherwise the periods run from the first label's bucket to the last label |
| Query.SummedKeepsCounters | src/pyweblogalyzer/dashboard/app.py:121-124 | the time title and `timestamp` columns survive the sum |
| Query.SummedKeepsCounter | src/pyweblogalyzer/dashboard/app.py:121-124 | each of the two unit columns survives the sum |
| Query.SummedKeepsNumbers | src/pyweblogalyzer/dashboard/app.py:124 | every other numeric column survives the sum |
| Query.TimeColumns | src/pyweblogalyzer/dashboard/app.py:120-126 | the result has the time title and `timestamp` columns and keeps every numeric column; non-numeric columns are removed, and only `timestamp` is text |
| Query.PeriodRowsCover | src/pyweblogalyzer/dashboard/app.py:124 | every instant up to the last period lies in one of the periods |
| Query.PeriodsCover | src/pyweblogalyzer/dashboard/app.py:124 | every labelled row lies in some period |
| Query.TimeCovers | src/pyweblogalyzer/dashboard/app.py:120-126 | every labelled input row falls in some bucket of the result |
| Query.BucketRowsCons | src/pyweblogalyzer/dashboard/app.py:124 | a bucket's rows split at the first row |
| Query.BucketSizeByStamps | src/pyweblogalyzer/dashboard/app.py:124 | a bucket's size depends on the labels alone |
| Query.IntSumOnes | src/pyweblogalyzer/dashboard/app.py:122-124 | summing a column of ones counts the rows |
| Query.PeriodCount | src/pyweblogalyzer/dashboard/app.py:121-124 | a period's time title cell is the number of rows in that period |
| Query.Sum | src/pyweblogalyzer/dashboard/app.py:124 | definition: a period's `sum()`, an int for an integer column and a float otherwise |
| Query.TimeCounts | src/pyweblogalyzer/dashboard/app.py:120-126 | each bucket's time title column is the number of input rows in the bucket |
| Query.AllTimeCounts | src/pyweblogalyzer/dashboard/app.py:120-126 | every time title cell of every bucket is the number of input rows in that bucket |
| Query.ProjectStep | src/pyweblogalyzer/dashboard/app.py:109-110 | empty display columns change nothing. Otherwise the stage fails iff a display column is missing, and then with KeyError |
| Query.GroupStep | src/pyweblogalyzer/dashboard/app.py:113-117 | empty group-by changes nothing. Otherwise the columns, kinds and rows are those of `GroupStage`, and the time index survives only when it is kept: as written, `ignore_index=True` drops it |
| Query.TableData | src/pyweblogalyzer/dashboard/app.py:73-130 | the four stages in turn. A missing display column raises KeyError, and only KeyError, ValueError or TypeError can be raised. A time-grouped result is time indexed, and after grouping it needs the kept index. A grouped, untimed result is time indexed iff the index was kept and the input had one |
| Query.NoOptionsNoChange | src/pyweblogalyzer/dashboard/app.py:73-130 | with every option falsy the table comes back unchanged |
| Query.GroupedThenTimedFails | src/pyweblogalyzer/dashboard/app.py:113-126 | as written (index dropped), grouping followed by time grouping always fails, with TypeError once grouping succeeds |
| Query.CountColumnNumeric | src/pyweblogalyzer/dashboard/app.py:114 | the count column grouping adds is numeric, so time grouping keeps it |
| Query.GroupedThenTimed | src/pyweblogalyzer/dashboard/app.py:113-126 | with the index kept by grouping, grouping then time grouping succeeds, keeps the count column, and each bucket's time title cell is the number of grouped rows in the bucket |
| Query.DisplayOnly | src/pyweblogalyzer/dashboard/app.py:109-110 | with only display columns, the result has exactly them and no missing value |
| Query.TimedQuery | src/pyweblogalyzer/dashboard/app.py:88-126 | a time-grouped query succeeds and is the time stage applied to the filtered, projected table |
| Graphs.Iterated | src/pyweblogalyzer/dashboard/app.py:203 | `for dataset in data`: a list gives its items, and a dict or string gives its keys or characters. Anything else is not iterable |
| Graphs.FirstComplete | src/pyweblogalyzer/dashboard/app.py:225-227 | the first key set whose keys are all present, none before it complete |
| Graphs.AxisLabels | src/pyweblogalyzer/dashboard/app.py:222-229 | the first of [x,y], [values,labels], [lat,lon] whose keys are all present, and [] iff none is |
| Graphs.AxisLabelsByKeys | src/pyweblogalyzer/dashboard/app.py:222-229 | the axis labels depend only on which keys are present |
| Graphs.FirstCompleteAgree | src/pyweblogalyzer/dashboard/app.py:225-227 | two datasets that complete the same key sets have the same first complete set |
| Graphs.AxisKeysOnly | src/pyweblogalyzer/dashboard/app.py:222-229 | no axis key is `data`, `layout` or `config` |
| Graphs.FilledAxisLabels | src/pyweblogalyzer/dashboard/app.py:203-208 | filling a dataset with options that are no axis keys leaves its axis keys unchanged |
| Graphs.DefaultDataNoAxisKeys | src/pyweblogalyzer/dashboard/app.py:143-148 | `DEFAULT_OPTIONS['data']` names no axis key |
| Graphs.WithConfig | src/pyweblogalyzer/dashboard/app.py:192-193 | `config` is the default options when absent, and every other key is kept |
| Graphs.WithLayout | src/pyweblogalyzer/dashboard/app.py:199-200 | layout defaults fill only absent layout keys, and every other key is kept. A layout that is not a dict raises AttributeError |
| Graphs.FilledDatasets | src/pyweblogalyzer/dashboard/app.py:203-206 | every dataset gets the default data options where absent. AttributeError iff some dataset is not a dict |
| Graphs.ClearAxes | src/pyweblogalyzer/dashboard/app.py:207-208 | the axis keys are set to [] on the top-level config, and every other key is kept in place |
| Graphs.ClearAxesDone | src/pyweblogalyzer/dashboard/app.py:207-208 | clearing axis keys that are already [] changes nothing |
| Graphs.FilledTwice | src/pyweblogalyzer/dashboard/app.py:203-206 | filling dataset defaults again changes nothing |
| Graphs.RenderedConfig | src/pyweblogalyzer/dashboard/app.py:183-210 | None exactly when `data` or `layout` is missing, and a failure is AttributeError or TypeError. The input is a value and is never changed |
| Graphs.RenderedConfigFails | src/pyweblogalyzer/dashboard/app.py:183-208 | with `data` and `layout` present, `_render_config` raises exactly when the layout is not a dict, `data` cannot be iterated, or some dataset is not a dict |
| Graphs.RenderedConfigLayout | src/pyweblogalyzer/dashboard/app.py:191-200 | a rendered config holds the given layout with the default layout filled in where absent, and the given `config` or else the default one |
| Graphs.RenderedConfigEmpty | src/pyweblogalyzer/dashboard/app.py:183-210 | with an empty `data`, `data` and every entry other than `layout` and `config` are as given |
| Graphs.RenderedConfigData | src/pyweblogalyzer/dashboard/app.py:183-210 | with datasets that are all dicts, `data` holds them with the default options filled in, the last one's axis keys are [] at the top level, and every other entry but `layout` and `config` is as given |
| Graphs.ClearedAxesOfLast | src/pyweblogalyzer/dashboard/app.py:203-208 | the keys cleared are the axis keys of the last dataset as the config gives it: the default options add none |
| Graphs.LaidEntries | src/pyweblogalyzer/dashboard/app.py:191-200 | the `config` and `layout` steps fill those two entries and keep every other one |
| Graphs.FilledData | src/pyweblogalyzer/dashboard/app.py:202-208 | the dataset stage raises only AttributeError or TypeError |
| Graphs.WithDatasets | src/pyweblogalyzer/dashboard/app.py:203-208 | with every dataset a dict, `data` holds the filled datasets and the last one's axis keys are [] at the top level, every other key kept. It fails only with AttributeError |
| Graphs.WithDatasetsFails | src/pyweblogalyzer/dashboard/app.py:203-208 | no datasets leave the config as it was, and the loop fails iff some dataset is not a dict |
| Graphs.WithDatasetsCleared | src/pyweblogalyzer/dashboard/app.py:203-208 | when every dataset is a dict the loop succeeds and clears the last filled dataset's axis keys |
| Graphs.DataStage | src/pyweblogalyzer/dashboard/app.py:203-208 | the loop's result: `data` holds the given value and the given axis keys are [], every other key kept |
| Graphs.ClearedThenStored | src/pyweblogalyzer/dashboard/app.py:203-208 | storing `data` after clearing the axis keys keeps the clearing of every other key |
| Graphs.FillLayout | src/pyweblogalyzer/dashboard/app.py:199-200 | the setdefault loop over the layout computes `WithLayout` |
| Graphs.SetDefaultEach | src/pyweblogalyzer/dashboard/app.py:205-206 | one default set on every dataset. AttributeError iff some dataset is not a dict |
| Graphs.FillDatasets | src/pyweblogalyzer/dashboard/app.py:204-206 | the loop over default keys computes `FilledDatasets` |
| Graphs.ClearAxisKeys | src/pyweblogalyzer/dashboard/app.py:207-208 | the loop over axis keys computes `ClearAxes` |
| Graphs.PassAgain | src/pyweblogalyzer/dashboard/app.py:203-208 | after one pass, a further pass of the outer loop finds nothing left to fill or clear |
| Graphs.FirstPass | src/pyweblogalyzer/dashboard/app.py:203-208 | the first turn of the outer loop fills every dataset and clears the last dataset's axis keys |
| Graphs.LaterPass | src/pyweblogalyzer/dashboard/app.py:203-208 | later turns change nothing |
| Graphs.FillAndClear | src/pyweblogalyzer/dashboard/app.py:203-208 | the whole outer loop computes `WithDatasets` |
| Graphs.FillConfigAndLayout | src/pyweblogalyzer/dashboard/app.py:192-200 | the config and layout steps compute `WithLayout(WithConfig(...))` |
| Graphs.RenderConfig | src/pyweblogalyzer/dashboard/app.py:132-210 | `_render_config` computes `RenderedConfig` |
| Render.KeyEnd | src/pyweblogalyzer/dashboard/app.py:52 | the end of the longest run of key characters |
| Render.KeyEndAt | src/pyweblogalyzer/dashboard/app.py:52 | a maximal run of key characters ends where that run ends |
| Render.MatchEnd | src/pyweblogalyzer/dashboard/app.py:52 | a match at a position is a `{{key}}` placeholder there |
| Render.MatchAt | src/pyweblogalyzer/dashboard/app.py:52 | a placeholder at a position is the match found there |
| Render.MatchBefore | src/pyweblogalyzer/dashboard/app.py:52 | a match found earlier ends no later than a placeholder's start |
| Render.FieldsFrom | src/pyweblogalyzer/dashboard/app.py:213 | `findall` returns only keys of placeholders that occur |
| Render.FieldsFromComplete | src/pyweblogalyzer/dashboard/app.py:213 | every placeholder from the position on is found |
| Render.FindFieldsExactly | src/pyweblogalyzer/dashboard/app.py:213 | a key is found iff its `{{key}}` occurs in the template |
| Render.FindFields | src/pyweblogalyzer/dashboard/app.py:213 | definition: `renderer_parser.findall(text_template)`; its properties are `FindFieldsExactly` and `FieldsFrom` |
| Render.GraphText | src/pyweblogalyzer/dashboard/app.py:212-220 | one text per row. KeyError iff there is a row and a found field that is not a column |
| Render.FieldNeedsBraces | src/pyweblogalyzer/dashboard/app.py:213 | a template without `{{` has no fields |
| Render.PlainTemplate | src/pyweblogalyzer/dashboard/app.py:212-220 | a template without placeholders is repeated once per row |
| Render.ReplaceWhole | src/pyweblogalyzer/dashboard/app.py:218 | replacing a text in itself gives the replacement |
| Render.SinglePlaceholder | src/pyweblogalyzer/dashboard/app.py:212-220 | a lone `{{col}}` template gives each row's value of that column as text |
| Render.FillRow | src/pyweblogalyzer/dashboard/app.py:216-219 | the replace loop for one row computes that row's text, and fails iff some field is not a column |
| Render.RowText | src/pyweblogalyzer/dashboard/app.py:216-219 | definition: a row's text, each field's placeholder replaced in turn by the cell's text |
| Render.RenderGraphText | src/pyweblogalyzer/dashboard/app.py:212-220 | `_render_graph_text` computes `GraphText` |
| Render.Truncate | src/pyweblogalyzer/dashboard/app.py:342 | `int()` of a float truncates toward zero |
| Render.IntOf | src/pyweblogalyzer/dashboard/app.py:342 | `int()` of a cell raises only ValueError or TypeError |
| Render.CappedSizes | src/pyweblogalyzer/dashboard/app.py:342 | one size per row, each `min(int(cell), maxsz)`. It fails iff some cell does not convert |
| Render.MarkerSizes | src/pyweblogalyzer/dashboard/app.py:342 | one size per row, row i's being `min(int(cell), sizemax)` of that row's cell in the column, so none exceeds `sizemax`. It fails iff some cell does not convert. An empty table gives [], and a missing column raises KeyError |
| Render.IntList | src/pyweblogalyzer/dashboard/app.py:342 | the sizes as a JSON list, in order |
| Render.MarkerData | src/pyweblogalyzer/dashboard/app.py:335-343 | a marker that is not a dict raises AttributeError, and one without a string `size` is left alone. Otherwise the `size` column's capped sizes (`MarkerSizes`, default cap 100) replace `size`, or their error is raised; every other key of the copied marker is kept |
| Layout.EmptyKey | src/pyweblogalyzer/dashboard/app.py:266-267 | the filler before a large dashboard is keyed "_empty_", followed by the dashboard's id when keys are per dashboard |
| Layout.HiddenKey | src/pyweblogalyzer/dashboard/app.py:287-289 | the filler after a large dashboard is keyed "_hidden_", followed by the dashboard's id when keys are per dashboard |
| Layout.FillerKeysDiffer | src/pyweblogalyzer/dashboard/app.py:266-289 | the filler before a large dashboard and the one after any dashboard never share a key |
| Layout.BadgeIdInjective | src/pyweblogalyzer/dashboard/app.py:244-246 | distinct dashboards get distinct badge ids |
| Layout.Columns | src/pyweblogalyzer/dashboard/app.py:259-263 | the columns are the display columns, then the count title, then the time title, each when set |
| Layout.GraphEntry | src/pyweblogalyzer/dashboard/app.py:282-284 | the `graph_config` entry is set only for a non-empty graph config, and holds its rendering |
| Layout.PrefixFails | src/pyweblogalyzer/dashboard/app.py:252-289 | an error raised in a turn of the loop is the page's error |
| Layout.GetDashboard | src/pyweblogalyzer/dashboard/app.py:248-291 | the loop over the configuration builds `PageOf` as written |
| Layout.PageOf | src/pyweblogalyzer/dashboard/app.py:248-291 | definition: the page of the whole configuration |
| Layout.PageFrom | src/pyweblogalyzer/dashboard/app.py:252-289 | definition: the page after the loop has gone over some entries |
| Layout.AddBoard | src/pyweblogalyzer/dashboard/app.py:253-289 | definition: one turn of the loop: badge and slots added, contextual dashboards skipped |
| Layout.PlaceSlots | src/pyweblogalyzer/dashboard/app.py:266-289 | definition: the table slot stored under its id, with fillers around a large dashboard |
| Layout.ContextFilter | src/pyweblogalyzer/dashboard/app.py:277-279 | definition: the filter of the on-click dashboard when it is configured |
| Layout.AddDashboard | src/pyweblogalyzer/dashboard/app.py:253-289 | one turn of the loop adds one dashboard's badge and slots as `AddBoard` says |
| Layout.ContextEntry | src/pyweblogalyzer/dashboard/app.py:277-279 | `ctxt_filter` is the on-click dashboard's filter when that dashboard exists |
| Layout.GraphConfigEntry | src/pyweblogalyzer/dashboard/app.py:282-284 | the graph entry step computes `GraphEntry` |
| Layout.AddBoardKeeps | src/pyweblogalyzer/dashboard/app.py:253-289 | a turn leaves every other dashboard's slot and badge as they were |
| Layout.AddBoardPlaces | src/pyweblogalyzer/dashboard/app.py:253-289 | after its turn, a dashboard is on the page (unless contextual) with its title and columns and its badge when titled |
| Layout.PrefixPlaced | src/pyweblogalyzer/dashboard/app.py:252-289 | after k turns exactly the first k non-contextual dashboards are on the page |
| Layout.PagePlacesBoards | src/pyweblogalyzer/dashboard/app.py:252-289 | contextual dashboards are skipped and every other one has its slot, columns and badge |
| Layout.MissingTitleFails | src/pyweblogalyzer/dashboard/app.py:270 | a non-contextual dashboard without `table_title` raises KeyError |
| Layout.TwoLargeBoards | src/pyweblogalyzer/dashboard/app.py:266-289 | as written, two large dashboards give three slots, "a", "_hidden_" and "b", and the rows are no longer aligned |
| Layout.FirstWide | src/pyweblogalyzer/dashboard/app.py:266-289 | a first large dashboard takes its slot followed by `_hidden_` |
| Layout.SecondWide | src/pyweblogalyzer/dashboard/app.py:266-289 | a second large dashboard gets no filler of its own, because the keys are shared |
| Layout.FreshKeys | src/pyweblogalyzer/dashboard/app.py:266-289 | with per-dashboard filler keys, a dashboard's keys are not on the page before its turn |
| Layout.OwnKeysDiffer | src/pyweblogalyzer/dashboard/app.py:266-289 | keys of different dashboards differ |
| Layout.HasSnoc | src/pyweblogalyzer/dashboard/app.py:269 | a key is in a dict with one entry appended iff it was there or is the new key |
| Layout.PlaceFresh | src/pyweblogalyzer/dashboard/app.py:266-289 | placing a dashboard with fresh keys appends its filler, slot and hidden filler |
| Layout.PlaceLarge | src/pyweblogalyzer/dashboard/app.py:266-289 | a large dashboard with fresh keys appends its slots |
| Layout.AppendedKeys | src/pyweblogalyzer/dashboard/app.py:266-289 | appending keeps earlier slots and adds only the dashboard's own keys |
| Layout.AppendedAligned | src/pyweblogalyzer/dashboard/app.py:265-289 | appending a dashboard keeps every large dashboard at the start of a row with its pair filled |
| Layout.AddBoardAligned | src/pyweblogalyzer/dashboard/app.py:253-289 | one turn with per-dashboard keys keeps the rows aligned |
| Layout.AppendedKeysOf | src/pyweblogalyzer/dashboard/app.py:253-289 | after a dashboard's turn the page holds only keys of dashboards already seen |
| Layout.PrefixAligned | src/pyweblogalyzer/dashboard/app.py:252-289 | with per-dashboard keys every prefix of the loop keeps rows aligned |
| Layout.LargeStartsRow | src/pyweblogalyzer/dashboard/app.py:265-289 | with per-dashboard filler keys, every large dashboard starts a row and its pair slot is the filler |
| Layout.ContextOptions | src/pyweblogalyzer/dashboard/app.py:362-379 | the contextual query filters on the clicked key. A `timestamp` filter becomes the parent's time group when the parent is time grouped, and otherwise the filter is kept |
| Layout.ContextTable | src/pyweblogalyzer/dashboard/app.py:370-380 | the contextual table is the query's result, and needs a `table_title` |
| Layout.MissingContextDashboard | src/pyweblogalyzer/dashboard/app.py:363-370 | a click that opens a missing dashboard raises AttributeError as written, and gives the empty answer corrected |
| Layout.ContextDataAgree | src/pyweblogalyzer/dashboard/app.py:357-389 | when the contextual dashboard exists, the written and corrected versions agree |
| Layout.ContextData | src/pyweblogalyzer/dashboard/app.py:357-389 | definition: `context_data` as written, the filter read before the existence check |
| Layout.CorrectedContextData | src/pyweblogalyzer/dashboard/app.py:357-389 | definition: `context_data` with the existence check first |
| Layout.ContextWindow | src/pyweblogalyzer/dashboard/app.py:365-379 | a click on a time-grouped row shows the rows from that period's start to start plus the period, both ends included |
| Colors.HexValue | src/pyweblogalyzer/dashboard/app.py:29-31 | a hex digit is worth less than 16 |
| Colors.Slice | src/pyweblogalyzer/dashboard/app.py:29-31 | `s[i:j]` clamps its bounds to the string |
| Colors.Components | src/pyweblogalyzer/dashboard/app.py:29-31 | the three components parse iff each two-character slice parses as hex, and raise ValueError otherwise |
| Colors.RgbaOf | src/pyweblogalyzer/dashboard/app.py:29-32 | the rgba text fails exactly when a component does |
| Colors.StripKeepsHead | src/pyweblogalyzer/dashboard/app.py:29 | `int()` strips, which keeps a leading non-space character |
| Colors.DollarNotHex | src/pyweblogalyzer/dashboard/app.py:27-29 | a slice starting with `$` is not a hex number |
| Colors.ShortFormFails | src/pyweblogalyzer/dashboard/app.py:26-29 | as written, every three-digit colour raises ValueError |
| Colors.Doubled | src/pyweblogalyzer/dashboard/app.py:26-27 | each digit written twice |
| Colors.PairDigits | src/pyweblogalyzer/dashboard/app.py:29-31 | two hex digits are worth 16 times the first plus the second |
| Colors.PairValue | src/pyweblogalyzer/dashboard/app.py:29-31 | `int(two digits, 16)` |
| Colors.DropHash | src/pyweblogalyzer/dashboard/app.py:24 | removing `#` from `#digits` leaves the digits |
| Colors.ShortFormDoubles | src/pyweblogalyzer/dashboard/app.py:22-32 | corrected, `#abc` is `#aabbcc` and each component is 17 times its digit |
| Colors.SliceComponent | src/pyweblogalyzer/dashboard/app.py:29-31 | two hex digits at a position read as that component |
| Colors.SixComponents | src/pyweblogalyzer/dashboard/app.py:29-31 | six hex digits give the three pair values |
| Colors.LongFormComponents | src/pyweblogalyzer/dashboard/app.py:22-32 | `#rrggbb` gives `rgba(r,g,b,alpha)`, both as written and corrected |
| Colors.HexColorToRgba | src/pyweblogalyzer/dashboard/app.py:22-32 | definition: `hex_color_to_rgba` as written, with `$` in the short form |
| Colors.CorrectedHexColorToRgba | src/pyweblogalyzer/dashboard/app.py:22-32 | definition: `hex_color_to_rgba` with the short form doubled |

## Left out

- Flask, the routes, `render_template`, the JSON page built by `get_dashboard_data` apart from the graph texts and marker sizes, and the base64 and URL decoding of route parameters: web plumbing.
- The `Thread` subclass, the `run` loop and `time.sleep`: one polling round is `CollectorApp.Tick`.
- Real file, gzip and directory I/O: the file system is a value, a file is its bytes plus whether it opens, and `tell` after a full read is the end of those bytes.
- `parse.compile`, `strptime`, `float()`, `ip_address`/`ip_network` parsing, the geoip2 readers and `user_agents`: parameters of the model, so what they return is not modelled.
- `_init_geoloc` and the opening of the geoip databases: the readers are given as present or absent.
- Floating point: `opacity / 100` is given as a ready text, and lat, long and request time are opaque reals.
- Query.PeriodStart: a bucket starts at `s - s % w`, aligned on the epoch. pandas' `Grouper` aligns on the first day's midnight (`origin='start_day'`), which gives the same starts only when the width divides a day; time zones are not modelled, and the `strftime` export text is a parameter.
- Query.GroupStage: pandas' quicksort is not stable, so only sortedness by count and the permutation are stated, not the order of equal counts.
- Tables.SortByStamp: only ordering and permutation are stated, for the same reason.
- Query.SummedColumns: pandas' `numeric_only` rules are reduced to integer and float columns, with booleans and other dtypes counted as non-numeric.
- Duplicate column names in a table are not modelled.
- Query.TableData: the stages are modelled on values. As written, with no filter and no display columns `tabledata` is the caller's frame itself (src/pyweblogalyzer/dashboard/app.py:85), so the count column (line 114) and the time and timestamp columns (lines 122-123) are written into the shared snapshot that later dashboards of the same request receive (lines 297-310). The model does not capture that aliasing.
- Query.FilterValue: `IsDigits` accepts ASCII digits only. Python's `isdigit` is also true of other Unicode digits: `"²"` passes it and then `int()` raises ValueError, and `"١٢"` filters on the int 12.
- Text.ParseInt: `int()` also accepts underscores between digits (`"1_000"`) and non-ASCII decimal digits; the model accepts ASCII digits only.
- Layout.ContextTable uses the corrected grouping that keeps the time index (`keepIndex`); the index-dropping grouping as written is `Query.GroupedThenTimedFails`.
- Render.FindFields: `\w` and `\s` in the placeholder pattern are read as ASCII letters, digits, underscore and space, not Unicode classes.
- Colors.ParseHex: the `0x` prefix and underscores that `int(s, 16)` also accepts are not modelled.
- The `.format(key)` of the contextual dashboard's title is not modelled; only the title's presence is checked.
- The dashboard configuration is typed: each optional key is an `Option`, and a falsy value other than None or "" is not modelled.
- Render.MarkerData: `sizemax` is required to be an integer when set.
- The dynamic import, the `sys.path` change and `install`/`install_and_import`: module loading is a `Loader` parameter.
- `_get_graph_dataset_columns` is not modelled: nothing calls it, and it reads keys the configuration does not have.
- The example plugin under etc/config/log_enrichers is not part of this model; only the direct `_data` write it documents is (`WebLogData.WebLogData.SetItem`).
- Collector.CollectorApp.Enrich: a plugin is modelled by its writes into `_data` (`add_aux_info` or direct) and whether it raises. Attribute assignments on the record are not modelled. For example, `log_data.timestamp = …` would change the index label. Deleting keys and other arbitrary plugin code are not modelled either.
- Locking: the program has none, and the model is sequential.

## Findings

| source | as written | input that shows it | evidently intended | confidence | as-written member | corrected member |
|---|---|---|---|---|---|---|
| src/pyweblogalyzer/dashboard/app.py:27 | the 3-digit expansion inserts literal `$` characters (an f-string written with JavaScript `${}` syntax), so `int("$1", 16)` raises | `hex_color_to_rgba("#123", 40)` raises ValueError | `#123` reads as `#112233` | high (not executed) | Colors.ShortFormFails | Colors.ShortFormDoubles |
| src/pyweblogalyzer/dashboard/app.py:266-289 | `_empty_` and `_hidden_` are single dict keys. Assigning them again keeps their first position, so a second large dashboard gets no filler and the rows shift | two large dashboards "a", "b" give slots "a", "_hidden_", "b" | each large dashboard starts a row and fills its pair slot | high (not executed) | Layout.TwoLargeBoards | Layout.LargeStartsRow |
| src/pyweblogalyzer/dashboard/app.py:366-370 | the contextual dashboard's filter is read before the check that the dashboard exists | an `on_click` naming a dashboard missing from the configuration raises AttributeError | the warning branch gives the empty answer | high (not executed) | Layout.MissingContextDashboard | Layout.ContextDataAgree |
| src/pyweblogalyzer/collector/enrichers.py:57-58 | `self.log` is assigned after `_load_enrichers` runs, and called as a function there | one enricher entry whose module raises aborts `LogEnrichers(config)` with AttributeError | the entry is logged and skipped | high (not executed) | Enrichers.OneBadEntry | Enrichers.LoadEnrichers |
| src/pyweblogalyzer/collector/app.py:84-104 | when `open` raises, `file` is unbound in the `finally` clause | a configured log file that cannot be opened raises UnboundLocalError out of `_parse_log_file` | the error is logged and the file skipped with its offset kept | high (not executed) | Collector.UnopenableFile | Collector.CollectorApp.ParseLogFile |
| src/pyweblogalyzer/dashboard/app.py:117-124 | grouping sorts with `ignore_index=True`, which drops the time index, so the `Grouper(freq=...)` of time grouping that follows raises TypeError. The configuration documentation (config.py:108) describes grouping combined with time grouping | a dashboard with `groupby_cols` and `time_group` both set raises TypeError on every request | grouping keeps the time index and time grouping counts the grouped rows per period | high (not executed) | Query.GroupedThenTimedFails | Query.GroupedThenTimed |
| src/pyweblogalyzer/collector/app.py:144 | `_is_excluded` looks up the request text in `EXCLUDE_REMOTE_IP`, a list that config.py:51-52 describes as client addresses to exclude | with `EXCLUDE_REMOTE_IP = ["10.0.0.1"]`, a line from 10.0.0.1 requesting "GET / HTTP/1.1" is still added | a line is excluded when its `remote_ip` is listed | medium (not executed) | Collector.ExcludedIpNotMatched | Collector.IsExcludedByAddress |
