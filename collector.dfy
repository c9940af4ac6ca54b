/** The log collector (`CollectorApp`): which files to read, where to resume in
    each, how a line becomes a record, and the per-address geolocation cache. */
module Collector {
  import opened Wrappers
  import opened Text
  import opened Values
  import opened WebLogData
  import opened WebLog
  import opened Enrichers

  newtype byte = x: int | 0 <= x < 256

  const Newline: byte := 10

  /** A regular file: its byte stream (for a gzip file, the decompressed stream)
      and whether opening it succeeds. */
  datatype FileData = FileData(content: seq<byte>, opens: bool)

  /** The file system as the collector sees it: regular files and directory listings. */
  datatype FileSystem = FileSystem(files: map<string, FileData>, dirs: map<string, seq<string>>)

  /** `os.path.join(directory, name)` for a name from the directory's listing. */
  function PathJoin(dir: string, name: string): string {
    if |dir| > 0 && dir[|dir| - 1] == '/' then dir + name else dir + "/" + name
  }

  /** `WEB_LOG_FILTER` selects `name`: no filter (None or empty) selects every name. */
  predicate FilterSelects(filter: Option<string>, name: string) {
    filter.None? || filter.value == "" || Contains(name, filter.value)
  }

  /** The directory entries that are regular files selected by the filter, as
      joined paths, in listing order. */
  function SelectedFiles(fs: FileSystem, dir: string, names: seq<string>, filter: Option<string>): (paths: seq<string>)
    ensures forall p :: p in paths <==> exists i :: 0 <= i < |names| && p == PathJoin(dir, names[i]) && p in fs.files && FilterSelects(filter, names[i])
  {
    if |names| == 0 then []
    else
      var rest := SelectedFiles(fs, dir, names[1..], filter);
      var p := PathJoin(dir, names[0]);
      assert forall i :: 1 <= i < |names| ==> names[i] == names[1..][i - 1];
      if p in fs.files && FilterSelects(filter, names[0]) then [p] + rest else rest
  }

  /** One name of the listing gives its joined path when it is a selected regular
      file, and nothing otherwise. */
  lemma SelectedFilesOne(fs: FileSystem, dir: string, name: string, filter: Option<string>)
    ensures SelectedFiles(fs, dir, [name], filter) ==
      if PathJoin(dir, name) in fs.files && FilterSelects(filter, name) then [PathJoin(dir, name)] else []
  {
    assert [name][1..] == [];
  }

  /** The first name's file, if any, comes before the rest's. */
  lemma SelectedFilesCons(fs: FileSystem, dir: string, name: string, rest: seq<string>, filter: Option<string>)
    ensures SelectedFiles(fs, dir, [name] + rest, filter) == SelectedFiles(fs, dir, [name], filter) + SelectedFiles(fs, dir, rest, filter)
  {
    SelectedFilesOne(fs, dir, name, filter);
    assert ([name] + rest)[0] == name && ([name] + rest)[1..] == rest;
  }

  /** Selection keeps listing order: the files of two stretches of the listing
      are those of the first stretch, then those of the second. */
  lemma {:induction false} SelectedFilesAppend(fs: FileSystem, dir: string, xs: seq<string>, ys: seq<string>, filter: Option<string>)
    ensures SelectedFiles(fs, dir, xs + ys, filter) == SelectedFiles(fs, dir, xs, filter) + SelectedFiles(fs, dir, ys, filter)
    decreases |xs|
  {
    if |xs| == 0 {
      assert xs + ys == ys;
    } else {
      var head := SelectedFiles(fs, dir, [xs[0]], filter);
      calc {
        SelectedFiles(fs, dir, xs + ys, filter);
        { assert xs + ys == [xs[0]] + (xs[1..] + ys); }
        SelectedFiles(fs, dir, [xs[0]] + (xs[1..] + ys), filter);
        { SelectedFilesCons(fs, dir, xs[0], xs[1..] + ys, filter); }
        head + SelectedFiles(fs, dir, xs[1..] + ys, filter);
        { SelectedFilesAppend(fs, dir, xs[1..], ys, filter); }
        head + SelectedFiles(fs, dir, xs[1..], filter) + SelectedFiles(fs, dir, ys, filter);
        { SelectedFilesCons(fs, dir, xs[0], xs[1..], filter); assert [xs[0]] + xs[1..] == xs; }
        SelectedFiles(fs, dir, xs, filter) + SelectedFiles(fs, dir, ys, filter);
      }
    }
  }

  /** `_build_file_list`: the configured path when it is a file; the selected files
      of the directory when it is one; ValueError otherwise. */
  method BuildFileList(fs: FileSystem, path: string, filter: Option<string>) returns (r: Result<seq<string>, string>)
    ensures path in fs.files ==> r == Success([path])
    ensures path !in fs.files && path in fs.dirs ==> r == Success(SelectedFiles(fs, path, fs.dirs[path], filter))
    ensures r.Failure? <==> path !in fs.files && path !in fs.dirs
  {
    if path in fs.files {
      return Success([path]);
    } else if path in fs.dirs {
      var names := fs.dirs[path];
      var list: seq<string> := [];
      var i := |names|;
      while i > 0
        invariant 0 <= i <= |names|
        invariant list == SelectedFiles(fs, path, names[i..], filter)
      {
        i := i - 1;
        assert names[i..][1..] == names[i + 1..];
        var p := PathJoin(path, names[i]);
        if p in fs.files && FilterSelects(filter, names[i]) {
          list := [p] + list;
        }
      }
      return Success(list);
    } else {
      return Failure("ValueError");
    }
  }

  /** The gzip test of `_parse_log_file`: a name ending in "gz", dot or not. */
  predicate IsGzip(name: string) {
    EndsWith(name, "gz")
  }

  /** Where reading resumes: the recorded offset, 0 for an untracked file; an
      uncompressed file shorter than the offset is read again from 0; seeking a
      gzip stream past its end stops at the end. */
  function StartOffset(name: string, last: Option<nat>, content: seq<byte>): (pos: nat)
    ensures pos <= |content|
    ensures last.None? ==> pos == 0
    ensures !IsGzip(name) && last.Some? ==> pos == if last.value > |content| then 0 else last.value
    ensures IsGzip(name) && last.Some? ==> pos == if last.value > |content| then |content| else last.value
  {
    var p := last.GetOr(0);
    if !IsGzip(name) && p > |content| then 0
    else if p > |content| then |content|
    else p
  }

  /** The end of the line starting at `pos`: just after the next newline, or the
      end of the stream. */
  function LineEnd(content: seq<byte>, pos: nat): (e: nat)
    requires pos <= |content|
    ensures pos <= e <= |content|
    ensures pos < |content| ==> pos < e
    ensures forall k :: pos <= k < e - 1 ==> content[k] != Newline
    ensures e == |content| || content[e - 1] == Newline
    decreases |content| - pos
  {
    if pos == |content| then pos
    else if content[pos] == Newline then pos + 1
    else LineEnd(content, pos + 1)
  }

  /** A pass over a stream from `pos`: the stripped lines handed to
      `_parse_log_line`, and the offset `tell()` gives at the end, None when
      decoding a line raised (the lines before it were handled already). */
  datatype Scan = Scan(lines: seq<string>, end: Option<nat>)

  /** The `readline().decode()` loop: it stops at an empty line text, which the end
      of the stream gives. */
  function ScanFrom(content: seq<byte>, pos: nat, decode: seq<byte> -> Option<string>): (s: Scan)
    requires pos <= |content|
    ensures s.end.Some? ==> pos <= s.end.value <= |content|
    decreases |content| - pos
  {
    if pos == |content| then Scan([], Some(pos))
    else
      var e := LineEnd(content, pos);
      match decode(content[pos..e])
      case None => Scan([], None)
      case Some(text) =>
        if text == "" then Scan([], Some(e))
        else
          var rest := ScanFrom(content, e, decode);
          Scan([Strip(text)] + rest.lines, rest.end)
  }

  /** UTF-8 decoding as Python does it: a non-empty byte string never decodes to
      the empty text. */
  ghost predicate DecodeKeepsText(decode: seq<byte> -> Option<string>) {
    forall b :: |b| > 0 && decode(b).Some? ==> decode(b).value != ""
  }

  /** After a pass without decoding errors the recorded offset is the end of the
      stream. */
  lemma {:induction false} ScanReachesEnd(content: seq<byte>, pos: nat, decode: seq<byte> -> Option<string>)
    requires pos <= |content|
    requires DecodeKeepsText(decode)
    requires ScanFrom(content, pos, decode).end.Some?
    ensures ScanFrom(content, pos, decode).end == Some(|content|)
    decreases |content| - pos
  {
    if pos < |content| {
      var e := LineEnd(content, pos);
      assert |content[pos..e]| > 0;
      ScanReachesEnd(content, e, decode);
    }
  }

  /** Every line the pass hands on is stripped text. */
  lemma {:induction false} ScanLinesStripped(content: seq<byte>, pos: nat, decode: seq<byte> -> Option<string>)
    requires pos <= |content|
    ensures forall l :: l in ScanFrom(content, pos, decode).lines ==> Stripped(l)
    decreases |content| - pos
  {
    if pos < |content| {
      var e := LineEnd(content, pos);
      var text := decode(content[pos..e]);
      if text.Some? && text.value != "" {
        var rest := ScanFrom(content, e, decode);
        ScanLinesStripped(content, e, decode);
        var first := Strip(text.value);
        assert ScanFrom(content, pos, decode).lines == [first] + rest.lines;
        assert forall l :: l in [first] + rest.lines ==> l == first || l in rest.lines;
      }
    }
  }

  /** The part of `_parse_log_file` that does not depend on the lines' contents:
      which lines are handed on and which offset is recorded. Opening a missing or
      unreadable file is reported and the file skipped, its offset kept. */
  function FilePass(file: Option<FileData>, name: string, last: Option<nat>, decode: seq<byte> -> Option<string>): (s: Scan)
  {
    if file.None? || !file.value.opens then Scan([], None)
    else ScanFrom(file.value.content, StartOffset(name, last, file.value.content), decode)
  }

  /** The same pass as written: when `open` raises, `file` is unbound and the
      `finally` clause raises UnboundLocalError out of `_parse_log_file`. */
  function FilePassAsWritten(file: Option<FileData>, name: string, last: Option<nat>, decode: seq<byte> -> Option<string>): Result<Scan, string> {
    if file.None? || !file.value.opens then Failure("UnboundLocalError")
    else Success(FilePass(file, name, last, decode))
  }

  /** A file that cannot be opened ends the collector thread as written; with the
      skip the pass hands on nothing and keeps the offset. */
  lemma UnopenableFile(name: string, last: Option<nat>, decode: seq<byte> -> Option<string>)
    ensures FilePassAsWritten(None, name, last, decode).Failure?
    ensures FilePass(None, name, last, decode) == Scan([], None)
  {
  }

  /** The two passes agree on every file that opens. */
  lemma OpenableFilesAgree(file: FileData, name: string, last: Option<nat>, decode: seq<byte> -> Option<string>)
    requires file.opens
    ensures FilePassAsWritten(Some(file), name, last, decode) == Success(FilePass(Some(file), name, last, decode))
  {
  }

  /** Reading an unchanged file again from the offset recorded at its end hands on
      no line and records the same offset. */
  lemma ReadAgainAtEnd(file: FileData, name: string, decode: seq<byte> -> Option<string>)
    requires file.opens
    ensures FilePass(Some(file), name, Some(|file.content|), decode) == Scan([], Some(|file.content|))
  {
  }

  /** A full pass over a file that opens and decodes records its end. */
  lemma PassRecordsEnd(file: FileData, name: string, last: Option<nat>, decode: seq<byte> -> Option<string>)
    requires file.opens && DecodeKeepsText(decode)
    requires FilePass(Some(file), name, last, decode).end.Some?
    ensures FilePass(Some(file), name, last, decode).end == Some(|file.content|)
  {
    ScanReachesEnd(file.content, StartOffset(name, last, file.content), decode);
  }

  /** A file that can be read: it exists and opens. */
  predicate Readable(fs: FileSystem, name: string) {
    name in fs.files && fs.files[name].opens
  }

  /** The pass `_parse_log_file(name)` makes against the offsets `positions`. */
  function PassOver(fs: FileSystem, name: string, positions: map<string, nat>, decode: seq<byte> -> Option<string>): Scan {
    FilePass(if name in fs.files then Some(fs.files[name]) else None, name,
             if name in positions then Some(positions[name]) else None, decode)
  }

  /** The offsets after a pass over `name`: the end it reached is recorded, unless
      decoding failed or the file was skipped. */
  function Advanced(positions: map<string, nat>, name: string, pass: Scan): map<string, nat> {
    if pass.end.Some? then positions[name := pass.end.value] else positions
  }

  /** A pass over one file leaves every other file's offset alone. */
  lemma AdvancedKeeps(positions: map<string, nat>, name: string, pass: Scan, other: string)
    requires other != name && other in positions
    ensures other in Advanced(positions, name, pass) && Advanced(positions, name, pass)[other] == positions[other]
  {
  }

  /** The collector's reading state: the lines handed to `_parse_log_line` so far,
      oldest first, and the offset reached in each file. */
  datatype Progress = Progress(lines: seq<string>, positions: map<string, nat>)

  /** `_parse_log_file(name)` from state `p`: the pass's lines handed on, its end
      recorded. */
  function ReadFile(fs: FileSystem, p: Progress, name: string, decode: seq<byte> -> Option<string>): Progress {
    var pass := PassOver(fs, name, p.positions, decode);
    Progress(p.lines + pass.lines, Advanced(p.positions, name, pass))
  }

  /** The first `n` files of a round read in list order, each from the offset the
      earlier ones left. */
  function RoundOver(fs: FileSystem, names: seq<string>, n: nat, p: Progress, decode: seq<byte> -> Option<string>): Progress
    requires n <= |names|
  {
    if n == 0 then p else ReadFile(fs, RoundOver(fs, names, n - 1, p, decode), names[n - 1], decode)
  }

  /** A round only appends lines, keeps every offset it found, and starts tracking
      only files it read. */
  lemma {:induction false} RoundPositions(fs: FileSystem, names: seq<string>, n: nat, p: Progress, decode: seq<byte> -> Option<string>)
    requires n <= |names|
    ensures var q := RoundOver(fs, names, n, p, decode);
      && |p.lines| <= |q.lines| && q.lines[..|p.lines|] == p.lines
      && p.positions.Keys <= q.positions.Keys
      && forall f :: f in q.positions && f !in p.positions ==> f in names[..n]
  {
    if n > 0 {
      RoundPositions(fs, names, n - 1, p, decode);
      var q := RoundOver(fs, names, n - 1, p, decode);
      assert (q.lines + PassOver(fs, names[n - 1], q.positions, decode).lines)[..|p.lines|] == q.lines[..|p.lines|];
      assert forall f :: f in names[..n - 1] ==> f in names[..n];
      assert names[n - 1] in names[..n];
    }
  }

  /** Decoding never fails on any byte string. */
  ghost predicate DecodesAll(decode: seq<byte> -> Option<string>) {
    forall b :: decode(b).Some?
  }

  lemma {:induction false} ScanEnds(content: seq<byte>, pos: nat, decode: seq<byte> -> Option<string>)
    requires pos <= |content| && DecodesAll(decode)
    ensures ScanFrom(content, pos, decode).end.Some?
    decreases |content| - pos
  {
    if pos < |content| {
      var e := LineEnd(content, pos);
      assert decode(content[pos..e]).Some?;
      if decode(content[pos..e]).value != "" {
        ScanEnds(content, e, decode);
      }
    }
  }

  /** A pass over a readable file that decodes throughout ends at the file's end. */
  lemma PassEnds(fs: FileSystem, name: string, positions: map<string, nat>, decode: seq<byte> -> Option<string>)
    requires DecodesAll(decode) && DecodeKeepsText(decode) && Readable(fs, name)
    ensures PassOver(fs, name, positions, decode).end == Some(|fs.files[name].content|)
  {
    var file := fs.files[name];
    var last := if name in positions then Some(positions[name]) else None;
    ScanEnds(file.content, StartOffset(name, last, file.content), decode);
    PassRecordsEnd(file, name, last, decode);
  }

  /** After a round in which every file decoded, each readable file of the round is
      recorded at its end. */
  lemma {:induction false} RoundRecordsEnds(fs: FileSystem, names: seq<string>, n: nat, p: Progress, decode: seq<byte> -> Option<string>)
    requires n <= |names|
    requires DecodesAll(decode) && DecodeKeepsText(decode)
    ensures var after := RoundOver(fs, names, n, p, decode).positions;
      forall k :: 0 <= k < n && Readable(fs, names[k]) ==> names[k] in after && after[names[k]] == |fs.files[names[k]].content|
  {
    if n > 0 {
      var prev := RoundOver(fs, names, n - 1, p, decode).positions;
      var name := names[n - 1];
      var pass := PassOver(fs, name, prev, decode);
      var after := Advanced(prev, name, pass);
      RoundRecordsEnds(fs, names, n - 1, p, decode);
      if Readable(fs, name) {
        PassEnds(fs, name, prev, decode);
      }
      forall k | 0 <= k < n && Readable(fs, names[k])
        ensures names[k] in after && after[names[k]] == |fs.files[names[k]].content|
      {
        if names[k] != name {
          assert k < n - 1;
          AdvancedKeeps(prev, name, pass, names[k]);
        }
      }
    }
  }

  /** A round over files all recorded at their ends reads no line and moves no offset. */
  lemma {:induction false} RoundAtEnds(fs: FileSystem, names: seq<string>, n: nat, p: Progress, decode: seq<byte> -> Option<string>)
    requires n <= |names|
    requires forall k :: 0 <= k < n && Readable(fs, names[k]) ==> names[k] in p.positions && p.positions[names[k]] == |fs.files[names[k]].content|
    ensures RoundOver(fs, names, n, p, decode) == p
  {
    if n > 0 {
      RoundAtEnds(fs, names, n - 1, p, decode);
      var name := names[n - 1];
      if Readable(fs, name) {
        ReadAgainAtEnd(fs.files[name], name, decode);
        assert p.positions[name := p.positions[name]] == p.positions;
      }
      assert p.lines + [] == p.lines;
    }
  }

  /** The collector reads every line once: when every file decodes, a second round
      over the same unchanged files hands on nothing and leaves the offsets as the
      first round left them. */
  lemma RoundAgain(fs: FileSystem, names: seq<string>, p: Progress, decode: seq<byte> -> Option<string>)
    requires DecodesAll(decode) && DecodeKeepsText(decode)
    ensures var first := RoundOver(fs, names, |names|, p, decode);
      RoundOver(fs, names, |names|, first, decode) == first
  {
    RoundRecordsEnds(fs, names, |names|, p, decode);
    RoundAtEnds(fs, names, |names|, RoundOver(fs, names, |names|, p, decode), decode);
  }

  // ---- addresses

  /** An address as `ipaddress.ip_address` gives it, by version and value. */
  datatype IpAddr = V4(n: nat) | V6(n: nat)

  /** A configured local network (`ip_network`): version, base address, prefix length. */
  datatype Network = Network(v6: bool, base: nat, prefix: nat)

  function Pow2(k: nat): (p: nat)
    ensures p >= 1
  {
    if k == 0 then 1 else 2 * Pow2(k - 1)
  }

  function HostBits(net: Network): nat {
    var width := if net.v6 then 128 else 32;
    if net.prefix >= width then 0 else width - net.prefix
  }

  /** `addr in net`: same version and same network part. */
  predicate InNetwork(a: IpAddr, net: Network) {
    && a.V6? == net.v6
    && a.n / Pow2(HostBits(net)) == net.base / Pow2(HostBits(net))
  }

  /** `is_loopback`: 127.0.0.0/8, or ::1. */
  predicate IsLoopback(a: IpAddr) {
    match a
    case V4(n) => n / 0x100_0000 == 127
    case V6(n) => n == 1
  }

  function InAnyNetwork(a: IpAddr, nets: seq<Network>): (b: bool)
    ensures b <==> exists i :: 0 <= i < |nets| && InNetwork(a, nets[i])
  {
    if |nets| == 0 then false
    else if InNetwork(a, nets[0]) then true
    else
      var b := InAnyNetwork(a, nets[1..]);
      assert forall i :: 1 <= i < |nets| ==> nets[i] == nets[1..][i - 1];
      b
  }

  /** `is_remote_ip` on an address: not loopback, not IPv6, in no local network. */
  function IsRemote(a: IpAddr, nets: seq<Network>): (b: bool)
    ensures b <==> !IsLoopback(a) && a.V4? && forall i :: 0 <= i < |nets| ==> !InNetwork(a, nets[i])
  {
    if IsLoopback(a) || a.V6? then false
    else !InAnyNetwork(a, nets)
  }

  /** `LOCAL_NETWORKS` as shipped: 192.168.0.0/24 and 192.168.13.0/24. */
  const ShippedNetworks: seq<Network> := [Network(false, 0xC0A8_0000, 24), Network(false, 0xC0A8_0D00, 24)]

  /** Loopback and the addresses of the shipped local networks are never remote,
      whatever other networks are listed; a public address is remote under the
      shipped list. */
  lemma LocalAddressesNotRemote(nets: seq<Network>)
    requires ShippedNetworks[0] in nets && ShippedNetworks[1] in nets
    ensures !IsRemote(V4(0x7F00_0001), nets)
    ensures !IsRemote(V4(0xC0A8_00C7), nets)
    ensures !IsRemote(V4(0xC0A8_0D05), nets)
    ensures IsRemote(V4(0x0808_0808), ShippedNetworks)
  {
    assert Pow2(8) == 256 by {
      assert Pow2(4) == 16;
      assert Pow2(8) == 16 * Pow2(4);
    }
    var i :| 0 <= i < |nets| && nets[i] == ShippedNetworks[0];
    assert InNetwork(V4(0xC0A8_00C7), nets[i]);
    var j :| 0 <= j < |nets| && nets[j] == ShippedNetworks[1];
    assert InNetwork(V4(0xC0A8_0D05), nets[j]);
  }

  /** The first loop of `_is_excluded`: some `EXCLUDE_REQUESTS` entry occurs in the
      request text. */
  function RequestFiltered(request: string, excludeRequests: seq<string>): (b: bool)
    ensures b <==> exists i :: 0 <= i < |excludeRequests| && Contains(request, excludeRequests[i])
  {
    if |excludeRequests| == 0 then false
    else if Contains(request, excludeRequests[0]) then true
    else
      var b := RequestFiltered(request, excludeRequests[1..]);
      assert forall i :: 1 <= i < |excludeRequests| ==> excludeRequests[i] == excludeRequests[1..][i - 1];
      b
  }

  /** `_is_excluded` as written: a filtered request, or the request text itself
      listed in `EXCLUDE_REMOTE_IP` (the request, not the address, is what that
      list is compared with). */
  function IsExcluded(request: string, excludeRequests: seq<string>, excludeRemoteIp: seq<string>): (b: bool)
    ensures b <==> (exists i :: 0 <= i < |excludeRequests| && Contains(request, excludeRequests[i])) || request in excludeRemoteIp
  {
    RequestFiltered(request, excludeRequests) || request in excludeRemoteIp
  }

  /** As written, listing the address of a client in `EXCLUDE_REMOTE_IP` changes
      nothing for its lines, whose request text is not that address. */
  lemma ExcludedIpNotMatched(request: string, ip: string, excludeRequests: seq<string>, excludeRemoteIp: seq<string>)
    requires request != ip
    ensures IsExcluded(request, excludeRequests, excludeRemoteIp + [ip]) == IsExcluded(request, excludeRequests, excludeRemoteIp)
  {
    assert request in excludeRemoteIp + [ip] <==> request in excludeRemoteIp;
  }

  /** `_is_excluded` compared on the remote address, as the configuration
      describes `EXCLUDE_REMOTE_IP` ("client ips ... to be excluded"): a filtered
      request, or a parsed log whose `remote_ip` is listed. The request is read
      first; the address only when no request filter matched. */
  function IsExcludedByAddress(p: map<string, string>, excludeRequests: seq<string>, excludeRemoteIp: seq<string>): (b: bool)
    requires "request" in p
    ensures b <==>
      || (exists i :: 0 <= i < |excludeRequests| && Contains(p["request"], excludeRequests[i]))
      || ("remote_ip" in p && p["remote_ip"] in excludeRemoteIp)
  {
    RequestFiltered(p["request"], excludeRequests) || ("remote_ip" in p && p["remote_ip"] in excludeRemoteIp)
  }

  /** Listing the address of a client excludes every line it sends. */
  lemma ExcludedAddressMatched(p: map<string, string>, excludeRequests: seq<string>, excludeRemoteIp: seq<string>)
    requires "request" in p && "remote_ip" in p
    ensures IsExcludedByAddress(p, excludeRequests, excludeRemoteIp + [p["remote_ip"]])
  {
    assert (excludeRemoteIp + [p["remote_ip"]])[|excludeRemoteIp|] == p["remote_ip"];
  }

  // ---- geolocation

  /** What a city lookup gives: city and country names, latitude, longitude. */
  datatype GeoCity = GeoCity(city: Value, country: Value, lat: Value, lon: Value)

  /** A cached `(city, asn)` pair; None where no reader is configured. */
  datatype Geo = Geo(city: Option<GeoCity>, asn: Option<Value>)

  /** The foreign pieces the collector calls: the log template, `strptime`,
      `float`, `ip_address`, `user_agents`, the two geoip readers (a lookup that
      raises gives None), UTF-8 decoding, and the export text of a datetime. */
  datatype Foreign = Foreign(
    parseTemplate: string -> Option<map<string, string>>,
    strptime: string -> Option<Instant>,
    parseFloat: string -> Option<real>,
    parseIp: string -> Option<IpAddr>,
    userAgent: string -> (string, string, string),
    cityReader: Option<string -> Option<GeoCity>>,
    asnReader: Option<string -> Option<Value>>,
    decode: seq<byte> -> Option<string>,
    exportText: Instant -> string)

  /** The collector's configuration. */
  datatype Settings = Settings(
    webLogPath: string,
    webLogFilter: Option<string>,
    excludeRequests: seq<string>,
    excludeRemoteIp: seq<string>,
    localNetworks: seq<Network>)

  /** `is_remote_ip(ip_str)`: ValueError when the text is not an address. */
  function RemoteIp(ip: string, f: Foreign, nets: seq<Network>): Result<bool, string> {
    match f.parseIp(ip)
    case None => Failure("ValueError")
    case Some(a) => Success(IsRemote(a, nets))
  }

  /** The reader lookups for an address not in the cache. */
  function LookupGeo(ip: string, f: Foreign): Result<Geo, string> {
    var city := if f.cityReader.Some? then f.cityReader.value(ip) else None;
    var asn := if f.asnReader.Some? then f.asnReader.value(ip) else None;
    if f.cityReader.Some? && city.None? then Failure("AddressNotFoundError")
    else if f.asnReader.Some? && asn.None? then Failure("AddressNotFoundError")
    else Success(Geo(city, asn))
  }

  /** `_get_geoloc(ip)` against cache `cache`: the answer, the cache afterwards, and
      whether the readers were asked. */
  function Geoloc(ip: string, f: Foreign, nets: seq<Network>, cache: map<string, Geo>): (r: (Result<Geo, string>, map<string, Geo>, bool))
    ensures RemoteIp(ip, f, nets) != Success(true) ==> r.1 == cache && !r.2
    ensures RemoteIp(ip, f, nets) == Success(false) ==> r.0 == Success(Geo(None, None))
    ensures RemoteIp(ip, f, nets) == Success(true) && ip in cache ==> r == (Success(cache[ip]), cache, false)
    ensures r.2 ==> ip !in cache
    ensures r.0.Success? && RemoteIp(ip, f, nets) == Success(true) ==> r.1 == cache[ip := r.0.value]
    ensures r.0.Failure? ==> r.1 == cache
  {
    match RemoteIp(ip, f, nets)
    case Failure(e) => (Failure(e), cache, false)
    case Success(remote) =>
      if !remote then (Success(Geo(None, None)), cache, false)
      else if ip in cache then (Success(cache[ip]), cache, false)
      else
        var g := LookupGeo(ip, f);
        (g, if g.Success? then cache[ip := g.value] else cache, true)
  }

  /** Once an address's lookup succeeded, asking again gives the same pair from the
      cache, without a lookup. */
  lemma GeolocCachedAfterward(ip: string, f: Foreign, nets: seq<Network>, cache: map<string, Geo>)
    requires Geoloc(ip, f, nets, cache).0.Success?
    ensures var next := Geoloc(ip, f, nets, cache).1;
      Geoloc(ip, f, nets, next) == (Geoloc(ip, f, nets, cache).0, next, false)
  {
  }

  // ---- records

  /** The template supplies every field `_parse_log_line` reads. */
  predicate HasLineKeys(p: map<string, string>) {
    && "remote_ip" in p && "referer" in p && "hostname" in p && "datetime" in p && "bytes_sent" in p
    && "request_time" in p && "status" in p && "request" in p && "user_agent" in p
  }

  /** The typed values `_parse_log_line` takes from the template fields. */
  datatype LineValues = LineValues(operation: string, url: string, protocol: string, stamp: Instant,
                                   bytes: int, duration: real, status: int)

  /** The request split into its three tokens and the datetime, byte count,
      duration and status parsed, or the exception: a missing template field
      (KeyError), a request that is not three tokens or a value that does not
      parse (ValueError). */
  function ParseValues(p: map<string, string>, f: Foreign): (r: Result<LineValues, string>)
    ensures r.Success? <==>
      && HasLineKeys(p)
      && |SplitWs(p["request"])| == 3
      && f.strptime(p["datetime"]).Some?
      && ParseInt(p["bytes_sent"]).Some?
      && f.parseFloat(p["request_time"]).Some?
      && ParseInt(p["status"]).Some?
    ensures r.Success? ==>
      && SplitWs(p["request"])[0] == r.value.operation
      && SplitWs(p["request"])[1] == r.value.url
      && SplitWs(p["request"])[2] == r.value.protocol
      && f.strptime(p["datetime"]) == Some(r.value.stamp)
      && ParseInt(p["bytes_sent"]) == Some(r.value.bytes)
      && f.parseFloat(p["request_time"]) == Some(r.value.duration)
      && ParseInt(p["status"]) == Some(r.value.status)
  {
    if !HasLineKeys(p) then Failure("KeyError")
    else
      var tokens := SplitWs(p["request"]);
      var stamp := f.strptime(p["datetime"]);
      var bytes := ParseInt(p["bytes_sent"]);
      var duration := f.parseFloat(p["request_time"]);
      var status := ParseInt(p["status"]);
      if |tokens| != 3 || stamp.None? || bytes.None? || duration.None? || status.None? then Failure("ValueError")
      else Success(LineValues(tokens[0], tokens[1], tokens[2], stamp.value, bytes.value, duration.value, status.value))
  }

  /** The keyword arguments `_parse_log_line` passes to `WebLogData`. */
  function Kwargs(p: map<string, string>, v: LineValues, geo: Geo, agent: (string, string, string)): (kw: map<string, Value>)
    requires HasLineKeys(p)
    ensures forall k :: k in LogInfos ==> k in kw
    ensures "asn" in kw
    ensures TimestampArgumentOk(kw) && HasTimestamp(kw) && kw["timestamp"] == Time(v.stamp)
  {
    var c := geo.city;
    map[
      "remote_ip" := Str(p["remote_ip"]),
      "http_referer" := Str(p["referer"]),
      "hostname" := Str(p["hostname"]),
      "timestamp" := Time(v.stamp),
      "bytes_sent" := Int(v.bytes),
      "request_time" := Real(v.duration),
      "request_status" := Int(v.status),
      "city" := if c.Some? then c.value.city else Str("unknown"),
      "country" := if c.Some? then c.value.country else Str("unknown"),
      "lat" := if c.Some? then c.value.lat else Real(0.0),
      "long" := if c.Some? then c.value.lon else Real(0.0),
      "asn" := if geo.asn.Some? then geo.asn.value else Str("unknown"),
      "http_operation" := Str(v.operation),
      "http_url" := Str(v.url),
      "protocol" := Str(v.protocol),
      "browser" := Str(agent.0),
      "os" := Str(agent.1),
      "device" := Str(agent.2)
    ]
  }

  /** The parsed numbers and request tokens reach the record unchanged. */
  lemma KwargsParsedValues(p: map<string, string>, v: LineValues, geo: Geo, agent: (string, string, string))
    requires HasLineKeys(p)
    ensures var kw := Kwargs(p, v, geo, agent);
      && kw["bytes_sent"] == Int(v.bytes) && kw["request_time"] == Real(v.duration) && kw["request_status"] == Int(v.status)
      && kw["http_operation"] == Str(v.operation) && kw["http_url"] == Str(v.url) && kw["protocol"] == Str(v.protocol)
  {
  }

  /** An address without geolocation gets the "unknown" place at (0.0, 0.0). */
  lemma KwargsUnknownPlace(p: map<string, string>, v: LineValues, geo: Geo, agent: (string, string, string))
    requires HasLineKeys(p)
    ensures var kw := Kwargs(p, v, geo, agent);
      && (geo.city.None? ==>
            kw["city"] == Str("unknown") && kw["country"] == Str("unknown") && kw["lat"] == Real(0.0) && kw["long"] == Real(0.0))
      && (geo.asn.None? ==> kw["asn"] == Str("unknown"))
  {
  }

  /** The keyword arguments for a parsed line whose address gave `geo`. */
  function LineKwargs(p: map<string, string>, geo: Geo, f: Foreign): (r: Result<map<string, Value>, string>)
    ensures r.Success? <==> ParseValues(p, f).Success?
    ensures r.Success? ==> TimestampArgumentOk(r.value) && HasTimestamp(r.value)
  {
    match ParseValues(p, f)
    case Failure(e) => Failure(e)
    case Success(v) => Success(Kwargs(p, v, geo, f.userAgent(p["user_agent"])))
  }

  /** A request written as three tokens separated by single spaces splits back
      into those tokens, so `ParseValues` takes them as operation, url and
      protocol. */
  lemma {:induction false} RequestTokens(op: string, url: string, proto: string)
    requires IsToken(op) && IsToken(url) && IsToken(proto)
    ensures SplitWs(op + " " + url + " " + proto) == [op, url, proto]
  {
    var ts := [op, url, proto];
    assert ts[1..][1..] == [proto];
    assert JoinSpaced(ts[1..]) == url + " " + proto;
    assert JoinSpaced(ts) == op + " " + url + " " + proto;
    SplitJoinRoundTrip(ts);
  }

  /** The cells `WebLogData(**kw)` stores for the `LOG_INFOS` fields, in order. */
  function CoreCells(kw: map<string, Value>, exportText: Instant -> string): seq<Value>
    requires TimestampArgumentOk(kw)
  {
    seq(|LogInfos|, k requires 0 <= k < |LogInfos| => InitialValue(kw, LogInfos[k], exportText))
  }

  /** `row` begins with the core cells of the record built from `kw`. */
  predicate CoreRow(row: seq<Value>, kw: map<string, Value>, exportText: Instant -> string)
    requires TimestampArgumentOk(kw)
  {
    |LogInfos| <= |row| && row[..|LogInfos|] == CoreCells(kw, exportText)
  }

  /** The record `_parse_log_line` builds from `kw` and hands to the plugins, after
      them: its keys and fields, and which plugin raised, if one did. */
  function Enriched(kw: map<string, Value>, exportText: Instant -> string, plugins: seq<Plugin>): Outcome
    requires TimestampArgumentOk(kw)
  {
    RunPlugins(LogInfos, InitialMap(kw, exportText), plugins)
  }

  // ---- rows a line adds

  /** What `_get_geoloc(ip)` answers when its cache holds only what the readers
      said: (None, None) for an address that is not remote, the readers' answer
      for a remote one. */
  function GeoAnswer(ip: string, f: Foreign, nets: seq<Network>): Result<Geo, string> {
    match RemoteIp(ip, f, nets)
    case Failure(e) => Failure(e)
    case Success(remote) => if remote then LookupGeo(ip, f) else Success(Geo(None, None))
  }

  /** Every cached pair is the readers' answer for its address. */
  predicate Memo(cache: map<string, Geo>, f: Foreign) {
    forall ip :: ip in cache ==> LookupGeo(ip, f) == Success(cache[ip])
  }

  /** The geoip cache only saves lookups: from a memo, `_get_geoloc` answers what
      the readers would, and the cache stays a memo. */
  lemma GeolocMemo(ip: string, f: Foreign, nets: seq<Network>, cache: map<string, Geo>)
    requires Memo(cache, f)
    ensures Geoloc(ip, f, nets, cache).0 == GeoAnswer(ip, f, nets)
    ensures Memo(Geoloc(ip, f, nets, cache).1, f)
  {
  }

  /** A line's record arguments do not depend on a memo cache: they are those
      computed from the empty cache. */
  lemma LineArgsMemo(line: string, f: Foreign, s: Settings, cache: map<string, Geo>)
    requires Memo(cache, f)
    ensures LineArgs(line, f, s, cache) == LineArgs(line, f, s, map[])
  {
    var parsed := f.parseTemplate(line);
    if parsed.Some? && "remote_ip" in parsed.value {
      GeolocMemo(parsed.value["remote_ip"], f, s.localNetworks, cache);
      GeolocMemo(parsed.value["remote_ip"], f, s.localNetworks, map[]);
    }
  }

  /** The value list and index label `_parse_log_line(line)` adds to the dataset,
      or None when it adds nothing (not matched, excluded, or an exception). */
  function LineRecord(line: string, f: Foreign, s: Settings, plugins: seq<Plugin>): Option<(seq<Value>, Value)> {
    match LineArgs(line, f, s, map[])
    case None => None
    case Some(kw) =>
      var o := Enriched(kw, f.exportText, plugins);
      if o.raisedAt.Some? then None else Some((Cells(o.keys, o.fields), kw["timestamp"]))
  }

  /** The record of each line, in order. */
  function Records(lines: seq<string>, f: Foreign, s: Settings, plugins: seq<Plugin>): (r: seq<Option<(seq<Value>, Value)>>)
    ensures |r| == |lines|
    ensures forall i :: 0 <= i < |lines| ==> r[i] == LineRecord(lines[i], f, s, plugins)
  {
    seq(|lines|, i requires 0 <= i < |lines| => LineRecord(lines[i], f, s, plugins))
  }

  /** The value lists of the records that exist, in order. */
  function RowsOf(records: seq<Option<(seq<Value>, Value)>>): seq<seq<Value>> {
    if |records| == 0 then []
    else (if records[0].Some? then [records[0].value.0] else []) + RowsOf(records[1..])
  }

  /** The index labels of the records that exist, in order. */
  function StampsOf(records: seq<Option<(seq<Value>, Value)>>): seq<Value> {
    if |records| == 0 then []
    else (if records[0].Some? then [records[0].value.1] else []) + StampsOf(records[1..])
  }

  /** The value lists the lines add, in order. */
  function Rows(lines: seq<string>, f: Foreign, s: Settings, plugins: seq<Plugin>): seq<seq<Value>> {
    RowsOf(Records(lines, f, s, plugins))
  }

  /** The index labels the lines add, in order. */
  function Stamps(lines: seq<string>, f: Foreign, s: Settings, plugins: seq<Plugin>): seq<Value> {
    StampsOf(Records(lines, f, s, plugins))
  }

  /** A single line adds its record's row and label, if it has a record. */
  lemma RowsOne(line: string, f: Foreign, s: Settings, plugins: seq<Plugin>)
    ensures var r := LineRecord(line, f, s, plugins);
      && Rows([line], f, s, plugins) == (if r.Some? then [r.value.0] else [])
      && Stamps([line], f, s, plugins) == (if r.Some? then [r.value.1] else [])
  {
    var records := Records([line], f, s, plugins);
    var r := LineRecord(line, f, s, plugins);
    assert records == [r];
    assert records[1..] == [];
    assert RowsOf(records) == (if r.Some? then [r.value.0] else []) + RowsOf([]);
    assert StampsOf(records) == (if r.Some? then [r.value.1] else []) + StampsOf([]);
  }

  /** The records of two stretches of records, one after the other. */
  lemma {:induction false} RowsOfConcat(a: seq<Option<(seq<Value>, Value)>>, b: seq<Option<(seq<Value>, Value)>>)
    ensures RowsOf(a + b) == RowsOf(a) + RowsOf(b)
    ensures StampsOf(a + b) == StampsOf(a) + StampsOf(b)
    decreases |a|
  {
    if |a| > 0 {
      assert (a + b)[0] == a[0] && (a + b)[1..] == a[1..] + b;
      RowsOfConcat(a[1..], b);
    } else {
      assert a + b == b;
    }
  }

  /** Lines handed on in two stretches add the rows and labels of each stretch. */
  lemma RowsConcat(a: seq<string>, b: seq<string>, f: Foreign, s: Settings, plugins: seq<Plugin>)
    ensures Rows(a + b, f, s, plugins) == Rows(a, f, s, plugins) + Rows(b, f, s, plugins)
    ensures Stamps(a + b, f, s, plugins) == Stamps(a, f, s, plugins) + Stamps(b, f, s, plugins)
  {
    var ra, rb := Records(a, f, s, plugins), Records(b, f, s, plugins);
    assert Records(a + b, f, s, plugins) == ra + rb by {
      forall i | 0 <= i < |a + b|
        ensures Records(a + b, f, s, plugins)[i] == (ra + rb)[i]
      {
        if i < |a| {
          assert (a + b)[i] == a[i];
        } else {
          assert (a + b)[i] == b[i - |a|];
        }
      }
    }
    RowsOfConcat(ra, rb);
  }

  /** `data` and `index` are `data0` and `index0` with the rows and labels of
      `lines` appended. */
  ghost predicate Appended(data0: seq<seq<Value>>, index0: seq<Value>, data: seq<seq<Value>>, index: seq<Value>,
                           lines: seq<string>, f: Foreign, s: Settings, plugins: seq<Plugin>)
  {
    data == data0 + Rows(lines, f, s, plugins) && index == index0 + Stamps(lines, f, s, plugins)
  }

  /** Appending the lines of two stretches one after the other appends those of
      both. */
  lemma AppendedTrans(data0: seq<seq<Value>>, index0: seq<Value>, data1: seq<seq<Value>>, index1: seq<Value>,
                      data2: seq<seq<Value>>, index2: seq<Value>, a: seq<string>, b: seq<string>,
                      f: Foreign, s: Settings, plugins: seq<Plugin>)
    requires Appended(data0, index0, data1, index1, a, f, s, plugins)
    requires Appended(data1, index1, data2, index2, b, f, s, plugins)
    ensures Appended(data0, index0, data2, index2, a + b, f, s, plugins)
    ensures Extends(data0, data2, |a + b|)
  {
    RowsConcat(a, b, f, s, plugins);
    RowsExtend(data0, a + b, f, s, plugins);
  }

  /** What `_parse_log_line` appends, as the outcome of a line states it, is that
      line's row and label. */
  lemma OutcomeRows(line: string, f: Foreign, s: Settings, plugins: seq<Plugin>, cache: map<string, Geo>,
                    data0: seq<seq<Value>>, index0: seq<Value>, data: seq<seq<Value>>, index: seq<Value>)
    requires Memo(cache, f)
    requires LineArgs(line, f, s, cache).Some? && Enriched(LineArgs(line, f, s, cache).value, f.exportText, plugins).raisedAt.None? ==>
      var kw := LineArgs(line, f, s, cache).value;
      var o := Enriched(kw, f.exportText, plugins);
      data == data0 + [Cells(o.keys, o.fields)] && index == index0 + [kw["timestamp"]]
    requires !(LineArgs(line, f, s, cache).Some? && Enriched(LineArgs(line, f, s, cache).value, f.exportText, plugins).raisedAt.None?) ==>
      data == data0 && index == index0
    ensures Appended(data0, index0, data, index, [line], f, s, plugins)
  {
    LineArgsMemo(line, f, s, cache);
    RowsOne(line, f, s, plugins);
  }

  /** Each line adds at most one row, and one label per row. */
  lemma RowsBound(lines: seq<string>, f: Foreign, s: Settings, plugins: seq<Plugin>)
    ensures |Rows(lines, f, s, plugins)| == |Stamps(lines, f, s, plugins)| <= |lines|
  {
    RowsOfBound(Records(lines, f, s, plugins));
  }

  /** Each record gives at most one value list, and one label per value list. */
  lemma {:induction false} RowsOfBound(records: seq<Option<(seq<Value>, Value)>>)
    ensures |RowsOf(records)| == |StampsOf(records)| <= |records|
    decreases |records|
  {
    if |records| > 0 {
      RowsOfBound(records[1..]);
    }
  }

  /** Appending the rows of `lines` extends the data by at most one row per line. */
  lemma RowsExtend(data0: seq<seq<Value>>, lines: seq<string>, f: Foreign, s: Settings, plugins: seq<Plugin>)
    ensures Extends(data0, data0 + Rows(lines, f, s, plugins), |lines|)
  {
    RowsBound(lines, f, s, plugins);
    assert (data0 + Rows(lines, f, s, plugins))[..|data0|] == data0;
  }

  /** The lines handled since `h0` are those handled up to `h1`, then those since. */
  lemma NewLinesSplit<T>(h0: seq<T>, h1: seq<T>, h2: seq<T>)
    requires h0 <= h1 <= h2
    ensures h2[|h0|..] == h1[|h0|..] + h2[|h1|..]
  {
  }

  /** Moving the next line of a pass from the lines still to come to those done
      keeps their concatenation. */
  lemma LinesStep<T>(all: seq<T>, done: seq<T>, rest: seq<T>, line: T, after: seq<T>)
    requires all == done + rest && rest == [line] + after
    ensures all == (done + [line]) + after
  {
  }

  /** `data` is `data0` with rows appended. */
  predicate Prefix(data0: seq<seq<Value>>, data: seq<seq<Value>>) {
    |data0| <= |data| && data[..|data0|] == data0
  }

  /** `data` is `data0` with at most `n` rows appended. */
  predicate Extends(data0: seq<seq<Value>>, data: seq<seq<Value>>, n: nat) {
    Prefix(data0, data) && |data| <= |data0| + n
  }

  lemma ExtendsTransitive(a: seq<seq<Value>>, b: seq<seq<Value>>, c: seq<seq<Value>>, m: nat, n: nat)
    requires Extends(a, b, m) && Extends(b, c, n)
    ensures Extends(a, c, m + n)
  {
    assert c[..|a|] == c[..|b|][..|a|];
  }

  /** A record whose core fields hold what `WebLogData(**kw)` stored exports them
      first, in `LOG_INFOS` order. */
  lemma CoreFieldsRow(d: WebLogData, kw: map<string, Value>)
    requires d.Valid() && TimestampArgumentOk(kw)
    requires forall k :: k in LogInfos ==> k in d.fields && d.fields[k] == InitialValue(kw, k, d.exportText)
    ensures CoreRow(d.ToArrays().1, kw, d.exportText)
  {
    var row := d.ToArrays().1;
    forall i | 0 <= i < |LogInfos|
      ensures row[i] == CoreCells(kw, d.exportText)[i]
    {
      assert d.keys[i] == LogInfos[i];
    }
  }

  /** The keyword arguments of the record a line yields, before enrichment; None
      when the template does not match, the line is excluded (on its remote
      address, `IsExcludedByAddress`), or a step before the record is built raises. `cache` is the geoip cache the line starts from. */
  function LineArgs(line: string, f: Foreign, s: Settings, cache: map<string, Geo>): (r: Option<map<string, Value>>)
    ensures r.Some? ==> TimestampArgumentOk(r.value) && HasTimestamp(r.value)
  {
    var parsed := f.parseTemplate(line);
    if parsed.None? then None
    else
      var p := parsed.value;
      if "request" !in p || IsExcludedByAddress(p, s.excludeRequests, s.excludeRemoteIp) || "remote_ip" !in p then None
      else
        var g := Geoloc(p["remote_ip"], f, s.localNetworks, cache).0;
        if g.Failure? then None
        else
          var kw := LineKwargs(p, g.value, f);
          if kw.Failure? then None else Some(kw.value)
  }

  /** What `_parse_log_line` did with a line. */
  datatype LineOutcome = Unmatched | Excluded | Added | Errored

  class CollectorApp {
    /** `_log_positions`: the offset reached in each file read so far. */
    var positions: map<string, nat>
    /** `_geoip_cache`: the lookup result of each remote address seen. */
    var geoCache: map<string, Geo>
    /** The addresses the geoip readers were asked about, oldest first. */
    ghost var lookups: seq<string>
    /** The lines handed to `_parse_log_line`, oldest first. */
    ghost var handled: seq<string>
    const dataset: WebLogDataSet
    const enricher: LogEnrichers
    const settings: Settings
    const foreign: Foreign

    /** Every cached address was looked up once (only remote addresses are, see
        `Geoloc`), and its cached pair is what the readers answer for it. */
    ghost predicate Valid()
      reads this, dataset
    {
      && dataset.Valid()
      && (forall ip :: ip in geoCache ==> ip in lookups)
      && Memo(geoCache, foreign)
    }

    constructor (dataset: WebLogDataSet, enricher: LogEnrichers, settings: Settings, foreign: Foreign)
      requires dataset.Valid()
      ensures Valid()
      ensures positions == map[] && geoCache == map[] && lookups == [] && handled == []
      ensures this.dataset == dataset && this.enricher == enricher
      ensures this.settings == settings && this.foreign == foreign
    {
      this.dataset := dataset;
      this.enricher := enricher;
      this.settings := settings;
      this.foreign := foreign;
      positions := map[];
      geoCache := map[];
      lookups := [];
      handled := [];
    }

    /** `_get_geoloc(ip)`: (None, None) for an address that is not remote, the cached
        pair for a remote one seen before, otherwise the readers' answer, cached. A
        reader that raises leaves the cache as it was. */
    method GetGeoloc(ip: string) returns (r: Result<Geo, string>)
      requires Valid()
      modifies this`geoCache, this`lookups
      ensures Valid()
      ensures (r, geoCache) == (Geoloc(ip, foreign, settings.localNetworks, old(geoCache)).0, Geoloc(ip, foreign, settings.localNetworks, old(geoCache)).1)
      ensures lookups == if Geoloc(ip, foreign, settings.localNetworks, old(geoCache)).2 then old(lookups) + [ip] else old(lookups)
    {
      GeolocMemo(ip, foreign, settings.localNetworks, geoCache);
      var remote := RemoteIp(ip, foreign, settings.localNetworks);
      if remote.Failure? {
        return Failure(remote.error);
      }
      if !remote.value {
        return Success(Geo(None, None));
      }
      if ip in geoCache {
        return Success(geoCache[ip]);
      }
      lookups := lookups + [ip];
      var city: Option<GeoCity> := None;
      var asn: Option<Value> := None;
      if foreign.cityReader.Some? {
        city := foreign.cityReader.value(ip);
        if city.None? {
          return Failure("AddressNotFoundError");
        }
      }
      if foreign.asnReader.Some? {
        asn := foreign.asnReader.value(ip);
        if asn.None? {
          return Failure("AddressNotFoundError");
        }
      }
      geoCache := geoCache[ip := Geo(city, asn)];
      return Success(Geo(city, asn));
    }

    /** The part of `_parse_log_line(line)` before the record is built: the keyword
        arguments, or how the line ended (not matched, excluded, or an exception).
        Only the geoip cache changes, and only by a new entry. */
    method LineArguments(line: string) returns (r: Result<map<string, Value>, LineOutcome>)
      requires Valid()
      modifies this`geoCache, this`lookups
      ensures Valid()
      ensures r.Success? <==> LineArgs(line, foreign, settings, old(geoCache)).Some?
      ensures r.Success? ==> r.value == LineArgs(line, foreign, settings, old(geoCache)).value
      ensures r.Failure? ==> r.error != Added
      ensures r == Failure(Unmatched) <==> foreign.parseTemplate(line).None?
      ensures r == Failure(Excluded) <==>
        && foreign.parseTemplate(line).Some?
        && "request" in foreign.parseTemplate(line).value
        && IsExcludedByAddress(foreign.parseTemplate(line).value, settings.excludeRequests, settings.excludeRemoteIp)
      ensures forall ip :: ip in old(geoCache) ==> ip in geoCache && geoCache[ip] == old(geoCache)[ip]
    {
      var parsed := foreign.parseTemplate(line);
      if parsed.None? {
        return Failure(Unmatched);
      }
      var p := parsed.value;
      if "request" !in p {
        return Failure(Errored);
      }
      if IsExcludedByAddress(p, settings.excludeRequests, settings.excludeRemoteIp) {
        return Failure(Excluded);
      }
      if "remote_ip" !in p {
        return Failure(Errored);
      }
      var geo := GetGeoloc(p["remote_ip"]);
      if geo.Failure? {
        return Failure(Errored);
      }
      var kwargs := LineKwargs(p, geo.value, foreign);
      if kwargs.Failure? {
        return Failure(Errored);
      }
      return Success(kwargs.value);
    }

    /** `WebLogData(**kw)` run through the enrichers: the record, or null exactly
        when a plugin raised. The record holds what the plugins' writes made of
        the initial fields; its timestamp is the argument's whatever they stored
        under `timestamp`, and its core fields are untouched when no plugin
        writes one directly. */
    method Enrich(kw: map<string, Value>) returns (record: WebLogData?)
      requires TimestampArgumentOk(kw)
      modifies enricher
      ensures var o := Enriched(kw, foreign.exportText, enricher.enrichers);
        && (record == null <==> o.raisedAt.Some?)
        && (record != null ==>
              && fresh(record) && record.Valid()
              && record.ToArrays() == (o.keys, Cells(o.keys, o.fields))
              && (HasTimestamp(kw) ==> record.Stamp() == kw["timestamp"]))
      ensures record != null && AllKeepCore(enricher.enrichers) ==> CoreRow(record.ToArrays().1, kw, foreign.exportText)
    {
      record := new WebLogData(kw, foreign.exportText);
      ghost var keys0, fields0 := record.keys, record.fields;
      var raisedAt := enricher.EnrichLog(record);
      if raisedAt.Some? {
        return null;
      }
      if AllKeepCore(enricher.enrichers) {
        PluginsKeepCore(keys0, fields0, enricher.enrichers);
        CoreFieldsRow(record, kw);
      }
    }

    /** `_parse_log_line(line)`: a line the template does not match, or an excluded
        one, adds nothing; otherwise the record is assembled, enriched and added,
        unless a step raises, in which case nothing is added. */
    method ParseLogLine(line: string) returns (outcome: LineOutcome)
      requires Valid()
      modifies this`geoCache, this`lookups, this`handled, dataset, enricher
      ensures Valid()
      ensures handled == old(handled) + [line]
      ensures outcome == Unmatched <==> foreign.parseTemplate(line).None?
      ensures outcome == Excluded <==>
        && foreign.parseTemplate(line).Some?
        && "request" in foreign.parseTemplate(line).value
        && IsExcludedByAddress(foreign.parseTemplate(line).value, settings.excludeRequests, settings.excludeRemoteIp)
      ensures outcome != Added ==> unchanged(dataset)
      ensures outcome == Added <==>
        && LineArgs(line, foreign, settings, old(geoCache)).Some?
        && Enriched(LineArgs(line, foreign, settings, old(geoCache)).value, foreign.exportText, enricher.enrichers).raisedAt.None?
      ensures outcome == Added ==>
        var kw := LineArgs(line, foreign, settings, old(geoCache)).value;
        var o := Enriched(kw, foreign.exportText, enricher.enrichers);
        && dataset.data == old(dataset.data) + [Cells(o.keys, o.fields)]
        && dataset.index == old(dataset.index) + [kw["timestamp"]]
        && dataset.fields == (if old(dataset.fields) == [] then o.keys else old(dataset.fields))
      ensures outcome == Added && AllKeepCore(enricher.enrichers) ==>
        CoreRow(dataset.data[|old(dataset.data)|], LineArgs(line, foreign, settings, old(geoCache)).value, foreign.exportText)
      ensures forall ip :: ip in old(geoCache) ==> ip in geoCache && geoCache[ip] == old(geoCache)[ip]
    {
      handled := handled + [line];
      var r := LineArguments(line);
      if r.Failure? {
        return r.error;
      }
      var record := Enrich(r.value);
      if record == null {
        return Errored;
      }
      dataset.Add(record);
      return Added;
    }

    /** One round of the `readline` loop at offset `pos`: the line is decoded and,
        unless it is empty, stripped and handed to `_parse_log_line`; `next` is the
        offset after it, or None when the loop stops (with the offset reached
        recorded, except after a decoding error). */
    method ReadLine(logfile: string, content: seq<byte>, pos: nat) returns (next: Option<nat>, line: string)
      requires Valid() && pos < |content|
      modifies this`positions, this`geoCache, this`lookups, this`handled, dataset, enricher
      ensures Valid()
      ensures next.Some? ==>
        && pos < next.value <= |content|
        && ScanFrom(content, pos, foreign.decode).lines == [line] + ScanFrom(content, next.value, foreign.decode).lines
        && ScanFrom(content, pos, foreign.decode).end == ScanFrom(content, next.value, foreign.decode).end
        && positions == old(positions)
        && handled == old(handled) + [line]
        && Appended(old(dataset.data), old(dataset.index), dataset.data, dataset.index, [line], foreign, settings, enricher.enrichers)
        && Extends(old(dataset.data), dataset.data, 1)
      ensures next.None? ==>
        && ScanFrom(content, pos, foreign.decode).lines == []
        && positions == (if ScanFrom(content, pos, foreign.decode).end.Some? then old(positions)[logfile := ScanFrom(content, pos, foreign.decode).end.value] else old(positions))
        && handled == old(handled)
        && dataset.data == old(dataset.data) && dataset.index == old(dataset.index)
    {
      var e := LineEnd(content, pos);
      var text := foreign.decode(content[pos..e]);
      line := "";
      if text.None? {
        return None, line;
      }
      if text.value == "" {
        positions := positions[logfile := e];
        return None, line;
      }
      line := Strip(text.value);
      ghost var rest := ScanFrom(content, e, foreign.decode);
      assert ScanFrom(content, pos, foreign.decode) == Scan([line] + rest.lines, rest.end);
      ghost var cache, data0, index0 := geoCache, dataset.data, dataset.index;
      var outcome := ParseLogLine(line);
      OutcomeRows(line, foreign, settings, enricher.enrichers, cache, data0, index0, dataset.data, dataset.index);
      RowsExtend(data0, [line], foreign, settings, enricher.enrichers);
      return Some(e), line;
    }

    /** The `readline` loop of `_parse_log_file` from offset `start`: each line of
        the pass goes through `_parse_log_line`; the offset reached is recorded
        unless decoding failed. */
    method ReadFrom(logfile: string, content: seq<byte>, start: nat)
      requires Valid() && start <= |content|
      modifies this`positions, this`geoCache, this`lookups, this`handled, dataset, enricher
      ensures Valid()
      ensures var pass := ScanFrom(content, start, foreign.decode);
        && positions == (if pass.end.Some? then old(positions)[logfile := pass.end.value] else old(positions))
        && handled == old(handled) + pass.lines
        && dataset.data == old(dataset.data) + Rows(pass.lines, foreign, settings, enricher.enrichers)
        && dataset.index == old(dataset.index) + Stamps(pass.lines, foreign, settings, enricher.enrichers)
        && Extends(old(dataset.data), dataset.data, |pass.lines|)
    {
      var pos := start;
      ghost var done: seq<string> := [];
      while pos < |content|
        invariant pos <= |content|
        invariant ScanFrom(content, start, foreign.decode).lines == done + ScanFrom(content, pos, foreign.decode).lines
        invariant ScanFrom(content, start, foreign.decode).end == ScanFrom(content, pos, foreign.decode).end
        invariant Valid()
        invariant positions == old(positions)
        invariant handled == old(handled) + done
        invariant Appended(old(dataset.data), old(dataset.index), dataset.data, dataset.index, done, foreign, settings, enricher.enrichers)
        decreases |content| - pos
      {
        ghost var data1, index1 := dataset.data, dataset.index;
        var next, line := ReadLine(logfile, content, pos);
        if next.None? {
          assert done + [] == done;
          RowsExtend(old(dataset.data), done, foreign, settings, enricher.enrichers);
          return;
        }
        assert Appended(old(dataset.data), old(dataset.index), dataset.data, dataset.index, done + [line], foreign, settings, enricher.enrichers) by {
          AppendedTrans(old(dataset.data), old(dataset.index), data1, index1, dataset.data, dataset.index, done, [line],
                        foreign, settings, enricher.enrichers);
        }
        LinesStep(ScanFrom(content, start, foreign.decode).lines, done, ScanFrom(content, pos, foreign.decode).lines,
                  line, ScanFrom(content, next.value, foreign.decode).lines);
        done := done + [line];
        pos := next.value;
      }
      assert done + [] == done;
      RowsExtend(old(dataset.data), done, foreign, settings, enricher.enrichers);
      positions := positions[logfile := pos];
    }

    /** `_parse_log_file(logfile)` over the file system `fs`: reading resumes at the
        recorded offset (`StartOffset`: an uncompressed file that shrank below it
        is read from the start, a gzip file never is); a file that cannot be
        opened is skipped. */
    method ParseLogFile(fs: FileSystem, logfile: string)
      requires Valid()
      modifies this`positions, this`geoCache, this`lookups, this`handled, dataset, enricher
      ensures Valid()
      ensures Progress(handled, positions) == ReadFile(fs, Progress(old(handled), old(positions)), logfile, foreign.decode)
      ensures old(handled) <= handled
      ensures dataset.data == old(dataset.data) + Rows(handled[|old(handled)|..], foreign, settings, enricher.enrichers)
      ensures dataset.index == old(dataset.index) + Stamps(handled[|old(handled)|..], foreign, settings, enricher.enrichers)
      ensures Extends(old(dataset.data), dataset.data, |handled| - |old(handled)|)
    {
      if logfile !in fs.files || !fs.files[logfile].opens {
        assert old(handled) + [] == handled;
        assert handled[|old(handled)|..] == [];
        assert dataset.data[..|dataset.data|] == dataset.data;
        assert dataset.data + [] == dataset.data && dataset.index + [] == dataset.index;
        return;
      }
      var last := if logfile in positions then Some(positions[logfile]) else None;
      var content := fs.files[logfile].content;
      ReadFrom(logfile, content, StartOffset(logfile, last, content));
      assert handled[|old(handled)|..] == ScanFrom(content, StartOffset(logfile, last, content), foreign.decode).lines;
    }

    /** The loop of a round over the file list `names`: `_parse_log_file` on each
        file in turn. */
    method ReadFiles(fs: FileSystem, names: seq<string>)
      requires Valid()
      modifies this`positions, this`geoCache, this`lookups, this`handled, dataset, enricher
      ensures Valid()
      ensures Progress(handled, positions) == RoundOver(fs, names, |names|, Progress(old(handled), old(positions)), foreign.decode)
      ensures old(handled) <= handled
      ensures dataset.data == old(dataset.data) + Rows(handled[|old(handled)|..], foreign, settings, enricher.enrichers)
      ensures dataset.index == old(dataset.index) + Stamps(handled[|old(handled)|..], foreign, settings, enricher.enrichers)
      ensures Extends(old(dataset.data), dataset.data, |handled| - |old(handled)|)
    {
      var i := 0;
      assert handled[|handled|..] == [];
      assert dataset.data + [] == dataset.data && dataset.index + [] == dataset.index;
      while i < |names|
        invariant 0 <= i <= |names|
        invariant Valid()
        invariant Progress(handled, positions) == RoundOver(fs, names, i, Progress(old(handled), old(positions)), foreign.decode)
        invariant old(handled) <= handled
        invariant Appended(old(dataset.data), old(dataset.index), dataset.data, dataset.index, handled[|old(handled)|..],
                           foreign, settings, enricher.enrichers)
      {
        ghost var handled1, data1, index1 := handled, dataset.data, dataset.index;
        ParseLogFile(fs, names[i]);
        NewLinesSplit(old(handled), handled1, handled);
        AppendedTrans(old(dataset.data), old(dataset.index), data1, index1, dataset.data, dataset.index,
                      handled1[|old(handled)|..], handled[|handled1|..], foreign, settings, enricher.enrichers);
        i := i + 1;
      }
      RowsExtend(old(dataset.data), handled[|old(handled)|..], foreign, settings, enricher.enrichers);
    }

    /** One round of the collector loop: the file list, then each file in turn
        (`RoundOver`); ValueError, with nothing read, when the configured path is
        neither a file nor a directory. */
    method Tick(fs: FileSystem) returns (r: Result<seq<string>, string>)
      requires Valid()
      modifies this`positions, this`geoCache, this`lookups, this`handled, dataset, enricher
      ensures Valid()
      ensures r.Failure? <==> settings.webLogPath !in fs.files && settings.webLogPath !in fs.dirs
      ensures r.Failure? ==> positions == old(positions) && handled == old(handled) && dataset.data == old(dataset.data)
      ensures r.Success? && settings.webLogPath in fs.files ==> r.value == [settings.webLogPath]
      ensures r.Success? && settings.webLogPath !in fs.files ==>
        r.value == SelectedFiles(fs, settings.webLogPath, fs.dirs[settings.webLogPath], settings.webLogFilter)
      ensures r.Success? ==>
        Progress(handled, positions) == RoundOver(fs, r.value, |r.value|, Progress(old(handled), old(positions)), foreign.decode)
      ensures old(handled) <= handled
      ensures dataset.data == old(dataset.data) + Rows(handled[|old(handled)|..], foreign, settings, enricher.enrichers)
      ensures dataset.index == old(dataset.index) + Stamps(handled[|old(handled)|..], foreign, settings, enricher.enrichers)
      ensures Extends(old(dataset.data), dataset.data, |handled| - |old(handled)|)
    {
      r := BuildFileList(fs, settings.webLogPath, settings.webLogFilter);
      if r.Success? {
        ReadFiles(fs, r.value);
      } else {
        assert handled[|handled|..] == [];
        assert dataset.data + [] == dataset.data && dataset.index + [] == dataset.index;
        assert dataset.data[..|dataset.data|] == dataset.data;
      }
    }
  }
}
