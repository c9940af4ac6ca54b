/** The dashboard page (`get_dashboard`): a badge and a table slot per
    non-contextual dashboard, in configuration order, with filler slots that keep
    each large dashboard on a row of its own; and the contextual dashboard opened
    by a click (`context_data`). */
module Layout {
  import opened Wrappers
  import opened Values
  import opened Tables
  import opened Dicts
  import opened Graphs
  import opened Query

  /** One entry of `DASHBOARDS_CONFIG`, its keys read as the code reads them: a
      missing key is None (or the default the code passes to `get`), a string the
      code tests for truthiness is an Option whose empty text is falsy. */
  datatype Dashboard = Dashboard(
    contextual: bool,
    badgeTitle: Option<string>,
    badgeType: Option<string>,
    tableTitle: Option<string>,
    tableOrder: Option<Json>,
    tableHide: Option<Json>,
    displayCols: seq<string>,
    groupBy: seq<string>,
    countTitle: Option<string>,
    timeGroup: Option<string>,
    timeTitle: Option<string>,
    filter: Option<string>,
    onClick: Option<string>,
    large: bool,
    graph: Option<Dict<Json>>)

  /** `DEFAULT_BADGE_TYPE`. */
  const DefaultBadgeType: string := "gray"

  datatype Badge = Badge(title: string, kind: string)

  /** A slot of the page: a filler (`{"title": ""}`) or a dashboard's table. The
      context filter and the graph are None when the key is not set. */
  datatype Slot =
    | Filler
    | Board(title: string, columns: seq<string>, order: Option<Json>, hide: Json,
            ctxtFilter: Option<Option<string>>, graph: Option<Option<Dict<Json>>>, large: bool)

  datatype Page = Page(badges: Dict<Badge>, slots: Dict<Slot>)

  /** The keys of the filler slots: one shared key each, as written, or a key of
      the dashboard's own. */
  datatype Naming = AsWritten | PerBoard

  /** The key of the filler slot before a large dashboard: "_empty_", followed by
      the dashboard's id when keys are per dashboard. */
  function EmptyKey(n: Naming, id: string): (k: string)
    ensures |k| > 0 && k[0] == '_'
    ensures |k| >= 7 && k[..7] == "_empty_"
    ensures n == PerBoard ==> k[7..] == id
  {
    if n == AsWritten then "_empty_" else "_empty_" + id
  }

  /** The key of the filler slot after a large dashboard: "_hidden_", followed by
      the dashboard's id when keys are per dashboard. */
  function HiddenKey(n: Naming, id: string): (k: string)
    ensures |k| > 0 && k[0] == '_'
    ensures |k| >= 8 && k[..8] == "_hidden_"
    ensures n == PerBoard ==> k[8..] == id
  {
    if n == AsWritten then "_hidden_" else "_hidden_" + id
  }

  /** A filler before one dashboard never takes the key of a filler after another. */
  lemma FillerKeysDiffer(n: Naming, a: string, b: string)
    ensures EmptyKey(n, a) != HiddenKey(n, b)
  {
    assert EmptyKey(n, a)[1] == 'e' && HiddenKey(n, b)[1] == 'h';
  }

  /** `_get_badge_id`. */
  function BadgeId(id: string): string {
    id + "_badge"
  }

  lemma BadgeIdInjective(a: string, b: string)
    requires BadgeId(a) == BadgeId(b)
    ensures a == b
  {
    assert a == BadgeId(a)[..|a|];
  }

  /** The table's columns: the display columns, then the count title and the time
      title when they are set. */
  function Columns(db: Dashboard): (cols: seq<string>)
    ensures |cols| == |db.displayCols| + (if Given(db.countTitle) then 1 else 0) + (if Given(db.timeTitle) then 1 else 0)
    ensures cols[..|db.displayCols|] == db.displayCols
    ensures Given(db.timeTitle) ==> cols[|cols| - 1] == db.timeTitle.value
    ensures Given(db.countTitle) ==> cols[|db.displayCols|] == db.countTitle.value
  {
    db.displayCols
      + (if Given(db.countTitle) then [db.countTitle.value] else [])
      + (if Given(db.timeTitle) then [db.timeTitle.value] else [])
  }

  /** The `ctxt_filter` entry: the filter of the dashboard the click opens, when
      that dashboard is configured. */
  function ContextFilter(config: Dict<Dashboard>, db: Dashboard): Option<Option<string>> {
    if db.onClick.Some? && Get(config, db.onClick.value).Some? then Some(Get(config, db.onClick.value).value.filter)
    else None
  }

  /** The `graph_config` entry: the rendered graph config when one is set and not
      empty. */
  function GraphEntry(graph: Option<Dict<Json>>): (r: Result<Option<Option<Dict<Json>>>, string>)
    ensures r.Success? && r.value.Some? ==> graph.Some? && |graph.value| > 0 && RenderedConfig(graph.value) == Success(r.value.value)
    ensures r.Failure? ==> graph.Some? && RenderedConfig(graph.value) == Failure(r.error)
    ensures graph.None? || |graph.value| == 0 ==> r == Success(None)
  {
    if graph.Some? && |graph.value| > 0 then
      match RenderedConfig(graph.value)
      case Failure(e) => Failure(e)
      case Success(c) => Success(Some(c))
    else Success(None)
  }

  /** The slots after a dashboard's table slot `board` is stored under `id`: a
      large one gets a filler before it when it would start mid-row, and one
      after it. */
  function PlaceSlots(slots: Dict<Slot>, id: string, board: Slot, large: bool, n: Naming): Dict<Slot> {
    var before := if large && |slots| % 2 != 0 then Put(slots, EmptyKey(n, id), Filler) else slots;
    var placed := Put(before, id, board);
    if large then Put(placed, HiddenKey(n, id), Filler) else placed
  }

  /** One turn of the loop of `get_dashboard`. */
  function AddBoard(page: Page, id: string, db: Dashboard, config: Dict<Dashboard>, n: Naming): Result<Page, string> {
    if db.contextual then Success(page)
    else
      var badges := if Given(db.badgeTitle) then Put(page.badges, BadgeId(id), Badge(db.badgeTitle.value, db.badgeType.GetOr(DefaultBadgeType))) else page.badges;
      if db.tableTitle.None? then Failure("KeyError")
      else match GraphEntry(db.graph)
        case Failure(e) => Failure(e)
        case Success(graph) =>
          var board := Board(db.tableTitle.value, Columns(db), db.tableOrder, db.tableHide.GetOr(JList([])), ContextFilter(config, db), graph, db.large);
          Success(Page(badges, PlaceSlots(page.slots, id, board, db.large, n)))
  }

  /** The page after the loop has gone over `entries`. */
  function PageFrom(entries: Dict<Dashboard>, config: Dict<Dashboard>, n: Naming): Result<Page, string> {
    if |entries| == 0 then Success(Page([], []))
    else
      var k := |entries| - 1;
      match PageFrom(entries[..k], config, n)
      case Failure(e) => Failure(e)
      case Success(page) => AddBoard(page, entries[k].0, entries[k].1, config, n)
  }

  /** `get_dashboard`: the page of the whole configuration. */
  function PageOf(config: Dict<Dashboard>, n: Naming): Result<Page, string> {
    PageFrom(config, config, n)
  }

  /** An error raised in a turn of the loop is the error of the page. */
  lemma {:induction false} PrefixFails(entries: Dict<Dashboard>, config: Dict<Dashboard>, n: Naming, k: nat)
    requires k <= |entries| && PageFrom(entries[..k], config, n).Failure?
    ensures PageFrom(entries, config, n) == PageFrom(entries[..k], config, n)
    decreases |entries| - k
  {
    if k < |entries| {
      var m := |entries| - 1;
      assert entries[..m][..k] == entries[..k];
      PrefixFails(entries[..m], config, n, k);
    } else {
      assert entries[..k] == entries;
    }
  }

  /** `get_dashboard`, loop by loop, with the filler keys as written. */
  method GetDashboard(config: Dict<Dashboard>) returns (r: Result<Page, string>)
    ensures r == PageOf(config, AsWritten)
  {
    var page := Page([], []);
    for i := 0 to |config|
      invariant PageFrom(config[..i], config, AsWritten) == Success(page)
    {
      assert config[..i + 1][..i] == config[..i];
      var next := AddDashboard(page, config[i].0, config[i].1, config);
      if next.Failure? {
        PrefixFails(config, config, AsWritten, i + 1);
        return next;
      }
      page := next.value;
    }
    assert config[..|config|] == config;
    r := Success(page);
  }

  /** The body of the loop of `get_dashboard` for dashboard `id`. The source
      fills in the table slot's entries after storing it; building the slot
      first and storing it once leaves the same dict. */
  method AddDashboard(page: Page, id: string, db: Dashboard, config: Dict<Dashboard>) returns (r: Result<Page, string>)
    ensures r == AddBoard(page, id, db, config, AsWritten)
  {
    if db.contextual {
      return Success(page);
    }
    var badges := page.badges;
    var dashboards := page.slots;
    if Given(db.badgeTitle) {
      badges := Put(badges, BadgeId(id), Badge(db.badgeTitle.value, db.badgeType.GetOr(DefaultBadgeType)));
    }
    var cols := db.displayCols;
    if Given(db.countTitle) {
      cols := cols + [db.countTitle.value];
    }
    if Given(db.timeTitle) {
      cols := cols + [db.timeTitle.value];
    }
    if db.large && |dashboards| % 2 != 0 {
      dashboards := Put(dashboards, "_empty_", Filler);
    }
    if db.tableTitle.None? {
      return Failure("KeyError");
    }
    var ctxt := ContextEntry(config, db);
    var graph := GraphConfigEntry(db.graph);
    if graph.Failure? {
      return Failure(graph.error);
    }
    assert cols == Columns(db);
    var board := Board(db.tableTitle.value, cols, db.tableOrder, db.tableHide.GetOr(JList([])), ctxt, graph.value, db.large);
    dashboards := Put(dashboards, id, board);
    if db.large {
      dashboards := Put(dashboards, "_hidden_", Filler);
    }
    assert dashboards == PlaceSlots(page.slots, id, board, db.large, AsWritten);
    r := Success(Page(badges, dashboards));
  }

  /** The `ctxt_filter` entry, looked up as `get_dashboard` does. */
  method ContextEntry(config: Dict<Dashboard>, db: Dashboard) returns (ctxt: Option<Option<string>>)
    ensures ctxt == ContextFilter(config, db)
  {
    ctxt := None;
    if db.onClick.Some? {
      var target := Get(config, db.onClick.value);
      if target.Some? {
        ctxt := Some(target.value.filter);
      }
    }
  }

  /** The `graph_config` entry, rendered as `get_dashboard` does. */
  method GraphConfigEntry(graph: Option<Dict<Json>>) returns (r: Result<Option<Option<Dict<Json>>>, string>)
    ensures r == GraphEntry(graph)
  {
    r := Success(None);
    if graph.Some? && |graph.value| > 0 {
      var rendered := RenderConfig(graph.value);
      if rendered.Failure? {
        return Failure(rendered.error);
      }
      r := Success(Some(rendered.value));
    }
  }

  // ---- where each dashboard ends up

  /** An id that no filler key can equal: it does not start with `_`. */
  predicate Plain(id: string) {
    |id| == 0 || id[0] != '_'
  }

  /** Dashboard ids are the keys of a dict, and none of them starts with `_`. */
  predicate IdsOk(config: Dict<Dashboard>) {
    Distinct(Keys(config)) && forall i :: 0 <= i < |config| ==> Plain(config[i].0)
  }

  /** The slot and the badge of entry `e` once the loop has (`done`) or has not
      yet reached it: a table slot with the dashboard's title and columns and a
      badge when it has a badge title, unless it is contextual. */
  predicate Placed(page: Page, e: (string, Dashboard), done: bool) {
    var (id, db) := e;
    var s := Get(page.slots, id);
    var b := Get(page.badges, BadgeId(id));
    if done && !db.contextual then
      && s.Some? && s.value.Board?
      && Some(s.value.title) == db.tableTitle && s.value.columns == Columns(db) && s.value.large == db.large
      && b == (if Given(db.badgeTitle) then Some(Badge(db.badgeTitle.value, db.badgeType.GetOr(DefaultBadgeType))) else None)
    else s.None? && b.None?
  }

  /** One turn of the loop touches no other dashboard's slot or badge. */
  lemma AddBoardKeeps(page: Page, id: string, db: Dashboard, config: Dict<Dashboard>, n: Naming, other: string)
    requires AddBoard(page, id, db, config, n).Success?
    requires other != id && Plain(other)
    ensures Get(AddBoard(page, id, db, config, n).value.slots, other) == Get(page.slots, other)
    ensures Get(AddBoard(page, id, db, config, n).value.badges, BadgeId(other)) == Get(page.badges, BadgeId(other))
  {
    if BadgeId(other) == BadgeId(id) {
      BadgeIdInjective(other, id);
    }
    assert other != EmptyKey(n, id) && other != HiddenKey(n, id);
  }

  /** After `k` turns, the first `k` dashboards are placed and the others not yet. */
  lemma {:induction false} PrefixPlaced(config: Dict<Dashboard>, k: nat, n: Naming)
    requires k <= |config| && IdsOk(config)
    requires PageFrom(config[..k], config, n).Success?
    ensures forall j :: 0 <= j < |config| ==> Placed(PageFrom(config[..k], config, n).value, config[j], j < k)
  {
    if k > 0 {
      var prefix := config[..k];
      assert prefix[..k - 1] == config[..k - 1];
      assert prefix[k - 1] == config[k - 1];
      PrefixPlaced(config, k - 1, n);
      var page := PageFrom(config[..k - 1], config, n).value;
      var (id, db) := config[k - 1];
      var next := AddBoard(page, id, db, config, n).value;
      AddBoardPlaces(page, id, db, config, n);
      forall j | 0 <= j < |config| && j != k - 1
        ensures Placed(next, config[j], j < k)
      {
        assert Keys(config)[j] != Keys(config)[k - 1];
        AddBoardKeeps(page, id, db, config, n, config[j].0);
      }
    }
  }

  /** One turn of the loop places its own dashboard. */
  lemma AddBoardPlaces(page: Page, id: string, db: Dashboard, config: Dict<Dashboard>, n: Naming)
    requires AddBoard(page, id, db, config, n).Success? && Plain(id)
    requires Placed(page, (id, db), false)
    ensures Placed(AddBoard(page, id, db, config, n).value, (id, db), true)
  {
    if !db.contextual {
      var badges := if Given(db.badgeTitle) then Put(page.badges, BadgeId(id), Badge(db.badgeTitle.value, db.badgeType.GetOr(DefaultBadgeType))) else page.badges;
      var graph := GraphEntry(db.graph).value;
      var board := Board(db.tableTitle.value, Columns(db), db.tableOrder, db.tableHide.GetOr(JList([])), ContextFilter(config, db), graph, db.large);
      var slots := PlaceSlots(page.slots, id, board, db.large, n);
      assert AddBoard(page, id, db, config, n) == Success(Page(badges, slots));
      assert id != EmptyKey(n, id) && id != HiddenKey(n, id);
      assert Get(slots, id) == Some(board);
    }
  }

  /** `get_dashboard` gives every non-contextual dashboard its table slot, under its
      own id, with its title and columns, and its badge when it has a badge title;
      a contextual dashboard has neither. */
  lemma PagePlacesBoards(config: Dict<Dashboard>, n: Naming)
    requires IdsOk(config) && PageOf(config, n).Success?
    ensures forall j :: 0 <= j < |config| ==> Placed(PageOf(config, n).value, config[j], true)
  {
    assert config[..|config|] == config;
    PrefixPlaced(config, |config|, n);
  }

  /** Every entry of `config` is placed on the page or the page raised an error:
      a missing table title is a KeyError. */
  lemma MissingTitleFails(config: Dict<Dashboard>, n: Naming, j: nat)
    requires IdsOk(config) && j < |config|
    requires !config[j].1.contextual && config[j].1.tableTitle.None?
    ensures PageOf(config, n).Failure?
  {
    if PageOf(config, n).Success? {
      PagePlacesBoards(config, n);
    }
  }

  // ---- the rows of the page

  /** Each large dashboard starts a row (an even slot) and the slot after it is a
      filler, so that it spans the row. */
  predicate RowsAligned(slots: Dict<Slot>) {
    forall i :: 0 <= i < |slots| && slots[i].1.Board? && slots[i].1.large ==>
      i % 2 == 0 && i + 1 < |slots| && slots[i + 1].1 == Filler
  }

  /** A large dashboard with a title, nothing else set. */
  const Wide: Dashboard := Dashboard(false, None, None, Some("t"), None, None, [], [], None, None, None, None, None, true, None)

  /** As written, two large dashboards share one `_hidden_` slot: the second
      assignment overwrites the first filler where it stands, so the second large
      dashboard is last, with no filler after it. */
  lemma TwoLargeBoards()
    ensures PageOf([("a", Wide), ("b", Wide)], AsWritten).Success?
    ensures var slots := PageOf([("a", Wide), ("b", Wide)], AsWritten).value.slots;
      |slots| == 3 && slots[0].0 == "a" && slots[1].0 == "_hidden_" && slots[2].0 == "b"
    ensures !RowsAligned(PageOf([("a", Wide), ("b", Wide)], AsWritten).value.slots)
  {
    var config := [("a", Wide), ("b", Wide)];
    var s1 := [("a", WideSlot), ("_hidden_", Filler)];
    var s2 := s1 + [("b", WideSlot)];
    FirstWide(config);
    SecondWide(config);
    assert config[..1][..0] == [];
    assert PageFrom(config[..1], config, AsWritten) == Success(Page([], s1));
    assert PageOf(config, AsWritten) == Success(Page([], s2));
    assert s2[2].1.Board? && s2[2].1.large;
  }

  /** The table slot of `Wide`. */
  const WideSlot: Slot := Board("t", [], None, JList([]), None, None, true)

  /** A turn for `Wide`: no badge, and its table slot placed as a large one. */
  lemma AddWide(page: Page, id: string, config: Dict<Dashboard>)
    ensures AddBoard(page, id, Wide, config, AsWritten) == Success(Page(page.badges, PlaceSlots(page.slots, id, WideSlot, true, AsWritten)))
  {
    assert Columns(Wide) == [] && ContextFilter(config, Wide) == None && GraphEntry(None) == Success(None);
  }

  /** The first large dashboard: its slot and the shared filler after it. */
  lemma FirstWide(config: Dict<Dashboard>)
    requires config == [("a", Wide), ("b", Wide)]
    ensures AddBoard(Page([], []), "a", Wide, config, AsWritten) == Success(Page([], [("a", WideSlot), ("_hidden_", Filler)]))
  {
    AddWide(Page([], []), "a", config);
    assert Put([], "a", WideSlot) == [("a", WideSlot)];
    assert !Has([("a", WideSlot)], "_hidden_");
    assert PlaceSlots([], "a", WideSlot, true, AsWritten) == [("a", WideSlot), ("_hidden_", Filler)];
  }

  /** The second large dashboard: appended, while its filler overwrites the
      shared one in place. */
  lemma SecondWide(config: Dict<Dashboard>)
    requires config == [("a", Wide), ("b", Wide)]
    ensures var s1 := [("a", WideSlot), ("_hidden_", Filler)];
      AddBoard(Page([], s1), "b", Wide, config, AsWritten) == Success(Page([], s1 + [("b", WideSlot)]))
  {
    var s1 := [("a", WideSlot), ("_hidden_", Filler)];
    var s2 := s1 + [("b", WideSlot)];
    assert Columns(Wide) == [] && ContextFilter(config, Wide) == None && GraphEntry(None) == Success(None);
    assert !Has(s1, "b");
    assert Put(s1, "b", WideSlot) == s2;
    assert Get(s2, "_hidden_") == Some(Filler);
    assert Put(s2, "_hidden_", Filler) == s2;
    assert |s1| % 2 == 0 && HiddenKey(AsWritten, "b") == "_hidden_";
    assert PlaceSlots(s1, "b", WideSlot, true, AsWritten) == s2;
  }

  /** `key` is one of the slot keys of dashboard `id`. */
  predicate OwnKey(key: string, id: string) {
    key == id || key == "_empty_" + id || key == "_hidden_" + id
  }

  /** Every slot belongs to one of the first `k` dashboards. */
  predicate KeysOf(slots: Dict<Slot>, config: Dict<Dashboard>, k: nat) {
    forall i :: 0 <= i < |slots| ==> exists j :: 0 <= j < k && j < |config| && OwnKey(slots[i].0, config[j].0)
  }

  /** With keys of their own, the slot keys of the next dashboard are new. */
  lemma FreshKeys(slots: Dict<Slot>, config: Dict<Dashboard>, k: nat)
    requires IdsOk(config) && k < |config| && KeysOf(slots, config, k)
    ensures forall key :: OwnKey(key, config[k].0) ==> !Has(slots, key)
  {
    var id := config[k].0;
    forall i, key | 0 <= i < |slots| && OwnKey(key, id)
      ensures slots[i].0 != key
    {
      var j :| 0 <= j < k && j < |config| && OwnKey(slots[i].0, config[j].0);
      assert Keys(config)[j] != Keys(config)[k];
      OwnKeysDiffer(slots[i].0, config[j].0, key, id);
    }
  }

  /** Distinct plain ids have no slot key in common. */
  lemma OwnKeysDiffer(a: string, ida: string, b: string, idb: string)
    requires OwnKey(a, ida) && OwnKey(b, idb) && ida != idb && Plain(ida) && Plain(idb)
    ensures a != b
  {
    if a == ida {
      if b != idb {
        assert |b| > 0 && b[0] == '_';
      }
    } else if a == "_empty_" + ida {
      assert a[..7] == "_empty_" && a[7..] == ida;
      if b == "_empty_" + idb {
        assert b[7..] == idb;
      } else if b == "_hidden_" + idb {
        assert a[1] != b[1];
      }
    } else {
      assert a[..8] == "_hidden_" && a[8..] == ida;
      if b == "_hidden_" + idb {
        assert b[8..] == idb;
      } else if b == "_empty_" + idb {
        assert a[1] != b[1];
      }
    }
  }

  /** The slots a dashboard adds when none of its keys is present: each one is
      appended. */
  function Appended(slots: Dict<Slot>, id: string, board: Slot, large: bool): Dict<Slot> {
    slots + (if large && |slots| % 2 != 0 then [("_empty_" + id, Filler)] else []) + [(id, board)]
      + (if large then [("_hidden_" + id, Filler)] else [])
  }

  /** A key is in a dict with one entry appended when it is in the dict or is
      the appended key. */
  lemma HasSnoc<V>(d: Dict<V>, k: string, v: V, x: string)
    ensures Has(d + [(k, v)], x) <==> Has(d, x) || k == x
  {
    var r := d + [(k, v)];
    if Has(r, x) {
      var i :| 0 <= i < |r| && r[i].0 == x;
      if i < |d| {
        assert d[i] == r[i];
      }
    }
    if Has(d, x) {
      var i :| 0 <= i < |d| && d[i].0 == x;
      assert r[i] == d[i];
    }
    assert r[|d|] == (k, v);
  }

  /** New keys are appended, in order. */
  lemma PlaceFresh(slots: Dict<Slot>, id: string, board: Slot, large: bool)
    requires forall key :: OwnKey(key, id) ==> !Has(slots, key)
    ensures PlaceSlots(slots, id, board, large, PerBoard) == Appended(slots, id, board, large)
  {
    if large {
      var e := "_empty_" + id;
      assert OwnKey(e, id) && OwnKey(id, id) && OwnKey("_hidden_" + id, id);
      if |slots| % 2 != 0 {
        var before := slots + [(e, Filler)];
        assert |e| > |id| && e[1] != ("_hidden_" + id)[1];
        HasSnoc(slots, e, Filler, id);
        HasSnoc(slots, e, Filler, "_hidden_" + id);
        assert Put(slots, EmptyKey(PerBoard, id), Filler) == before;
        PlaceLarge(slots, before, id, board);
      } else {
        PlaceLarge(slots, slots, id, board);
      }
    } else {
      assert OwnKey(id, id);
    }
  }

  /** A large dashboard's slots, once the filler before it (if any) is in
      `before`, are appended after it. */
  lemma PlaceLarge(slots: Dict<Slot>, before: Dict<Slot>, id: string, board: Slot)
    requires before == (if |slots| % 2 != 0 then Put(slots, EmptyKey(PerBoard, id), Filler) else slots)
    requires before == slots + (if |slots| % 2 != 0 then [("_empty_" + id, Filler)] else [])
    requires !Has(before, id) && !Has(before, "_hidden_" + id)
    ensures PlaceSlots(slots, id, board, true, PerBoard) == Appended(slots, id, board, true)
  {
    var h := "_hidden_" + id;
    var placed := before + [(id, board)];
    assert |h| > |id|;
    HasSnoc(before, id, board, h);
    assert placed == Put(before, id, board);
    assert Put(placed, HiddenKey(PerBoard, id), Filler) == placed + [(h, Filler)];
  }

  /** The appended slots keep the old ones and have the dashboard's keys. */
  lemma AppendedKeys(slots: Dict<Slot>, id: string, board: Slot, large: bool)
    ensures var r := Appended(slots, id, board, large);
      && |slots| <= |r|
      && (forall i :: 0 <= i < |slots| ==> r[i] == slots[i])
      && (forall i :: |slots| <= i < |r| ==> OwnKey(r[i].0, id))
  {
  }

  /** Appending a dashboard's slots keeps the rows aligned. */
  lemma AppendedAligned(slots: Dict<Slot>, id: string, board: Slot, large: bool)
    requires RowsAligned(slots) && board.Board? && board.large == large
    ensures RowsAligned(Appended(slots, id, board, large))
  {
    var r := Appended(slots, id, board, large);
    var at := |slots| + (if large && |slots| % 2 != 0 then 1 else 0);
    assert r[at] == (id, board);
    forall i | 0 <= i < |r| && r[i].1.Board? && r[i].1.large
      ensures i % 2 == 0 && i + 1 < |r| && r[i + 1].1 == Filler
    {
      if i < |slots| {
        assert r[i] == slots[i];
        if i + 1 < |slots| {
          assert r[i + 1] == slots[i + 1];
        }
      } else {
        assert i == at;
      }
    }
  }

  /** With filler keys of their own, one turn of the loop keeps the rows aligned. */
  lemma AddBoardAligned(page: Page, config: Dict<Dashboard>, k: nat)
    requires IdsOk(config) && k < |config| && KeysOf(page.slots, config, k) && RowsAligned(page.slots)
    requires AddBoard(page, config[k].0, config[k].1, config, PerBoard).Success?
    ensures var next := AddBoard(page, config[k].0, config[k].1, config, PerBoard).value;
      KeysOf(next.slots, config, k + 1) && RowsAligned(next.slots)
  {
    var (id, db) := config[k];
    var next := AddBoard(page, id, db, config, PerBoard).value;
    if !db.contextual {
      FreshKeys(page.slots, config, k);
      var board := Board(db.tableTitle.value, Columns(db), db.tableOrder, db.tableHide.GetOr(JList([])), ContextFilter(config, db), GraphEntry(db.graph).value, db.large);
      PlaceFresh(page.slots, id, board, db.large);
      assert next.slots == Appended(page.slots, id, board, db.large);
      AppendedAligned(page.slots, id, board, db.large);
      AppendedKeysOf(page.slots, config, k, board, db.large);
    }
  }

  /** The appended slots belong to the first `k + 1` dashboards. */
  lemma AppendedKeysOf(slots: Dict<Slot>, config: Dict<Dashboard>, k: nat, board: Slot, large: bool)
    requires k < |config| && KeysOf(slots, config, k)
    ensures KeysOf(Appended(slots, config[k].0, board, large), config, k + 1)
  {
    var r := Appended(slots, config[k].0, board, large);
    AppendedKeys(slots, config[k].0, board, large);
    forall i | 0 <= i < |r|
      ensures exists j :: 0 <= j < k + 1 && j < |config| && OwnKey(r[i].0, config[j].0)
    {
      if i >= |slots| {
        assert OwnKey(r[i].0, config[k].0);
      }
    }
  }

  /** After `k` turns with filler keys of their own, the rows are aligned. */
  lemma {:induction false} PrefixAligned(config: Dict<Dashboard>, k: nat)
    requires k <= |config| && IdsOk(config)
    requires PageFrom(config[..k], config, PerBoard).Success?
    ensures KeysOf(PageFrom(config[..k], config, PerBoard).value.slots, config, k)
    ensures RowsAligned(PageFrom(config[..k], config, PerBoard).value.slots)
  {
    if k > 0 {
      var prefix := config[..k];
      assert prefix[..k - 1] == config[..k - 1];
      assert prefix[k - 1] == config[k - 1];
      PrefixAligned(config, k - 1);
      AddBoardAligned(PageFrom(config[..k - 1], config, PerBoard).value, config, k - 1);
    }
  }

  /** With a filler key of its own per dashboard, every large dashboard starts a
      row and is followed by its filler. */
  lemma LargeStartsRow(config: Dict<Dashboard>)
    requires IdsOk(config) && PageOf(config, PerBoard).Success?
    ensures RowsAligned(PageOf(config, PerBoard).value.slots)
  {
    assert config[..|config|] == config;
    PrefixAligned(config, |config|);
  }

  // ---- the contextual dashboard: context_data

  /** The query the contextual dashboard `target` runs for the clicked `key`:
      its own display, group-by and count options, filtered on its filter with the
      key, and no time grouping. When the parent is time grouped and the filter
      is `timestamp`, the filter becomes the parent's time group, so that the key
      is read as the start of a period of that length. */
  function ContextOptions(parent: Dashboard, target: Dashboard, key: string): (q: QueryOptions)
    ensures q.value == Some(key) && !Given(q.timeGroup)
    ensures q.displayCols == target.displayCols && q.groupBy == target.groupBy
    ensures Given(parent.timeGroup) && target.filter == Some("timestamp") ==> q.filter == parent.timeGroup
    ensures !(Given(parent.timeGroup) && target.filter == Some("timestamp")) ==> q.filter == target.filter
  {
    var filter := if Given(parent.timeGroup) && target.filter == Some("timestamp") then parent.timeGroup else target.filter;
    QueryOptions(target.displayCols, target.groupBy, target.countTitle.GetOr("count"), filter, Some(key), None, "")
  }

  /** The table of the contextual dashboard; its title is formatted from
      `table_title`, so a dashboard without one raises KeyError. */
  function ContextTable(parent: Dashboard, target: Dashboard, key: string, t: Table, p: Parsers): (r: Result<Table, string>)
    requires WellFormed(t)
    ensures r.Success? ==> TableData(t, ContextOptions(parent, target, key), p, true) == r && target.tableTitle.Some?
  {
    match TableData(t, ContextOptions(parent, target, key), p, true)
    case Failure(e) => Failure(e)
    case Success(table) => if target.tableTitle.None? then Failure("KeyError") else Success(table)
  }

  /** `context_data(dashboard, key)` as written: None stands for the empty answer
      given when the parent has no `on_click`. The contextual dashboard's filter
      is read before the check that it exists, so a missing one raises
      AttributeError, as does a missing parent. */
  function ContextData(config: Dict<Dashboard>, parentId: string, key: string, t: Table, p: Parsers): (r: Result<Option<Table>, string>)
    requires WellFormed(t)
  {
    match Get(config, parentId)
    case None => Failure("AttributeError")
    case Some(parent) =>
      if !Given(parent.onClick) then Success(None)
      else match Get(config, parent.onClick.value)
        case None => Failure("AttributeError")
        case Some(target) =>
          match ContextTable(parent, target, key, t, p)
          case Failure(e) => Failure(e)
          case Success(table) => Success(Some(table))
  }

  /** `context_data` with the existence check made before the filter is read, as
      the warning branch intends: a missing contextual dashboard gives the empty
      answer. */
  function CorrectedContextData(config: Dict<Dashboard>, parentId: string, key: string, t: Table, p: Parsers): (r: Result<Option<Table>, string>)
    requires WellFormed(t)
  {
    match Get(config, parentId)
    case None => Failure("AttributeError")
    case Some(parent) =>
      if !Given(parent.onClick) then Success(None)
      else match Get(config, parent.onClick.value)
        case None => Success(None)
        case Some(target) =>
          match ContextTable(parent, target, key, t, p)
          case Failure(e) => Failure(e)
          case Success(table) => Success(Some(table))
  }

  /** A click that opens a dashboard missing from the configuration raises
      AttributeError as written; corrected, it gives the empty answer. */
  lemma MissingContextDashboard(config: Dict<Dashboard>, parentId: string, key: string, t: Table, p: Parsers)
    requires WellFormed(t)
    requires Get(config, parentId).Some? && Given(Get(config, parentId).value.onClick)
    requires !Has(config, Get(config, parentId).value.onClick.value)
    ensures ContextData(config, parentId, key, t, p) == Failure("AttributeError")
    ensures CorrectedContextData(config, parentId, key, t, p) == Success(None)
  {
  }

  /** Whenever the contextual dashboard exists, the correction changes nothing. */
  lemma ContextDataAgree(config: Dict<Dashboard>, parentId: string, key: string, t: Table, p: Parsers)
    requires WellFormed(t)
    requires Get(config, parentId).Some? && Given(Get(config, parentId).value.onClick) ==>
      Has(config, Get(config, parentId).value.onClick.value)
    ensures ContextData(config, parentId, key, t, p) == CorrectedContextData(config, parentId, key, t, p)
  {
  }

  /** A click on a row of a time-grouped table, whose contextual dashboard filters
      on `timestamp`, shows the rows of that period: from the clicked period start
      to the start plus the time group's length, both ends included. */
  lemma ContextWindow(parent: Dashboard, target: Dashboard, key: string, t: Table, p: Parsers)
    requires WellFormed(t) && Given(parent.timeGroup) && target.filter == Some("timestamp") && key != ""
    requires parent.timeGroup.value !in t.columns
    requires p.timestamp(key).Some? && p.timedelta(parent.timeGroup.value).Some?
    ensures var q := ContextOptions(parent, target, key);
      var start, delta := p.timestamp(key).value, p.timedelta(parent.timeGroup.value).value;
      forall x :: x in FilterStage(t, q.filter, q.value, p).rows <==>
        x in t.rows && x.stamp.Some? && start <= x.stamp.value <= start + delta
  {
  }
}
