/** Persisted table-view state (lib/table-view.ts). JSON.parse and
    JSON.stringify are external: parsing takes the raw string (only to test
    it for null or empty) and the value JSON.parse decoded from it, None when
    it threw; serialising produces the JSON value JSON.stringify renders. */
module TableView {
  import opened Options

  datatype Json =
    | JNull
    | JBool(b: bool)
    | JNumber(n: real)
    | JString(s: string)
    | JArray(items: seq<Json>)
    | JObject(members: map<string, Json>)

  datatype TableDensity = Compact | Comfortable

  /** The view; sorting and column visibility are passed through unchecked, and absent when the
      stored object has no such member. */
  datatype TableViewState = TableViewState(
    density: TableDensity,
    globalFilter: string,
    pageSize: real,
    sorting: Option<Json>,
    columnVisibility: Option<Json>)

  function DensityName(d: TableDensity): string
  {
    match d
    case Compact => "compact"
    case Comfortable => "comfortable"
  }

  /** The density a string names, if any. */
  function DensityOf(s: string): (r: Option<TableDensity>)
    ensures r.Some? <==> s == "compact" || s == "comfortable"
    ensures r.Some? ==> DensityName(r.value) == s
  {
    if s == "compact" then Some(Compact)
    else if s == "comfortable" then Some(Comfortable)
    else None
  }

  /** The member `key` of an object, None for a missing key (undefined). */
  function Member(members: map<string, Json>, key: string): Option<Json>
  {
    if key in members then Some(members[key]) else None
  }

  /** parseTableView: null for a null or empty string, for a decode failure, for anything but an
      object, and for an object whose density, globalFilter or pageSize has the wrong kind. */
  function ParseTableView(raw: Option<string>, decoded: Option<Json>): (r: Option<TableViewState>)
    ensures raw == None || raw == Some("") ==> r == None
    ensures decoded == None ==> r == None
    ensures r.Some? <==>
      && raw.Some? && raw.value != ""
      && decoded.Some? && decoded.value.JObject?
      && ValidMembers(decoded.value.members)
    ensures r.Some? ==>
      var m := decoded.value.members;
      && DensityName(r.value.density) == m["density"].s
      && r.value.globalFilter == m["globalFilter"].s
      && r.value.pageSize == m["pageSize"].n
      && r.value.sorting == Member(m, "sorting")
      && r.value.columnVisibility == Member(m, "columnVisibility")
  {
    if raw.None? || raw.value == "" then None
    else if decoded.None? then None
    else if !decoded.value.JObject? then None
    else
      var m := decoded.value.members;
      var density := if "density" in m && m["density"].JString? then DensityOf(m["density"].s) else None;
      if density.None? then None
      else if !("globalFilter" in m && m["globalFilter"].JString?) then None
      else if !("pageSize" in m && m["pageSize"].JNumber?) then None
      else Some(TableViewState(density.value, m["globalFilter"].s, m["pageSize"].n,
                               Member(m, "sorting"), Member(m, "columnVisibility")))
  }

  /** The checks the parser makes on a decoded object. */
  predicate ValidMembers(m: map<string, Json>)
  {
    && "density" in m && m["density"].JString? && (m["density"].s == "compact" || m["density"].s == "comfortable")
    && "globalFilter" in m && m["globalFilter"].JString?
    && "pageSize" in m && m["pageSize"].JNumber?
  }

  /** serializeTableView: the view as a JSON object; an absent member is left out, as
      JSON.stringify leaves out undefined. */
  function SerializeTableView(view: TableViewState): (j: Json)
    ensures j.JObject? && ValidMembers(j.members)
  {
    var base := map["density" := JString(DensityName(view.density)),
                    "globalFilter" := JString(view.globalFilter),
                    "pageSize" := JNumber(view.pageSize)];
    var withSorting := if view.sorting.Some? then base["sorting" := view.sorting.value] else base;
    var all := if view.columnVisibility.Some? then withSorting["columnVisibility" := view.columnVisibility.value] else withSorting;
    JObject(all)
  }

  /** Parsing what was serialised gives back the same view. */
  lemma ParseSerialize(view: TableViewState, raw: string)
    requires raw != ""
    ensures ParseTableView(Some(raw), Some(SerializeTableView(view))) == Some(view)
  {
    var m := SerializeTableView(view).members;
    assert m["density"] == JString(DensityName(view.density));
    assert Member(m, "sorting") == view.sorting;
    assert Member(m, "columnVisibility") == view.columnVisibility;
  }

  /** resolveDensity: the requested density when it names one, the fallback otherwise. */
  function ResolveDensity(requested: Option<string>, fallback: TableDensity): (r: TableDensity)
    ensures requested.Some? && DensityOf(requested.value).Some? ==> DensityName(r) == requested.value
    ensures requested.None? || DensityOf(requested.value).None? ==> r == fallback
  {
    if requested.Some? && requested.value == "compact" then Compact
    else if requested.Some? && requested.value == "comfortable" then Comfortable
    else fallback
  }

  /** resolveDensity without a fallback argument: the fallback defaults to comfortable. */
  function ResolveDensityDefault(requested: Option<string>): TableDensity
  {
    ResolveDensity(requested, Comfortable)
  }

  /** The examples of the unit tests. */
  lemma ResolveDensityExamples()
    ensures ResolveDensityDefault(Some("compact")) == Compact
    ensures ResolveDensityDefault(Some("comfortable")) == Comfortable
    ensures ResolveDensityDefault(Some("invalid")) == Comfortable
    ensures ResolveDensity(None, Compact) == Compact
  {
  }

  /** The view of the unit test survives the round trip with its density, filter and page size. */
  lemma TableViewExample(raw: string)
    requires raw != ""
    ensures var view := TableViewState(Compact, "acme", 20.0,
        Some(JArray([JObject(map["id" := JString("arr"), "desc" := JBool(true)])])),
        Some(JObject(map["owner" := JBool(true), "region" := JBool(false)])));
      var parsed := ParseTableView(Some(raw), Some(SerializeTableView(view)));
      parsed.Some? && parsed.value.density == Compact && parsed.value.globalFilter == "acme" && parsed.value.pageSize == 20.0
  {
    var view := TableViewState(Compact, "acme", 20.0,
        Some(JArray([JObject(map["id" := JString("arr"), "desc" := JBool(true)])])),
        Some(JObject(map["owner" := JBool(true), "region" := JBool(false)])));
    ParseSerialize(view, raw);
  }
}
