/**
 * The record-level pipeline of the Live Dashboard page
 * (fmtech_map_dashboard.py): where the data comes from, the keyword status
 * classifier, the load step with its column check, the map with its
 * markers and optional heat layer, and the keyword metrics.
 */
module LiveDashboard {
  import opened Wrappers
  import opened Strings
  import opened Sequences
  import opened Table

  // ---------------- Data source ----------------

  const DEFAULT_URL := "https://docs.google.com/spreadsheets/d/1P7zg-1RSwOhADBCytCj3d2N16ZkGqTam/export?format=csv"

  /**
   * Lines 53-59: the `DATA_CSV_URL` secret when it is set, else the
   * environment variable of that name when it is set, else the live sheet.
   */
  function DataSourceUrl(secret: Option<string>, env: Option<string>): (url: string)
    ensures secret.Some? ==> url == secret.value
    ensures secret.None? && env.Some? ==> url == env.value
    ensures secret.None? && env.None? ==> url == DEFAULT_URL
  {
    match secret
    case Some(s) => s
    case None => env.GetOr(DEFAULT_URL)
  }

  // ---------------- Status colours ----------------

  /** A classification rule: a status mentioning `keyword` gets `colour`. */
  datatype Rule = Rule(keyword: string, colour: Colour)

  /** Lines 66-70, in priority order. */
  const RULES := [Rule("open", Red), Rule("progress", Orange), Rule("hold", Yellow),
                  Rule("completed", Green), Rule("closed", Gray)]

  /** The position of the first rule whose keyword occurs in `s`, if any. */
  function FirstMatch(rules: seq<Rule>, s: string): (m: Option<nat>)
    ensures m.Some? ==> m.value < |rules| && Contains(s, rules[m.value].keyword)
    ensures m.Some? ==> forall j :: 0 <= j < m.value ==> !Contains(s, rules[j].keyword)
    ensures m.None? <==> forall j :: 0 <= j < |rules| ==> !Contains(s, rules[j].keyword)
    decreases |rules|
  {
    if rules == [] then None
    else if Contains(s, rules[0].keyword) then Some(0)
    else
      match FirstMatch(rules[1..], s)
      case Some(k) => Some(k + 1)
      case None => None
  }

  /**
   * Lines 62-71 `status_color`: an empty status is FMTECH blue; otherwise
   * the stripped, lower-cased status takes the colour of the first rule
   * whose keyword it contains, and FMTECH blue when it contains none.
   */
  function StatusColour(status: string): (c: Colour)
    ensures c in {Red, Orange, Yellow, Green, Gray, FmtechBlue}
  {
    if status == "" then FmtechBlue
    else
      match FirstMatch(RULES, Lower(Strip(status)))
      case Some(i) => RULES[i].colour
      case None => FmtechBlue
  }

  /**
   * The rule order decides: a status is red when it mentions "open", orange
   * when it mentions "progress" but not "open", yellow for "hold" without
   * either, and so on down the list; FMTECH blue when it is empty or
   * mentions none of the keywords.
   */
  lemma StatusColourPriority(status: string)
    ensures var s := Lower(Strip(status));
      && (StatusColour(status) == Red <==> status != "" && Contains(s, "open"))
      && (StatusColour(status) == Orange <==> status != "" && !Contains(s, "open") && Contains(s, "progress"))
      && (StatusColour(status) == Yellow <==>
            status != "" && !Contains(s, "open") && !Contains(s, "progress") && Contains(s, "hold"))
      && (StatusColour(status) == Green <==>
            status != "" && !Contains(s, "open") && !Contains(s, "progress") && !Contains(s, "hold")
            && Contains(s, "completed"))
      && (StatusColour(status) == Gray <==>
            status != "" && !Contains(s, "open") && !Contains(s, "progress") && !Contains(s, "hold")
            && !Contains(s, "completed") && Contains(s, "closed"))
  {
    if status != "" {
      var s := Lower(Strip(status));
      var m := FirstMatch(RULES, s);
      if m.Some? {
        assert RULES[m.value].colour == [Red, Orange, Yellow, Green, Gray][m.value];
      }
    }
  }

  // ---------------- Loading ----------------

  /** The error `fetch_data` raises. */
  datatype FetchError = MissingCoordinateColumns

  /** Lines 88-89: the columns turned into text after loading. */
  const TEXT_COLUMNS := [JOB_ORDER, JOB_STATUS, "Impact", "Problem Description", LOCATION, FLOOR]

  /**
   * Lines 74-93 `fetch_data`: a sheet without a Latitude or a Longitude
   * column is an error; otherwise the rows whose coordinate texts parse as
   * they are, with no separator rewriting, survive in their order with
   * their positions and their text columns stringified.
   */
  function FetchData(sheet: Sheet, parse: string -> Option<real>): (res: Result<Frame, FetchError>)
    ensures res.Failure? <==> LATITUDE !in sheet.columns || LONGITUDE !in sheet.columns
    ensures res.Success? ==> var kept := Where(sheet.rows, Parses(parse));
      && res.value.columns == sheet.columns
      && |res.value.records| == |kept|
      && forall i :: 0 <= i < |kept| ==>
           && res.value.records[i].cells == Stringify(kept[i], TEXT_COLUMNS, sheet.columns)
           && ReadCoords(kept[i], parse) == Some(res.value.records[i].at)
  {
    if LATITUDE !in sheet.columns || LONGITUDE !in sheet.columns then Failure(MissingCoordinateColumns)
    else Success(Frame(sheet.columns, StringifyAll(DropUnparsed(sheet.rows, parse), TEXT_COLUMNS, sheet.columns)))
  }

  /** A row survives exactly when both of its coordinate texts parse; none is added. */
  lemma FetchKeeps(sheet: Sheet, parse: string -> Option<real>)
    requires LATITUDE in sheet.columns && LONGITUDE in sheet.columns
    ensures |FetchData(sheet, parse).value.records| <= |sheet.rows|
    ensures var kept := Where(sheet.rows, Parses(parse));
      forall i :: 0 <= i < |sheet.rows| ==> (sheet.rows[i] in kept <==> ReadCoords(sheet.rows[i], parse).Some?)
  {
  }

  // ---------------- Map ----------------

  /** Lines 96-101: the base maps the sidebar offers and the folium tiles they use. */
  const TILES: map<string, string> := map[
    "OpenStreetMap" := "OpenStreetMap",
    "CartoDB Positron" := "CartoDB positron",
    "Stamen Terrain" := "Stamen Terrain",
    "Stamen Toner" := "Stamen Toner"]

  /** Line 103: the tiles for a base map name, OpenStreetMap for an unknown one. */
  function TilesFor(basemap: string): (t: string)
    ensures basemap in TILES ==> t == TILES[basemap]
    ensures basemap !in TILES ==> t == "OpenStreetMap"
    ensures t in TILES.Values
  {
    if basemap in TILES then TILES[basemap]
    else
      assert "OpenStreetMap" in TILES;
      "OpenStreetMap"
  }

  /** Lines 116-120: one line per column, in column order, with that column's cell. */
  function ColumnLines(columns: seq<string>, r: Record): seq<PopupLine> {
    seq(|columns|, i requires 0 <= i < |columns| => Field(columns[i], CellOf(r, columns[i])))
  }

  /**
   * The popup names every column once, in column order; a NaN cell is shown
   * blank and the coordinates show the parsed position.
   */
  lemma ColumnLinesSpec(columns: seq<string>, r: Record)
    ensures |ColumnLines(columns, r)| == |columns|
    ensures forall i :: 0 <= i < |columns| ==>
      ColumnLines(columns, r)[i].Field? && ColumnLines(columns, r)[i].caption == columns[i]
    ensures forall i :: 0 <= i < |columns| && columns[i] != LATITUDE && columns[i] != LONGITUDE ==>
      (ColumnLines(columns, r)[i].value == Blank <==> columns[i] !in r.cells)
    ensures forall i :: 0 <= i < |columns| ==> ColumnLines(columns, r)[i].value == CellOf(r, columns[i])
    ensures forall i :: 0 <= i < |columns| && columns[i] != LATITUDE && columns[i] != LONGITUDE && columns[i] in r.cells ==>
      ColumnLines(columns, r)[i].value == Text(r.cells[columns[i]])
    ensures forall i :: 0 <= i < |columns| && columns[i] == LATITUDE ==>
      ColumnLines(columns, r)[i].value == Number(r.at.lat)
    ensures forall i :: 0 <= i < |columns| && columns[i] == LONGITUDE ==>
      ColumnLines(columns, r)[i].value == Number(r.at.lon)
  {
  }

  /** The circle marker for one record: its status colour, job number tooltip and all-columns popup. */
  function LiveMarker(columns: seq<string>, r: Record): Marker {
    Marker(r.at, StatusColour(TextOr(r, JOB_STATUS, "")), Tooltip(r), ColumnLines(columns, r))
  }

  /** What `build_map` produces: tiles, centre and zoom, the markers and the heat layer if added. */
  datatype LiveMap = LiveMap(tiles: string, centre: Coord, zoom: nat, markers: seq<Marker>, heat: Option<seq<Coord>>)

  /**
   * Lines 95-134 `build_map`: the map is always centred on Riyadh at zoom
   * 12 with the chosen tiles; one marker and one heat point per record, in
   * record order; the heat layer is added only when asked for and there is
   * at least one point.
   */
  method BuildMap(f: Frame, addHeat: bool, basemap: string) returns (m: LiveMap)
    ensures m.tiles == TilesFor(basemap) && m.centre == RIYADH && m.zoom == DEFAULT_ZOOM
    ensures |m.markers| == |f.records|
    ensures forall i :: 0 <= i < |f.records| ==> m.markers[i] == LiveMarker(f.columns, f.records[i])
    ensures m.heat.Some? <==> addHeat && f.records != []
    ensures m.heat.Some? ==>
      |m.heat.value| == |f.records| && forall i :: 0 <= i < |f.records| ==> m.heat.value[i] == f.records[i].at
  {
    var heat: seq<Coord> := [];
    var markers: seq<Marker> := [];
    var i := 0;
    while i < |f.records|
      invariant 0 <= i <= |f.records|
      invariant |heat| == i && |markers| == i
      invariant forall k :: 0 <= k < i ==> heat[k] == f.records[k].at && markers[k] == LiveMarker(f.columns, f.records[k])
    {
      var r := f.records[i];
      heat := heat + [r.at];
      markers := markers + [LiveMarker(f.columns, r)];
      i := i + 1;
    }
    m := LiveMap(TilesFor(basemap), RIYADH, DEFAULT_ZOOM, markers, if addHeat && heat != [] then Some(heat) else None);
  }

  // ---------------- Metrics ----------------

  /** `df["Job Status"].str.lower().str.contains(keyword)` as a mask. */
  function Mentions(keyword: string): Row -> bool {
    (row: Row) => JOB_STATUS in row && Contains(Lower(row[JOB_STATUS]), keyword)
  }

  /** The three keyword metrics. */
  datatype Mentioned = Mentioned(open: nat, progress: nat, completed: nat)

  /** The record count and, with a status column, the keyword metrics. */
  datatype LiveMetrics = LiveMetrics(records: nat, byKeyword: Option<Mentioned>)

  /**
   * Lines 200-211: Records is the number of records; with a status column,
   * Open, In Progress and Completed count the records whose lower-cased
   * status contains "open", "progress" and "completed", each at most Records.
   */
  function LiveMetricsOf(f: Frame): (m: LiveMetrics)
    ensures m.records == |f.records|
    ensures m.byKeyword.Some? <==> JOB_STATUS in f.columns
    ensures m.byKeyword.Some? ==> var k := m.byKeyword.value;
      && k.open == |Where(CellsOf(f.records), Mentions("open"))| <= m.records
      && k.progress == |Where(CellsOf(f.records), Mentions("progress"))| <= m.records
      && k.completed == |Where(CellsOf(f.records), Mentions("completed"))| <= m.records
  {
    var rows := CellsOf(f.records);
    LiveMetrics(|f.records|,
      if JOB_STATUS in f.columns
      then Some(Mentioned(Count(rows, Mentions("open")), Count(rows, Mentions("progress")), Count(rows, Mentions("completed"))))
      else None)
  }

  /**
   * The keyword metrics may overlap: one record whose status reads
   * "open progress" is counted under both Open and In Progress, so the
   * metrics can add up to more than Records.
   */
  lemma KeywordMetricsOverlap()
    ensures var f := Frame([JOB_STATUS], [Record(map[JOB_STATUS := "open progress"], RIYADH)]);
      var m := LiveMetricsOf(f);
      m.byKeyword.Some? && m.byKeyword.value.open + m.byKeyword.value.progress > m.records
  {
    var st := "open progress";
    var low := Lower(st);
    assert low == st by {
      forall i | 0 <= i < |st| ensures low[i] == st[i] {
        assert !IsUpper(st[i]);
      }
    }
    assert OccursAt(low, "open", 0) by { assert low[0..4] == "open"; }
    assert OccursAt(low, "progress", 5) by { assert low[5..13] == "progress"; }
    var rows := CellsOf([Record(map[JOB_STATUS := st], RIYADH)]);
    assert rows == [map[JOB_STATUS := st]];
    assert Mentions("open")(rows[0]) && Mentions("progress")(rows[0]);
  }
}
