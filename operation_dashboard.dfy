/**
 * The record-level pipeline of the Operation Dashboard with the logo header
 * (fmtech_dashboard.py): the Arabic-separator coordinate fix, the
 * 'ALL'-prefixed option lists, the search-or-facet filter, the exact-match
 * metrics, the status colour table and the marker loop.  Missing columns
 * and unreadable coordinates raise in the script; here they are failures.
 */
module OperationDashboard {
  import opened Wrappers
  import opened Strings
  import opened Sequences
  import opened Table
  import UiDashboard

  /** The first entry of both option lists, which selects everything. */
  const ALL := "ALL"

  /** The exceptions the script lets escape: a missing column, a coordinate `float` rejects. */
  datatype OpError = MissingColumn(column: string) | NotANumber(column: string, text: string)

  /** A row after the coordinate fix: its cells and both coordinates, a NaN one as None. */
  datatype Located = Located(cells: Row, lat: Option<real>, lon: Option<real>)

  // ---------------- Coordinate fix ----------------

  /** `.str.replace('٫', '.')`: the Arabic separator becomes a period; commas stay. */
  function FixArabicDecimal(s: string): (r: string)
    ensures |r| == |s| && ARABIC_DECIMAL !in r
    ensures forall i :: 0 <= i < |s| ==> r[i] == if s[i] == ARABIC_DECIMAL then '.' else s[i]
  {
    Replace(s, ARABIC_DECIMAL, '.')
  }

  /**
   * Unlike the map page, a comma is not a decimal mark here: "24,7136" is
   * passed to `float` as it is, where the map page reads "24.7136".
   */
  lemma CommaNotRewritten()
    ensures FixArabicDecimal("24,7136") == "24,7136"
    ensures UiDashboard.NormalizeCoordText("24,7136") == "24.7136"
  {
    var s := "24,7136";
    assert forall i :: 0 <= i < |s| ==> FixArabicDecimal(s)[i] == s[i];
    var u := UiDashboard.NormalizeCoordText(s);
    assert forall i :: 0 <= i < |s| ==> u[i] == "24.7136"[i];
  }

  /** A cell's coordinate text read by `float`: None for a NaN cell, which reads as NaN. */
  function Reading(row: Row, column: string, parse: string -> Option<real>): Option<real> {
    if column in row then parse(FixArabicDecimal(row[column])) else None
  }

  /** `float` accepts the cell: it is NaN, or its fixed text parses. */
  predicate Readable(row: Row, column: string, parse: string -> Option<real>) {
    column !in row || parse(FixArabicDecimal(row[column])).Some?
  }

  /**
   * Line 62 for one column: every cell read as a float, in order; the first
   * cell `float` rejects raises.
   */
  function ReadColumn(rows: seq<Row>, column: string, parse: string -> Option<real>): (res: Result<seq<Option<real>>, OpError>)
    ensures res.Success? <==> forall i :: 0 <= i < |rows| ==> Readable(rows[i], column, parse)
    ensures res.Success? ==>
      |res.value| == |rows| && forall i :: 0 <= i < |rows| ==> res.value[i] == Reading(rows[i], column, parse)
    ensures res.Failure? ==> exists i ::
      && 0 <= i < |rows| && !Readable(rows[i], column, parse)
      && (forall j :: 0 <= j < i ==> Readable(rows[j], column, parse))
      && res.error == NotANumber(column, rows[i][column])
    decreases |rows|
  {
    if rows == [] then Success([])
    else if !Readable(rows[0], column, parse) then Failure(NotANumber(column, rows[0][column]))
    else
      match ReadColumn(rows[1..], column, parse)
      case Failure(e) =>
        assert forall i :: 0 <= i < |rows[1..]| ==> rows[1..][i] == rows[i + 1];
        Failure(e)
      case Success(vs) =>
        assert forall i :: 0 <= i < |rows[1..]| ==> rows[1..][i] == rows[i + 1];
        Success([Reading(rows[0], column, parse)] + vs)
  }

  /** Every row with its two readings. */
  function Locate(rows: seq<Row>, lats: seq<Option<real>>, lons: seq<Option<real>>): (ls: seq<Located>)
    requires |lats| == |rows| && |lons| == |rows|
    ensures |ls| == |rows|
    ensures forall i :: 0 <= i < |rows| ==> ls[i] == Located(rows[i], lats[i], lons[i])
  {
    seq(|rows|, i requires 0 <= i < |rows| => Located(rows[i], lats[i], lons[i]))
  }

  /**
   * Lines 61-62: Latitude, then Longitude, must be a column, and every one
   * of its cells must be NaN or read as a float after the separator fix;
   * the first violation raises.  No row is dropped: a NaN coordinate stays.
   */
  function FixCoordinates(sheet: Sheet, parse: string -> Option<real>): (res: Result<seq<Located>, OpError>)
    ensures LATITUDE !in sheet.columns ==> res == Failure(MissingColumn(LATITUDE))
    ensures res.Success? <==>
      && LATITUDE in sheet.columns && LONGITUDE in sheet.columns
      && forall i :: 0 <= i < |sheet.rows| ==>
           Readable(sheet.rows[i], LATITUDE, parse) && Readable(sheet.rows[i], LONGITUDE, parse)
    ensures res.Success? ==> |res.value| == |sheet.rows| && forall i :: 0 <= i < |sheet.rows| ==>
      res.value[i] == Located(sheet.rows[i], Reading(sheet.rows[i], LATITUDE, parse), Reading(sheet.rows[i], LONGITUDE, parse))
  {
    if LATITUDE !in sheet.columns then Failure(MissingColumn(LATITUDE))
    else
      var lats :- ReadColumn(sheet.rows, LATITUDE, parse);
      if LONGITUDE !in sheet.columns then Failure(MissingColumn(LONGITUDE))
      else
        var lons :- ReadColumn(sheet.rows, LONGITUDE, parse);
        Success(Locate(sheet.rows, lats, lons))
  }

  /** The cells of the rows, in order. */
  function RowsOf(ls: seq<Located>): (rows: seq<Row>)
    ensures |rows| == |ls|
    ensures forall i :: 0 <= i < |ls| ==> rows[i] == ls[i].cells
  {
    seq(|ls|, i requires 0 <= i < |ls| => ls[i].cells)
  }

  // ---------------- Options ----------------

  /**
   * Lines 65-66: 'ALL' followed by the distinct values of the column in
   * ascending order, NaN left out; a missing column raises.
   */
  function Options(ls: seq<Located>, columns: seq<string>, column: string): (res: Result<seq<string>, OpError>)
    ensures res.Failure? <==> column !in columns
    ensures res.Failure? ==> res.error == MissingColumn(column)
    ensures res.Success? ==> |res.value| >= 1 && res.value[0] == ALL && StrictlySorted(res.value[1..])
    ensures res.Success? ==> forall v :: v in res.value[1..] <==> exists i :: 0 <= i < |ls| && HasValue(ls[i].cells, column, v)
  {
    if column !in columns then Failure(MissingColumn(column))
    else
      var vs := ColumnValues(RowsOf(ls), column);
      var opts := SortedSet(vs);
      assert ([ALL] + opts)[1..] == opts;
      Success([ALL] + opts)
  }

  // ---------------- Filter ----------------

  /** The two select boxes and the search box. */
  datatype Choice = Choice(floor: string, status: string, search: string)

  /**
   * Line 76: the job number as text contains the search in any case; a NaN
   * job number reads "nan".
   */
  function JobMatches(search: string): Located -> bool {
    (l: Located) => ContainsIgnoreCase(if JOB_ORDER in l.cells then l.cells[JOB_ORDER] else "nan", search)
  }

  /** Lines 78-79: the floor equals the chosen one, no restriction for 'ALL'; NaN equals nothing. */
  function FloorFacet(floor: string): Located -> bool {
    (l: Located) => floor == ALL || HasValue(l.cells, FLOOR, floor)
  }

  /** Lines 80-81: the status equals the chosen one, no restriction for 'ALL'; NaN equals nothing. */
  function StatusFacet(status: string): Located -> bool {
    (l: Located) => status == ALL || HasValue(l.cells, JOB_STATUS, status)
  }

  /** Both select boxes together. */
  function Facets(c: Choice): Located -> bool {
    (l: Located) => FloorFacet(c.floor)(l) && StatusFacet(c.status)(l)
  }

  /**
   * Lines 73-81: a non-empty search keeps the rows whose job number matches
   * and ignores both select boxes; an empty search keeps the rows matching
   * every select box that is not 'ALL'.  A column the chosen branch reads
   * but the data lacks raises.
   */
  function Filtered(columns: seq<string>, ls: seq<Located>, c: Choice): Result<seq<Located>, OpError> {
    if c.search != "" then
      if JOB_ORDER !in columns then Failure(MissingColumn(JOB_ORDER)) else Success(Where(ls, JobMatches(c.search)))
    else if c.floor != ALL && FLOOR !in columns then Failure(MissingColumn(FLOOR))
    else if c.status != ALL && JOB_STATUS !in columns then Failure(MissingColumn(JOB_STATUS))
    else Success(Where(ls, Facets(c)))
  }

  /**
   * Lines 73-81 as the script runs them, narrowing `filtered_df` one select
   * box at a time.
   */
  method ApplyFilters(columns: seq<string>, ls: seq<Located>, c: Choice) returns (res: Result<seq<Located>, OpError>)
    ensures res == Filtered(columns, ls, c)
  {
    if c.search != "" {
      if JOB_ORDER !in columns {
        return Failure(MissingColumn(JOB_ORDER));
      }
      return Success(Where(ls, JobMatches(c.search)));
    }
    var view := ls;
    var fl, st := FloorFacet(c.floor), StatusFacet(c.status);
    if c.floor != ALL {
      if FLOOR !in columns {
        return Failure(MissingColumn(FLOOR));
      }
      view := Where(view, fl);
    } else {
      WhereAll(view, fl);
    }
    assert view == Where(ls, fl);
    if c.status != ALL {
      if JOB_STATUS !in columns {
        return Failure(MissingColumn(JOB_STATUS));
      }
      view := Where(view, st);
    } else {
      WhereAll(view, st);
    }
    WhereWhere(ls, fl, st, Facets(c));
    res := Success(view);
  }

  /**
   * Filter semantics for one row of the data: with a search, it is kept
   * exactly when its job number contains the search in any case; without
   * one, exactly when it has each chosen floor and status.
   */
  lemma FilterMembers(columns: seq<string>, ls: seq<Located>, c: Choice, l: Located)
    requires l in ls
    requires Filtered(columns, ls, c).Success?
    ensures c.search != "" ==>
      (l in Filtered(columns, ls, c).value <==>
        ContainsIgnoreCase(if JOB_ORDER in l.cells then l.cells[JOB_ORDER] else "nan", c.search))
    ensures c.search == "" ==>
      (l in Filtered(columns, ls, c).value <==>
        (c.floor == ALL || HasValue(l.cells, FLOOR, c.floor)) && (c.status == ALL || HasValue(l.cells, JOB_STATUS, c.status)))
  {
    var view := Filtered(columns, ls, c).value;
    var keep := if c.search != "" then JobMatches(c.search) else Facets(c);
    assert view == Where(ls, keep);
    assert keep(l) == if c.search != "" then JobMatches(c.search)(l) else FloorFacet(c.floor)(l) && StatusFacet(c.status)(l);
    if l in view {
      var j :| 0 <= j < |view| && view[j] == l;
      assert keep(view[j]);
    } else {
      var i :| 0 <= i < |ls| && ls[i] == l;
      assert !keep(ls[i]);
    }
  }

  /** The result keeps the order of the data and never adds a row. */
  lemma FilterIsSubsequence(columns: seq<string>, ls: seq<Located>, c: Choice)
    requires Filtered(columns, ls, c).Success?
    ensures |Filtered(columns, ls, c).value| <= |ls|
    ensures IsSubseq(Filtered(columns, ls, c).value, ls)
  {
  }

  /** Filtering the result again with the same choices gives the same result. */
  lemma FilterIdempotent(columns: seq<string>, ls: seq<Located>, c: Choice)
    requires Filtered(columns, ls, c).Success?
    ensures Filtered(columns, Filtered(columns, ls, c).value, c) == Filtered(columns, ls, c)
  {
    if c.search != "" {
      WhereIdempotent(ls, JobMatches(c.search));
    } else {
      WhereIdempotent(ls, Facets(c));
    }
  }

  /** With no search and 'ALL' in both boxes, the result is the whole data set. */
  lemma FilterAllIsIdentity(columns: seq<string>, ls: seq<Located>)
    ensures Filtered(columns, ls, Choice(ALL, ALL, "")) == Success(ls)
  {
    var keep := Facets(Choice(ALL, ALL, ""));
    assert forall l :: keep(l) == (FloorFacet(ALL)(l) && StatusFacet(ALL)(l));
    WhereAll(ls, keep);
  }

  /** A non-empty search makes both select boxes irrelevant. */
  lemma SearchIgnoresFacets(columns: seq<string>, ls: seq<Located>, c: Choice, floor: string, status: string)
    requires c.search != ""
    ensures Filtered(columns, ls, c) == Filtered(columns, ls, Choice(floor, status, c.search))
  {
  }

  // ---------------- Metrics ----------------

  /** The five metrics of lines 86-90. */
  datatype OpMetrics = OpMetrics(records: nat, counts: StatusCounts)

  /**
   * Lines 86-90: Records is the size of the filtered view and the four
   * status metrics are exact-match counts, which together never exceed
   * Records; a missing status column raises.
   */
  function MetricsOf(columns: seq<string>, view: seq<Located>): (res: Result<OpMetrics, OpError>)
    ensures res.Failure? <==> JOB_STATUS !in columns
    ensures res.Success? ==> res.value.records == |view| && res.value.counts.Total() <= res.value.records
    ensures res.Success? ==> res.value.counts == ExactCounts(RowsOf(view))
  {
    if JOB_STATUS !in columns then Failure(MissingColumn(JOB_STATUS))
    else Success(OpMetrics(|view|, ExactCounts(RowsOf(view))))
  }

  // ---------------- Markers ----------------

  /** Lines 97-102. */
  const STATUS_COLOURS: map<string, Colour> := map["Open" := Red, "Attended" := Orange, "Completed" := Green, "Closed" := Blue]

  /**
   * Line 106: the colour of a status exactly as written, gray for any other
   * status and for a NaN one.
   */
  function LookupColour(status: Option<string>): (c: Colour)
    ensures c in {Red, Orange, Green, Blue, Gray}
    ensures status.Some? && status.value in STATUS_COLOURS ==> c == STATUS_COLOURS[status.value]
    ensures status.None? || status.value !in STATUS_COLOURS ==> c == Gray
  {
    match status
    case Some(s) => if s in STATUS_COLOURS then STATUS_COLOURS[s] else Gray
    case None => Gray
  }

  /**
   * The table is matched exactly: "open" is gray here, and "Closed" is blue
   * here where the map page draws it gray.
   */
  lemma ColourTablesDisagree()
    ensures LookupColour(Some("open")) == Gray
    ensures LookupColour(Some("Closed")) == Blue
    ensures UiDashboard.StatusColour("Closed") == Gray
  {
    assert "open" !in STATUS_COLOURS by {
      assert "open" != "Open" by { assert "open"[0] != "Open"[0]; }
    }
    ClosedIsTitled();
  }

  /** "Closed" is left as it is by strip and title-case. */
  lemma ClosedIsTitled()
    ensures Title(Strip("Closed")) == "Closed"
  {
    StripStripped("Closed");
    assert Title("Closed") == "Closed";
  }

  /** The columns the popup reads, in the order the script reads them. */
  const POPUP_COLUMNS := [JOB_STATUS, CAFM_LINK, FLOOR, LOCATION]

  /** The first popup column the data lacks, if any. */
  function MissingPopupColumn(columns: seq<string>): (m: Option<string>)
    ensures m.None? <==> forall c :: c in POPUP_COLUMNS ==> c in columns
    ensures m.Some? ==> m.value in POPUP_COLUMNS && m.value !in columns
    ensures m.Some? ==> exists j ::
      && 0 <= j < |POPUP_COLUMNS| && POPUP_COLUMNS[j] == m.value
      && forall k :: 0 <= k < j ==> POPUP_COLUMNS[k] in columns
  {
    if JOB_STATUS !in columns then Some(JOB_STATUS)
    else if CAFM_LINK !in columns then Some(CAFM_LINK)
    else if FLOOR !in columns then Some(FLOOR)
    else if LOCATION !in columns then Some(LOCATION)
    else None
  }

  /** A circle marker of this page: position, colour and popup lines, with no tooltip. */
  datatype PlainMarker = PlainMarker(lat: Option<real>, lon: Option<real>, colour: Colour, popup: seq<PopupLine>)

  /** Lines 106-119: the marker for one row. */
  function PlainMarkerFor(l: Located): PlainMarker {
    var status := if JOB_STATUS in l.cells then Some(l.cells[JOB_STATUS]) else None;
    PlainMarker(l.lat, l.lon, LookupColour(status), [
      Field("Job Status", TextCell(l.cells, JOB_STATUS)),
      Link("CAFM Link", TextCell(l.cells, CAFM_LINK)),
      Field("Floor Description", TextCell(l.cells, FLOOR)),
      Field("Location", TextCell(l.cells, LOCATION))])
  }

  /** What the page draws: tiles, centre and zoom, and the markers. */
  datatype OpMap = OpMap(tiles: string, centre: Coord, zoom: nat, markers: seq<PlainMarker>)

  /**
   * Lines 93-120: the map is centred on Riyadh at zoom 12 with the CartoDB
   * positron tiles and gets one marker per filtered row, in order; a popup
   * column the data lacks raises at the first row, so only an empty view
   * is drawn without it.
   */
  method BuildMap(columns: seq<string>, view: seq<Located>) returns (res: Result<OpMap, OpError>)
    ensures res.Failure? <==> view != [] && MissingPopupColumn(columns).Some?
    ensures res.Failure? ==> res.error == MissingColumn(MissingPopupColumn(columns).value)
    ensures res.Success? ==>
      && res.value.tiles == "CartoDB positron" && res.value.centre == RIYADH
      && res.value.zoom == DEFAULT_ZOOM && |res.value.markers| == |view|
      && forall i :: 0 <= i < |view| ==> res.value.markers[i] == PlainMarkerFor(view[i])
  {
    var markers: seq<PlainMarker> := [];
    var i := 0;
    while i < |view|
      invariant 0 <= i <= |view|
      invariant i > 0 ==> MissingPopupColumn(columns).None?
      invariant |markers| == i
      invariant forall k :: 0 <= k < i ==> markers[k] == PlainMarkerFor(view[k])
    {
      var missing := MissingPopupColumn(columns);
      if missing.Some? {
        return Failure(MissingColumn(missing.value));
      }
      markers := markers + [PlainMarkerFor(view[i])];
      i := i + 1;
    }
    res := Success(OpMap("CartoDB positron", RIYADH, DEFAULT_ZOOM, markers));
  }
}
