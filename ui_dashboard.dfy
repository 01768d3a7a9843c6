/**
 * The record-level pipeline of the Operation Dashboard page
 * (fmtech_map_dashboard_ui.py): coordinate clean-up, status normalisation,
 * the sidebar option lists, the AND-composed filters, the metrics, the
 * export file names, the marker loop and the choice of map centre.
 */
module UiDashboard {
  import opened Wrappers
  import opened Strings
  import opened Sequences
  import opened Table

  // ---------------- Loading ----------------

  datatype LoadError = MissingColumn(column: string)

  /**
   * A coordinate's text with every Arabic decimal separator and every comma
   * turned into a period, one character for one.
   */
  function NormalizeCoordText(s: string): (r: string)
    ensures |r| == |s|
    ensures ARABIC_DECIMAL !in r && ',' !in r
    ensures forall i :: 0 <= i < |s| ==>
      r[i] == if s[i] == ARABIC_DECIMAL || s[i] == ',' then '.' else s[i]
  {
    Replace(Replace(s, ARABIC_DECIMAL, '.'), ',', '.')
  }

  /** One character of a coordinate is a decimal mark in any of the three spellings. */
  predicate IsDecimalMark(c: char) {
    c == '.' || c == ',' || c == ARABIC_DECIMAL
  }

  /**
   * Two spellings of a coordinate that differ only in which decimal mark
   * they use normalise to the same text, so they parse to the same number.
   */
  lemma DecimalMarksAgree(s: string, t: string, parse: string -> Option<real>)
    requires |s| == |t|
    requires forall i :: 0 <= i < |s| ==> s[i] == t[i] || (IsDecimalMark(s[i]) && IsDecimalMark(t[i]))
    ensures NormalizeCoordText(s) == NormalizeCoordText(t)
    ensures parse(NormalizeCoordText(s)) == parse(NormalizeCoordText(t))
  {
    var a, b := NormalizeCoordText(s), NormalizeCoordText(t);
    assert forall i :: 0 <= i < |a| ==> a[i] == b[i];
  }

  /** "24,7136", "24٫7136" and "24.7136" all read as the same coordinate. */
  lemma RiyadhLatitudeSpellings(parse: string -> Option<real>)
    ensures parse(NormalizeCoordText("24,7136")) == parse(NormalizeCoordText("24.7136"))
    ensures parse(NormalizeCoordText("24\U{066B}7136")) == parse(NormalizeCoordText("24.7136"))
  {
    DecimalMarksAgree("24,7136", "24.7136", parse);
    DecimalMarksAgree("24\U{066B}7136", "24.7136", parse);
  }

  /** `pd.to_numeric(..., errors="coerce")` applied after the separator rewrite. */
  function CoordParser(parse: string -> Option<real>): string -> Option<real> {
    s => parse(NormalizeCoordText(s))
  }

  /** Lines 118-121: the columns turned into text after loading (lines 117-123). */
  const TEXT_COLUMNS := [JOB_ORDER, JOB_STATUS, "Impact", FLOOR, "Trade", "Request Date", LOCATION, CAFM_LINK]

  /**
   * Lines 101-125: with both coordinate columns present, the rows whose
   * normalised Latitude and Longitude both parse survive, in their order,
   * each carrying its parsed position and with its text columns
   * stringified; every other row is dropped.  A missing coordinate column
   * makes `dropna` raise, which the page reports as a load failure.
   */
  function Load(sheet: Sheet, parse: string -> Option<real>): (res: Result<Frame, LoadError>)
    ensures res.Failure? <==> LATITUDE !in sheet.columns || LONGITUDE !in sheet.columns
    ensures res.Success? ==> var kept := Where(sheet.rows, Parses(CoordParser(parse)));
      && res.value.columns == sheet.columns
      && |res.value.records| == |kept|
      && forall i :: 0 <= i < |kept| ==>
           && res.value.records[i].cells == Stringify(kept[i], TEXT_COLUMNS, sheet.columns)
           && ReadCoords(kept[i], CoordParser(parse)) == Some(res.value.records[i].at)
  {
    if LATITUDE !in sheet.columns then Failure(MissingColumn(LATITUDE))
    else if LONGITUDE !in sheet.columns then Failure(MissingColumn(LONGITUDE))
    else
      var recs := DropUnparsed(sheet.rows, CoordParser(parse));
      Success(Frame(sheet.columns, StringifyAll(recs, TEXT_COLUMNS, sheet.columns)))
  }

  /**
   * Loading never adds a row, and a row of the sheet is kept exactly when
   * both of its normalised coordinates parse.
   */
  lemma LoadKeeps(sheet: Sheet, parse: string -> Option<real>)
    requires LATITUDE in sheet.columns && LONGITUDE in sheet.columns
    ensures |Load(sheet, parse).value.records| <= |sheet.rows|
    ensures var kept := Where(sheet.rows, Parses(CoordParser(parse)));
      forall i :: 0 <= i < |sheet.rows| ==>
        (sheet.rows[i] in kept <==> ReadCoords(sheet.rows[i], CoordParser(parse)).Some?)
  {
  }

  /** After loading, every record has a cell in each text column the sheet has. */
  lemma LoadedTextColumns(sheet: Sheet, parse: string -> Option<real>)
    requires LATITUDE in sheet.columns && LONGITUDE in sheet.columns
    ensures forall r, c :: r in Load(sheet, parse).value.records && c in TEXT_COLUMNS && c in sheet.columns ==>
      c in r.cells
  {
  }

  // ---------------- Status normalisation ----------------

  /**
   * `str.strip().str.title()` followed by the replacement of "In Progress"
   * with "Attended".
   */
  function NormalizeStatus(s: string): (r: string)
    ensures r != "In Progress"
    ensures Title(Strip(s)) == "In Progress" ==> r == "Attended"
    ensures Title(Strip(s)) != "In Progress" ==> r == Title(Strip(s))
  {
    var t := Title(Strip(s));
    if t == "In Progress" then "Attended" else t
  }

  /** A normalised status is left as it is by strip and title-case. */
  lemma NormalizedIsFixed(s: string)
    ensures Title(Strip(NormalizeStatus(s))) == NormalizeStatus(s)
  {
    var t := Title(Strip(s));
    StripSpec(s);
    if t == "In Progress" {
      assert Strip("Attended") == "Attended" by { StripStripped("Attended"); }
      assert Title("Attended") == "Attended";
    } else {
      TitleKeepsStripped(Strip(s));
      StripStripped(t);
      TitleIdempotent(Strip(s));
    }
  }

  /** Normalising a status that is already normalised changes nothing. */
  lemma NormalizeStatusIdempotent(s: string)
    ensures NormalizeStatus(NormalizeStatus(s)) == NormalizeStatus(s)
  {
    NormalizedIsFixed(s);
  }

  /** One record with its status cell normalised, when it has one. */
  function NormalizeRecord(r: Record): Record {
    if JOB_STATUS in r.cells then r.(cells := r.cells[JOB_STATUS := NormalizeStatus(r.cells[JOB_STATUS])])
    else r
  }

  /**
   * Lines 133-134: when the frame has a Job Status column, every status is
   * normalised and nothing else about any record changes; afterwards no
   * record's status reads "In Progress".
   */
  function NormalizeStatuses(f: Frame): (g: Frame)
    ensures g.columns == f.columns && |g.records| == |f.records|
    ensures forall i :: 0 <= i < |f.records| ==>
      && g.records[i].at == f.records[i].at
      && g.records[i].cells.Keys == f.records[i].cells.Keys
      && (forall c :: c in f.records[i].cells && c != JOB_STATUS ==> g.records[i].cells[c] == f.records[i].cells[c])
    ensures JOB_STATUS in f.columns ==> forall i :: 0 <= i < |f.records| && JOB_STATUS in f.records[i].cells ==>
      g.records[i].cells[JOB_STATUS] == NormalizeStatus(f.records[i].cells[JOB_STATUS])
    ensures JOB_STATUS !in f.columns ==> g == f
    ensures JOB_STATUS in f.columns ==> forall r :: r in g.records ==> !HasValue(r.cells, JOB_STATUS, "In Progress")
  {
    if JOB_STATUS in f.columns then
      Frame(f.columns, seq(|f.records|, i requires 0 <= i < |f.records| => NormalizeRecord(f.records[i])))
    else f
  }

  // ---------------- Sidebar options ----------------

  /**
   * Line 136: the status options, every status present in ascending order
   * without repeats; none when the column is missing.
   */
  function AllStatuses(f: Frame): (opts: seq<string>)
    ensures StrictlySorted(opts)
    ensures JOB_STATUS !in f.columns ==> opts == []
    ensures JOB_STATUS in f.columns ==> forall i :: 0 <= i < |f.records| && JOB_STATUS in f.records[i].cells ==>
      f.records[i].cells[JOB_STATUS] in opts
    ensures forall v :: v in opts ==> exists i :: 0 <= i < |f.records| && HasValue(f.records[i].cells, JOB_STATUS, v)
  {
    if JOB_STATUS in f.columns then SortedSet(ColumnValues(CellsOf(f.records), JOB_STATUS)) else []
  }

  /** Neither option list offers a value twice. */
  lemma OptionsRepeatNothing(f: Frame)
    ensures forall i, j :: 0 <= i < j < |AllStatuses(f)| ==> AllStatuses(f)[i] != AllStatuses(f)[j]
    ensures forall i, j :: 0 <= i < j < |Floors(f)| ==> Floors(f)[i] != Floors(f)[j]
  {
    var st, fl := AllStatuses(f), Floors(f);
    forall i, j | 0 <= i < j < |st| ensures st[i] != st[j] {
      NoDuplicates(st, i, j);
    }
    forall i, j | 0 <= i < j < |fl| ensures fl[i] != fl[j] {
      NoDuplicates(fl, i, j);
    }
  }

  /** Once statuses are normalised, "In Progress" is never offered. */
  lemma NoInProgressOption(f: Frame)
    ensures "In Progress" !in AllStatuses(NormalizeStatuses(f))
  {
  }

  /** A floor value the sidebar offers: present and not blank. */
  function NonBlank(vs: seq<string>): seq<string> {
    Where(vs, (v: string) => !AllSpace(v))
  }

  /**
   * Line 139: the floor options, every non-blank floor present in ascending
   * order without repeats; none when the column is missing.
   */
  function Floors(f: Frame): (opts: seq<string>)
    ensures StrictlySorted(opts)
    ensures FLOOR !in f.columns ==> opts == []
    ensures FLOOR in f.columns ==> forall i ::
      (0 <= i < |f.records| && FLOOR in f.records[i].cells && !AllSpace(f.records[i].cells[FLOOR]))
        ==> f.records[i].cells[FLOOR] in opts
    ensures forall v :: v in opts ==> !AllSpace(v) && exists i :: 0 <= i < |f.records| && HasValue(f.records[i].cells, FLOOR, v)
  {
    if FLOOR in f.columns then SortedSet(NonBlank(ColumnValues(CellsOf(f.records), FLOOR))) else []
  }

  // ---------------- Filters ----------------

  /** The sidebar state: the chosen statuses and floors and the typed search text. */
  datatype Selection = Selection(statuses: seq<string>, floors: seq<string>, query: string)

  /** Line 146-147: `isin(selected_statuses)`, no restriction when nothing is chosen or there is no column. */
  function StatusFacet(columns: seq<string>, statuses: seq<string>): Record -> bool {
    (r: Record) => statuses == [] || JOB_STATUS !in columns || (JOB_STATUS in r.cells && r.cells[JOB_STATUS] in statuses)
  }

  /** Lines 148-149: `isin(selected_floors)`, with the same "no restriction" rule. */
  function FloorFacet(columns: seq<string>, floors: seq<string>): Record -> bool {
    (r: Record) => floors == [] || FLOOR !in columns || (FLOOR in r.cells && r.cells[FLOOR] in floors)
  }

  /** Lines 150-151: the job number contains the stripped query, ignoring case. */
  function QueryFacet(columns: seq<string>, query: string): Record -> bool {
    (r: Record) => Strip(query) == "" || JOB_ORDER !in columns
      || (JOB_ORDER in r.cells && ContainsIgnoreCase(r.cells[JOB_ORDER], Strip(query)))
  }

  /** The three facets AND-composed. */
  function Keep(columns: seq<string>, sel: Selection): Record -> bool {
    (r: Record) => StatusFacet(columns, sel.statuses)(r) && FloorFacet(columns, sel.floors)(r)
      && QueryFacet(columns, sel.query)(r)
  }

  /** The filtered view `df_f`: the records every facet accepts, in their order. */
  function Filter(f: Frame, sel: Selection): seq<Record> {
    Where(f.records, Keep(f.columns, sel))
  }

  /**
   * Lines 145-151 as the script runs them: `df_f` narrowed by each active
   * facet in turn gives the same view as the single AND-composed filter.
   */
  method ApplyFilters(f: Frame, sel: Selection) returns (view: seq<Record>)
    ensures view == Filter(f, sel)
  {
    var s, fl := StatusFacet(f.columns, sel.statuses), FloorFacet(f.columns, sel.floors);
    var q := QueryFacet(f.columns, sel.query);
    view := f.records;
    if sel.statuses != [] && JOB_STATUS in f.columns {
      view := Where(view, s);
    } else {
      WhereAll(view, s);
    }
    assert view == Where(f.records, s);
    if sel.floors != [] && FLOOR in f.columns {
      view := Where(view, fl);
    } else {
      WhereAll(view, fl);
    }
    var sf := (r: Record) => s(r) && fl(r);
    WhereWhere(f.records, s, fl, sf);
    var jobQuery := Strip(sel.query);
    if jobQuery != "" && JOB_ORDER in f.columns {
      view := Where(view, q);
    } else {
      WhereAll(view, q);
    }
    WhereWhere(f.records, sf, q, Keep(f.columns, sel));
  }

  /**
   * Filter semantics: a record is in the view exactly when each facet
   * holds — an empty choice or a missing column imposes nothing, a
   * non-empty choice keeps the records whose value is chosen, a non-blank
   * query keeps the records whose job number contains it in any case.
   */
  lemma FilterMembers(f: Frame, sel: Selection, r: Record)
    requires r in f.records
    ensures r in Filter(f, sel) <==>
      && (sel.statuses != [] && JOB_STATUS in f.columns ==> JOB_STATUS in r.cells && r.cells[JOB_STATUS] in sel.statuses)
      && (sel.floors != [] && FLOOR in f.columns ==> FLOOR in r.cells && r.cells[FLOOR] in sel.floors)
      && (!AllSpace(sel.query) && JOB_ORDER in f.columns ==>
            JOB_ORDER in r.cells && ContainsIgnoreCase(r.cells[JOB_ORDER], Strip(sel.query)))
  {
    var view := Filter(f, sel);
    var keep := Keep(f.columns, sel);
    StripSpec(sel.query);
    assert Strip(sel.query) == "" <==> AllSpace(sel.query);
    assert keep(r) == (StatusFacet(f.columns, sel.statuses)(r) && FloorFacet(f.columns, sel.floors)(r)
      && QueryFacet(f.columns, sel.query)(r));
    if r in view {
      var j :| 0 <= j < |view| && view[j] == r;
      assert keep(view[j]);
    } else {
      var i :| 0 <= i < |f.records| && f.records[i] == r;
      assert !keep(f.records[i]);
    }
  }

  /** The view keeps the order of the data and never adds a record. */
  lemma FilterIsSubsequence(f: Frame, sel: Selection)
    ensures |Filter(f, sel)| <= |f.records|
    ensures IsSubseq(Filter(f, sel), f.records)
  {
  }

  /** With nothing chosen and a blank search, the view is the whole data set. */
  lemma FilterNothingChosen(f: Frame, sel: Selection)
    requires sel.statuses == [] && sel.floors == [] && AllSpace(sel.query)
    ensures Filter(f, sel) == f.records
  {
    StripSpec(sel.query);
    var keep := Keep(f.columns, sel);
    forall r | r in f.records ensures keep(r) {
      assert StatusFacet(f.columns, sel.statuses)(r);
      assert FloorFacet(f.columns, sel.floors)(r);
      assert Strip(sel.query) == "";
      assert QueryFacet(f.columns, sel.query)(r);
    }
    WhereAll(f.records, keep);
  }

  /** Filtering the view again with the same choices gives the same view. */
  lemma FilterIdempotent(f: Frame, sel: Selection)
    ensures Filter(Frame(f.columns, Filter(f, sel)), sel) == Filter(f, sel)
  {
    WhereIdempotent(f.records, Keep(f.columns, sel));
  }

  /**
   * With the sidebar defaults (every offered status and floor chosen, empty
   * search) a record is shown exactly when it has a status and, once any
   * floor is offered, a non-blank floor.
   */
  lemma DefaultSelection(f: Frame, r: Record)
    requires r in f.records
    ensures var sel := Selection(AllStatuses(f), Floors(f), "");
      r in Filter(f, sel) <==>
        && (AllStatuses(f) != [] ==> JOB_STATUS in r.cells)
        && (Floors(f) != [] ==> FLOOR in r.cells && !AllSpace(r.cells[FLOOR]))
  {
    var sel := Selection(AllStatuses(f), Floors(f), "");
    FilterMembers(f, sel, r);
    var i :| 0 <= i < |f.records| && f.records[i] == r;
    assert AllSpace("");
    if JOB_STATUS in f.columns && JOB_STATUS in r.cells {
      assert r.cells[JOB_STATUS] in AllStatuses(f);
    }
    if FLOOR in f.columns && FLOOR in r.cells && !AllSpace(r.cells[FLOOR]) {
      assert r.cells[FLOOR] in Floors(f);
    }
  }

  // ---------------- Metrics ----------------

  /** The five metrics: the record count and, with a status column, the four status counts. */
  datatype Metrics = Metrics(records: nat, byStatus: Option<StatusCounts>)

  /**
   * Lines 154-160: Records is the size of the view; the status metrics are
   * exact-match counts, shown only with a status column, and together they
   * never exceed Records.
   */
  function MetricsOf(columns: seq<string>, view: seq<Record>): (m: Metrics)
    ensures m.records == |view|
    ensures m.byStatus.Some? <==> JOB_STATUS in columns
    ensures m.byStatus.Some? ==> m.byStatus.value.Total() <= m.records
    ensures m.byStatus.Some? ==> m.byStatus.value == ExactCounts(CellsOf(view))
  {
    Metrics(|view|, if JOB_STATUS in columns then Some(ExactCounts(CellsOf(view))) else None)
  }

  // ---------------- Export file names ----------------

  /** A character a file name part may not keep: a path separator or a space. */
  predicate IsUnsafe(c: char) {
    c == '/' || c == '\\' || c == ' '
  }

  predicate IsSafe(s: string) {
    forall i :: 0 <= i < |s| ==> !IsUnsafe(s[i])
  }

  function SafeChar(c: char): (d: char)
    ensures !IsUnsafe(d)
  {
    if c == '/' || c == '\\' then '-' else if c == ' ' then '_' else c
  }

  /** Every path separator turned into '-' and every space into '_'. */
  function Sanitize(s: string): (r: string)
    ensures |r| == |s| && IsSafe(r)
    ensures forall i :: 0 <= i < |s| ==> r[i] == SafeChar(s[i])
  {
    seq(|s|, i requires 0 <= i < |s| => SafeChar(s[i]))
  }

  /**
   * The chain `.replace("/", "-").replace("\\", "-").replace(" ", "_")`
   * computes exactly `Sanitize`.
   */
  lemma SanitizeByReplace(s: string)
    ensures Replace(Replace(Replace(s, '/', '-'), '\\', '-'), ' ', '_') == Sanitize(s)
  {
    var r := Replace(Replace(Replace(s, '/', '-'), '\\', '-'), ' ', '_');
    assert forall i :: 0 <= i < |s| ==> r[i] == Sanitize(s)[i];
  }

  /** A part that is already safe is not changed by sanitising. */
  lemma SanitizeSafe(s: string)
    requires IsSafe(s)
    ensures Sanitize(s) == s
  {
    assert forall i :: 0 <= i < |s| ==> Sanitize(s)[i] == s[i];
  }

  /**
   * Lines 163-168 `safe_part`: an empty value gives the label as it is;
   * otherwise the stripped value, or the label when that is empty, with
   * path separators turned into '-' and spaces into '_'.
   */
  function SafePart(val: string, allLabel: string): (r: string)
    ensures val == "" ==> r == allLabel
    ensures val != "" ==> IsSafe(r)
    ensures val != "" && !AllSpace(val) ==> r == Sanitize(Strip(val))
    ensures val != "" && AllSpace(val) ==> r == Sanitize(allLabel)
  {
    if val == "" then allLabel
    else
      StripSpec(val);
      var s := if Strip(val) == "" then allLabel else Strip(val);
      Replace(Replace(Replace(s, '/', '-'), '\\', '-'), ' ', '_')
  }

  const ALL_FLOORS := "AllFloors"
  const ALL_STATUS := "AllStatus"

  /**
   * Lines 170-178: the name part for a selection, the one chosen value made
   * safe, or the "all" label when none or several are chosen.
   */
  function NamePart(chosen: seq<string>, allLabel: string): (part: string)
    requires IsSafe(allLabel)
    ensures IsSafe(part)
    ensures |chosen| != 1 ==> part == allLabel
    ensures |chosen| == 1 && AllSpace(chosen[0]) ==> part == allLabel
    ensures |chosen| == 1 && !AllSpace(chosen[0]) ==> part == Sanitize(Strip(chosen[0]))
  {
    if |chosen| == 1 then
      SanitizeSafe(allLabel);
      SafePart(chosen[0], allLabel)
    else allLabel
  }

  /** The two download names. */
  datatype ExportNames = ExportNames(csv: string, xlsx: string)

  const PREFIX := "FMTECH_Operations_"

  /**
   * Lines 180-181: `FMTECH_Operations_<floor>_<status>` with `.csv` or
   * `.xlsx`, from the floor and status name parts.
   */
  function ExportNamesOf(sel: Selection): (n: ExportNames)
    ensures PREFIX <= n.csv && PREFIX <= n.xlsx
    ensures |n.xlsx| >= 5 && n.xlsx[|n.xlsx| - 5..] == ".xlsx"
    ensures n.csv == n.xlsx[..|n.xlsx| - 5] + ".csv"
    ensures n.csv == PREFIX + NamePart(sel.floors, ALL_FLOORS) + "_" + NamePart(sel.statuses, ALL_STATUS) + ".csv"
    ensures n.xlsx == PREFIX + NamePart(sel.floors, ALL_FLOORS) + "_" + NamePart(sel.statuses, ALL_STATUS) + ".xlsx"
  {
    var stem := PREFIX + NamePart(sel.floors, ALL_FLOORS) + "_" + NamePart(sel.statuses, ALL_STATUS);
    assert (stem + ".xlsx")[..|stem|] == stem;
    assert (stem + ".xlsx")[|stem|..] == ".xlsx";
    ExportNames(stem + ".csv", stem + ".xlsx")
  }

  /**
   * The two names differ only in their extension, and neither ever holds a
   * path separator or a space, whatever was chosen.
   */
  lemma ExportNamesAreSafe(sel: Selection)
    ensures var n := ExportNamesOf(sel);
      && IsSafe(n.csv) && IsSafe(n.xlsx)
      && n.csv[..|n.csv| - 4] == n.xlsx[..|n.xlsx| - 5]
  {
    var floor, status := NamePart(sel.floors, ALL_FLOORS), NamePart(sel.statuses, ALL_STATUS);
    SafeStem(floor, status);
    SafeExtensions(PREFIX + floor + "_" + status);
  }

  /** The stem built from two safe parts is safe. */
  lemma SafeStem(floor: string, status: string)
    requires IsSafe(floor) && IsSafe(status)
    ensures IsSafe(PREFIX + floor + "_" + status)
  {
    SafeConcat(PREFIX, floor);
    SafeConcat(PREFIX + floor, "_");
    SafeConcat(PREFIX + floor + "_", status);
  }

  /** A safe stem stays safe with either extension, and is recovered from the csv name. */
  lemma SafeExtensions(stem: string)
    requires IsSafe(stem)
    ensures IsSafe(stem + ".csv") && IsSafe(stem + ".xlsx")
    ensures (stem + ".csv")[..|stem + ".csv"| - 4] == stem
  {
    SafeConcat(stem, ".csv");
    SafeConcat(stem, ".xlsx");
    assert (stem + ".csv")[..|stem|] == stem;
  }

  lemma SafeConcat(a: string, b: string)
    requires IsSafe(a) && IsSafe(b)
    ensures IsSafe(a + b)
  {
    assert forall i :: 0 <= i < |a + b| ==> (a + b)[i] == if i < |a| then a[i] else b[i - |a|];
  }

  /** The floor "North Wing" becomes the name part "North_Wing". */
  lemma NorthWingPart()
    ensures NamePart(["North Wing"], ALL_FLOORS) == "North_Wing"
  {
    assert !AllSpace("North Wing") by { assert !IsSpace("North Wing"[0]); }
    StripStripped("North Wing");
    var t := Sanitize("North Wing");
    forall i | 0 <= i < 10 ensures t[i] == "North_Wing"[i] {
      assert t[i] == SafeChar("North Wing"[i]);
    }
  }

  /** One floor "North Wing" and two statuses give `FMTECH_Operations_North_Wing_AllStatus.csv`. */
  lemma ExportNameExample()
    ensures ExportNamesOf(Selection(["Open", "Closed"], ["North Wing"], "")).csv
      == PREFIX + "North_Wing" + "_" + ALL_STATUS + ".csv"
  {
    NorthWingPart();
  }

  // ---------------- Markers ----------------

  /** The colour of a status that is already stripped and title-cased. */
  function ColourOf(t: string): Colour {
    if t == "Open" then Red
    else if t == "Attended" then Orange
    else if t == "Completed" then Green
    else if t == "Closed" then Gray
    else Blue
  }

  /**
   * Lines 233-239 `status_color`: after strip and title-case, Open is red,
   * Attended orange, Completed green, Closed gray and anything else blue.
   */
  function StatusColour(s: string): (c: Colour)
    ensures c in {Red, Orange, Green, Gray, Blue}
    ensures c == Red <==> Title(Strip(s)) == "Open"
    ensures c == Orange <==> Title(Strip(s)) == "Attended"
    ensures c == Green <==> Title(Strip(s)) == "Completed"
    ensures c == Gray <==> Title(Strip(s)) == "Closed"
    ensures c == Blue <==> Title(Strip(s)) !in {"Open", "Attended", "Completed", "Closed"}
  {
    ColourOf(Title(Strip(s)))
  }

  /**
   * Colouring a normalised status: an "In Progress" status is drawn orange
   * like "Attended", every other status keeps its colour.
   */
  lemma ColourOfNormalized(s: string)
    ensures StatusColour(NormalizeStatus(s)) == if Title(Strip(s)) == "In Progress" then Orange else StatusColour(s)
  {
    NormalizedIsFixed(s);
  }

  /** Whitespace of any length around a status never changes its colour. */
  lemma StatusColourIgnoresSpace(before: string, s: string, after: string)
    requires AllSpace(before) && AllSpace(after)
    ensures StatusColour(before + s + after) == StatusColour(s)
  {
    StripIgnoresPadding(before, s, after);
  }

  /** Two statuses that differ only in letter case get the same colour. */
  lemma StatusColourIgnoresCase(s: string, t: string)
    requires Lower(s) == Lower(t)
    ensures StatusColour(s) == StatusColour(t)
  {
    StripLower(s);
    StripLower(t);
    TitleIgnoresCase(Strip(s), Strip(t));
  }

  /** The popup rows, in this order, for the ones that are columns. */
  const POPUP_FIELDS := [JOB_ORDER, JOB_STATUS, "Impact", "Trade", "Request Date", FLOOR, LOCATION]

  function InColumns(columns: seq<string>): string -> bool {
    (c: string) => c in columns
  }

  /** A CAFM link that is rendered as a hyperlink. */
  predicate IsWebLink(s: string) {
    StartsWith(s, "http://") || StartsWith(s, "https://")
  }

  /** The `tr(label, ...)` rows for the labels that are columns, in label order. */
  function FieldLines(labels: seq<string>, columns: seq<string>, r: Record): seq<PopupLine>
    decreases |labels|
  {
    if labels == [] then []
    else if labels[0] in columns then [Field(labels[0], CellOf(r, labels[0]))] + FieldLines(labels[1..], columns, r)
    else FieldLines(labels[1..], columns, r)
  }

  /** One field row per label that is a column, in label order, showing that column's cell. */
  lemma {:induction false} FieldLinesSpec(labels: seq<string>, columns: seq<string>, r: Record)
    ensures var shown := Where(labels, InColumns(columns));
      var lines := FieldLines(labels, columns, r);
      && |lines| == |shown|
      && forall i :: 0 <= i < |lines| ==> lines[i] == Field(shown[i], CellOf(r, shown[i]))
    decreases |labels|
  {
    if labels != [] {
      FieldLinesSpec(labels[1..], columns, r);
    }
  }

  /** Lines 241-265 `build_popup`. */
  function Popup(columns: seq<string>, r: Record): seq<PopupLine> {
    var link := TextOr(r, CAFM_LINK, "");
    FieldLines(POPUP_FIELDS, columns, r) + if IsWebLink(link) then [Link(CAFM_LINK, Text(link))] else []
  }

  /**
   * The popup has one row per popup label that is a column, in the fixed
   * label order, then the CAFM link last, and only when it starts with
   * http:// or https://.
   */
  lemma PopupContents(columns: seq<string>, r: Record)
    ensures var shown := Where(POPUP_FIELDS, InColumns(columns));
      var link := IsWebLink(TextOr(r, CAFM_LINK, ""));
      var lines := Popup(columns, r);
      && |lines| == |shown| + (if link then 1 else 0)
      && (forall i :: 0 <= i < |shown| ==> lines[i] == Field(shown[i], CellOf(r, shown[i])))
      && (link ==> lines[|lines| - 1] == Link(CAFM_LINK, Text(TextOr(r, CAFM_LINK, ""))))
  {
    FieldLinesSpec(POPUP_FIELDS, columns, r);
  }

  /** The circle marker drawn for one record. */
  function MarkerFor(columns: seq<string>, r: Record): Marker {
    Marker(r.at, StatusColour(TextOr(r, JOB_STATUS, "")), Tooltip(r), Popup(columns, r))
  }

  datatype CentreChoice = FitToData | CentreOnRiyadh

  /** How the map is framed: fitted to a list of points, or a fixed centre and zoom. */
  datatype Viewport = FitBounds(points: seq<Coord>) | Centre(at: Coord, zoom: nat)

  /**
   * Lines 267-294: one marker per record of the view, in view order, each
   * at the record's position; the bounds are the positions in the same
   * order, and the map is fitted to them only when "Fit to filtered data"
   * is chosen and there is at least one; otherwise it is centred on Riyadh
   * at zoom 12.
   */
  method RenderMap(columns: seq<string>, view: seq<Record>, choice: CentreChoice)
    returns (markers: seq<Marker>, viewport: Viewport)
    ensures |markers| == |view|
    ensures forall i :: 0 <= i < |view| ==> markers[i] == MarkerFor(columns, view[i])
    ensures viewport.FitBounds? <==> choice == FitToData && view != []
    ensures viewport.FitBounds? ==>
      (|viewport.points| == |view| && forall i :: 0 <= i < |view| ==> viewport.points[i] == view[i].at)
    ensures viewport.Centre? ==> viewport == Centre(RIYADH, DEFAULT_ZOOM)
  {
    var bounds: seq<Coord> := [];
    markers := [];
    var i := 0;
    while i < |view|
      invariant 0 <= i <= |view|
      invariant |bounds| == i && |markers| == i
      invariant forall k :: 0 <= k < i ==> bounds[k] == view[k].at && markers[k] == MarkerFor(columns, view[k])
    {
      var r := view[i];
      bounds := bounds + [r.at];
      markers := markers + [MarkerFor(columns, r)];
      i := i + 1;
    }
    if choice == FitToData && bounds != [] {
      viewport := FitBounds(bounds);
    } else {
      viewport := Centre(RIYADH, DEFAULT_ZOOM);
    }
  }
}
