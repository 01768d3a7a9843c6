/**
 * The tabular data shared by the three dashboards: the sheet as read from
 * the CSV export, the records that survive coordinate parsing, the columns
 * the scripts look up by name, and what a map marker carries.
 */
module Table {
  import opened Wrappers
  import opened Strings
  import opened Sequences

  const LATITUDE := "Latitude"
  const LONGITUDE := "Longitude"
  const JOB_ORDER := "Job Order No."
  const JOB_STATUS := "Job Status"
  const FLOOR := "Floor Description"
  const LOCATION := "Location Description"
  const CAFM_LINK := "CAFM LINK"

  /** The Arabic decimal separator U+066B. */
  const ARABIC_DECIMAL: char := '\U{066B}'

  /** A map position in degrees; floating-point detail is not modelled. */
  datatype Coord = Coord(lat: real, lon: real)

  /** The fixed centre every map starts from. */
  const RIYADH := Coord(24.7136, 46.6753)
  const DEFAULT_ZOOM: nat := 12

  /** One CSV row as text by column name; a NaN (empty) cell has no entry. */
  type Row = map<string, string>

  /** The parsed CSV export: its header in order and its rows. */
  datatype Sheet = Sheet(columns: seq<string>, rows: seq<Row>)

  /** A row whose Latitude and Longitude were both parsed. */
  datatype Record = Record(cells: Row, at: Coord)

  /** The working data set: the header and the surviving records. */
  datatype Frame = Frame(columns: seq<string>, records: seq<Record>)

  /** What a cell holds once the coordinate columns are numeric. */
  datatype Cell = Blank | Text(text: string) | Number(x: real)

  /** The text cell `column` of a row, blank when it is NaN. */
  function TextCell(row: Row, column: string): (c: Cell)
    ensures c == Blank <==> column !in row
    ensures column in row ==> c == Text(row[column])
  {
    if column in row then Text(row[column]) else Blank
  }

  /** The value of `column` in a record: the parsed number for a coordinate column. */
  function CellOf(r: Record, column: string): (c: Cell)
    ensures column == LATITUDE ==> c == Number(r.at.lat)
    ensures column == LONGITUDE ==> c == Number(r.at.lon)
    ensures column != LATITUDE && column != LONGITUDE ==> c == TextCell(r.cells, column)
  {
    if column == LATITUDE then Number(r.at.lat)
    else if column == LONGITUDE then Number(r.at.lon)
    else TextCell(r.cells, column)
  }

  /** `r.get(column, default)` on a text column. */
  function TextOr(r: Record, column: string, default: string): string {
    if column in r.cells then r.cells[column] else default
  }

  /** The colours the scripts pass to folium by name; FmtechBlue is "#0b5394". */
  datatype Colour = Red | Orange | Yellow | Green | Gray | Blue | FmtechBlue

  /** One line of a marker popup: a labelled value, or a labelled hyperlink. */
  datatype PopupLine = Field(caption: string, value: Cell) | Link(caption: string, target: Cell)

  /** A circle marker: where, which colour, the hover text and the popup lines. */
  datatype Marker = Marker(at: Coord, colour: Colour, tooltip: Option<string>, popup: seq<PopupLine>)

  /**
   * The tooltip `str(r.get("Job Order No.", "")).strip() or None`: the
   * stripped job number, or no tooltip when it is blank.
   */
  function Tooltip(r: Record): (t: Option<string>)
    ensures t.None? <==> AllSpace(TextOr(r, JOB_ORDER, ""))
    ensures t.Some? ==> t.value == Strip(TextOr(r, JOB_ORDER, "")) && t.value != [] && IsStripped(t.value)
  {
    var s := Strip(TextOr(r, JOB_ORDER, ""));
    StripSpec(TextOr(r, JOB_ORDER, ""));
    if s == "" then None else Some(s)
  }

  /** The text of a coordinate cell run through `parse`; a missing cell never parses. */
  function ReadCoord(row: Row, column: string, parse: string -> Option<real>): Option<real> {
    if column in row then parse(row[column]) else None
  }

  /** Both coordinates of a row, when both parse. */
  function ReadCoords(row: Row, parse: string -> Option<real>): (c: Option<Coord>)
    ensures c.Some? <==> ReadCoord(row, LATITUDE, parse).Some? && ReadCoord(row, LONGITUDE, parse).Some?
    ensures c.Some? ==> c.value == Coord(ReadCoord(row, LATITUDE, parse).value, ReadCoord(row, LONGITUDE, parse).value)
  {
    match (ReadCoord(row, LATITUDE, parse), ReadCoord(row, LONGITUDE, parse))
    case (Some(lat), Some(lon)) => Some(Coord(lat, lon))
    case _ => None
  }

  /** The mask `Latitude.notna() & Longitude.notna()` after parsing. */
  function Parses(parse: string -> Option<real>): Row -> bool {
    (row: Row) => ReadCoords(row, parse).Some?
  }

  /** The text rows the records came from. */
  function CellsOf(recs: seq<Record>): (rows: seq<Row>)
    ensures |rows| == |recs|
    ensures forall i :: 0 <= i < |recs| ==> rows[i] == recs[i].cells
  {
    if recs == [] then [] else [recs[0].cells] + CellsOf(recs[1..])
  }

  /**
   * `df.dropna(subset=["Latitude", "Longitude"])` after both columns went
   * through `parse`: the rows whose coordinates both parse, in their order,
   * each carrying its parsed position.
   */
  function DropUnparsed(rows: seq<Row>, parse: string -> Option<real>): (recs: seq<Record>)
    ensures CellsOf(recs) == Where(rows, Parses(parse))
    ensures forall i :: 0 <= i < |recs| ==> ReadCoords(recs[i].cells, parse) == Some(recs[i].at)
    decreases |rows|
  {
    if rows == [] then []
    else
      var rest := DropUnparsed(rows[1..], parse);
      match ReadCoords(rows[0], parse)
      case Some(at) => [Record(rows[0], at)] + rest
      case None => rest
  }

  /**
   * The drop step never grows the data, keeps the surviving rows in their
   * order, and a row survives exactly when both of its coordinates parse.
   */
  lemma DropUnparsedSound(rows: seq<Row>, parse: string -> Option<real>)
    ensures |DropUnparsed(rows, parse)| <= |rows|
    ensures IsSubseq(CellsOf(DropUnparsed(rows, parse)), rows)
    ensures forall i :: 0 <= i < |rows| ==>
      (ReadCoords(rows[i], parse).Some? <==> rows[i] in CellsOf(DropUnparsed(rows, parse)))
  {
    var recs := DropUnparsed(rows, parse);
    assert |CellsOf(recs)| == |recs|;
    forall i | 0 <= i < |rows| && rows[i] in CellsOf(recs)
      ensures ReadCoords(rows[i], parse).Some?
    {
      var j :| 0 <= j < |CellsOf(recs)| && CellsOf(recs)[j] == rows[i];
      assert Parses(parse)(CellsOf(recs)[j]);
    }
  }

  /**
   * `df[c] = df[c].astype(str)` for each column of `cols` that the sheet has:
   * a cell that was NaN becomes the text "nan", every other cell keeps its
   * text.
   */
  function Stringify(row: Row, cols: seq<string>, columns: seq<string>): (r: Row)
    ensures forall c :: c in cols && c in columns ==> c in r
    ensures forall c :: c in r ==> c in row || (c in cols && c in columns)
    ensures forall c :: c in row ==> c in r && r[c] == row[c]
    ensures forall c :: c in r && c !in row ==> r[c] == "nan"
    decreases |cols|
  {
    if cols == [] then row
    else
      var c := cols[0];
      Stringify(if c in columns && c !in row then row[c := "nan"] else row, cols[1..], columns)
  }

  /** Every record with the text columns `cols` stringified. */
  function StringifyAll(recs: seq<Record>, cols: seq<string>, columns: seq<string>): (out: seq<Record>)
    ensures |out| == |recs|
    ensures forall i :: 0 <= i < |recs| ==>
      out[i].at == recs[i].at && out[i].cells == Stringify(recs[i].cells, cols, columns)
    decreases |recs|
  {
    if recs == [] then []
    else [recs[0].(cells := Stringify(recs[0].cells, cols, columns))] + StringifyAll(recs[1..], cols, columns)
  }

  /** `df[column].dropna()` as a list: the values the rows hold in `column`, in order. */
  function ColumnValues(rows: seq<Row>, column: string): (vs: seq<string>)
    ensures forall i :: 0 <= i < |rows| && column in rows[i] ==> rows[i][column] in vs
    ensures forall v :: v in vs ==> exists i :: 0 <= i < |rows| && HasValue(rows[i], column, v)
    decreases |rows|
  {
    if rows == [] then []
    else
      var rest := ColumnValues(rows[1..], column);
      assert forall v :: v in rest ==> exists i :: 0 <= i < |rows| && HasValue(rows[i], column, v) by {
        forall v | v in rest ensures exists i :: 0 <= i < |rows| && HasValue(rows[i], column, v) {
          var i :| 0 <= i < |rows[1..]| && HasValue(rows[1..][i], column, v);
          assert HasValue(rows[i + 1], column, v);
        }
      }
      if column in rows[0] then [rows[0][column]] + rest else rest
  }

  /** The row holds the value `v` in `column`. */
  predicate HasValue(row: Row, column: string, v: string) {
    column in row && row[column] == v
  }

  /** `(df["Job Status"] == v)` as a mask; a missing status never matches. */
  function StatusIs(v: string): Row -> bool {
    (row: Row) => HasValue(row, JOB_STATUS, v)
  }

  /** The four status metrics shown beside the record count. */
  datatype StatusCounts = StatusCounts(open: nat, attended: nat, completed: nat, closed: nat) {
    function Total(): nat { open + attended + completed + closed }
  }

  /**
   * The exact-match metrics `(df["Job Status"] == "Open").sum()` and so on:
   * one status cell holds one value, so no record counts twice and the
   * four counts add up to at most the number of records.
   */
  function ExactCounts(rows: seq<Row>): (k: StatusCounts)
    ensures k.open == |Where(rows, StatusIs("Open"))|
    ensures k.attended == |Where(rows, StatusIs("Attended"))|
    ensures k.completed == |Where(rows, StatusIs("Completed"))|
    ensures k.closed == |Where(rows, StatusIs("Closed"))|
    ensures k.Total() <= |rows|
  {
    DisjointCounts(rows, StatusIs("Open"), StatusIs("Attended"), StatusIs("Completed"), StatusIs("Closed"));
    StatusCounts(
      Count(rows, StatusIs("Open")), Count(rows, StatusIs("Attended")),
      Count(rows, StatusIs("Completed")), Count(rows, StatusIs("Closed")))
  }
}
