# FMTECH operations dashboards: a verified model of the record pipeline

The repository holds three Streamlit pages. Each reads the FMTECH jobs sheet
as a CSV export, cleans the coordinates, filters the jobs, shows a few
metrics and draws every job as a coloured circle marker on a map of Riyadh:

- `fmtech_map_dashboard_ui.py` is the Operation Dashboard page, modelled by
  module `UiDashboard`. It rewrites decimal marks and drops rows with
  unreadable coordinates. It normalises statuses, builds the sidebar option
  lists and AND-composes a status, a floor and a job-number filter. It
  counts statuses exactly, derives the export file names, builds popups and
  chooses the map centre.
- `fmtech_map_dashboard.py` is the Live Dashboard page, modelled by module
  `LiveDashboard`. It covers the data-source precedence and the ordered
  keyword colour rules. It covers `fetch_data`, with its column check and
  its drop of unparsed rows. It covers `build_map`, with its tiles, its
  markers and its optional heat layer, and the keyword metrics.
- `fmtech_dashboard.py` is the Operation Dashboard with the logo header,
  modelled by module `OperationDashboard`. It covers the Arabic-separator
  fix and the 'ALL'-prefixed option lists. It covers the filter, where a
  search replaces the select boxes, and the exact-match metrics. It also
  covers the colour lookup table with its gray default and the marker loop.

Shared modules:

- `Table` holds the sheet, its rows and records, and the cell reads. It also
  holds the `astype(str)` step, the drop of unparsed rows, the exact status
  counts and the marker type.
- `Strings` holds Python's `strip`, `lower` and `title`, substring search
  and character replacement.
- `Sequences` holds order-preserving selection (a boolean mask), counting,
  subsequences and sorted de-duplication.
- `Wrappers` holds `Option` and `Result`.

How the data is represented:

- A row is a `map<string, string>` from column name to cell text.
- A NaN (empty) cell is a missing key.
- A record is a row whose two coordinates were parsed, with its position.
- The numeric parse used by `pd.to_numeric` and `float` is a parameter
  `parse: string -> Option<real>`, a partial function that is left abstract.
- An exception the scripts raise, such as a missing column or an unreadable
  coordinate, is a `Failure` of a `Result`.

The scripts rebind data frames step by step and loop over rows to build
markers. Those steps are methods:

- `UiDashboard.ApplyFilters` and `OperationDashboard.ApplyFilters` narrow
  the view one filter at a time.
- `UiDashboard.RenderMap`, `LiveDashboard.BuildMap` and
  `OperationDashboard.BuildMap` are the marker loops.

Each method is proved against a function, or against a pointwise
specification of what the loop builds. The other operations are functions,
and lemmas state their properties.

Two details of the code that the model keeps:

- After loading, the UI page and the Live page turn a NaN text cell into the
  text "nan", through `astype(str)`. This is modelled (`Table.Stringify`).
  As a result, "nan" can appear as a floor option and a status can read
  "Nan".
- The fmtech_dashboard.py search filter runs over the whole data set, so
  the select boxes are ignored. A NaN job number is searched as "nan".

## Model

| member | source | states |
|---|---|---|
| UiDashboard.NormalizeCoordText | fmtech_map_dashboard_ui.py:106-112 | the rewritten coordinate text has the same length, holds no Arabic separator and no comma, and differs from the input only where a separator or comma became '.' |
| UiDashboard.DecimalMarksAgree | fmtech_map_dashboard_ui.py:106-113 | two texts that differ only in which decimal mark they use normalise, and therefore parse, identically |
| UiDashboard.RiyadhLatitudeSpellings | fmtech_map_dashboard_ui.py:106-113 | "24,7136", "24٫7136" and "24.7136" parse to the same value |
| UiDashboard.Load | fmtech_map_dashboard_ui.py:101-125 | loading fails exactly when a coordinate column is missing; otherwise the surviving records are the rows whose normalised coordinates both parse, in order, each with its parsed position and its text columns stringified |
| UiDashboard.LoadKeeps | fmtech_map_dashboard_ui.py:113-115 | loading never adds a row, and a row survives exactly when both normalised coordinates parse |
| UiDashboard.LoadedTextColumns | fmtech_map_dashboard_ui.py:117-123 | after loading, every record has a cell in every text column the sheet has, so none is NaN |
| UiDashboard.NormalizeStatus | fmtech_map_dashboard_ui.py:133-134 | the result is never "In Progress": it is the stripped, title-cased status, or "Attended" when that reads "In Progress" |
| UiDashboard.NormalizedIsFixed | fmtech_map_dashboard_ui.py:134 | strip and title-case leave a normalised status unchanged |
| UiDashboard.NormalizeStatusIdempotent | fmtech_map_dashboard_ui.py:134 | normalising twice is normalising once |
| UiDashboard.NormalizeStatuses | fmtech_map_dashboard_ui.py:133-134 | with a status column, every status cell is normalised and nothing else changes; no record is then "In Progress"; without the column the frame is unchanged |
| UiDashboard.AllStatuses | fmtech_map_dashboard_ui.py:136 | the status options are strictly ascending, so free of duplicates; they are exactly the statuses present; there are none without the column |
| UiDashboard.OptionsRepeatNothing | fmtech_map_dashboard_ui.py:136-139 | neither the status options nor the floor options hold a value twice |
| UiDashboard.NoInProgressOption | fmtech_map_dashboard_ui.py:134-136 | after normalisation "In Progress" is never offered |
| UiDashboard.Floors | fmtech_map_dashboard_ui.py:139 | the floor options are strictly ascending and are exactly the non-blank floors present; there are none without the column |
| UiDashboard.ApplyFilters | fmtech_map_dashboard_ui.py:145-151 | narrowing `df_f` by each active filter in turn gives the single AND-composed filter |
| UiDashboard.FilterMembers | fmtech_map_dashboard_ui.py:145-151 | a record is shown exactly when every active filter holds: an empty choice or a missing column imposes nothing, a non-empty choice requires membership, and a non-blank query requires a case-insensitive match on the job number |
| UiDashboard.FilterIsSubsequence | fmtech_map_dashboard_ui.py:145-151 | the view is an order-preserving subsequence of the data and no longer than it |
| UiDashboard.FilterNothingChosen | fmtech_map_dashboard_ui.py:145-151 | with no status, no floor and a blank search, the view is the whole data set |
| UiDashboard.FilterIdempotent | fmtech_map_dashboard_ui.py:145-151 | filtering the view again with the same choices changes nothing |
| UiDashboard.DefaultSelection | fmtech_map_dashboard_ui.py:136-151 | with the sidebar defaults, a record is shown exactly when it has a status (once statuses are offered) and a non-blank floor (once floors are offered) |
| UiDashboard.MetricsOf | fmtech_map_dashboard_ui.py:154-160 | Records is the view's length; the status metrics exist exactly when there is a status column, and then they are the four exact-match counts of the view (each the number of rows whose status equals Open, Attended, Completed or Closed), whose sum is at most Records |
| UiDashboard.SafeChar | fmtech_map_dashboard_ui.py:168 | a sanitised character is never '/', '\\' or a space |
| UiDashboard.Sanitize | fmtech_map_dashboard_ui.py:168 | sanitising keeps the length, maps each character independently, and leaves no path separator or space |
| UiDashboard.SanitizeByReplace | fmtech_map_dashboard_ui.py:168 | the three chained `replace` calls compute exactly `Sanitize` |
| UiDashboard.SanitizeSafe | fmtech_map_dashboard_ui.py:168 | sanitising a safe text changes nothing |
| UiDashboard.SafePart | fmtech_map_dashboard_ui.py:163-168 | an empty value gives the label unchanged; otherwise the result is safe, and it is the stripped value sanitised, or the sanitised label when the value is all whitespace |
| UiDashboard.NamePart | fmtech_map_dashboard_ui.py:170-179 | the part is safe; it is the "all" label unless exactly one non-blank value is chosen, in which case it is that value stripped and sanitised |
| UiDashboard.ExportNamesOf | fmtech_map_dashboard_ui.py:181-182 | the names are `FMTECH_Operations_` + the floor part + `_` + the status part, with `.csv` and with `.xlsx`, so they share one stem |
| UiDashboard.ExportNamesAreSafe | fmtech_map_dashboard_ui.py:170-182 | both download names are free of path separators and spaces, and they share the stem before `.csv` and `.xlsx` |
| UiDashboard.NorthWingPart | fmtech_map_dashboard_ui.py:171-172 | a single floor "North Wing" becomes the name part "North_Wing" |
| UiDashboard.ExportNameExample | fmtech_map_dashboard_ui.py:170-182 | one floor "North Wing" and two statuses give `FMTECH_Operations_North_Wing_AllStatus.csv` |
| UiDashboard.ColourOfNormalized | fmtech_map_dashboard_ui.py:233-239 | the colour of a normalised status is orange for an "In Progress" status and the colour of the raw status otherwise |
| UiDashboard.StatusColour | fmtech_map_dashboard_ui.py:233-239 | after strip and title-case, exactly "Open" is red, "Attended" orange, "Completed" green and "Closed" gray; every other status is blue |
| UiDashboard.StatusColourIgnoresSpace | fmtech_map_dashboard_ui.py:233-234 | whitespace of any length before and after a status never changes its colour |
| UiDashboard.StatusColourIgnoresCase | fmtech_map_dashboard_ui.py:233-234 | two statuses that differ only in letter case always get the same colour |
| UiDashboard.FieldLinesSpec | fmtech_map_dashboard_ui.py:250-256 | there is one popup row per label that is a column, in label order, showing that column's cell |
| UiDashboard.PopupContents | fmtech_map_dashboard_ui.py:241-265 | the popup is the rows for the labels that are columns, in fixed order, followed by the CAFM link, which appears last and only when it starts with http:// or https:// |
| UiDashboard.RenderMap | fmtech_map_dashboard_ui.py:267-294 | one marker per record, in view order, each at its record's position; the map is fitted to the positions exactly when "Fit to filtered data" is chosen and the view is non-empty, and is otherwise centred on Riyadh at zoom 12 |
| LiveDashboard.DataSourceUrl | fmtech_map_dashboard.py:53-59 | the secret wins over the environment variable, which wins over the built-in sheet URL |
| LiveDashboard.FirstMatch | fmtech_map_dashboard.py:66-71 | the result is the first rule whose keyword occurs, with no earlier rule matching; there is none exactly when no rule matches |
| LiveDashboard.StatusColour | fmtech_map_dashboard.py:62-71 | the colour always lies in the six-colour set |
| LiveDashboard.StatusColourPriority | fmtech_map_dashboard.py:62-71 | each colour is given exactly when the status is non-empty and its lower-cased, stripped text contains that rule's keyword and none of the earlier keywords |
| LiveDashboard.FetchData | fmtech_map_dashboard.py:74-93 | the fetch fails exactly when Latitude or Longitude is missing; otherwise the survivors are the rows whose unrewritten coordinate texts both parse, in order, with positions and stringified text columns |
| LiveDashboard.FetchKeeps | fmtech_map_dashboard.py:82-85 | the fetch never adds a row, and a row survives exactly when both coordinates parse |
| LiveDashboard.TilesFor | fmtech_map_dashboard.py:96-103 | the four known base maps map to their tiles; any other name gives OpenStreetMap; the result is always one of the known tiles |
| LiveDashboard.ColumnLinesSpec | fmtech_map_dashboard.py:115-121 | the popup has one line per column, in column order, each showing that column's value: a present text cell its text, a NaN cell blank, Latitude and Longitude the parsed position |
| LiveDashboard.BuildMap | fmtech_map_dashboard.py:95-134 | the map is centred on Riyadh at zoom 12 with the looked-up tiles; there is one marker and one heat point per record, in order; the heat layer is present exactly when requested and there is a record |
| LiveDashboard.LiveMetricsOf | fmtech_map_dashboard.py:199-211 | Records is the record count; with a status column, each keyword metric counts the records whose lower-cased status contains the keyword, and each is at most Records |
| LiveDashboard.KeywordMetricsOverlap | fmtech_map_dashboard.py:204-208 | one record "open progress" counts as both Open and In Progress, so the metrics can sum to more than Records |
| OperationDashboard.FixArabicDecimal | fmtech_dashboard.py:62 | the fix keeps the length, leaves no Arabic separator, and changes only those separators, into '.' |
| OperationDashboard.CommaNotRewritten | fmtech_dashboard.py:62 | a comma is left as it is here, where the map page turns it into '.' |
| OperationDashboard.ReadColumn | fmtech_dashboard.py:61-62 | reading succeeds exactly when every cell is NaN or parses after the fix, giving one reading per row in order; otherwise it fails on the first unreadable cell |
| OperationDashboard.FixCoordinates | fmtech_dashboard.py:60-62 | a missing Latitude fails first; success means both columns exist and every cell is readable; no row is dropped, and each row gets its two readings |
| OperationDashboard.Options | fmtech_dashboard.py:64-66 | a missing column fails; otherwise the options are 'ALL' followed by the strictly ascending distinct non-NaN values of the column |
| OperationDashboard.ApplyFilters | fmtech_dashboard.py:73-81 | the step-by-step narrowing gives the filter function's result, including its missing-column failures |
| OperationDashboard.FilterMembers | fmtech_dashboard.py:73-81 | with a search, a row is kept exactly when its job number contains the search in any case; without a search, a row is kept exactly when it equals each select box that is not 'ALL' |
| OperationDashboard.FilterIsSubsequence | fmtech_dashboard.py:73-81 | the result is an order-preserving subsequence of the data and no longer than it |
| OperationDashboard.FilterIdempotent | fmtech_dashboard.py:73-81 | filtering the result again with the same choices gives the same result |
| OperationDashboard.FilterAllIsIdentity | fmtech_dashboard.py:73-81 | with no search and 'ALL' in both boxes, the result is the whole data set |
| OperationDashboard.SearchIgnoresFacets | fmtech_dashboard.py:75-76 | with a non-empty search, the select boxes make no difference |
| OperationDashboard.MetricsOf | fmtech_dashboard.py:86-90 | a missing status column fails; otherwise Records is the view's length and the metrics are the four exact-match counts of the view, which sum to at most Records |
| OperationDashboard.LookupColour | fmtech_dashboard.py:97-106 | a status in the table gets its colour; any other status, or a NaN one, is gray; the colour lies in the five-colour set |
| OperationDashboard.ColourTablesDisagree | fmtech_dashboard.py:97-106 | the match is exact, so "open" is gray; "Closed" is blue here but gray on the map page |
| OperationDashboard.MissingPopupColumn | fmtech_dashboard.py:106-111 | there is no missing column exactly when every popup column exists; otherwise the first popup column the data lacks is named |
| OperationDashboard.BuildMap | fmtech_dashboard.py:92-120 | a missing popup column fails exactly when there is a row to draw; otherwise the map is centred on Riyadh at zoom 12 with CartoDB positron and has one marker per row, in order |
| Table.TextCell | fmtech_map_dashboard_ui.py:243 | a cell is blank exactly when it is NaN; otherwise it shows its text |
| Table.CellOf | fmtech_map_dashboard_ui.py:255-256 | a coordinate column reads as the parsed number, and any other column reads as its text cell |
| Table.Tooltip | fmtech_map_dashboard_ui.py:274 | there is no tooltip exactly when the job number is blank; otherwise it is the stripped job number, which is non-empty and has no surrounding whitespace |
| Table.ReadCoords | fmtech_map_dashboard_ui.py:113-115 | a row has a position exactly when both coordinates parse, and the position is the pair of parsed values |
| Table.DropUnparsed | fmtech_map_dashboard_ui.py:115 | the records come from exactly the rows whose coordinates parse, in order, each carrying its parsed position |
| Table.DropUnparsedSound | fmtech_map_dashboard_ui.py:115 | dropping never grows the data, keeps the survivors' order, and keeps a row exactly when both coordinates parse |
| Table.Stringify | fmtech_map_dashboard_ui.py:118-123 | the stringified columns the sheet has are all present afterwards; an existing cell keeps its text; a cell that was NaN becomes "nan"; nothing else is added |
| Table.StringifyAll | fmtech_map_dashboard.py:87-91 | every record is stringified and keeps its position; the record count is unchanged |
| Table.ColumnValues | fmtech_dashboard.py:65-66 | the values are exactly the non-NaN cells of the column |
| Table.ExactCounts | fmtech_map_dashboard_ui.py:157-160 | each count is the number of rows whose status equals that value, and the four counts sum to at most the number of rows |
| Strings.StripSpec | fmtech_map_dashboard_ui.py:167 | `strip` returns the slice of its argument left after cutting off leading and trailing whitespace only; the result has no surrounding whitespace, and is "" exactly for an all-whitespace text |
| Strings.StripIgnoresPadding | fmtech_map_dashboard_ui.py:234 | extra whitespace around a text never changes what `strip` returns |
| Strings.TitleIgnoresCase | fmtech_map_dashboard_ui.py:234 | two texts that differ only in letter case title-case to the same text |
| Strings.StripIdempotent | fmtech_map_dashboard_ui.py:134 | stripping twice is stripping once |
| Strings.TitleIdempotent | fmtech_map_dashboard_ui.py:134 | title-casing twice is title-casing once |
| Strings.TitleKeepsStripped | fmtech_map_dashboard_ui.py:134 | title-casing a stripped text leaves it stripped |
| Strings.Replace | fmtech_dashboard.py:62 | replacing a character keeps the length and changes only that character; when the replacement differs, no occurrence of it is left |
| Sequences.SortedSet | fmtech_map_dashboard_ui.py:136 | `sorted(set(...))` is strictly ascending and has exactly the elements of its input |

## Left out

- `FMTECH_Launcher.py` is not part of this model. It handles process spawning, package installation, port polling, a waiting thread, the splash window and opening a browser.
- Network and configuration I/O are left out: `pd.read_csv`, `st.secrets` and `os.getenv`. The sheet is a parameter, and the secret and environment values are options passed in.
- The 25-second cache of `fetch_data`, the auto-refresh timers and all Streamlit widgets are left out. The widgets' values are parameters.
- Floating point is left out. `pd.to_numeric` and `float` are an abstract partial parse, and a text they read as NaN or infinity is not told apart from a number.
- Rendering is left out: folium, MarkerCluster, HeatMap, `fit_bounds` geometry, radius, opacity, the legend, the CSS and HTML, and the injected JavaScript. Only the markers, popup lines, tiles, centre and heat points are modelled.
- The CSV and Excel bytes are left out: UTF-8-BOM encoding, openpyxl and base64. These are library serialisation; the file names are modelled.
- `Strings.Title`, `Strings.Lower`: ASCII letters only, because Python's Unicode case tables are not modelled. Title-case starts a word after any non-letter, as Python does.
- `Strings.ContainsIgnoreCase`: `str.contains` is matched as a literal substring. The regular-expression meaning of characters such as `.` or `*` in a search is not modelled.
- pandas dtype inference is left out. A numeric column's text after `astype(str)` (for example "123.0") is taken to be the cell text as given.
- `OperationDashboard.FixCoordinates`: a NaN coordinate is kept, as in the script, but folium's rejection of a NaN marker location is not modelled. The loop over the two columns is written as two reads.
- `OperationDashboard.BuildMap`: the popup's HTML text, including how a NaN cell is printed, is not modelled. Only the four fields and their order are.
- `UiDashboard.RenderMap`: the per-row `try`/`except` never fires once loading has parsed both coordinates, so it is not modelled.
- The three pages are modelled as separate pipelines, not as a whole-page function. Each step's failure is stated where the script raises it.
