/** What the import preview of src/components/ui/data-preview.tsx shows for a validation
    report: the three-way status, the truncated error and warning lists, the tabs, the
    sample table and whether the Import button can be pressed. */
module DataPreview {
  import opened Wrappers
  import opened JsText
  import opened JsValue
  import opened CsvParser
  import opened Validation

  datatype Status = Failed | PassedWithWarnings | Passed

  /** The split `getStatusText`, `getStatusColor` and `getStatusIcon` share: errors first,
      then warnings. */
  function StatusOf(r: Report): Status {
    if |r.errors| > 0 then Failed
    else if |r.warnings| > 0 then PassedWithWarnings
    else Passed
  }

  function StatusText(r: Report): string {
    match StatusOf(r)
    case Failed => "Validation Failed"
    case PassedWithWarnings => "Validation Passed with Warnings"
    case Passed => "Validation Passed"
  }

  function StatusColor(r: Report): string {
    match StatusOf(r)
    case Failed => "text-red-500"
    case PassedWithWarnings => "text-yellow-500"
    case Passed => "text-green-500"
  }

  /** The icon's component name. */
  function StatusIcon(r: Report): string {
    match StatusOf(r)
    case Failed => "XCircle"
    case PassedWithWarnings => "AlertTriangle"
    case Passed => "CheckCircle"
  }

  /** The three status texts name the three cases, and the colour and icon follow the
      text; on a well-formed report "Validation Failed" means exactly an invalid one. */
  lemma StatusFacts(r: Report, records: seq<Json>)
    ensures StatusText(r) == "Validation Failed" <==> r.errors != []
    ensures StatusText(r) == "Validation Passed with Warnings" <==> r.errors == [] && r.warnings != []
    ensures StatusText(r) == "Validation Passed" <==> r.errors == [] && r.warnings == []
    ensures StatusColor(r) == "text-red-500" <==> StatusText(r) == "Validation Failed"
    ensures StatusIcon(r) == "XCircle" <==> StatusText(r) == "Validation Failed"
    ensures StatusColor(r) == "text-green-500" <==> StatusIcon(r) == "CheckCircle"
    ensures WellFormed(r, records) ==> (StatusText(r) == "Validation Failed" <==> !r.isValid)
  {
    assert "Validation Failed" != "Validation Passed with Warnings" by {
      assert "Validation Failed"[11] != "Validation Passed with Warnings"[11];
    }
    assert "Validation Failed" != "Validation Passed" by {
      assert "Validation Failed"[11] != "Validation Passed"[11];
    }
    assert "Validation Passed" != "Validation Passed with Warnings";
    assert "text-red-500"[5] != "text-yellow-500"[5] && "text-red-500"[5] != "text-green-500"[5];
    assert "text-green-500"[5] != "text-yellow-500"[5];
    assert "XCircle"[0] != "AlertTriangle"[0] && "XCircle"[0] != "CheckCircle"[0];
    assert "CheckCircle"[0] != "AlertTriangle"[0];
  }

  // ---------------------------------------------------------------------------
  // Message lists

  /** The lines of one alert: the first `limit` messages, then `...and N more <noun>`
      when some are hidden. */
  function ShownLines(messages: seq<string>, limit: nat, noun: string): seq<string> {
    messages[..Min(limit, |messages|)] +
    (if |messages| > limit then ["...and " + NatToString(|messages| - limit) + " more " + noun] else [])
  }

  /** The error alert, shown only when there is an error. */
  function ErrorAlert(r: Report): Option<seq<string>> {
    if |r.errors| > 0 then Some(ShownLines(r.errors, 5, "errors")) else None
  }

  /** The warning alert, shown only when there is a warning. */
  function WarningAlert(r: Report): Option<seq<string>> {
    if |r.warnings| > 0 then Some(ShownLines(r.warnings, 3, "warnings")) else None
  }

  /** The alert shows the messages in order up to the limit and one overflow line exactly
      when some are hidden; the overflow line's number plus the lines shown account for
      every message. */
  lemma ShownLinesFacts(messages: seq<string>, limit: nat, noun: string)
    ensures var lines := ShownLines(messages, limit, noun);
      |lines| == Min(limit, |messages|) + (if |messages| > limit then 1 else 0) &&
      (forall k :: 0 <= k < Min(limit, |messages|) ==> lines[k] == messages[k]) &&
      (|messages| <= limit ==> lines == messages) &&
      (|messages| > limit ==>
        lines[limit] == "...and " + NatToString(|messages| - limit) + " more " + noun &&
        limit + (|messages| - limit) == |messages|)
  {
    if |messages| <= limit {
      assert messages[..|messages|] == messages;
    }
  }

  /** Error and warning alerts appear exactly when their list is not empty; the error
      alert shows at most six lines and the warning alert at most four. */
  lemma AlertFacts(r: Report)
    ensures ErrorAlert(r).Some? <==> r.errors != []
    ensures WarningAlert(r).Some? <==> r.warnings != []
    ensures ErrorAlert(r).Some? ==> 1 <= |ErrorAlert(r).value| <= 6
    ensures WarningAlert(r).Some? ==> 1 <= |WarningAlert(r).value| <= 4
    ensures ErrorAlert(r).Some? ==> ErrorAlert(r).value[0] == r.errors[0]
    ensures WarningAlert(r).Some? ==> WarningAlert(r).value[0] == r.warnings[0]
  {
    ShownLinesFacts(r.errors, 5, "errors");
    ShownLinesFacts(r.warnings, 3, "warnings");
  }

  // ---------------------------------------------------------------------------
  // Tabs and button

  /** The tab triggers, in order, with their labels. */
  function TabLabels(r: Report): seq<string> {
    ["Data Preview"] +
    (if |r.errors| > 0 then ["Errors (" + NatToString(|r.errors|) + ")"] else []) +
    (if |r.warnings| > 0 then ["Warnings (" + NatToString(|r.warnings|) + ")"] else [])
  }

  /** The data tab is always there; the errors tab exactly when there are errors, and then
      second; the warnings tab exactly when there are warnings, and then last. */
  lemma TabFacts(r: Report)
    ensures TabLabels(r)[0] == "Data Preview"
    ensures |TabLabels(r)| == 1 + (if r.errors != [] then 1 else 0) + (if r.warnings != [] then 1 else 0)
    ensures r.errors != [] ==> TabLabels(r)[1] == "Errors (" + NatToString(|r.errors|) + ")"
    ensures r.warnings != [] ==>
      TabLabels(r)[|TabLabels(r)| - 1] == "Warnings (" + NatToString(|r.warnings|) + ")"
  {
  }

  /** `disabled={validation.errors.length > 0 || isImporting}`. */
  predicate ImportDisabled(r: Report, isImporting: bool) {
    |r.errors| > 0 || isImporting
  }

  /** The Import button can be pressed exactly when no import is running and the report
      is valid, that is when its status is not "Validation Failed". */
  lemma ImportEnabledIff(r: Report, records: seq<Json>, isImporting: bool)
    requires WellFormed(r, records)
    ensures !ImportDisabled(r, isImporting) <==> !isImporting && r.isValid
    ensures !ImportDisabled(r, isImporting) ==> StatusOf(r) != Failed
  {
  }

  // ---------------------------------------------------------------------------
  // Sample table

  /** `Object.keys(v)` for the values a record can be. `Object.keys(null)` throws, and
      that case is given `[]` here: the page's previews only ever hold objects
      (`DataSourcesPage.InlineObjects` and the demo records), so it cannot arise. */
  function Columns(v: Json): seq<string> {
    match v
    case JObj(ms) => Keys(ms)
    case JArr(items) => seq(|items|, i requires 0 <= i < |items| => NatToString(i))
    case JStr(s) => seq(|s|, i requires 0 <= i < |s| => NatToString(i))
    case _ => []
  }

  /** `Object.values(v)`, in the order of `Columns(v)`; `null` is given `[]` as in `Columns`. */
  function Values(v: Json): seq<Json> {
    match v
    case JObj(ms) => seq(|ms|, i requires 0 <= i < |ms| => ms[i].value)
    case JArr(items) => items
    case JStr(s) => seq(|s|, i requires 0 <= i < |s| => JStr([s[i]]))
    case _ => []
  }

  /** Keys and values of any value pair up one to one. */
  lemma ColumnsMatchValues(v: Json)
    ensures |Columns(v)| == |Values(v)|
  {
  }

  /** `value?.toString() || '-'`; `stringify` stands for `toString` on numbers and
      arrays. */
  function CellText(v: Json, stringify: Json -> string): string {
    var s := match v
      case JNull => ""
      case JBool(b) => if b then "true" else "false"
      case JStr(t) => t
      case JObj(_) => "[object Object]"
      case _ => stringify(v);
    if s == "" then "-" else s
  }

  datatype Table = Table(columns: seq<string>, rows: seq<seq<string>>)

  /** The sample table, drawn only when the preview holds a record: the columns are the
      first record's keys, each row one record's values. */
  function SampleTable(r: Report, stringify: Json -> string): Option<Table> {
    if |r.preview| == 0 then None
    else
      Some(Table(Columns(r.preview[0]),
                 seq(|r.preview|, i requires 0 <= i < |r.preview| =>
                   seq(|Values(r.preview[i])|, j requires 0 <= j < |Values(r.preview[i])| =>
                     CellText(Values(r.preview[i])[j], stringify)))))
  }

  /** An empty cell, a missing value and `null` all show as `-`; no cell is blank. */
  lemma CellTextNeverBlank(v: Json, stringify: Json -> string)
    ensures CellText(v, stringify) != ""
    ensures v == JNull || v == JStr("") ==> CellText(v, stringify) == "-"
  {
  }

  /** A record of a parsed CSV file has one value per column name. */
  lemma CsvRecordWidth(text: string, i: nat)
    requires i < |CsvRecords(text)|
    ensures CsvRecords(text)[i].JObj?
    ensures |Values(CsvRecords(text)[i])| == |Columns(CsvRecords(text)[i])| == |Distinct(CleanCells(Lines(text)[0]))|
  {
    var lines := Lines(text);
    var headers := CleanCells(lines[0]);
    assert CsvRecords(text)[i] == CsvRow(headers, lines[i + 1]);
    RecordKeys(headers, CleanCells(lines[i + 1]), |headers|);
    assert headers[..|headers|] == headers;
  }

  /** For a report on a parsed CSV file the sample table is square: every row has one
      cell per column, and there is one row for each of the first five records. */
  lemma CsvTableAligned(r: Report, text: string, stringify: Json -> string)
    requires WellFormed(r, CsvRecords(text)) && |CsvRecords(text)| > 0
    ensures SampleTable(r, stringify).Some?
    ensures |SampleTable(r, stringify).value.rows| == Min(5, |CsvRecords(text)|)
    ensures forall i :: 0 <= i < |SampleTable(r, stringify).value.rows| ==>
      |SampleTable(r, stringify).value.rows[i]| == |SampleTable(r, stringify).value.columns|
  {
    CsvRecordWidth(text, 0);
    forall i | 0 <= i < |r.preview|
      ensures |Values(r.preview[i])| == |Columns(r.preview[0])|
    {
      CsvRecordWidth(text, i);
    }
  }
}
