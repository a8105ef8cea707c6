/** `parseCSV` of src/lib/dataProcessing.ts: the first line of the trimmed text names
    the fields, every later line becomes one object. Cells are split on `,` with no
    quoting rules (a `,` inside quotes still splits), trimmed, stripped of every `"`,
    and stored as numbers when `Number()` accepts a non-empty cell. */
module CsvParser {
  import opened Wrappers
  import opened JsText
  import opened JsValue

  /** One cell as the parser cleans it: `trim()` first, then every `"` removed. */
  function Clean(raw: string): string {
    StripQuotes(Trim(raw))
  }

  /** `line.split(',').map(v => v.trim().replace(/"/g, ''))`. */
  function CleanCells(line: string): (cells: seq<string>)
    ensures |cells| == |Split(line, ',')|
    ensures forall k :: 0 <= k < |cells| ==> cells[k] == Clean(Split(line, ',')[k])
  {
    var parts := Split(line, ',');
    seq(|parts|, k requires 0 <= k < |parts| => Clean(parts[k]))
  }

  /** The stored value of a cleaned cell. */
  function Coerce(value: string): Json {
    if value != "" && IsNumericText(value) then JNum(value) else JStr(value)
  }

  /** `values[index] || ''`: a header past the end of the line reads as the empty cell. */
  function CellAt(values: seq<string>, k: nat): string {
    if k < |values| then values[k] else ""
  }

  /** The object after `headers.forEach` has assigned the first `n` headers. */
  function RecordMembers(headers: seq<string>, values: seq<string>, n: nat): seq<Member>
    requires n <= |headers|
  {
    if n == 0 then []
    else Put(RecordMembers(headers, values, n - 1), headers[n - 1], Coerce(CellAt(values, n - 1)))
  }

  function CsvRow(headers: seq<string>, line: string): Json {
    JObj(RecordMembers(headers, CleanCells(line), |headers|))
  }

  /** `csvText.trim().split('\n')`. */
  function Lines(text: string): seq<string> {
    Split(Trim(text), '\n')
  }

  /** What `parseCSV(text)` returns. */
  function CsvRecords(text: string): seq<Json> {
    var lines := Lines(text);
    if |lines| < 2 then []
    else
      var headers := CleanCells(lines[0]);
      seq(|lines| - 1, i requires 0 <= i < |lines| - 1 => CsvRow(headers, lines[i + 1]))
  }

  /** The parser proper: a loop over the lines after the header line. */
  method ParseCsv(csvText: string) returns (records: seq<Json>)
    ensures records == CsvRecords(csvText)
  {
    var lines := Split(Trim(csvText), '\n');
    if |lines| < 2 {
      return [];
    }
    var headers := CleanCells(lines[0]);
    assert lines == Lines(csvText);
    ghost var all := CsvRecords(csvText);
    assert all == seq(|lines| - 1, j requires 0 <= j < |lines| - 1 => CsvRow(headers, lines[j + 1]));
    records := [];
    var i := 1;
    while i < |lines|
      invariant 1 <= i <= |lines|
      invariant records == all[..i - 1]
    {
      var values := CleanCells(lines[i]);
      var record := AssignFields(headers, values);
      assert all[i - 1] == CsvRow(headers, lines[i]);
      PrefixGrows(all, i);
      records := records + [JObj(record)];
      i := i + 1;
    }
    PrefixWhole(all);
  }

  /** `headers.forEach(...)` for one line: one property per header, in header order. */
  method AssignFields(headers: seq<string>, values: seq<string>) returns (record: seq<Member>)
    ensures record == RecordMembers(headers, values, |headers|)
  {
    record := [];
    var index := 0;
    while index < |headers|
      invariant 0 <= index <= |headers|
      invariant record == RecordMembers(headers, values, index)
    {
      var value := CellAt(values, index);
      record := Put(record, headers[index], Coerce(value));
      index := index + 1;
    }
  }

  // ---------------------------------------------------------------------------
  // What the parsed records look like

  /** The header names in order of first occurrence: the keys a record ends up with. */
  function Distinct(hs: seq<string>): seq<string> {
    if |hs| == 0 then []
    else
      var d := Distinct(hs[..|hs| - 1]);
      if hs[|hs| - 1] in d then d else d + [hs[|hs| - 1]]
  }

  lemma {:induction false} DistinctSubset(hs: seq<string>, x: string)
    requires x in Distinct(hs)
    ensures x in hs
  {
    if |hs| > 0 {
      var init := hs[..|hs| - 1];
      if x in Distinct(init) {
        DistinctSubset(init, x);
        assert x in init;
        var i :| 0 <= i < |init| && init[i] == x;
        assert hs[i] == x;
      }
    }
  }

  /** A record is keyed by exactly the header cells, each once, in first-occurrence order. */
  lemma {:induction false} RecordKeys(headers: seq<string>, values: seq<string>, n: nat)
    requires n <= |headers|
    ensures Keys(RecordMembers(headers, values, n)) == Distinct(headers[..n])
  {
    if n > 0 {
      var prev := RecordMembers(headers, values, n - 1);
      RecordKeys(headers, values, n - 1);
      PutKeys(prev, headers[n - 1], Coerce(CellAt(values, n - 1)));
      HasKeyInKeys(prev, headers[n - 1]);
      assert headers[..n][..n - 1] == headers[..n - 1];
    }
  }

  /** The value under a header is the coerced cell in that header's column (the last
      column of that name wins); a header with no cell gets the empty string. */
  lemma {:induction false} RecordValue(headers: seq<string>, values: seq<string>, n: nat, k: nat)
    requires k < n <= |headers|
    requires forall j :: k < j < n ==> headers[j] != headers[k]
    ensures Lookup(RecordMembers(headers, values, n), headers[k]) == Some(Coerce(CellAt(values, k)))
    ensures k >= |values| ==> Lookup(RecordMembers(headers, values, n), headers[k]) == Some(JStr(""))
  {
    var prev := RecordMembers(headers, values, n - 1);
    PutLookup(prev, headers[n - 1], Coerce(CellAt(values, n - 1)), headers[k]);
    if n - 1 > k {
      RecordValue(headers, values, n - 1, k);
    }
  }

  /** A name that is not among the headers is not a property of the record. */
  lemma RecordLacksKey(headers: seq<string>, values: seq<string>, key: string)
    requires key !in headers
    ensures Get(JObj(RecordMembers(headers, values, |headers|)), key) == None
  {
    var ms := RecordMembers(headers, values, |headers|);
    RecordKeys(headers, values, |headers|);
    assert headers[..|headers|] == headers;
    HasKeyInKeys(ms, key);
    if key in Distinct(headers) {
      DistinctSubset(headers, key);
    }
  }

  /** The property named by header `k` (the last column of that name) holds a present
      cell: it is truthy and not blank. */
  lemma PresentField(headers: seq<string>, values: seq<string>, k: nat)
    requires k < |headers| && k < |values| && PresentCell(values[k])
    requires forall j :: k < j < |headers| ==> headers[j] != headers[k]
    ensures Truthy(Get(JObj(RecordMembers(headers, values, |headers|)), headers[k]))
    ensures !IsMissing(Get(JObj(RecordMembers(headers, values, |headers|)), headers[k]))
  {
    RecordValue(headers, values, |headers|, k);
    CoercePresent(values[k]);
  }

  /** The property named by header `k` holds a numeric cell, so it is a number. */
  lemma NumericField(headers: seq<string>, values: seq<string>, k: nat)
    requires k < |headers| && k < |values| && values[k] != "" && IsNumericText(values[k])
    requires forall j :: k < j < |headers| ==> headers[j] != headers[k]
    ensures Get(JObj(RecordMembers(headers, values, |headers|)), headers[k]) == Some(JNum(values[k]))
  {
    RecordValue(headers, values, |headers|, k);
  }

  /** A stored value is a number or a string, and holds no `"`. */
  predicate CleanValue(v: Json) {
    (v.JNum? && '"' !in v.text) || (v.JStr? && '"' !in v.s)
  }

  predicate QuoteFree(vs: seq<string>) {
    forall k :: 0 <= k < |vs| ==> '"' !in vs[k]
  }

  /** Every key and every stored value of an object is free of `"`. */
  predicate CleanMembers(ms: seq<Member>) {
    forall i :: 0 <= i < |ms| ==> '"' !in ms[i].key && CleanValue(ms[i].value)
  }

  /** Every key and every value of a parsed record is free of `"`. */
  lemma {:induction false} RecordClean(headers: seq<string>, values: seq<string>, n: nat)
    requires n <= |headers|
    requires QuoteFree(headers) && QuoteFree(values)
    ensures CleanMembers(RecordMembers(headers, values, n))
  {
    if n > 0 {
      RecordClean(headers, values, n - 1);
      PutClean(RecordMembers(headers, values, n - 1), headers[n - 1], Coerce(CellAt(values, n - 1)));
    }
  }

  lemma {:induction false} PutClean(ms: seq<Member>, key: string, v: Json)
    requires CleanMembers(ms) && '"' !in key && CleanValue(v)
    ensures CleanMembers(Put(ms, key, v))
  {
    if |ms| > 0 && ms[0].key != key {
      PutClean(ms[1..], key, v);
    }
  }

  /** A cell is stored as a number exactly when it is non-empty and `Number()` accepts
      it; either way the stored value carries the cell's text unchanged. */
  lemma CoerceKind(value: string)
    ensures Coerce(value).JNum? <==> value != "" && IsNumericText(value)
    ensures Coerce(value) == JNum(value) || Coerce(value) == JStr(value)
  {
  }

  /** A trimmed, non-empty cell that does not start with `0`, `.` or a sign. */
  predicate PresentCell(value: string) {
    |value| > 0 && !IsJsSpace(value[0]) && !IsJsSpace(value[|value| - 1]) &&
    value[0] != '0' && value[0] != '.' && value[0] != '+' && value[0] != '-'
  }

  /** A present cell is stored as a truthy value that is not blank, whether it is kept
      as a number or a string. */
  lemma CoercePresent(value: string)
    requires PresentCell(value)
    ensures Truthy(Some(Coerce(value))) && !IsMissing(Some(Coerce(value)))
  {
    NotZeroText(value);
    TrimClean(value);
  }

  lemma CleanCellsQuoteFree(line: string)
    ensures QuoteFree(CleanCells(line))
  {
  }

  /** One parsed line: an object keyed by the distinct header cells, with `"`-free
      keys and values. */
  lemma CsvRowShape(line0: string, line: string)
    ensures CsvRow(CleanCells(line0), line).JObj?
    ensures Keys(CsvRow(CleanCells(line0), line).members) == Distinct(CleanCells(line0))
    ensures CleanMembers(CsvRow(CleanCells(line0), line).members)
  {
    var headers := CleanCells(line0);
    var values := CleanCells(line);
    RecordKeys(headers, values, |headers|);
    assert headers[..|headers|] == headers;
    CleanCellsQuoteFree(line0);
    CleanCellsQuoteFree(line);
    RecordClean(headers, values, |headers|);
  }

  /** The parser's output: no records unless the trimmed text has a header line and at
      least one more line; otherwise one record per later line, in line order, each an
      object keyed by the cleaned header cells, with `"`-free keys and values. */
  lemma CsvRecordsShape(text: string)
    ensures |Lines(text)| < 2 ==> CsvRecords(text) == []
    ensures |Lines(text)| >= 2 ==>
      |CsvRecords(text)| == |Lines(text)| - 1 &&
      forall i :: 0 <= i < |CsvRecords(text)| ==>
        CsvRecords(text)[i] == CsvRow(CleanCells(Lines(text)[0]), Lines(text)[i + 1]) &&
        CsvRecords(text)[i].JObj? &&
        Keys(CsvRecords(text)[i].members) == Distinct(CleanCells(Lines(text)[0])) &&
        CleanMembers(CsvRecords(text)[i].members)
  {
    var lines := Lines(text);
    if |lines| >= 2 {
      var records := CsvRecords(text);
      forall i | 0 <= i < |records|
        ensures records[i] == CsvRow(CleanCells(lines[0]), lines[i + 1])
        ensures records[i].JObj?
        ensures Keys(records[i].members) == Distinct(CleanCells(lines[0]))
        ensures CleanMembers(records[i].members)
      {
        CsvRowShape(lines[0], lines[i + 1]);
      }
    }
  }

  /** A cell with no `"` comes out trimmed. */
  lemma CleanTrims(raw: string)
    requires '"' !in raw
    ensures Clean(raw) == Trim(raw)
    ensures Trim(Clean(raw)) == Clean(raw)
  {
    var t := Trim(raw);
    TrimInfix(raw);
    var i :| InfixAt(raw, t, i);
    assert forall k :: 0 <= k < |t| ==> t[k] == raw[i + k];
    StripQuotesClean(t);
    TrimClean(t);
  }

  /** Trimming happens before the quotes are stripped, so a quoted cell with padding
      inside the quotes keeps that padding: `" x"` is stored as the string ` x`. */
  lemma QuotedPaddingSurvives()
    ensures CsvRecords("a\n\" x\"") == [JObj([Member("a", JStr(" x"))])]
  {
    var text := "a\n\" x\"";
    PaddedLines();
    PaddedCells();
    PaddedCellIsText();
    CsvRecordAt(text, 0);
    assert RecordMembers(["a"], [" x"], 1) == Put([], "a", JStr(" x"));
  }

  lemma PaddedLines()
    ensures Lines("a\n\" x\"") == ["a", "\" x\""]
  {
    var text := "a\n\" x\"";
    assert text == Join(["a", "\" x\""], '\n');
    TrimClean(text);
    SplitJoin(["a", "\" x\""], '\n');
  }

  lemma PaddedCells()
    ensures CleanCells("a") == ["a"]
    ensures CleanCells("\" x\"") == [" x"]
  {
    var cell := "\" x\"";
    SplitJoin(["a"], ',');
    SplitJoin([cell], ',');
    TrimClean("a");
    StripQuotesClean("a");
    TrimClean(cell);
    assert StripQuotes(cell) == " x" by {
      assert StripQuotes(" x\"") == " " + StripQuotes("x\"");
      assert StripQuotes("x\"") == "x" + StripQuotes("\"");
      assert StripQuotes("\"") == "" + StripQuotes("");
    }
  }

  lemma PaddedCellIsText()
    ensures Coerce(" x") == JStr(" x")
  {
    assert Trim(" x") == "x" by {
      assert TrimStart(" x") == TrimStart("x");
    }
    assert IndexOfEither("x", 'e', 'E') == 1 + IndexOfEither("", 'e', 'E');
    assert IndexOfEither("x", '.', '.') == 1 + IndexOfEither("", '.', '.');
    assert !AllDigits("x");
  }

  /** The record for one data line of a parsed text. */
  lemma {:induction false} CsvRecordAt(text: string, i: nat)
    requires |Lines(text)| >= 2 && i < |Lines(text)| - 1
    ensures |CsvRecords(text)| == |Lines(text)| - 1
    ensures CsvRecords(text)[i] == CsvRow(CleanCells(Lines(text)[0]), Lines(text)[i + 1])
  {
  }

  // ---------------------------------------------------------------------------
  // Parsing text that was rendered from a grid of cells

  /** A cell that survives rendering and re-parsing unchanged. */
  predicate CleanCell(c: string) {
    ',' !in c && '\n' !in c && '"' !in c &&
    (|c| > 0 ==> !IsJsSpace(c[0]) && !IsJsSpace(c[|c| - 1]))
  }

  predicate CleanRow(cells: seq<string>) {
    forall k :: 0 <= k < |cells| ==> CleanCell(cells[k])
  }

  /** `row.join(',')`. */
  function RenderRow(cells: seq<string>): string {
    Join(cells, ',')
  }

  /** `rows.map(row => row.join(',')).join('\n')`. */
  function RenderCsv(rows: seq<seq<string>>): string {
    Join(seq(|rows|, i requires 0 <= i < |rows| => RenderRow(rows[i])), '\n')
  }

  lemma {:induction false} JoinAvoids(xs: seq<string>, sep: char, c: char)
    requires c != sep && forall k :: 0 <= k < |xs| ==> c !in xs[k]
    ensures c !in Join(xs, sep)
  {
    if |xs| > 1 {
      JoinAvoids(xs[1..], sep, c);
    }
  }

  lemma {:induction false} JoinFirst(xs: seq<string>, sep: char)
    requires |xs| >= 1 && |xs[0]| > 0
    ensures |Join(xs, sep)| > 0 && Join(xs, sep)[0] == xs[0][0]
  {
  }

  lemma {:induction false} JoinLast(xs: seq<string>, sep: char)
    requires |xs| >= 1 && |xs[|xs| - 1]| > 0
    ensures |Join(xs, sep)| > 0
    ensures Join(xs, sep)[|Join(xs, sep)| - 1] == xs[|xs| - 1][|xs[|xs| - 1]| - 1]
  {
    if |xs| > 1 {
      JoinLast(xs[1..], sep);
    }
  }

  /** Cleaning the cells of a rendered row gives the row back. */
  lemma CleanCellsOfRendered(cells: seq<string>)
    requires |cells| >= 1 && CleanRow(cells)
    ensures CleanCells(RenderRow(cells)) == cells
  {
    SplitJoin(cells, ',');
    forall k | 0 <= k < |cells|
      ensures Clean(cells[k]) == cells[k]
    {
      TrimClean(cells[k]);
      StripQuotesClean(cells[k]);
    }
  }

  /** `rows.map(row => row.join(','))`. */
  function RenderedLines(rows: seq<seq<string>>): (lines: seq<string>)
    ensures |lines| == |rows|
  {
    seq(|rows|, i requires 0 <= i < |rows| => RenderRow(rows[i]))
  }

  /** The lines of a rendered grid are its rendered rows, one per row. */
  lemma LinesOfRendered(rows: seq<seq<string>>)
    requires |rows| >= 1
    requires forall i :: 0 <= i < |rows| ==> |rows[i]| >= 1 && CleanRow(rows[i])
    requires |rows[0][0]| > 0 && |rows[|rows| - 1][|rows[|rows| - 1]| - 1]| > 0
    ensures Lines(RenderCsv(rows)) == RenderedLines(rows)
  {
    var lines := RenderedLines(rows);
    forall i | 0 <= i < |rows|
      ensures '\n' !in lines[i]
    {
      JoinAvoids(rows[i], ',', '\n');
    }
    JoinFirst(rows[0], ',');
    JoinLast(rows[|rows| - 1], ',');
    JoinFirst(lines, '\n');
    JoinLast(lines, '\n');
    TrimClean(RenderCsv(rows));
    SplitJoin(lines, '\n');
  }

  /** Parsing a rendered grid gives one record per data row, keyed by the header row:
      the round trip the templates rely on. */
  lemma ParseRendered(rows: seq<seq<string>>)
    requires |rows| >= 2
    requires forall i :: 0 <= i < |rows| ==> |rows[i]| >= 1 && CleanRow(rows[i])
    requires |rows[0][0]| > 0 && |rows[|rows| - 1][|rows[|rows| - 1]| - 1]| > 0
    ensures |CsvRecords(RenderCsv(rows))| == |rows| - 1
    ensures forall i :: 0 <= i < |rows| - 1 ==>
      CsvRecords(RenderCsv(rows))[i] == JObj(RecordMembers(rows[0], rows[i + 1], |rows[0]|))
  {
    var text := RenderCsv(rows);
    LinesOfRendered(rows);
    var lines := RenderedLines(rows);
    assert lines[0] == RenderRow(rows[0]);
    CleanCellsOfRendered(rows[0]);
    CsvRecordAt(text, 0);
    forall i | 0 <= i < |rows| - 1
      ensures CsvRecords(text)[i] == JObj(RecordMembers(rows[0], rows[i + 1], |rows[0]|))
    {
      CsvRecordAt(text, i);
      assert lines[i + 1] == RenderRow(rows[i + 1]);
      CleanCellsOfRendered(rows[i + 1]);
    }
  }
}
