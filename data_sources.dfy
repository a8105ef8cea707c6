/** The decision rules of the data sources page, src/components/pages/DataSources.tsx:
    the size check of the upload widget, the data kind guessed from a file name, the
    page's own quick parse and validation for the preview, the list of sources the
    import and connector handlers append to, the simulated progress bar and the
    template downloads. */
module DataSourcesPage {
  import opened Wrappers
  import opened JsText
  import opened JsValue
  import opened CsvParser
  import opened Validation
  import opened Importer
  import opened ApiProbe
  import opened Templates

  // ---------------------------------------------------------------------------
  // The upload widget

  /** `maxSize = 10 * 1024 * 1024`. */
  const DefaultMaxSize: nat := 10 * 1024 * 1024

  /** The file a drop or a file pick hands to `onUpload`: the first one, unless it is
      larger than `maxSize`. */
  function Picked(files: seq<FileInput>, maxSize: nat): Option<FileInput> {
    if |files| == 0 then None
    else if files[0].size > maxSize then None
    else Some(files[0])
  }

  /** Only the first file counts, and it is refused exactly when it is strictly larger
      than the limit. */
  lemma PickedFacts(files: seq<FileInput>, maxSize: nat)
    ensures Picked(files, maxSize).Some? <==> |files| > 0 && files[0].size <= maxSize
    ensures Picked(files, maxSize).Some? ==> Picked(files, maxSize).value == files[0]
  {
  }

  // ---------------------------------------------------------------------------
  // Data kind

  /** The kind guessed from the lower-cased file name; sales keywords are tested first. */
  function InferKind(name: string): DataKind {
    var lower := ToLower(name);
    if Includes(lower, "sales") || Includes(lower, "revenue") then Sales
    else if Includes(lower, "inventory") || Includes(lower, "stock") then Inventory
    else Product
  }

  /** Lower-casing a name first does not change its kind. */
  lemma InferKindIgnoresCase(name: string)
    ensures InferKind(ToLower(name)) == InferKind(name)
  {
    ToLowerIdempotent(name);
  }

  /** A name holding `sales` in any letter case is a sales file, whatever other keyword
      it also holds. */
  lemma SalesKeywordWins(name: string, word: string)
    requires Includes(name, word) && ToLower(word) == "sales"
    ensures InferKind(name) == Sales
  {
    IncludesAt(name, word);
    var i :| OccursAt(name, word, i);
    LowerOccurs(name, word, i);
    IncludesAt(ToLower(name), "sales");
  }

  /** A name holding `stock` in any letter case and neither sales keyword is an inventory
      file. */
  lemma StockKeywordIsInventory(name: string, word: string)
    requires Includes(name, word) && ToLower(word) == "stock"
    requires !Includes(ToLower(name), "sales") && !Includes(ToLower(name), "revenue")
    ensures InferKind(name) == Inventory
  {
    IncludesAt(name, word);
    var i :| OccursAt(name, word, i);
    LowerOccurs(name, word, i);
    IncludesAt(ToLower(name), "stock");
  }

  // ---------------------------------------------------------------------------
  // The page's own parse

  /** The inline parse of `handleFileUpload`: the lines after the first of the trimmed
      text, with the headers taken from the first line of the text as it came, not
      trimmed. */
  function InlineRecords(text: string): seq<Json> {
    var lines := Split(Trim(text), '\n');
    var headers := CleanCells(Split(text, '\n')[0]);
    seq(|lines| - 1, i requires 0 <= i < |lines| - 1 => CsvRow(headers, lines[i + 1]))
  }

  lemma InlineObjects(text: string)
    ensures forall k :: 0 <= k < |InlineRecords(text)| ==> InlineRecords(text)[k].JObj?
  {
    var lines := Split(Trim(text), '\n');
    var headers := CleanCells(Split(text, '\n')[0]);
    forall k | 0 <= k < |InlineRecords(text)|
      ensures InlineRecords(text)[k].JObj?
    {
      assert InlineRecords(text)[k] == CsvRow(headers, lines[k + 1]);
    }
  }

  /** `.csv` files are parsed inline; any other file stands for the two demo records. */
  function UploadRecords(file: FileInput): seq<Json> {
    if EndsWith(file.name, ".csv") then InlineRecords(file.text) else ExcelRecords()
  }

  /** The validation shown in the preview. */
  function UploadValidation(file: FileInput, dateParses: Json -> bool): Result<Report, string> {
    ValidationOf(InferKind(file.name), UploadRecords(file), dateParses)
  }

  lemma {:induction false} SplitWithoutSep(s: string, c: char)
    requires c !in s
    ensures Split(s, c) == [s]
  {
    SplitGlue(s, "", c);
    assert s + "" == s;
  }

  /** Text after the first separator does not change the first piece. */
  lemma {:induction false} SplitFirstPiece(t: string, rest: string, c: char)
    requires c in t
    ensures Split(t + rest, c)[0] == Split(t, c)[0]
  {
    if t[0] != c {
      assert (t + rest)[1..] == t[1..] + rest;
      SplitFirstPiece(t[1..], rest, c);
    }
  }

  /** Without white space at the start of the text the inline parse agrees with
      `parseCSV`. */
  lemma InlineMatchesParser(text: string)
    requires |text| > 0 ==> !IsJsSpace(text[0])
    ensures InlineRecords(text) == CsvRecords(text)
  {
    var t := Trim(text);
    var lines := Split(t, '\n');
    assert TrimStart(text) == text;
    if |lines| >= 2 {
      TrimEndPrefix(text);
      assert text == t + text[|t|..];
      if '\n' !in t {
        SplitWithoutSep(t, '\n');
      }
      SplitFirstPiece(t, text[|t|..], '\n');
    }
  }

  /** A text that starts with a line break has an empty first line: one header, the
      empty name. */
  lemma LeadingBreakHeaders(text: string)
    requires |text| > 0 && text[0] == '\n'
    ensures CleanCells(Split(text, '\n')[0]) == [""]
  {
    assert Split(text, '\n')[0] == "";
    assert Split("", ',') == [""];
    assert Trim("") == "";
  }

  /** With a line break before the header line, the inline parse keys every record by
      the empty name only: every real field reads as absent, although `parseCSV` finds
      them. */
  lemma InlineLosesHeaders(text: string)
    requires |text| > 0 && text[0] == '\n'
    ensures |InlineRecords(text)| == |CsvRecords(text)|
    ensures forall i, key :: 0 <= i < |InlineRecords(text)| && key != "" ==>
      Get(InlineRecords(text)[i], key) == None
  {
    LeadingBreakHeaders(text);
    var headers := CleanCells(Split(text, '\n')[0]);
    var lines := Split(Trim(text), '\n');
    forall i, key | 0 <= i < |lines| - 1 && key != ""
      ensures Get(InlineRecords(text)[i], key) == None
    {
      assert InlineRecords(text)[i] == CsvRow(headers, lines[i + 1]);
      RecordLacksKey(headers, CleanCells(lines[i + 1]), key);
    }
  }

  /** Such a file uploaded as products has no valid record, whatever it holds. */
  lemma LeadingBreakRejectsProducts(text: string)
    requires |text| > 0 && text[0] == '\n'
    ensures ProductReport(InlineRecords(text)).Success?
    ensures ProductReport(InlineRecords(text)).value.validRecords == 0
    ensures |InlineRecords(text)| > 0 ==> !ProductReport(InlineRecords(text)).value.isValid
  {
    var records := InlineRecords(text);
    InlineLosesHeaders(text);
    InlineObjects(text);
    assert JNull !in records;
    assert ProductRequired[0] == "sku";
    forall k | 0 <= k < |records|
      ensures ProductRowErrors(records[k], k) != []
    {
      assert Get(records[k], "sku") == None;
      MissingErrorsReport(records[k], k, ProductRequired, 0);
    }
    NoneValid(ProductRowErrors, records, |records|);
    ProductReportFacts(records);
  }

  /** The preview validation never throws: the page only ever validates objects. */
  lemma UploadNeverThrows(file: FileInput, dateParses: Json -> bool)
    ensures UploadValidation(file, dateParses).Success?
    ensures WellFormed(UploadValidation(file, dateParses).value, UploadRecords(file))
  {
    var records := UploadRecords(file);
    if EndsWith(file.name, ".csv") {
      InlineObjects(file.text);
    } else {
      assert records == ExcelRecords();
      assert records[0].JObj? && records[1].JObj?;
    }
    assert JNull !in records;
    ValidationShape(InferKind(file.name), records, dateParses);
  }

  // ---------------------------------------------------------------------------
  // The list of sources

  datatype SourceStatus = Active | Inactive | Errored | Syncing

  /** `DataSource`; `kind` is the `type` field (`file`, `api` or `database`). */
  datatype DataSource = DataSource(
    id: string,
    name: string,
    kind: string,
    sourceType: string,
    status: SourceStatus,
    lastSync: Option<string>,
    recordCount: Option<nat>,
    fileSize: Option<nat>)

  /** What the upload handler keeps for the import. */
  datatype PreviewState = PreviewState(validation: Report, fileName: string, file: FileInput, kind: DataKind)

  /** The connector dialog's answer. */
  datatype ConnectorConfig = ConnectorConfig(
    kind: string,
    sourceType: string,
    url: Option<string>,
    storeUrl: Option<string>,
    apiKey: Option<string>,
    accessToken: Option<string>,
    headers: Headers)

  /** The `sourceType` tag of an imported file. */
  function SourceTypeOf(name: string): string {
    if EndsWith(name, ".csv") then "csv"
    else if EndsWith(name, ".xlsx") then "excel"
    else "json"
  }

  /** An `.xls` file, which the importer reads as a spreadsheet, is tagged `json`. */
  lemma XlsTaggedJson(name: string)
    requires EndsWith(name, ".xls")
    ensures SourceTypeOf(name) == "json"
    ensures FormatOf(name) == ExcelFile
  {
    assert name[|name| - 1] == 's';
  }

  /** The tag names the importer's format for `.csv` and `.xlsx` files and reads `json`
      for everything else. */
  lemma SourceTypeFacts(name: string)
    ensures SourceTypeOf(name) == "csv" <==> FormatOf(name) == CsvFile
    ensures SourceTypeOf(name) == "excel" <==> EndsWith(name, ".xlsx")
    ensures SourceTypeOf(name) == "excel" ==> FormatOf(name) == ExcelFile
  {
    if EndsWith(name, ".xlsx") {
      assert name[|name| - 1] == 'x';
    }
  }

  /** `result.dataSourceId || Date.now().toString()`. */
  function SourceId(dataSourceId: string, now: nat): string {
    if dataSourceId != "" then dataSourceId else NatToString(now)
  }

  /** The source a successful import adds. */
  function ImportedSource(p: PreviewState, r: ImportResult, now: nat, isoNow: string): DataSource {
    DataSource(SourceId(r.dataSourceId, now), p.fileName, "file", SourceTypeOf(p.fileName), Active,
               Some(isoNow), Some(r.recordsProcessed), Some(p.file.size))
  }

  /** A successful import's identifier is never empty, so the new source keeps it and the
      clock fallback is never used; its record count is every record of the file. */
  lemma ImportedSourceFacts(p: PreviewState, jsonParse: string -> Option<Json>, dateParses: Json -> bool,
                            idTime: nat, now: nat, isoNow: string)
    requires ImportOutcome(p.file, p.kind, jsonParse, dateParses, None, idTime).success
    ensures var r := ImportOutcome(p.file, p.kind, jsonParse, dateParses, None, idTime);
      ImportedSource(p, r, now, isoNow).id == DataSourceId(idTime) &&
      ImportedSource(p, r, now, isoNow).recordCount == Some(|ParseFile(p.file, jsonParse).value|)
  {
    ImportFacts(p.file, p.kind, jsonParse, dateParses, None, idTime);
  }

  /** `config.url || config.storeUrl` and the like: the first value unless it is absent
      or empty. */
  function OrElse(a: Option<string>, b: Option<string>): Option<string> {
    if a.Some? && a.value != "" then a else b
  }

  function ConnectorProbe(config: ConnectorConfig): ProbeConfig {
    ProbeConfig(OrElse(config.url, config.storeUrl), OrElse(config.apiKey, config.accessToken), config.headers)
  }

  /** A connector is added unless it is an API connector whose probe fails. */
  predicate ConnectorAccepted(config: ConnectorConfig, fetch: Request -> Result<Response, Thrown>) {
    config.kind != "api" || TestApiConnection(ConnectorProbe(config), fetch).success
  }

  /** The source a connector adds; `roll` is `Math.floor(Math.random() * 3000)`. */
  function ConnectorSource(config: ConnectorConfig, now: nat, isoNow: string, roll: nat): DataSource {
    DataSource(NatToString(now), config.sourceType + " Connector", config.kind, config.sourceType, Active,
               Some(isoNow), Some(roll + 500), None)
  }

  /** An API connector is added exactly when its probe is answered with a 2xx status. */
  lemma ConnectorAcceptedIff(config: ConnectorConfig, fetch: Request -> Result<Response, Thrown>)
    ensures ConnectorAccepted(config, fetch) <==>
      config.kind != "api" ||
      (var answer := fetch(ProbeRequest(ConnectorProbe(config)));
       answer.Success? && 200 <= answer.value.status < 300)
  {
    ProbeOutcomeFacts(ConnectorProbe(config), fetch);
  }

  // ---------------------------------------------------------------------------
  // Progress

  /** One tick of the progress interval. */
  function NextProgress(p: nat): nat {
    if p >= 90 then 90 else p + 10
  }

  /** The progress after `ticks` ticks from 0. */
  function ProgressAfter(ticks: nat): nat {
    if ticks == 0 then 0 else NextProgress(ProgressAfter(ticks - 1))
  }

  /** From 0 the bar climbs by ten per tick and stops at 90. */
  lemma {:induction false} ProgressClimbs(ticks: nat)
    ensures ProgressAfter(ticks) == Min(10 * ticks, 90)
  {
    if ticks > 0 {
      ProgressClimbs(ticks - 1);
    }
  }

  // ---------------------------------------------------------------------------
  // Templates

  datatype Download = Download(content: string, filename: string)

  /** `handleDownloadTemplate(templateType)`: nothing for an unknown type. */
  function DownloadFor(templateType: string): Option<Download> {
    if templateType == "product" then Some(Download(ProductTemplate(), "product_template.csv"))
    else if templateType == "sales" then Some(Download(SalesTemplate(), "sales_template.csv"))
    else None
  }

  /** The type a template card's button asks for. */
  function TemplateChoice(cardName: string): string {
    if Includes(ToLower(cardName), "product") then "product" else "sales"
  }

  /** Every card downloads one of the two templates: the product one when its name
      mentions `product` in any case, the sales one otherwise. */
  lemma CardDownloads(cardName: string)
    ensures DownloadFor(TemplateChoice(cardName)).Some?
    ensures DownloadFor(TemplateChoice(cardName)).value.content ==
      if Includes(ToLower(cardName), "product") then ProductTemplate() else SalesTemplate()
  {
  }

  // ---------------------------------------------------------------------------
  // The page state

  function InitialSources(): seq<DataSource> {
    [DataSource("1", "Product Catalog CSV", "file", "csv", Active, Some("2024-01-15T10:30:00Z"), Some(2847), Some(1024000)),
     DataSource("2", "Sales Data Excel", "file", "excel", Active, Some("2024-01-15T09:15:00Z"), Some(15632), Some(2048000)),
     DataSource("3", "Shopify Store API", "api", "shopify", Syncing, Some("2024-01-15T11:00:00Z"), Some(1205), None)]
  }

  class Page {
    var dataSources: seq<DataSource>
    var uploadProgress: nat
    var isUploading: bool
    var showPreview: bool
    var previewData: Option<PreviewState>
    var isImporting: bool

    constructor()
      ensures dataSources == InitialSources() && uploadProgress == 0
      ensures !isUploading && !showPreview && previewData.None? && !isImporting
    {
      dataSources := InitialSources();
      uploadProgress := 0;
      isUploading := false;
      showPreview := false;
      previewData := None;
      isImporting := false;
    }

    /** One tick of the progress interval. */
    method Tick()
      modifies this
      ensures uploadProgress == NextProgress(old(uploadProgress))
      ensures dataSources == old(dataSources) && previewData == old(previewData)
      ensures isUploading == old(isUploading) && showPreview == old(showPreview)
      ensures isImporting == old(isImporting)
    {
      if uploadProgress >= 90 {
        uploadProgress := 90;
      } else {
        uploadProgress := uploadProgress + 10;
      }
    }

    /** `handleFileUpload` up to the preview: guess the kind, parse, validate, fill the
        bar and open the preview. */
    method HandleFileUpload(file: FileInput, dateParses: Json -> bool)
      modifies this
      ensures UploadValidation(file, dateParses).Success?
      ensures previewData == Some(PreviewState(UploadValidation(file, dateParses).value, file.name, file,
                                               InferKind(file.name)))
      ensures showPreview && isUploading && uploadProgress == 100
      ensures dataSources == old(dataSources) && isImporting == old(isImporting)
    {
      isUploading := true;
      uploadProgress := 0;
      var kind := InferKind(file.name);
      var records;
      if EndsWith(file.name, ".csv") {
        records := InlineRecords(file.text);
      } else {
        records := ExcelRecords();
      }
      UploadNeverThrows(file, dateParses);
      var validation := Validate(kind, records, dateParses);
      uploadProgress := 100;
      previewData := Some(PreviewState(validation.value, file.name, file, kind));
      showPreview := true;
    }

    /** The timer that runs half a second after an upload. */
    method UploadSettled()
      modifies this
      ensures !isUploading && uploadProgress == 0
      ensures dataSources == old(dataSources) && previewData == old(previewData)
      ensures showPreview == old(showPreview) && isImporting == old(isImporting)
    {
      isUploading := false;
      uploadProgress := 0;
    }

    method HandleCancelPreview()
      modifies this
      ensures !showPreview && previewData.None?
      ensures dataSources == old(dataSources) && isImporting == old(isImporting)
      ensures uploadProgress == old(uploadProgress) && isUploading == old(isUploading)
    {
      showPreview := false;
      previewData := None;
    }

    /** `handleImportData`: import the previewed file and, on success, append one source
        and close the preview. A failed import leaves the list and the preview as they
        were. The store receives the file exactly when the import reaches the upload. */
    method HandleImportData(storage: Storage, jsonParse: string -> Option<Json>, dateParses: Json -> bool,
                            uploadTime: nat, idTime: nat, now: nat, isoNow: string)
      modifies this, storage
      ensures old(previewData).None? ==>
        dataSources == old(dataSources) && previewData == old(previewData) &&
        showPreview == old(showPreview) && isImporting == old(isImporting) &&
        storage.uploads == old(storage.uploads)
      ensures old(previewData).Some? ==>
        var p := old(previewData).value;
        var r := ImportOutcome(p.file, p.kind, jsonParse, dateParses, old(storage.failure), idTime);
        dataSources == old(dataSources) + (if r.success then [ImportedSource(p, r, now, isoNow)] else []) &&
        (r.success ==> !showPreview && previewData.None?) &&
        (!r.success ==> showPreview == old(showPreview) && previewData == old(previewData)) &&
        !isImporting &&
        storage.uploads == old(storage.uploads) +
          (if ReachesUpload(p.file, p.kind, jsonParse, dateParses) then [UploadPath(uploadTime, p.file.name)] else [])
      ensures uploadProgress == old(uploadProgress) && isUploading == old(isUploading)
      ensures storage.failure == old(storage.failure)
    {
      if previewData.None? {
        return;
      }
      var p := previewData.value;
      isImporting := true;
      var r := ProcessDataFile(storage, p.file, p.kind, jsonParse, dateParses, uploadTime, idTime);
      if r.success {
        dataSources := dataSources + [ImportedSource(p, r, now, isoNow)];
        showPreview := false;
        previewData := None;
      }
      isImporting := false;
    }

    /** `handleConnectorAdd`: probe an API connector first; append the connector unless
        the probe failed. */
    method HandleConnectorAdd(config: ConnectorConfig, fetch: Request -> Result<Response, Thrown>,
                              now: nat, isoNow: string, roll: nat)
      requires roll < 3000
      modifies this
      ensures dataSources == old(dataSources) +
        (if ConnectorAccepted(config, fetch) then [ConnectorSource(config, now, isoNow, roll)] else [])
      ensures previewData == old(previewData) && showPreview == old(showPreview)
      ensures isImporting == old(isImporting) && uploadProgress == old(uploadProgress)
      ensures isUploading == old(isUploading)
    {
      if config.kind == "api" {
        var probe := TestApiConnection(ConnectorProbe(config), fetch);
        if !probe.success {
          return;
        }
      }
      dataSources := dataSources + [ConnectorSource(config, now, isoNow, roll)];
    }
  }
}
