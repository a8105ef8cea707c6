/** Whole-pipeline consequences: what happens when the shipped templates, an empty
    inventory file or a failing API go through the importer and the page. */
module Scenarios {
  import opened Wrappers
  import opened JsText
  import opened JsValue
  import opened CsvParser
  import opened Validation
  import opened Templates
  import opened Importer
  import opened ApiProbe
  import opened DataSourcesPage

  /** The product template saved as any `.csv` file imports as three records, with no
      warning, after one upload. */
  lemma ProductTemplateImports(file: FileInput, jsonParse: string -> Option<Json>, dateParses: Json -> bool,
                               idTime: nat)
    requires EndsWith(file.name, ".csv") && file.text == ProductTemplate()
    ensures ReachesUpload(file, Product, jsonParse, dateParses)
    ensures ImportOutcome(file, Product, jsonParse, dateParses, None, idTime) ==
      ImportResult(true, 3, 3, [], DataSourceId(idTime))
  {
    CsvFileParsed(file, jsonParse);
    ProductTemplateValidates();
    ProductTemplateRecords();
  }

  /** The sales template saved as any `.csv` file and imported as sales data is refused with every row missing
      `unitsSold`, and nothing is uploaded. */
  lemma SalesTemplateRefused(file: FileInput, jsonParse: string -> Option<Json>, dateParses: Json -> bool,
                             uploadError: Option<Thrown>, idTime: nat)
    requires EndsWith(file.name, ".csv") && file.text == SalesTemplate()
    ensures !ReachesUpload(file, Sales, jsonParse, dateParses)
    ensures var r := ImportOutcome(file, Sales, jsonParse, dateParses, uploadError, idTime);
      !r.success && r.recordsProcessed == 0 && r.recordsTotal == 3 &&
      forall i :: 0 <= i < 3 ==> MissingRequired(i, "unitsSold") in r.errors
  {
    CsvFileParsed(file, jsonParse);
    SalesTemplateRejected(dateParses);
    RejectedNeverUploads(file, Sales, jsonParse, dateParses, uploadError, idTime);
  }

  /** The page guesses the sales kind for the sales template's download name. */
  lemma SalesTemplateNameIsSales(file: FileInput)
    requires file.name == "sales_template.csv"
    ensures InferKind(file.name) == Sales
  {
    assert StartsWith(file.name, "sales");
    assert ToLower("sales") == "sales";
    SalesKeywordWins(file.name, "sales");
  }

  /** A CSV upload that does not start with white space is validated on what
      `parseCSV` returns. */
  lemma CsvUploadIsParsed(file: FileInput, dateParses: Json -> bool)
    requires EndsWith(file.name, ".csv") && |file.text| > 0 && !IsJsSpace(file.text[0])
    ensures UploadValidation(file, dateParses) == ValidationOf(InferKind(file.name), CsvRecords(file.text), dateParses)
  {
    InlineMatchesParser(file.text);
  }

  /** Uploading the downloaded sales template on the page previews a failed validation:
      three records, none valid, and the Import button stays disabled. */
  lemma SalesTemplatePreviewFails(file: FileInput, dateParses: Json -> bool)
    requires file.name == "sales_template.csv" && file.text == SalesTemplate()
    ensures UploadValidation(file, dateParses).Success?
    ensures var v := UploadValidation(file, dateParses).value;
      !v.isValid && v.recordCount == 3 && v.validRecords == 0 && v.errors != []
  {
    SalesTemplateNameIsSales(file);
    SalesTemplateStart();
    assert !IsJsSpace(file.text[0]) by {
      assert SalesHeaders[0][0] == 's';
    }
    assert EndsWith(file.name, ".csv");
    CsvUploadIsParsed(file, dateParses);
    SalesTemplateRejected(dateParses);
  }

  /** The sales template starts with its first header. */
  lemma SalesTemplateStart()
    ensures |SalesTemplate()| > 0 && SalesTemplate()[0] == SalesHeaders[0][0]
  {
    var rows := [SalesHeaders] + SalesSamples;
    JoinFirst(SalesHeaders, ',');
    JoinFirst(seq(|rows|, i requires 0 <= i < |rows| => RenderRow(rows[i])), '\n');
  }

  /** A CSV inventory file with at most a header line is refused with "No data found in
      file", and nothing is uploaded. */
  lemma EmptyInventoryRefused(file: FileInput, jsonParse: string -> Option<Json>, dateParses: Json -> bool,
                              uploadError: Option<Thrown>, idTime: nat)
    requires EndsWith(file.name, ".csv") && '\n' !in Trim(file.text)
    ensures !ReachesUpload(file, Inventory, jsonParse, dateParses)
    ensures ImportOutcome(file, Inventory, jsonParse, dateParses, uploadError, idTime) ==
      ImportResult(false, 0, 0, [NoDataMessage], "")
  {
    SplitWithoutSep(Trim(file.text), '\n');
  }

  /** An API answering 500 is reported as "API returned status 500", and the connector
      is not added. */
  lemma ServerErrorRefused(config: ConnectorConfig, fetch: Request -> Result<Response, Thrown>)
    requires config.kind == "api"
    requires fetch(ProbeRequest(ConnectorProbe(config))).Success?
    requires fetch(ProbeRequest(ConnectorProbe(config))).value.status == 500
    ensures TestApiConnection(ConnectorProbe(config), fetch) == ProbeResult(false, "API returned status 500", None)
    ensures !ConnectorAccepted(config, fetch)
  {
    assert IntToString(500) == "500";
  }
}
