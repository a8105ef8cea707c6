/** `generateProductTemplate` and `generateSalesTemplate` of src/lib/dataProcessing.ts:
    a fixed header row and three sample rows, each row joined with `,` and the rows
    with `\n`, and what the importer makes of them when they come back as files. */
module Templates {
  import opened Wrappers
  import opened JsText
  import opened JsValue
  import opened CsvParser
  import opened Validation

  const ProductHeaders: seq<string> :=
    ["sku", "name", "category", "subcategory", "brand", "price", "cost", "inventory_level", "launch_date"]

  const ProductSamples: seq<seq<string>> := [
    ["ELEC-001", "Wireless Headphones", "Electronics", "Audio", "TechBrand", "99.99", "45.00", "150", "2024-01-15"],
    ["APPR-001", "Cotton T-Shirt", "Apparel", "Shirts", "FashionCo", "24.99", "12.50", "300", "2024-02-01"],
    ["HOME-001", "Coffee Maker", "Home & Garden", "Kitchen", "HomePlus", "149.99", "75.00", "75", "2024-01-20"]
  ]

  const SalesHeaders: seq<string> := ["sku", "date", "units_sold", "revenue", "channel", "region"]

  const SalesSamples: seq<seq<string>> := [
    ["ELEC-001", "2024-01-15", "5", "499.95", "online", "North America"],
    ["APPR-001", "2024-01-16", "12", "299.88", "retail", "Europe"],
    ["HOME-001", "2024-01-17", "3", "449.97", "online", "Asia Pacific"]
  ]

  function ProductTemplate(): string {
    RenderCsv([ProductHeaders] + ProductSamples)
  }

  function SalesTemplate(): string {
    RenderCsv([SalesHeaders] + SalesSamples)
  }

  // ---------------------------------------------------------------------------
  // Parsing the templates back

  lemma ProductHeaderRowClean()
    ensures |ProductHeaders| == 9 && CleanRow(ProductHeaders)
  {
    assert CleanCell(ProductHeaders[0]);
    assert CleanCell(ProductHeaders[1]);
    assert CleanCell(ProductHeaders[2]);
    assert CleanCell(ProductHeaders[3]);
    assert CleanCell(ProductHeaders[4]);
    assert CleanCell(ProductHeaders[5]);
    assert CleanCell(ProductHeaders[6]);
    assert CleanCell(ProductHeaders[7]);
    assert CleanCell(ProductHeaders[8]);
  }

  lemma ProductRow0CleanFront()
    ensures |ProductSamples[0]| == 9
    ensures forall k :: 0 <= k < 5 ==> CleanCell(ProductSamples[0][k])
  {
    assert CleanCell(ProductSamples[0][0]);
    assert CleanCell(ProductSamples[0][1]);
    assert CleanCell(ProductSamples[0][2]);
    assert CleanCell(ProductSamples[0][3]);
    assert CleanCell(ProductSamples[0][4]);
  }

  lemma ProductRow0CleanBack()
    ensures |ProductSamples[0]| == 9
    ensures forall k :: 5 <= k < 9 ==> CleanCell(ProductSamples[0][k])
  {
    assert CleanCell(ProductSamples[0][5]);
    assert CleanCell(ProductSamples[0][6]);
    assert CleanCell(ProductSamples[0][7]);
    assert CleanCell(ProductSamples[0][8]);
  }

  lemma ProductRow0Clean()
    ensures |ProductSamples[0]| == 9 && CleanRow(ProductSamples[0])
  {
    ProductRow0CleanFront();
    ProductRow0CleanBack();
  }


  lemma ProductRow1CleanFront()
    ensures |ProductSamples[1]| == 9
    ensures forall k :: 0 <= k < 5 ==> CleanCell(ProductSamples[1][k])
  {
    assert CleanCell(ProductSamples[1][0]);
    assert CleanCell(ProductSamples[1][1]);
    assert CleanCell(ProductSamples[1][2]);
    assert CleanCell(ProductSamples[1][3]);
    assert CleanCell(ProductSamples[1][4]);
  }

  lemma ProductRow1CleanBack()
    ensures |ProductSamples[1]| == 9
    ensures forall k :: 5 <= k < 9 ==> CleanCell(ProductSamples[1][k])
  {
    assert CleanCell(ProductSamples[1][5]);
    assert CleanCell(ProductSamples[1][6]);
    assert CleanCell(ProductSamples[1][7]);
    assert CleanCell(ProductSamples[1][8]);
  }

  lemma ProductRow1Clean()
    ensures |ProductSamples[1]| == 9 && CleanRow(ProductSamples[1])
  {
    ProductRow1CleanFront();
    ProductRow1CleanBack();
  }


  lemma ProductRow2CleanFront()
    ensures |ProductSamples[2]| == 9
    ensures forall k :: 0 <= k < 5 ==> CleanCell(ProductSamples[2][k])
  {
    assert CleanCell(ProductSamples[2][0]);
    assert CleanCell(ProductSamples[2][1]);
    assert CleanCell(ProductSamples[2][2]);
    assert CleanCell(ProductSamples[2][3]);
    assert CleanCell(ProductSamples[2][4]);
  }

  lemma ProductRow2CleanBack()
    ensures |ProductSamples[2]| == 9
    ensures forall k :: 5 <= k < 9 ==> CleanCell(ProductSamples[2][k])
  {
    assert CleanCell(ProductSamples[2][5]);
    assert CleanCell(ProductSamples[2][6]);
    assert CleanCell(ProductSamples[2][7]);
    assert CleanCell(ProductSamples[2][8]);
  }

  lemma ProductRow2Clean()
    ensures |ProductSamples[2]| == 9 && CleanRow(ProductSamples[2])
  {
    ProductRow2CleanFront();
    ProductRow2CleanBack();
  }


  lemma SalesHeaderRowClean()
    ensures |SalesHeaders| == 6 && CleanRow(SalesHeaders)
  {
    assert CleanCell(SalesHeaders[0]);
    assert CleanCell(SalesHeaders[1]);
    assert CleanCell(SalesHeaders[2]);
    assert CleanCell(SalesHeaders[3]);
    assert CleanCell(SalesHeaders[4]);
    assert CleanCell(SalesHeaders[5]);
  }

  lemma SalesRow0Clean()
    ensures |SalesSamples[0]| == 6 && CleanRow(SalesSamples[0])
  {
    assert CleanCell(SalesSamples[0][0]);
    assert CleanCell(SalesSamples[0][1]);
    assert CleanCell(SalesSamples[0][2]);
    assert CleanCell(SalesSamples[0][3]);
    assert CleanCell(SalesSamples[0][4]);
    assert CleanCell(SalesSamples[0][5]);
  }

  lemma SalesRow1Clean()
    ensures |SalesSamples[1]| == 6 && CleanRow(SalesSamples[1])
  {
    assert CleanCell(SalesSamples[1][0]);
    assert CleanCell(SalesSamples[1][1]);
    assert CleanCell(SalesSamples[1][2]);
    assert CleanCell(SalesSamples[1][3]);
    assert CleanCell(SalesSamples[1][4]);
    assert CleanCell(SalesSamples[1][5]);
  }

  lemma SalesRow2Clean()
    ensures |SalesSamples[2]| == 6 && CleanRow(SalesSamples[2])
  {
    assert CleanCell(SalesSamples[2][0]);
    assert CleanCell(SalesSamples[2][1]);
    assert CleanCell(SalesSamples[2][2]);
    assert CleanCell(SalesSamples[2][3]);
    assert CleanCell(SalesSamples[2][4]);
    assert CleanCell(SalesSamples[2][5]);
  }

  /** Both templates render into lines the parser splits back into their cells. */
  lemma TemplateRowsClean()
    ensures forall i :: 0 <= i < 4 ==> |([ProductHeaders] + ProductSamples)[i]| == 9
    ensures forall i :: 0 <= i < 4 ==> CleanRow(([ProductHeaders] + ProductSamples)[i])
    ensures forall i :: 0 <= i < 4 ==> |([SalesHeaders] + SalesSamples)[i]| == 6
    ensures forall i :: 0 <= i < 4 ==> CleanRow(([SalesHeaders] + SalesSamples)[i])
  {
    ProductHeaderRowClean();
    ProductRow0Clean();
    ProductRow1Clean();
    ProductRow2Clean();
    SalesHeaderRowClean();
    SalesRow0Clean();
    SalesRow1Clean();
    SalesRow2Clean();
  }

  /** The product template parses into one record per sample row. */
  lemma ProductTemplateRecords()
    ensures |CsvRecords(ProductTemplate())| == 3
    ensures forall i :: 0 <= i < 3 ==>
      CsvRecords(ProductTemplate())[i] == JObj(RecordMembers(ProductHeaders, ProductSamples[i], 9))
  {
    TemplateRowsClean();
    ParseRendered([ProductHeaders] + ProductSamples);
  }

  /** The sales template parses into one record per sample row. */
  lemma SalesTemplateRecords()
    ensures |CsvRecords(SalesTemplate())| == 3
    ensures forall i :: 0 <= i < 3 ==>
      CsvRecords(SalesTemplate())[i] == JObj(RecordMembers(SalesHeaders, SalesSamples[i], 6))
  {
    TemplateRowsClean();
    ParseRendered([SalesHeaders] + SalesSamples);
  }

  // ---------------------------------------------------------------------------
  // Validating the templates

  /** No header name occurs twice. */
  predicate DistinctNames(hs: seq<string>) {
    forall i, j :: 0 <= i < j < |hs| ==> hs[i] != hs[j]
  }

  /** Nine distinct headers with the product fields where the template puts them. */
  predicate ProductHeaderShape(headers: seq<string>) {
    |headers| == 9 && DistinctNames(headers) &&
    headers[0] == "sku" && headers[1] == "name" && headers[2] == "category" &&
    headers[5] == "price" && headers[6] == "cost"
  }

  lemma ProductHeadersShaped()
    ensures ProductHeaderShape(ProductHeaders)
  {
  }

  /** A decimal number with one `.`. */
  ghost predicate DecimalCell(s: string) {
    exists d :: PointedAt(s, d)
  }

  /** A product row of nine cells with present `sku`, `name`, `category`, `price` and
      `cost`, the last two decimal numbers. */
  ghost predicate ProductRowFits(row: seq<string>) {
    |row| == 9 &&
    PresentCell(row[0]) && PresentCell(row[1]) && PresentCell(row[2]) &&
    PresentCell(row[5]) && PresentCell(row[6]) &&
    DecimalCell(row[5]) && DecimalCell(row[6])
  }

  /** A fitting product row is valid and draws no warning. */
  lemma ProductRowAccepted(headers: seq<string>, row: seq<string>, index: nat)
    requires ProductHeaderShape(headers) && ProductRowFits(row)
    ensures ProductRowErrors(JObj(RecordMembers(headers, row, 9)), index) == []
    ensures ProductRowWarnings(JObj(RecordMembers(headers, row, 9)), index) == []
  {
    var record := JObj(RecordMembers(headers, row, 9));
    var d5 :| PointedAt(row[5], d5);
    var d6 :| PointedAt(row[6], d6);
    PointedIsNumeric(row[5], d5);
    PointedIsNumeric(row[6], d6);
    PresentField(headers, row, 0);
    PresentField(headers, row, 1);
    PresentField(headers, row, 2);
    PresentField(headers, row, 5);
    PresentField(headers, row, 6);
    NumericField(headers, row, 5);
    NumericField(headers, row, 6);
    assert !FieldMissing(record, "sku") && !FieldMissing(record, "name");
    assert !NonNumeric(record, "price") && !NonNumeric(record, "cost");
    ProductRowValid(record, index);
    assert Truthy(Get(record, "category")) && Truthy(Get(record, "price")) && Truthy(Get(record, "cost"));
    ProductRowQuiet(record, index);
  }

  lemma ProductSample0Fits()
    ensures ProductRowFits(ProductSamples[0])
  {
    assert PointedAt(ProductSamples[0][5], 2) && PointedAt(ProductSamples[0][6], 2);
  }

  lemma ProductSample1Fits()
    ensures ProductRowFits(ProductSamples[1])
  {
    assert PointedAt(ProductSamples[1][5], 2) && PointedAt(ProductSamples[1][6], 2);
  }

  lemma ProductSample2Fits()
    ensures ProductRowFits(ProductSamples[2])
  {
    assert PointedAt(ProductSamples[2][5], 3) && PointedAt(ProductSamples[2][6], 2);
  }

  /** Fitting rows under the product headers give a clean product report. */
  lemma ProductRowsValidate(headers: seq<string>, rows: seq<seq<string>>, records: seq<Json>)
    requires ProductHeaderShape(headers)
    requires |records| == |rows| && |rows| <= 5
    requires forall i :: 0 <= i < |rows| ==> ProductRowFits(rows[i])
    requires forall i :: 0 <= i < |rows| ==> records[i] == JObj(RecordMembers(headers, rows[i], 9))
    ensures ProductReport(records) == Success(Report(true, [], [], |rows|, |rows|, records))
  {
    var n := |rows|;
    forall i | 0 <= i < n
      ensures ProductRowErrors(records[i], i) == [] && ProductRowWarnings(records[i], i) == []
    {
      ProductRowAccepted(headers, rows[i], i);
    }
    assert JNull !in records;
    NoMessagesIff(ProductRowErrors, records, n);
    NoMessagesIff(ProductRowWarnings, records, n);
    ValidCountBound(ProductRowErrors, records, n);
    assert records[..Min(5, n)] == records;
  }

  /** Every product sample row fills its fields with the shapes the validator accepts. */
  lemma ProductSamplesFit()
    ensures forall i :: 0 <= i < 3 ==> ProductRowFits(ProductSamples[i])
  {
    ProductSample0Fits();
    ProductSample1Fits();
    ProductSample2Fits();
  }

  /** The records of the product samples all pass, with no error and no warning. */
  lemma ProductSampleRecordsValidate(records: seq<Json>)
    requires |records| == 3
    requires forall i :: 0 <= i < 3 ==> records[i] == JObj(RecordMembers(ProductHeaders, ProductSamples[i], 9))
    ensures ProductReport(records) == Success(Report(true, [], [], 3, 3, records))
  {
    ProductHeadersShaped();
    ProductSamplesFit();
    ProductRowsValidate(ProductHeaders, ProductSamples, records);
  }

  /** The product template comes back as three valid records with no error and no
      warning. */
  lemma ProductTemplateValidates()
    ensures ProductReport(CsvRecords(ProductTemplate())) ==
      Success(Report(true, [], [], 3, 3, CsvRecords(ProductTemplate())))
  {
    ProductTemplateRecords();
    ProductSampleRecordsValidate(CsvRecords(ProductTemplate()));
  }

  /** Records built under headers that lack `unitsSold` all fail with that field
      missing, whatever their cells hold. */
  lemma {:induction false} NoUnitsColumnRejected(headers: seq<string>, rows: seq<seq<string>>, records: seq<Json>,
                                                 dateParses: Json -> bool)
    requires "unitsSold" !in headers
    requires |records| == |rows|
    requires forall i :: 0 <= i < |rows| ==> records[i] == JObj(RecordMembers(headers, rows[i], |headers|))
    ensures SalesReport(records, dateParses).Success?
    ensures SalesReport(records, dateParses).value.recordCount == |records|
    ensures SalesReport(records, dateParses).value.validRecords == 0
    ensures |records| > 0 ==> !SalesReport(records, dateParses).value.isValid
    ensures forall i :: 0 <= i < |records| ==>
      MissingRequired(i, "unitsSold") in SalesReport(records, dateParses).value.errors
  {
    var check := SalesRowCheck(dateParses);
    var n := |records|;
    assert SalesRequired[2] == "unitsSold";
    forall i | 0 <= i < n
      ensures MissingRequired(i, "unitsSold") in check(records[i], i)
    {
      RecordLacksKey(headers, rows[i], "unitsSold");
      MissingErrorsReport(records[i], i, SalesRequired, 2);
    }
    forall i | 0 <= i < n
      ensures MissingRequired(i, "unitsSold") in Messages(check, records, n)
    {
      MessagesContainRow(check, records, n, i);
    }
    assert JNull !in records;
    NoneValid(check, records, n);
  }

  /** The records of the sales samples all fail with a missing `unitsSold`. */
  lemma SalesSampleRecordsRejected(records: seq<Json>, dateParses: Json -> bool)
    requires |records| == 3
    requires forall i :: 0 <= i < 3 ==> records[i] == JObj(RecordMembers(SalesHeaders, SalesSamples[i], 6))
    ensures SalesReport(records, dateParses).Success?
    ensures SalesReport(records, dateParses).value.recordCount == 3
    ensures SalesReport(records, dateParses).value.validRecords == 0
    ensures !SalesReport(records, dateParses).value.isValid
    ensures forall i :: 0 <= i < 3 ==> MissingRequired(i, "unitsSold") in SalesReport(records, dateParses).value.errors
  {
    assert "unitsSold" !in SalesHeaders;
    NoUnitsColumnRejected(SalesHeaders, SalesSamples, records, dateParses);
  }

  /** Whatever `Date.parse` does, the sales template comes back as three records that
      all fail with a missing `unitsSold`: the template does not pass its own
      validator. */
  lemma SalesTemplateRejected(dateParses: Json -> bool)
    ensures SalesReport(CsvRecords(SalesTemplate()), dateParses).Success?
    ensures SalesReport(CsvRecords(SalesTemplate()), dateParses).value.recordCount == 3
    ensures SalesReport(CsvRecords(SalesTemplate()), dateParses).value.validRecords == 0
    ensures !SalesReport(CsvRecords(SalesTemplate()), dateParses).value.isValid
    ensures forall i :: 0 <= i < 3 ==>
      MissingRequired(i, "unitsSold") in SalesReport(CsvRecords(SalesTemplate()), dateParses).value.errors
  {
    SalesTemplateRecords();
    SalesSampleRecordsRejected(CsvRecords(SalesTemplate()), dateParses);
  }
}
