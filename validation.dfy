/** `validateProductData` and `validateSalesData` of src/lib/dataProcessing.ts, and the
    inline check the importer applies to inventory files. Each validator walks the
    records in order, pushes one message per problem onto an error list (and, for
    products, a warning list), counts the records without errors, and keeps the first
    five records as a preview. */
module Validation {
  import opened Wrappers
  import opened JsText
  import opened JsValue

  /** `DataValidationResult`. */
  datatype Report = Report(
    isValid: bool,
    errors: seq<string>,
    warnings: seq<string>,
    recordCount: nat,
    validRecords: nat,
    preview: seq<Json>)

  const ProductRequired: seq<string> := ["sku", "name"]
  const ProductRecommended: seq<string> := ["category", "price", "cost"]
  const SalesRequired: seq<string> := ["sku", "date", "unitsSold", "revenue"]

  const NoDataMessage: string := "No data found in file"

  function Min(a: nat, b: nat): nat { if a <= b then a else b }

  /** `records.slice(0, 5)`. */
  function Preview(records: seq<Json>): seq<Json> {
    records[..Min(5, |records|)]
  }

  // ---------------------------------------------------------------------------
  // Messages

  /** `Row ${index + 1}: ` — rows are numbered from 1. */
  function RowPrefix(index: nat): string {
    "Row " + NatToString(index + 1) + ": "
  }

  function MissingRequired(index: nat, field: string): string {
    RowPrefix(index) + "Missing required field '" + field + "'"
  }

  function MissingRecommended(index: nat, field: string): string {
    RowPrefix(index) + "Missing recommended field '" + field + "'"
  }

  function NotANumber(index: nat, what: string): string {
    RowPrefix(index) + what + " must be a number"
  }

  function InvalidDate(index: nat): string {
    RowPrefix(index) + "Invalid date format"
  }

  /** What reading a field of a `null` record throws. */
  function NullRead(field: string): string {
    "Cannot read properties of null (reading '" + field + "')"
  }

  // ---------------------------------------------------------------------------
  // One record

  /** `!record[field] || record[field].toString().trim() === ''`. */
  predicate FieldMissing(record: Json, field: string) {
    IsMissing(Get(record, field))
  }

  /** `record[field] && isNaN(Number(record[field]))`. */
  predicate NonNumeric(record: Json, field: string) {
    var v := Get(record, field);
    Truthy(v) && NumberIsNaN(v.value)
  }

  /** `record.date && isNaN(Date.parse(record.date))`, with `Date.parse` given. */
  predicate BadDate(record: Json, dateParses: Json -> bool) {
    var v := Get(record, "date");
    Truthy(v) && !dateParses(v.value)
  }

  /** The errors the required-field loop pushes for one record, in field order. */
  function MissingErrors(record: Json, index: nat, fields: seq<string>): seq<string> {
    if |fields| == 0 then []
    else
      var last := fields[|fields| - 1];
      MissingErrors(record, index, fields[..|fields| - 1]) +
      (if FieldMissing(record, last) then [MissingRequired(index, last)] else [])
  }

  /** The warnings the recommended-field loop pushes for one record (`!record[field]`). */
  function MissingWarnings(record: Json, index: nat, fields: seq<string>): seq<string> {
    if |fields| == 0 then []
    else
      var last := fields[|fields| - 1];
      MissingWarnings(record, index, fields[..|fields| - 1]) +
      (if !Truthy(Get(record, last)) then [MissingRecommended(index, last)] else [])
  }

  function ProductRowErrors(record: Json, index: nat): seq<string> {
    MissingErrors(record, index, ProductRequired) +
    (if NonNumeric(record, "price") then [NotANumber(index, "Price")] else []) +
    (if NonNumeric(record, "cost") then [NotANumber(index, "Cost")] else [])
  }

  function ProductRowWarnings(record: Json, index: nat): seq<string> {
    MissingWarnings(record, index, ProductRecommended)
  }

  function SalesRowErrors(record: Json, index: nat, dateParses: Json -> bool): seq<string> {
    MissingErrors(record, index, SalesRequired) +
    (if NonNumeric(record, "unitsSold") then [NotANumber(index, "Units sold")] else []) +
    (if NonNumeric(record, "revenue") then [NotANumber(index, "Revenue")] else []) +
    (if BadDate(record, dateParses) then [InvalidDate(index)] else [])
  }

  /** The sales row check with `Date.parse` fixed, as one value the folds can take. */
  function SalesRowCheck(dateParses: Json -> bool): (Json, nat) -> seq<string> {
    (record: Json, index: nat) => SalesRowErrors(record, index, dateParses)
  }

  /** The sales validator pushes no warnings. */
  function NoWarnings(record: Json, index: nat): seq<string> {
    []
  }

  // ---------------------------------------------------------------------------
  // Every record

  /** The messages pushed for the first `n` records, row after row. */
  function Messages(row: (Json, nat) -> seq<string>, records: seq<Json>, n: nat): seq<string>
    requires n <= |records|
  {
    if n == 0 then [] else Messages(row, records, n - 1) + row(records[n - 1], n - 1)
  }

  /** `validRecords` after the first `n` records: those that pushed no error. */
  function ValidCount(row: (Json, nat) -> seq<string>, records: seq<Json>, n: nat): nat
    requires n <= |records|
  {
    if n == 0 then 0
    else ValidCount(row, records, n - 1) + (if row(records[n - 1], n - 1) == [] then 1 else 0)
  }

  function Summary(records: seq<Json>, errors: seq<string>, warnings: seq<string>, valid: nat): Report {
    Report(|errors| == 0, errors, warnings, |records|, valid, Preview(records))
  }

  /** What `validateProductData(records)` returns, or the error it throws: reading
      `sku` of a `null` record throws before anything is returned. */
  function ProductReport(records: seq<Json>): Result<Report, string> {
    if JNull in records then Failure(NullRead("sku"))
    else
      var n := |records|;
      Success(Summary(records, Messages(ProductRowErrors, records, n),
                      Messages(ProductRowWarnings, records, n), ValidCount(ProductRowErrors, records, n)))
  }

  /** What `validateSalesData(records)` returns, or the error it throws. */
  function SalesReport(records: seq<Json>, dateParses: Json -> bool): Result<Report, string> {
    if JNull in records then Failure(NullRead("sku"))
    else
      var n := |records|;
      var check := SalesRowCheck(dateParses);
      Success(Summary(records, Messages(check, records, n),
                      Messages(NoWarnings, records, n), ValidCount(check, records, n)))
  }

  /** The importer's check for inventory files: the file must hold at least one record. */
  function GenericReport(records: seq<Json>): Report {
    Report(|records| > 0, if |records| == 0 then [NoDataMessage] else [], [],
           |records|, |records|, Preview(records))
  }

  // ---------------------------------------------------------------------------
  // The validators

  /** The required-field `forEach` for one record. */
  method CheckRequired(record: Json, index: nat, fields: seq<string>, errors0: seq<string>)
    returns (errors: seq<string>, allPresent: bool)
    ensures errors == errors0 + MissingErrors(record, index, fields)
    ensures allPresent <==> MissingErrors(record, index, fields) == []
  {
    errors := errors0;
    allPresent := true;
    var j := 0;
    while j < |fields|
      invariant j <= |fields|
      invariant errors == errors0 + MissingErrors(record, index, fields[..j])
      invariant allPresent <==> MissingErrors(record, index, fields[..j]) == []
    {
      assert fields[..j + 1][..j] == fields[..j];
      if FieldMissing(record, fields[j]) {
        errors := errors + [MissingRequired(index, fields[j])];
        allPresent := false;
      }
      j := j + 1;
    }
    assert fields[..|fields|] == fields;
  }

  /** The recommended-field `forEach` for one record. */
  method CheckRecommended(record: Json, index: nat, fields: seq<string>, warnings0: seq<string>)
    returns (warnings: seq<string>)
    ensures warnings == warnings0 + MissingWarnings(record, index, fields)
  {
    warnings := warnings0;
    var j := 0;
    while j < |fields|
      invariant j <= |fields|
      invariant warnings == warnings0 + MissingWarnings(record, index, fields[..j])
    {
      assert fields[..j + 1][..j] == fields[..j];
      if !Truthy(Get(record, fields[j])) {
        warnings := warnings + [MissingRecommended(index, fields[j])];
      }
      j := j + 1;
    }
    assert fields[..|fields|] == fields;
  }

  /** The body of the product `forEach` for one record that is not `null`. */
  method CheckProductRow(record: Json, index: nat, errors0: seq<string>, warnings0: seq<string>)
    returns (errors: seq<string>, warnings: seq<string>, isRecordValid: bool)
    ensures errors == errors0 + ProductRowErrors(record, index)
    ensures warnings == warnings0 + ProductRowWarnings(record, index)
    ensures isRecordValid <==> ProductRowErrors(record, index) == []
  {
    errors, isRecordValid := CheckRequired(record, index, ProductRequired, errors0);
    warnings := CheckRecommended(record, index, ProductRecommended, warnings0);
    if NonNumeric(record, "price") {
      errors := errors + [NotANumber(index, "Price")];
      isRecordValid := false;
    }
    if NonNumeric(record, "cost") {
      errors := errors + [NotANumber(index, "Cost")];
      isRecordValid := false;
    }
  }

  /** The body of the sales `forEach` for one record that is not `null`. */
  method CheckSalesRow(record: Json, index: nat, dateParses: Json -> bool, errors0: seq<string>)
    returns (errors: seq<string>, isRecordValid: bool)
    ensures errors == errors0 + SalesRowErrors(record, index, dateParses)
    ensures isRecordValid <==> SalesRowErrors(record, index, dateParses) == []
  {
    errors, isRecordValid := CheckRequired(record, index, SalesRequired, errors0);
    if NonNumeric(record, "unitsSold") {
      errors := errors + [NotANumber(index, "Units sold")];
      isRecordValid := false;
    }
    if NonNumeric(record, "revenue") {
      errors := errors + [NotANumber(index, "Revenue")];
      isRecordValid := false;
    }
    if BadDate(record, dateParses) {
      errors := errors + [InvalidDate(index)];
      isRecordValid := false;
    }
  }

  method ValidateProductData(records: seq<Json>) returns (result: Result<Report, string>)
    ensures result == ProductReport(records)
  {
    var errors: seq<string> := [];
    var warnings: seq<string> := [];
    var validRecords := 0;
    var index := 0;
    while index < |records|
      invariant index <= |records|
      invariant JNull !in records[..index]
      invariant errors == Messages(ProductRowErrors, records, index)
      invariant warnings == Messages(ProductRowWarnings, records, index)
      invariant validRecords == ValidCount(ProductRowErrors, records, index)
    {
      var record := records[index];
      if record == JNull {
        return Failure(NullRead("sku"));
      }
      var isRecordValid;
      errors, warnings, isRecordValid := CheckProductRow(record, index, errors, warnings);
      if isRecordValid {
        validRecords := validRecords + 1;
      }
      MessagesStep(ProductRowErrors, records, index);
      MessagesStep(ProductRowWarnings, records, index);
      PrefixGrows(records, index + 1);
      index := index + 1;
    }
    PrefixWhole(records);
    return Success(Report(|errors| == 0, errors, warnings, |records|, validRecords, Preview(records)));
  }

  method ValidateSalesData(records: seq<Json>, dateParses: Json -> bool)
    returns (result: Result<Report, string>)
    ensures result == SalesReport(records, dateParses)
  {
    var errors: seq<string> := [];
    var validRecords := 0;
    var index := 0;
    while index < |records|
      invariant index <= |records|
      invariant JNull !in records[..index]
      invariant errors == Messages(SalesRowCheck(dateParses), records, index)
      invariant validRecords == ValidCount(SalesRowCheck(dateParses), records, index)
    {
      var record := records[index];
      if record == JNull {
        return Failure(NullRead("sku"));
      }
      var isRecordValid;
      errors, isRecordValid := CheckSalesRow(record, index, dateParses, errors);
      assert SalesRowCheck(dateParses)(record, index) == SalesRowErrors(record, index, dateParses);
      if isRecordValid {
        validRecords := validRecords + 1;
      }
      PrefixGrows(records, index + 1);
      index := index + 1;
    }
    PrefixWhole(records);
    NoWarningsEmpty(records, |records|);
    return Success(Report(|errors| == 0, errors, [], |records|, validRecords, Preview(records)));
  }

  // ---------------------------------------------------------------------------
  // Properties

  /** The shape every validation report has, the inventory check's included. */
  predicate WellFormed(r: Report, records: seq<Json>) {
    r.recordCount == |records| &&
    r.validRecords <= r.recordCount &&
    (r.isValid <==> r.errors == []) &&
    r.preview == records[..Min(5, |records|)]
  }

  /** One more row appends that row's messages and counts it when it pushed none. */
  lemma MessagesStep(row: (Json, nat) -> seq<string>, records: seq<Json>, n: nat)
    requires n < |records|
    ensures Messages(row, records, n + 1) == Messages(row, records, n) + row(records[n], n)
    ensures ValidCount(row, records, n + 1) ==
      ValidCount(row, records, n) + (if row(records[n], n) == [] then 1 else 0)
  {
  }

  lemma {:induction false} NoWarningsEmpty(records: seq<Json>, n: nat)
    requires n <= |records|
    ensures Messages(NoWarnings, records, n) == []
  {
    if n > 0 {
      NoWarningsEmpty(records, n - 1);
    }
  }

  /** No more records are valid than were seen, and all of them are valid exactly when
      no message was pushed. */
  lemma {:induction false} ValidCountBound(row: (Json, nat) -> seq<string>, records: seq<Json>, n: nat)
    requires n <= |records|
    ensures ValidCount(row, records, n) <= n
    ensures ValidCount(row, records, n) == n <==> Messages(row, records, n) == []
  {
    if n > 0 {
      ValidCountBound(row, records, n - 1);
    }
  }

  /** No messages at all exactly when every row pushed none. */
  lemma {:induction false} NoMessagesIff(row: (Json, nat) -> seq<string>, records: seq<Json>, n: nat)
    requires n <= |records|
    ensures Messages(row, records, n) == [] <==> forall k :: 0 <= k < n ==> row(records[k], k) == []
  {
    if n > 0 {
      NoMessagesIff(row, records, n - 1);
    }
  }

  /** Messages come out in row order: those of the first `m` rows are a prefix of those
      of the first `n`. */
  lemma {:induction false} MessagesPrefix(row: (Json, nat) -> seq<string>, records: seq<Json>, m: nat, n: nat)
    requires m <= n <= |records|
    ensures Messages(row, records, m) <= Messages(row, records, n)
  {
    if m < n {
      MessagesPrefix(row, records, m, n - 1);
    }
  }

  /** Every invalid row pushes at least one message and at most `k`, and valid rows
      push none. */
  lemma {:induction false} MessageCounts(row: (Json, nat) -> seq<string>, records: seq<Json>, n: nat, k: nat)
    requires n <= |records|
    requires forall r, i :: |row(r, i)| <= k
    ensures ValidCount(row, records, n) <= n
    ensures n - ValidCount(row, records, n) <= |Messages(row, records, n)|
    ensures |Messages(row, records, n)| <= k * (n - ValidCount(row, records, n))
  {
    if n > 0 {
      MessageCounts(row, records, n - 1, k);
      var bad := n - 1 - ValidCount(row, records, n - 1);
      assert k * (bad + 1) == k * bad + k;
    }
  }

  /** At most `k` messages per row. */
  lemma {:induction false} MessageBound(row: (Json, nat) -> seq<string>, records: seq<Json>, n: nat, k: nat)
    requires n <= |records|
    requires forall r, i :: |row(r, i)| <= k
    ensures |Messages(row, records, n)| <= k * n
  {
    if n > 0 {
      MessageBound(row, records, n - 1, k);
      assert k * n == k * (n - 1) + k;
    }
  }

  lemma {:induction false} MissingErrorsCount(record: Json, index: nat, fields: seq<string>)
    ensures |MissingErrors(record, index, fields)| <= |fields|
  {
    if |fields| > 0 {
      MissingErrorsCount(record, index, fields[..|fields| - 1]);
    }
  }

  lemma {:induction false} MissingWarningsCount(record: Json, index: nat, fields: seq<string>)
    ensures |MissingWarnings(record, index, fields)| <= |fields|
  {
    if |fields| > 0 {
      MissingWarningsCount(record, index, fields[..|fields| - 1]);
    }
  }

  /** A record passes the required-field loop exactly when none of the fields is missing. */
  lemma {:induction false} MissingErrorsEmpty(record: Json, index: nat, fields: seq<string>)
    ensures MissingErrors(record, index, fields) == [] <==>
      forall k :: 0 <= k < |fields| ==> !FieldMissing(record, fields[k])
  {
    if |fields| > 0 {
      var init := fields[..|fields| - 1];
      MissingErrorsEmpty(record, index, init);
      assert forall k :: 0 <= k < |init| ==> init[k] == fields[k];
    }
  }

  /** A record draws no warning exactly when every recommended field is truthy. */
  lemma {:induction false} MissingWarningsEmpty(record: Json, index: nat, fields: seq<string>)
    ensures MissingWarnings(record, index, fields) == [] <==>
      forall k :: 0 <= k < |fields| ==> Truthy(Get(record, fields[k]))
  {
    if |fields| > 0 {
      var init := fields[..|fields| - 1];
      MissingWarningsEmpty(record, index, init);
      assert forall k :: 0 <= k < |init| ==> init[k] == fields[k];
    }
  }

  /** Every message of row `k` is among the messages of the first `n > k` rows. */
  lemma {:induction false} MessagesContainRow(row: (Json, nat) -> seq<string>, records: seq<Json>, n: nat, k: nat)
    requires k < n <= |records|
    ensures forall m :: m in row(records[k], k) ==> m in Messages(row, records, n)
  {
    if k < n - 1 {
      MessagesContainRow(row, records, n - 1, k);
    }
  }

  /** When every row draws a message, no record is valid. */
  lemma {:induction false} NoneValid(row: (Json, nat) -> seq<string>, records: seq<Json>, n: nat)
    requires n <= |records|
    requires forall k :: 0 <= k < n ==> row(records[k], k) != []
    ensures ValidCount(row, records, n) == 0
  {
    if n > 0 {
      NoneValid(row, records, n - 1);
    }
  }

  /** A missing field gets its own "Missing required field" error. */
  lemma {:induction false} MissingErrorsReport(record: Json, index: nat, fields: seq<string>, k: nat)
    requires k < |fields| && FieldMissing(record, fields[k])
    ensures MissingRequired(index, fields[k]) in MissingErrors(record, index, fields)
  {
    var init := fields[..|fields| - 1];
    if k < |init| {
      MissingErrorsReport(record, index, init, k);
    }
  }

  lemma ProductRowCounts(record: Json, index: nat)
    ensures |ProductRowErrors(record, index)| <= 4
    ensures |ProductRowWarnings(record, index)| <= 3
  {
    MissingErrorsCount(record, index, ProductRequired);
    MissingWarningsCount(record, index, ProductRecommended);
  }

  lemma SalesRowCount(record: Json, index: nat, dateParses: Json -> bool)
    ensures |SalesRowErrors(record, index, dateParses)| <= 7
  {
    MissingErrorsCount(record, index, SalesRequired);
  }

  /** A product record is valid exactly when `sku` and `name` are present and `price`
      and `cost` are either falsy or numeric; the recommended fields play no part. */
  lemma ProductRowValid(record: Json, index: nat)
    ensures ProductRowErrors(record, index) == [] <==>
      !FieldMissing(record, "sku") && !FieldMissing(record, "name") &&
      !NonNumeric(record, "price") && !NonNumeric(record, "cost")
  {
    MissingErrorsEmpty(record, index, ProductRequired);
  }

  /** A product record draws no warning exactly when `category`, `price` and `cost` are
      all truthy. */
  lemma ProductRowQuiet(record: Json, index: nat)
    ensures ProductRowWarnings(record, index) == [] <==>
      Truthy(Get(record, "category")) && Truthy(Get(record, "price")) && Truthy(Get(record, "cost"))
  {
    MissingWarningsEmpty(record, index, ProductRecommended);
    assert ProductRecommended[0] == "category" && ProductRecommended[1] == "price";
    assert ProductRecommended[2] == "cost";
  }

  /** A sales record is valid exactly when its four required fields are present,
      `unitsSold` and `revenue` are numeric and `date` parses. */
  lemma SalesRowValid(record: Json, index: nat, dateParses: Json -> bool)
    ensures SalesRowErrors(record, index, dateParses) == [] <==>
      !FieldMissing(record, "sku") && !FieldMissing(record, "date") &&
      !FieldMissing(record, "unitsSold") && !FieldMissing(record, "revenue") &&
      !NonNumeric(record, "unitsSold") && !NonNumeric(record, "revenue") &&
      !BadDate(record, dateParses)
  {
    MissingErrorsEmpty(record, index, SalesRequired);
    assert SalesRequired[0] == "sku" && SalesRequired[1] == "date";
    assert SalesRequired[2] == "unitsSold" && SalesRequired[3] == "revenue";
  }

  /** `validateProductData` throws exactly when a record is `null`; otherwise its report
      is well formed, every invalid row accounts for one to four errors, and there are
      at most three warnings per row. */
  lemma ProductReportFacts(records: seq<Json>)
    ensures ProductReport(records).Success? <==> JNull !in records
    ensures ProductReport(records).Failure? ==> ProductReport(records).error == NullRead("sku")
    ensures ProductReport(records).Success? ==>
      var r := ProductReport(records).value;
      WellFormed(r, records) && (r.isValid <==> r.validRecords == r.recordCount) &&
      r.recordCount - r.validRecords <= |r.errors| <= 4 * (r.recordCount - r.validRecords) &&
      |r.warnings| <= 3 * r.recordCount
  {
    var n := |records|;
    forall r, i | true
      ensures |ProductRowErrors(r, i)| <= 4 && |ProductRowWarnings(r, i)| <= 3
    {
      ProductRowCounts(r, i);
    }
    ValidCountBound(ProductRowErrors, records, n);
    MessageCounts(ProductRowErrors, records, n, 4);
    MessageBound(ProductRowWarnings, records, n, 3);
  }

  /** `validateSalesData` throws exactly when a record is `null`; otherwise its report is
      well formed, never carries a warning, and every invalid row accounts for one to
      seven errors. */
  lemma SalesReportFacts(records: seq<Json>, dateParses: Json -> bool)
    ensures SalesReport(records, dateParses).Success? <==> JNull !in records
    ensures SalesReport(records, dateParses).Failure? ==>
      SalesReport(records, dateParses).error == NullRead("sku")
    ensures SalesReport(records, dateParses).Success? ==>
      var r := SalesReport(records, dateParses).value;
      WellFormed(r, records) && (r.isValid <==> r.validRecords == r.recordCount) &&
      r.warnings == [] &&
      r.recordCount - r.validRecords <= |r.errors| <= 7 * (r.recordCount - r.validRecords)
  {
    var n := |records|;
    var check := SalesRowCheck(dateParses);
    forall r, i | true
      ensures |check(r, i)| <= 7
    {
      SalesRowCount(r, i, dateParses);
    }
    ValidCountBound(check, records, n);
    MessageCounts(check, records, n, 7);
    NoWarningsEmpty(records, n);
  }

  /** A product file is valid exactly when every record has `sku` and `name` and a
      numeric or falsy `price` and `cost`. */
  lemma ProductValidIff(records: seq<Json>)
    requires JNull !in records
    ensures ProductReport(records).value.isValid <==>
      forall k :: 0 <= k < |records| ==>
        !FieldMissing(records[k], "sku") && !FieldMissing(records[k], "name") &&
        !NonNumeric(records[k], "price") && !NonNumeric(records[k], "cost")
  {
    NoMessagesIff(ProductRowErrors, records, |records|);
    forall k | 0 <= k < |records| {
      ProductRowValid(records[k], k);
    }
  }

  /** A sales file is valid exactly when every record passes every sales check. */
  lemma SalesValidIff(records: seq<Json>, dateParses: Json -> bool)
    requires JNull !in records
    ensures SalesReport(records, dateParses).value.isValid <==>
      forall k :: 0 <= k < |records| ==>
        !FieldMissing(records[k], "sku") && !FieldMissing(records[k], "date") &&
        !FieldMissing(records[k], "unitsSold") && !FieldMissing(records[k], "revenue") &&
        !NonNumeric(records[k], "unitsSold") && !NonNumeric(records[k], "revenue") &&
        !BadDate(records[k], dateParses)
  {
    var check := SalesRowCheck(dateParses);
    NoMessagesIff(check, records, |records|);
    forall k | 0 <= k < |records| {
      SalesRowValid(records[k], k, dateParses);
    }
  }

  /** A sales record whose `unitsSold` is a number reading as zero is reported as missing
      that field, although `Number()` accepts it. */
  lemma ZeroUnitsSoldIsMissing(record: Json, index: nat, dateParses: Json -> bool, t: string)
    requires record.JObj? && Lookup(record.members, "unitsSold") == Some(JNum(t)) && IsZeroText(t)
    ensures MissingRequired(index, "unitsSold") in SalesRowErrors(record, index, dateParses)
    ensures !NonNumeric(record, "unitsSold")
  {
    ZeroNumberIsMissing(t);
    assert SalesRequired[2] == "unitsSold";
    MissingErrorsReport(record, index, SalesRequired, 2);
  }

  /** The inventory check: valid exactly when there is a record, with the single
      "No data found in file" error otherwise, and every record counted as valid — so,
      unlike the two validators, an empty file is invalid although `validRecords`
      equals `recordCount`. */
  lemma GenericReportFacts(records: seq<Json>)
    ensures WellFormed(GenericReport(records), records)
    ensures GenericReport(records).validRecords == GenericReport(records).recordCount
    ensures GenericReport(records).isValid <==> |records| > 0
    ensures GenericReport(records).errors == if |records| == 0 then [NoDataMessage] else []
    ensures GenericReport(records).warnings == []
  {
  }
}
