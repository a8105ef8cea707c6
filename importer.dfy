/** `processDataFile` of src/lib/dataProcessing.ts: pick a parser by the file name's
    suffix, validate the records by data kind, and upload the file to storage only when
    the validation passes. Anything thrown on the way is caught and turned into a failed
    import carrying the error's message. */
module Importer {
  import opened Wrappers
  import opened JsText
  import opened JsValue
  import opened CsvParser
  import opened Validation

  datatype DataKind = Product | Sales | Inventory

  /** The parts of a browser `File` the importer reads. */
  datatype FileInput = FileInput(name: string, size: nat, text: string)

  /** `DataImportResult`. */
  datatype ImportResult = ImportResult(
    success: bool,
    recordsProcessed: nat,
    recordsTotal: nat,
    errors: seq<string>,
    dataSourceId: string)

  /** What a `throw` hands to a `catch`: an `Error` with its message, or any other value. */
  datatype Thrown = ErrorThrown(message: string) | ValueThrown

  const UnsupportedMessage: string := "Unsupported file format"
  const InvalidJsonMessage: string := "Invalid JSON format"
  const UnknownErrorMessage: string := "Unknown error occurred"

  /** `error instanceof Error ? error.message : 'Unknown error occurred'`. */
  function CatchMessage(t: Thrown): string {
    match t
    case ErrorThrown(m) => m
    case ValueThrown => UnknownErrorMessage
  }

  // ---------------------------------------------------------------------------
  // Parsing by suffix

  datatype Format = CsvFile | ExcelFile | JsonFile | UnknownFile

  /** The suffix dispatch, tested in source order. */
  function FormatOf(name: string): Format {
    if EndsWith(name, ".csv") then CsvFile
    else if EndsWith(name, ".xlsx") || EndsWith(name, ".xls") then ExcelFile
    else if EndsWith(name, ".json") then JsonFile
    else UnknownFile
  }

  /** One of the two objects the Excel stub resolves with, whatever the file holds. */
  function DemoRecord(sku: string, name: string, category: string, price: string): Json {
    JObj([Member("sku", JStr(sku)), Member("name", JStr(name)),
          Member("category", JStr(category)), Member("price", JNum(price))])
  }

  /** `parseExcel`: a stub that ignores the file. */
  function ExcelRecords(): seq<Json> {
    [DemoRecord("DEMO-001", "Demo Product 1", "Electronics", "99.99"),
     DemoRecord("DEMO-002", "Demo Product 2", "Apparel", "49.99")]
  }

  /** `Array.isArray(data) ? data : [data]`. */
  function WrapJson(data: Json): seq<Json> {
    match data
    case JArr(items) => items
    case _ => [data]
  }

  /** `parseJSON`: `jsonParse` stands for `JSON.parse`, `None` for a text it rejects. */
  function ParseJson(text: string, jsonParse: string -> Option<Json>): Result<seq<Json>, string> {
    match jsonParse(text)
    case None => Failure(InvalidJsonMessage)
    case Some(data) => Success(WrapJson(data))
  }

  /** The records the importer reads from a file, or the message of what it throws. */
  function ParseFile(file: FileInput, jsonParse: string -> Option<Json>): Result<seq<Json>, string> {
    match FormatOf(file.name)
    case CsvFile => Success(CsvRecords(file.text))
    case ExcelFile => Success(ExcelRecords())
    case JsonFile => ParseJson(file.text, jsonParse)
    case UnknownFile => Failure(UnsupportedMessage)
  }

  /** The validation by data kind: the inventory kind only asks for a record. */
  function ValidationOf(kind: DataKind, records: seq<Json>, dateParses: Json -> bool): Result<Report, string> {
    match kind
    case Product => ProductReport(records)
    case Sales => SalesReport(records, dateParses)
    case Inventory => Success(GenericReport(records))
  }

  // ---------------------------------------------------------------------------
  // Storage

  /** `data-sources/${Date.now()}-${file.name}`. */
  function UploadPath(time: nat, name: string): string {
    "data-sources/" + NatToString(time) + "-" + name
  }

  /** `ds_${Date.now()}`. */
  function DataSourceId(time: nat): string {
    "ds_" + NatToString(time)
  }

  /** The file store. Every call of `Upload` is logged by path; `failure` is what the
      store throws, if anything, on an upload. */
  class Storage {
    var uploads: seq<string>
    var failure: Option<Thrown>

    constructor(failure: Option<Thrown>)
      ensures uploads == [] && this.failure == failure
    {
      uploads := [];
      this.failure := failure;
    }

    method Upload(file: FileInput, path: string) returns (error: Option<Thrown>)
      modifies this
      ensures uploads == old(uploads) + [path]
      ensures failure == old(failure)
      ensures error == failure
    {
      uploads := uploads + [path];
      error := failure;
    }
  }

  // ---------------------------------------------------------------------------
  // The import

  /** A failed import out of the `catch` block. */
  function Caught(message: string): ImportResult {
    ImportResult(false, 0, 0, [message], "")
  }

  /** The importer reaches the upload: the file parses, validates without throwing and
      the validation passes. */
  predicate ReachesUpload(file: FileInput, kind: DataKind, jsonParse: string -> Option<Json>,
                          dateParses: Json -> bool) {
    var parsed := ParseFile(file, jsonParse);
    parsed.Success? &&
    var validation := ValidationOf(kind, parsed.value, dateParses);
    validation.Success? && validation.value.isValid
  }

  /** What `processDataFile(file, kind)` resolves with, given what the upload throws and
      the clock reading taken for the identifier. */
  function ImportOutcome(file: FileInput, kind: DataKind, jsonParse: string -> Option<Json>,
                         dateParses: Json -> bool, uploadError: Option<Thrown>, idTime: nat): ImportResult
  {
    match ParseFile(file, jsonParse)
    case Failure(m) => Caught(m)
    case Success(records) =>
      match ValidationOf(kind, records, dateParses)
      case Failure(m) => Caught(m)
      case Success(v) =>
        if !v.isValid then ImportResult(false, 0, |records|, v.errors, "")
        else match uploadError
          case Some(t) => Caught(CatchMessage(t))
          case None => ImportResult(true, v.validRecords, |records|, v.warnings, DataSourceId(idTime))
  }

  method ParseInput(file: FileInput, jsonParse: string -> Option<Json>) returns (parsed: Result<seq<Json>, string>)
    ensures parsed == ParseFile(file, jsonParse)
  {
    match FormatOf(file.name) {
      case CsvFile =>
        var records := ParseCsv(file.text);
        parsed := Success(records);
      case ExcelFile =>
        parsed := Success(ExcelRecords());
      case JsonFile =>
        parsed := ParseJson(file.text, jsonParse);
      case UnknownFile =>
        parsed := Failure(UnsupportedMessage);
    }
  }

  method Validate(kind: DataKind, records: seq<Json>, dateParses: Json -> bool)
    returns (validation: Result<Report, string>)
    ensures validation == ValidationOf(kind, records, dateParses)
  {
    match kind {
      case Product =>
        validation := ValidateProductData(records);
      case Sales =>
        validation := ValidateSalesData(records, dateParses);
      case Inventory =>
        validation := Success(Report(|records| > 0, if |records| == 0 then [NoDataMessage] else [], [],
                                     |records|, |records|, records[..Min(5, |records|)]));
    }
  }

  /** `processDataFile`. The two `Date.now()` readings are parameters. The store is
      called once when the validation passes and never otherwise. */
  method ProcessDataFile(storage: Storage, file: FileInput, kind: DataKind,
                         jsonParse: string -> Option<Json>, dateParses: Json -> bool,
                         uploadTime: nat, idTime: nat)
    returns (result: ImportResult)
    modifies storage
    ensures result == ImportOutcome(file, kind, jsonParse, dateParses, storage.failure, idTime)
    ensures storage.failure == old(storage.failure)
    ensures storage.uploads == old(storage.uploads) +
      (if ReachesUpload(file, kind, jsonParse, dateParses) then [UploadPath(uploadTime, file.name)] else [])
  {
    var parsed := ParseInput(file, jsonParse);
    if parsed.Failure? {
      return Caught(parsed.error);
    }
    var records := parsed.value;
    var validation := Validate(kind, records, dateParses);
    if validation.Failure? {
      return Caught(validation.error);
    }
    var v := validation.value;
    if !v.isValid {
      return ImportResult(false, 0, |records|, v.errors, "");
    }
    var error := storage.Upload(file, UploadPath(uploadTime, file.name));
    if error.Some? {
      return Caught(CatchMessage(error.value));
    }
    result := ImportResult(true, v.validRecords, |records|, v.warnings, DataSourceId(idTime));
  }

  // ---------------------------------------------------------------------------
  // Properties

  /** `parseJSON` fails exactly when `JSON.parse` does; an array comes back as its
      elements and any other value as a one-element list. */
  lemma ParseJsonWraps(text: string, jsonParse: string -> Option<Json>)
    ensures ParseJson(text, jsonParse).Failure? <==> jsonParse(text).None?
    ensures ParseJson(text, jsonParse).Failure? ==> ParseJson(text, jsonParse).error == InvalidJsonMessage
    ensures jsonParse(text).Some? && jsonParse(text).value.JArr? ==>
      ParseJson(text, jsonParse) == Success(jsonParse(text).value.items)
    ensures jsonParse(text).Some? && !jsonParse(text).value.JArr? ==>
      ParseJson(text, jsonParse) == Success([jsonParse(text).value])
  {
  }

  /** A `.csv` file is read by `parseCSV`. */
  lemma CsvFileParsed(file: FileInput, jsonParse: string -> Option<Json>)
    requires EndsWith(file.name, ".csv")
    ensures ParseFile(file, jsonParse) == Success(CsvRecords(file.text))
  {
  }

  /** A name with none of the four suffixes fails before any parsing, with counts 0/0,
      the single "Unsupported file format" error and no identifier, and is never
      uploaded. */
  lemma UnsupportedFails(file: FileInput, kind: DataKind, jsonParse: string -> Option<Json>,
                         dateParses: Json -> bool, uploadError: Option<Thrown>, idTime: nat)
    requires !EndsWith(file.name, ".csv") && !EndsWith(file.name, ".xlsx")
    requires !EndsWith(file.name, ".xls") && !EndsWith(file.name, ".json")
    ensures ImportOutcome(file, kind, jsonParse, dateParses, uploadError, idTime) ==
      ImportResult(false, 0, 0, [UnsupportedMessage], "")
    ensures !ReachesUpload(file, kind, jsonParse, dateParses)
  {
  }

  /** A failed validation is reported with no record processed, every record counted,
      the validation's own errors and no identifier, and the file is never uploaded. */
  lemma RejectedNeverUploads(file: FileInput, kind: DataKind, jsonParse: string -> Option<Json>,
                             dateParses: Json -> bool, uploadError: Option<Thrown>, idTime: nat)
    requires ParseFile(file, jsonParse).Success?
    requires ValidationOf(kind, ParseFile(file, jsonParse).value, dateParses).Success?
    requires !ValidationOf(kind, ParseFile(file, jsonParse).value, dateParses).value.isValid
    ensures ImportOutcome(file, kind, jsonParse, dateParses, uploadError, idTime) ==
      ImportResult(false, 0, |ParseFile(file, jsonParse).value|,
                   ValidationOf(kind, ParseFile(file, jsonParse).value, dateParses).value.errors, "")
    ensures !ReachesUpload(file, kind, jsonParse, dateParses)
  {
  }

  /** The validation's report is well formed whichever kind is asked for, and a passing
      report counts every record as valid. */
  lemma ValidationShape(kind: DataKind, records: seq<Json>, dateParses: Json -> bool)
    requires ValidationOf(kind, records, dateParses).Success?
    ensures WellFormed(ValidationOf(kind, records, dateParses).value, records)
    ensures ValidationOf(kind, records, dateParses).value.isValid ==>
      ValidationOf(kind, records, dateParses).value.validRecords == |records|
  {
    match kind {
      case Product => ProductReportFacts(records);
      case Sales => SalesReportFacts(records, dateParses);
      case Inventory => GenericReportFacts(records);
    }
  }

  /** An import succeeds exactly when the upload is reached and does not throw. Then every
      record is processed, the warnings are passed on as the errors, and the identifier
      is `ds_` followed by the clock reading. A failed import processes nothing, has no
      identifier and always says why. */
  lemma ImportFacts(file: FileInput, kind: DataKind, jsonParse: string -> Option<Json>,
                    dateParses: Json -> bool, uploadError: Option<Thrown>, idTime: nat)
    ensures var r := ImportOutcome(file, kind, jsonParse, dateParses, uploadError, idTime);
      r.success <==> ReachesUpload(file, kind, jsonParse, dateParses) && uploadError.None?
    ensures var r := ImportOutcome(file, kind, jsonParse, dateParses, uploadError, idTime);
      r.success ==>
        var records := ParseFile(file, jsonParse).value;
        r.recordsProcessed == r.recordsTotal == |records| &&
        r.errors == ValidationOf(kind, records, dateParses).value.warnings &&
        StartsWith(r.dataSourceId, "ds_") && |r.dataSourceId| > 3
    ensures var r := ImportOutcome(file, kind, jsonParse, dateParses, uploadError, idTime);
      !r.success ==> r.recordsProcessed == 0 && r.dataSourceId == "" && r.errors != []
  {
    var parsed := ParseFile(file, jsonParse);
    if parsed.Success? {
      var validation := ValidationOf(kind, parsed.value, dateParses);
      if validation.Success? {
        ValidationShape(kind, parsed.value, dateParses);
      }
    }
  }

  /** A JSON file `JSON.parse` rejects fails with "Invalid JSON format" and is never
      uploaded. */
  lemma InvalidJsonFails(file: FileInput, kind: DataKind, jsonParse: string -> Option<Json>,
                         dateParses: Json -> bool, uploadError: Option<Thrown>, idTime: nat)
    requires EndsWith(file.name, ".json") && jsonParse(file.text).None?
    ensures ImportOutcome(file, kind, jsonParse, dateParses, uploadError, idTime) ==
      ImportResult(false, 0, 0, [InvalidJsonMessage], "")
    ensures !ReachesUpload(file, kind, jsonParse, dateParses)
  {
    assert !EndsWith(file.name, ".csv") by {
      assert file.name[|file.name| - 1] == 'n';
    }
    assert !EndsWith(file.name, ".xlsx") && !EndsWith(file.name, ".xls") by {
      assert file.name[|file.name| - 1] == 'n';
    }
  }

  /** A JSON array holding a `null` makes the product and sales validators throw; the
      import then fails with the thrown message and no count. */
  lemma NullRecordFails(file: FileInput, kind: DataKind, jsonParse: string -> Option<Json>,
                        dateParses: Json -> bool, uploadError: Option<Thrown>, idTime: nat)
    requires kind != Inventory
    requires ParseFile(file, jsonParse).Success? && JNull in ParseFile(file, jsonParse).value
    ensures ImportOutcome(file, kind, jsonParse, dateParses, uploadError, idTime) ==
      ImportResult(false, 0, 0, [NullRead("sku")], "")
    ensures !ReachesUpload(file, kind, jsonParse, dateParses)
  {
  }
}
