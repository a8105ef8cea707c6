# Data ingestion of a retail range-planning dashboard, in Dafny

This project models the data-ingestion core of a retail assortment dashboard and proves
properties of it. Users bring in product, sales and inventory data as CSV, Excel or JSON
files, or through API connectors. Each file is parsed into records. The records are
validated against a per-kind field list. The user sees a preview of the validation. Only
a valid file is uploaded and registered as a data source. The model covers:

- the parser, the validators, the importer, the templates and the API probe of
  `src/lib/dataProcessing.ts`;
- the upload and import handlers of the data sources page,
  `src/components/pages/DataSources.tsx`;
- the import preview card, `src/components/ui/data-preview.tsx`;
- the filtering and counting of the range analysis page,
  `src/components/pages/RangeAnalysis.tsx`.

Modules, one file each:

| file | module | models |
|---|---|---|
| `wrappers.dfy` | `Wrappers` | `Option`, `Result` |
| `js_text.dfy` | `JsText` | the JavaScript string built-ins the code calls: `trim`, `split`, `join`, `replace(/"/g, '')`, `toLowerCase`, `includes`, `endsWith`, integer rendering |
| `js_value.dfy` | `JsValue` | JavaScript values (`Json`), property read and write, truthiness, `toString().trim() === ''`, and `isNaN(Number(x))` following the ECMAScript StringToNumber grammar |
| `csv_parser.dfy` | `CsvParser` | `parseCSV` |
| `validation.dfy` | `Validation` | `validateProductData`, `validateSalesData` and the inventory check |
| `templates.dfy` | `Templates` | `generateProductTemplate`, `generateSalesTemplate` and what the validators make of them |
| `importer.dfy` | `Importer` | `processDataFile`, `parseExcel`, `parseJSON` and the file store |
| `api_probe.dfy` | `ApiProbe` | `testAPIConnection` |
| `data_sources.dfy` | `DataSourcesPage` | the upload widget, `handleFileUpload`, `handleImportData`, `handleCancelPreview`, `handleConnectorAdd`, the template downloads, and the page state as a class |
| `data_preview.dfy` | `DataPreview` | the preview card's status, alerts, tabs, sample table and Import button |
| `range_analysis.dfy` | `RangeAnalysis` | the table filter, the status cards and the recommendations tab |
| `scenarios.dfy` | `Scenarios` | whole-pipeline consequences for the shipped templates, an empty inventory file and a failing API |

Modelling choices:

- Methods carry the loops and the state. `ParseCsv`, `ValidateProductData`,
  `ValidateSalesData` and `ProcessDataFile` are methods proved equal to specification
  functions (`CsvRecords`, `ProductReport`, `SalesReport`, `ImportOutcome`). The lemmas
  state what those functions mean.
- The file store is a class `Storage` that logs each upload path.
- The page's React state is a class `Page`. Each of its fields is one `useState`, and
  each handler is a method.
- A number is kept as the text of its literal (`JNum(text)`). Validation only asks
  whether `Number(x)` is NaN and whether it is zero, and both are decided on the text.
- `JSON.parse`, `Date.parse`, the secure `fetch` and `toString` on numbers and arrays
  are function parameters. `Date.now()`, `new Date().toISOString()` and the random
  record count are value parameters.
- Reading a field of a `null` record throws a `TypeError` in the source. The model
  returns `Failure(message)` instead, and `processDataFile`'s `catch` turns that into a
  failed import. The message text (`Validation.NullRead`) is V8's wording; other
  JavaScript engines word this `TypeError` differently, so the text is engine-dependent.
- Objects are member lists, and `JsValue.Lookup` reads the first member with the key.
  The `jsonParse` parameter stands for `JSON.parse`, which keeps only the last of
  repeated keys, so it is taken to return objects without repeated keys; the CSV
  parsers build their objects with `JsValue.Put` and never repeat a key.
- The probe's headers, a `Record<string, string>`, are such an object too, with string
  values, so `headers[name]` and `headers[name] = v` are `JsValue.Lookup` and
  `JsValue.Put`.

Where the code and its design description disagree, the model follows the code:

- **Padded quoted cells.** Cells are said to be stored trimmed. The code trims before it
  strips quotes, so the cell `" x"` is stored as ` x` (`CsvParser.QuotedPaddingSurvives`).
- **Sales template round trip.** The sales template is said to validate. Its header is
  `units_sold`, but the validator requires `unitsSold`, so every sample row fails
  (`Templates.SalesTemplateRejected`, `Scenarios.SalesTemplateRefused`). The product
  template does validate (`Templates.ProductTemplateValidates`).
- **`isValid` and `validRecords` on an empty inventory file.** Both validators make
  `isValid` equivalent to `validRecords == recordCount`. The inventory check does not:
  on an empty file it reports invalid with 0 of 0 records valid
  (`Validation.GenericReportFacts`).
- **The page's own CSV parse.** It takes the header line from the untrimmed text and
  the data lines from the trimmed text. It agrees with `parseCSV` unless the file starts
  with white space (`DataSourcesPage.InlineMatchesParser`). After a leading line break,
  every record is keyed by the empty name only (`DataSourcesPage.InlineLosesHeaders`).
- **Source type of `.xls` files.** The importer reads `.xls` as a spreadsheet, but the
  page tags it `json` (`DataSourcesPage.XlsTaggedJson`).
- **Template cards.** The inventory and competitor template cards both download the
  sales template (`DataSourcesPage.CardDownloads`).
- **Zero is missing.** A numeric `0` in a required field is reported as missing, because
  the check is truthiness (`Validation.ZeroUnitsSoldIsMissing`).

## Model

| member | source | states |
|---|---|---|
| `JsText.TrimStart` | src/lib/dataProcessing.ts:48 | the result is no longer than the input and does not start with JavaScript white space |
| `JsText.TrimEnd` | src/lib/dataProcessing.ts:48 | the result is no longer than the input, keeps its first character and does not end with white space |
| `JsText.Trim` | src/lib/dataProcessing.ts:48 | `trim()` never lengthens a string |
| `JsText.TrimEnds` | src/lib/dataProcessing.ts:48 | a non-empty trimmed string has no white space at either end |
| `JsText.TrimInfix` | src/lib/dataProcessing.ts:48 | what `trim()` keeps is a contiguous part of the original |
| `JsText.TrimClean` | src/lib/dataProcessing.ts:51 | trimming a string with no white space at either end changes nothing |
| `JsText.TrimStartSuffix` | src/lib/dataProcessing.ts:48 | trimming the start keeps a suffix of the input |
| `JsText.TrimEndPrefix` | src/lib/dataProcessing.ts:48 | trimming the end keeps a prefix of the input |
| `JsText.Split` | src/lib/dataProcessing.ts:48 | `split(c)` yields at least one piece, and no piece contains `c` |
| `JsText.SplitGlue` | src/lib/dataProcessing.ts:55 | a separator-free prefix is glued onto the first piece of what follows it |
| `JsText.SplitJoin` | src/lib/dataProcessing.ts:302 | splitting the `join` of separator-free pieces gives the pieces back |
| `JsText.StripQuotes` | src/lib/dataProcessing.ts:51 | `replace(/"/g, '')` leaves no `"` and never lengthens |
| `JsText.StripQuotesClean` | src/lib/dataProcessing.ts:55 | on a string without `"`, the replace changes nothing |
| `JsText.ToLower` | src/components/pages/DataSources.tsx:369 | `toLowerCase()` keeps the length and lower-cases each ASCII letter in place |
| `JsText.ToLowerIdempotent` | src/components/pages/RangeAnalysis.tsx:121-122 | lower-casing twice is lower-casing once |
| `JsText.LowerOccurs` | src/components/pages/DataSources.tsx:369-370 | an occurrence of a word, lower-cased, is an occurrence in the lower-cased string at the same place |
| `JsText.IncludesAt` | src/components/pages/DataSources.tsx:370-372 | `includes` holds exactly when the text occurs at some position |
| `JsText.IncludesLower` | src/components/pages/RangeAnalysis.tsx:121-122 | `includes` survives lower-casing both sides |
| `JsText.IncludesEmpty` | src/components/pages/RangeAnalysis.tsx:121 | every string includes the empty string |
| `JsText.NatToString` | src/lib/dataProcessing.ts:124 | the decimal rendering is non-empty, all digits, with no leading zero |
| `JsText.IntToString` | src/lib/dataProcessing.ts:348 | the rendering of a status code is never empty |
| `JsValue.Keys` | src/components/ui/data-preview.tsx:158 | an object has one key per property |
| `JsValue.HasKeyInKeys` | src/components/ui/data-preview.tsx:158 | an object has a property exactly when its name is among its keys |
| `JsValue.Lookup` | src/lib/dataProcessing.ts:123 | `obj[key]` is `undefined` exactly when there is no such property |
| `JsValue.Put` | src/lib/dataProcessing.ts:62-64 | definition of `record[header] = value`: an existing property takes the new value in place, a new one is added last; `PutLookup` and `PutKeys` state it (the `__proto__` key is under "## Left out") |
| `JsValue.PutLookup` | src/lib/dataProcessing.ts:62-64 | after `obj[key] = v`, reading `key` gives `v` and every other property reads as before |
| `JsValue.PutKeys` | src/lib/dataProcessing.ts:62-64 | assigning an existing property keeps the key order; a new one is appended last |
| `JsValue.IndexOfEither` | src/lib/dataProcessing.ts:61 | the position of the exponent marker lies within the string |
| `JsValue.AllDigitsIff` | src/lib/dataProcessing.ts:61 | the recursive all-digits test agrees with its pointwise reading |
| `JsValue.DigitsAreNumeric` | src/lib/dataProcessing.ts:61 | a non-empty run of digits is accepted by `Number()` |
| `JsValue.DecimalMantissa` | src/lib/dataProcessing.ts:61 | `digits.digits` is a well-formed mantissa |
| `JsValue.DecimalIsNumeric` | src/lib/dataProcessing.ts:61 | `digits.digits` is accepted by `Number()` |
| `JsValue.PointedIsNumeric` | src/lib/dataProcessing.ts:61 | digits with one `.` after at least one digit are accepted by `Number()` |
| `JsValue.NotZeroText` | src/lib/dataProcessing.ts:123 | a trimmed text starting with anything but `0`, `.` or a sign never reads as zero |
| `JsValue.NotNumericText` | src/lib/dataProcessing.ts:61 | a text with a non-zero leading digit and some non-digit, with no `.` or exponent, is rejected by `Number()` |
| `JsValue.StringNumberFacts` | src/lib/dataProcessing.ts:137 | a string is NaN under `Number()` exactly when it is not numeric text, and truthy exactly when non-empty |
| `JsValue.ZeroNumberIsMissing` | src/lib/dataProcessing.ts:173 | a number reading as zero counts as a missing field, yet is not NaN |
| `JsValue.Truthy` | src/lib/dataProcessing.ts:131 | definition of JavaScript truthiness of a property (`!record[field]`): `undefined`, `null`, `false`, a zero number and `""` are falsy; `StringNumberFacts`, `ZeroNumberIsMissing` and `CoercePresent` state it |
| `JsValue.BlankString` | src/lib/dataProcessing.ts:123 | definition of `record[field].toString().trim() === ''`; `PresentField` and `CoercePresent` state it through `IsMissing` |
| `JsValue.IsMissing` | src/lib/dataProcessing.ts:123 | definition of the required-field test, also at line 173: falsy, or blank once rendered and trimmed; `PresentField`, `CoercePresent`, `ZeroNumberIsMissing` and `Validation.MissingErrorsEmpty` state it |
| `JsValue.IsNumericText` | src/lib/dataProcessing.ts:61 | definition of `!isNaN(Number(s))` for a string, per the StringToNumber grammar of ECMAScript; `DigitsAreNumeric`, `DecimalIsNumeric`, `PointedIsNumeric`, `NotNumericText` and `CsvParser.CoerceKind` state it |
| `JsValue.NumberIsNaN` | src/lib/dataProcessing.ts:137-142 | definition of `isNaN(Number(v))` on a field value, as also used at lines 180 and 185; `StringNumberFacts` and `ZeroNumberIsMissing` state it |
| `CsvParser.Clean` | src/lib/dataProcessing.ts:51 | definition of one cell as `parseCSV` cleans it: `trim()`, then every `"` removed; `CleanTrims` and `QuotedPaddingSurvives` state what that keeps |
| `CsvParser.Coerce` | src/lib/dataProcessing.ts:61-65 | definition of the stored value: a number exactly for a non-empty numeric cell, else the text; `CoerceKind` and `CoercePresent` state it |
| `CsvParser.CsvRecords` | src/lib/dataProcessing.ts:47-72 | definition of what `parseCSV` returns; `ParseCsv` computes it, and `CsvRecordsShape`, `RecordKeys`, `RecordValue` and `ParseRendered` state its properties |
| `CsvParser.CleanCells` | src/lib/dataProcessing.ts:51 | one cleaned cell per comma-separated piece, each trimmed and then stripped of `"` |
| `CsvParser.ParseCsv` | src/lib/dataProcessing.ts:47-72 | the parser's loop builds exactly `CsvRecords(text)` |
| `CsvParser.AssignFields` | src/lib/dataProcessing.ts:58-66 | the `forEach` over the headers builds the record of all header assignments in order |
| `CsvParser.RecordKeys` | src/lib/dataProcessing.ts:58-66 | a record is keyed by the header cells, each once, in order of first occurrence |
| `CsvParser.RecordValue` | src/lib/dataProcessing.ts:58-65 | a header's value is the coerced cell of its last column of that name; a header past the end of the line gets `""` |
| `CsvParser.RecordLacksKey` | src/lib/dataProcessing.ts:58-66 | a name that is not a header is not a property of the record |
| `CsvParser.PresentField` | src/lib/dataProcessing.ts:59-65 | a present cell is stored as a truthy, non-blank value |
| `CsvParser.NumericField` | src/lib/dataProcessing.ts:61-62 | a non-empty numeric cell is stored as a number |
| `CsvParser.RecordClean` | src/lib/dataProcessing.ts:51-55 | no key and no value of a parsed record contains `"` |
| `CsvParser.PutClean` | src/lib/dataProcessing.ts:62-64 | assigning a quote-free value under a quote-free key keeps the record quote-free |
| `CsvParser.CoerceKind` | src/lib/dataProcessing.ts:61-65 | a cell is stored as a number exactly when it is non-empty and numeric; either way its text is kept |
| `CsvParser.CoercePresent` | src/lib/dataProcessing.ts:61-65 | a present cell is stored truthy and non-blank, whether as number or string |
| `CsvParser.CleanCellsQuoteFree` | src/lib/dataProcessing.ts:51 | cleaned cells never contain `"` |
| `CsvParser.CsvRowShape` | src/lib/dataProcessing.ts:55-68 | each parsed line is an object keyed by the distinct header cells, free of `"` |
| `CsvParser.CsvRecordsShape` | src/lib/dataProcessing.ts:47-72 | fewer than two lines give no records; otherwise one record per data line, in line order, keyed by the header cells |
| `CsvParser.CsvRecordAt` | src/lib/dataProcessing.ts:54-69 | record `i` is the parse of line `i + 1` |
| `CsvParser.CleanTrims` | src/lib/dataProcessing.ts:55 | a cell without `"` comes out trimmed |
| `CsvParser.QuotedPaddingSurvives` | src/lib/dataProcessing.ts:55 | the quoted cell `" x"` is stored as ` x`: trimming happens before the quotes are stripped |
| `CsvParser.CleanCellsOfRendered` | src/lib/dataProcessing.ts:302 | cleaning the cells of a rendered row of clean cells gives the row back |
| `CsvParser.LinesOfRendered` | src/lib/dataProcessing.ts:302 | the lines of a rendered grid are its rendered rows |
| `CsvParser.ParseRendered` | src/lib/dataProcessing.ts:302 | parsing a rendered grid gives one record per data row, keyed by the header row |
| `Validation.ProductReport` | src/lib/dataProcessing.ts:110-158 | definition of the report `validateProductData` returns, or its throw on a `null` record; `ValidateProductData` computes it and `ProductReportFacts` and `ProductValidIff` state it |
| `Validation.SalesReport` | src/lib/dataProcessing.ts:161-207 | definition of the report `validateSalesData` returns, or its throw on a `null` record; `ValidateSalesData` computes it and `SalesReportFacts` and `SalesValidIff` state it |
| `Validation.GenericReport` | src/lib/dataProcessing.ts:236-245 | definition of the inventory check in `processDataFile`; `GenericReportFacts` states it |
| `Validation.ProductRowErrors` | src/lib/dataProcessing.ts:122-145 | definition of one product record's errors: missing `sku` then `name`, then non-numeric price, then cost; `CheckProductRow`, `ProductRowValid` and `ProductRowCounts` state it |
| `Validation.ProductRowWarnings` | src/lib/dataProcessing.ts:129-134 | definition of one product record's warnings, one per falsy `category`, `price`, `cost`; `ProductRowQuiet` and `ProductRowCounts` state it |
| `Validation.SalesRowErrors` | src/lib/dataProcessing.ts:169-196 | definition of one sales record's errors: the four missing-field checks, the two number checks and the date check; `CheckSalesRow`, `SalesRowValid` and `SalesRowCount` state it |
| `Validation.CheckRequired` | src/lib/dataProcessing.ts:122-127 | the required-field loop appends one error per missing field, and all fields are present exactly when it appends none |
| `Validation.CheckRecommended` | src/lib/dataProcessing.ts:130-134 | the recommended-field loop appends one warning per falsy field |
| `Validation.CheckProductRow` | src/lib/dataProcessing.ts:119-147 | one product record's errors and warnings are appended; the record is valid exactly when it has no error |
| `Validation.CheckSalesRow` | src/lib/dataProcessing.ts:169-196 | one sales record's errors are appended; the record is valid exactly when it has no error |
| `Validation.ValidateProductData` | src/lib/dataProcessing.ts:110-158 | the product validator's loop returns `ProductReport(records)`, or fails as the source throws on a `null` record |
| `Validation.ValidateSalesData` | src/lib/dataProcessing.ts:161-207 | the sales validator's loop returns `SalesReport(records)`, or fails on a `null` record |
| `Validation.ValidCountBound` | src/lib/dataProcessing.ts:147 | `validRecords` never exceeds the rows seen, and equals them exactly when no message was pushed |
| `Validation.NoMessagesIff` | src/lib/dataProcessing.ts:150-151 | there are no messages exactly when every row pushed none |
| `Validation.MessagesPrefix` | src/lib/dataProcessing.ts:118 | messages come out in row order |
| `Validation.MessageCounts` | src/lib/dataProcessing.ts:147 | every invalid row accounts for at least one and at most `k` messages |
| `Validation.MessageBound` | src/lib/dataProcessing.ts:118-148 | at most `k` messages per row |
| `Validation.NoWarningsEmpty` | src/lib/dataProcessing.ts:163 | the sales validator pushes no warning |
| `Validation.MissingErrorsCount` | src/lib/dataProcessing.ts:122-127 | at most one error per required field |
| `Validation.MissingWarningsCount` | src/lib/dataProcessing.ts:130-134 | at most one warning per recommended field |
| `Validation.MissingErrorsEmpty` | src/lib/dataProcessing.ts:122-127 | a record passes the required-field loop exactly when no required field is missing |
| `Validation.MissingWarningsEmpty` | src/lib/dataProcessing.ts:130-134 | a record draws no warning exactly when every recommended field is truthy |
| `Validation.MessagesContainRow` | src/lib/dataProcessing.ts:118-148 | every message of a row is among the file's messages |
| `Validation.NoneValid` | src/lib/dataProcessing.ts:147 | when every row draws a message, no record is valid |
| `Validation.MissingErrorsReport` | src/lib/dataProcessing.ts:123-124 | a missing required field gets its own `Row n: Missing required field` error |
| `Validation.ProductRowCounts` | src/lib/dataProcessing.ts:118-148 | a product row pushes at most four errors and three warnings |
| `Validation.SalesRowCount` | src/lib/dataProcessing.ts:168-197 | a sales row pushes at most seven errors |
| `Validation.ProductRowValid` | src/lib/dataProcessing.ts:119-147 | a product record is valid exactly when `sku` and `name` are present and `price` and `cost` are falsy or numeric |
| `Validation.ProductRowQuiet` | src/lib/dataProcessing.ts:130-134 | a product record draws no warning exactly when `category`, `price` and `cost` are truthy |
| `Validation.SalesRowValid` | src/lib/dataProcessing.ts:169-196 | a sales record is valid exactly when its four required fields are present, `unitsSold` and `revenue` are numeric and `date` parses |
| `Validation.ProductReportFacts` | src/lib/dataProcessing.ts:110-158 | the product validator throws exactly on a `null` record; otherwise: report well formed (preview = first five, counts, `isValid` iff no error), valid iff every record valid, one to four errors per invalid row, at most three warnings per row |
| `Validation.SalesReportFacts` | src/lib/dataProcessing.ts:161-207 | the sales validator throws exactly on a `null` record; otherwise the report is well formed, has no warnings, and each invalid row accounts for one to seven errors |
| `Validation.ProductValidIff` | src/lib/dataProcessing.ts:110-158 | a product file is valid exactly when every record has `sku` and `name` and a numeric or falsy `price` and `cost` |
| `Validation.SalesValidIff` | src/lib/dataProcessing.ts:161-207 | a sales file is valid exactly when every record passes every sales check |
| `Validation.ZeroUnitsSoldIsMissing` | src/lib/dataProcessing.ts:173-183 | a `unitsSold` of numeric zero is reported missing, though `Number()` accepts it |
| `Validation.GenericReportFacts` | src/lib/dataProcessing.ts:238-245 | the inventory check is valid exactly when there is a record, with the single "No data found in file" error otherwise, and counts every record valid |
| `Templates.ProductTemplate` | src/lib/dataProcessing.ts:294-303 | definition of `generateProductTemplate()`: the header row and three sample rows joined by `,` and newlines; `ProductTemplateRecords` and `ProductTemplateValidates` state what it parses to |
| `Templates.SalesTemplate` | src/lib/dataProcessing.ts:305-314 | definition of `generateSalesTemplate()`; `SalesTemplateRecords` and `SalesTemplateRejected` state what it parses and validates to |
| `Templates.ProductTemplateRecords` | src/lib/dataProcessing.ts:294-303 | the product template parses back into one record per sample row |
| `Templates.SalesTemplateRecords` | src/lib/dataProcessing.ts:305-314 | the sales template parses back into one record per sample row |
| `Templates.ProductRowAccepted` | src/lib/dataProcessing.ts:119-147 | a row with present `sku`, `name` and `category` and decimal `price` and `cost` under the template headers is valid with no warning |
| `Templates.ProductRowsValidate` | src/lib/dataProcessing.ts:110-158 | such rows give a report with no error, no warning and every record valid |
| `Templates.ProductSampleRecordsValidate` | src/lib/dataProcessing.ts:296-300 | the product sample records all pass with no message |
| `Templates.ProductTemplateValidates` | src/lib/dataProcessing.ts:294-303 | the product template validates: three records, all valid, no error, no warning |
| `Templates.SalesSampleRecordsRejected` | src/lib/dataProcessing.ts:305-314 | the sales sample records, keyed `units_sold`, all fail with a missing `unitsSold` |
| `Templates.NoUnitsColumnRejected` | src/lib/dataProcessing.ts:166-177 | records from a CSV with no `unitsSold` column all fail as sales data, each row reporting that field missing, with no valid record |
| `Templates.SalesTemplateRejected` | src/lib/dataProcessing.ts:305-314 | whatever `Date.parse` does, the sales template fails its own validator: three records, none valid |
| `Importer.FormatOf` | src/lib/dataProcessing.ts:218-228 | definition of the suffix dispatch of `processDataFile`: `.csv`, then `.xlsx` or `.xls`, then `.json`, else unsupported |
| `Importer.ExcelRecords` | src/lib/dataProcessing.ts:75-97 | definition of what `parseExcel` resolves to: the two demo records, whatever the file holds |
| `Importer.DemoRecord` | src/lib/dataProcessing.ts:86-87 | definition of one demo object the Excel stub resolves with; `ExcelRecords` lists the two |
| `Importer.ParseJson` | src/lib/dataProcessing.ts:100-107 | definition of `parseJSON` over a `JSON.parse` parameter; `ParseJsonWraps` states it |
| `Importer.ParseFile` | src/lib/dataProcessing.ts:214-228 | definition of the records parsed from a file, or the error thrown; `ParseInput` computes it and `CsvFileParsed`, `UnsupportedFails` and `InvalidJsonFails` state it |
| `Importer.ImportOutcome` | src/lib/dataProcessing.ts:210-291 | definition of what `processDataFile` returns; `ProcessDataFile` computes it and `ImportFacts`, `RejectedNeverUploads` and `NullRecordFails` state it |
| `Importer.ValidationOf` | src/lib/dataProcessing.ts:231-246 | definition of the validator chosen by data kind, with the inline inventory check; `Validate` computes it and `ValidationShape` states it |
| `Importer.UploadPath` | src/lib/dataProcessing.ts:259-263 | definition of the storage path `data-sources/<time>-<name>`; `ProcessDataFile` states that exactly this path is uploaded once on success |
| `Importer.DataSourceId` | src/lib/dataProcessing.ts:266 | definition of the returned id `ds_<time>`; `ImportFacts` states that a successful import's id starts with `ds_` and is longer than it |
| `Importer.Storage.constructor` | src/lib/dataProcessing.ts:259-263 | a fresh store has logged no upload |
| `Importer.Storage.Upload` | src/lib/dataProcessing.ts:259-263 | an upload logs its path and throws what the store is set to throw |
| `Importer.ParseInput` | src/lib/dataProcessing.ts:218-228 | the format dispatch on the file-name suffix, computing `ParseFile` |
| `Importer.CsvFileParsed` | src/lib/dataProcessing.ts:218-220 | any file whose name ends in `.csv` is read by `parseCSV` on its text |
| `Importer.Validate` | src/lib/dataProcessing.ts:231-246 | the validator dispatch on the data kind, computing `ValidationOf` |
| `Importer.ProcessDataFile` | src/lib/dataProcessing.ts:210-291 | `processDataFile` returns `ImportOutcome`, and uploads once exactly when the file parses and validates, to `data-sources/<time>-<name>` |
| `Importer.ParseJsonWraps` | src/lib/dataProcessing.ts:100-107 | `parseJSON` fails with "Invalid JSON format" exactly when `JSON.parse` throws; an array comes back as its elements, anything else as a one-element list |
| `Importer.UnsupportedFails` | src/lib/dataProcessing.ts:226-227 | a name with none of the four suffixes fails with "Unsupported file format", counts 0/0, and is never uploaded |
| `Importer.RejectedNeverUploads` | src/lib/dataProcessing.ts:248-256 | an invalid file is reported with nothing processed, every record counted, the validation's errors and no identifier, and is never uploaded |
| `Importer.ValidationShape` | src/lib/dataProcessing.ts:231-246 | whichever kind, the validation report is well formed, and a passing one counts every record valid |
| `Importer.ImportFacts` | src/lib/dataProcessing.ts:210-291 | success exactly when the upload is reached and does not throw; then every record is processed, warnings are passed as errors, and the id is `ds_` + clock; a failure processes nothing, has no id and gives a reason |
| `Importer.InvalidJsonFails` | src/lib/dataProcessing.ts:223-225 | a JSON file that `JSON.parse` rejects fails with "Invalid JSON format" and is never uploaded |
| `Importer.NullRecordFails` | src/lib/dataProcessing.ts:232-235 | a `null` record makes the product and sales imports fail with the thrown message and no count |
| `ApiProbe.RequestHeaders` | src/lib/dataProcessing.ts:323-330 | definition of the probe headers: the JSON content type spread under the caller's headers, then the Bearer key; `RequestHeadersFacts` states the resulting value of each header |
| `ApiProbe.ProbeOutcome` | src/lib/dataProcessing.ts:339-356 | definition of the status classification and the `catch`; `ProbeOutcomeFacts` states it |
| `ApiProbe.TestApiConnection` | src/lib/dataProcessing.ts:317-356 | definition of `testAPIConnection` with the fetch as a parameter; `ProbeOutcomeFacts` and `ServerErrorRefused` state it |
| `ApiProbe.SpreadValue` | src/lib/dataProcessing.ts:323-326 | in `{...base, ...extra}` the last value in `extra` wins, else the base value |
| `ApiProbe.SpreadDistinct` | src/lib/dataProcessing.ts:323-326 | a spread never has two headers of the same name |
| `ApiProbe.RequestHeadersFacts` | src/lib/dataProcessing.ts:323-337 | every header of the probe: the key's `Bearer` value wins for `Authorization`, then the caller's last value, then the `application/json` default; no name appears twice |
| `ApiProbe.ProbeOutcomeFacts` | src/lib/dataProcessing.ts:339-356 | the probe succeeds exactly on a 2xx status and only then returns the body; other statuses give "API returned status N"; a thrown `Error` gives its message, anything else "Connection failed" |
| `DataSourcesPage.Picked` | src/components/pages/DataSources.tsx:72-106 | definition of the file handed to `onUpload` by a drop or a pick; `PickedFacts` states it |
| `DataSourcesPage.InferKind` | src/components/pages/DataSources.tsx:368-374 | definition of the kind guessed from the lower-cased file name; `SalesKeywordWins`, `StockKeywordIsInventory` and `InferKindIgnoresCase` state it |
| `DataSourcesPage.InlineRecords` | src/components/pages/DataSources.tsx:380-390 | definition of the page's own CSV parse, with the headers read from the untrimmed text; `InlineMatchesParser` and `InlineLosesHeaders` state how it relates to `parseCSV` |
| `DataSourcesPage.UploadRecords` | src/components/pages/DataSources.tsx:377-396 | definition of the records the upload previews: the inline parse for `.csv`, the two demo records otherwise; `UploadNeverThrows` and `Scenarios.CsvUploadIsParsed` state it |
| `DataSourcesPage.UploadValidation` | src/components/pages/DataSources.tsx:398-412 | definition of the preview's validation by inferred kind; `UploadNeverThrows`, `Page.HandleFileUpload` and `Scenarios.SalesTemplatePreviewFails` state it |
| `DataSourcesPage.SourceTypeOf` | src/components/pages/DataSources.tsx:462-463 | definition of the `sourceType` tag of an imported file; `SourceTypeFacts` and `XlsTaggedJson` state it |
| `DataSourcesPage.NextProgress` | src/components/pages/DataSources.tsx:357-365 | definition of one tick of the progress interval; `ProgressClimbs` states where repeated ticks lead |
| `DataSourcesPage.TemplateChoice` | src/components/pages/DataSources.tsx:820-822 | definition of the template type a card's button asks for; `CardDownloads` states it |
| `DataSourcesPage.DownloadFor` | src/components/pages/DataSources.tsx:549-564 | definition of `handleDownloadTemplate`: the product or sales template with its file name, nothing for any other type; `CardDownloads` states it |
| `DataSourcesPage.InitialSources` | src/components/pages/DataSources.tsx:307-337 | definition of the three sources the page starts with; `Page.constructor` installs them |
| `DataSourcesPage.ImportedSource` | src/components/pages/DataSources.tsx:456-467 | definition of the source a successful import adds, with the clock as the id fallback; `ImportedSourceFacts` and `Page.HandleImportData` state it |
| `DataSourcesPage.OrElse` | src/components/pages/DataSources.tsx:508-509 | definition of JavaScript's logical or on two optional strings (the first unless absent or empty), used for the probe's URL and key; `ConnectorAcceptedIff` and `Scenarios.ServerErrorRefused` state the probe built with it |
| `DataSourcesPage.ConnectorSource` | src/components/pages/DataSources.tsx:523-531 | definition of the source a connector adds; `Page.HandleConnectorAdd` states it is appended exactly when the connector is accepted |
| `DataSourcesPage.PickedFacts` | src/components/pages/DataSources.tsx:72-106 | only the first file is passed on, and it is refused exactly when larger than the limit |
| `DataSourcesPage.InferKindIgnoresCase` | src/components/pages/DataSources.tsx:368-374 | letter case in the file name does not change the guessed kind |
| `DataSourcesPage.SalesKeywordWins` | src/components/pages/DataSources.tsx:370-371 | a name holding `sales` in any case is a sales file, whatever else it holds |
| `DataSourcesPage.StockKeywordIsInventory` | src/components/pages/DataSources.tsx:372-373 | a name holding `stock` and neither sales keyword is an inventory file |
| `DataSourcesPage.InlineObjects` | src/components/pages/DataSources.tsx:380-390 | the page's parse yields only objects |
| `DataSourcesPage.InlineMatchesParser` | src/components/pages/DataSources.tsx:378-390 | without white space at the start of the text, the page's parse equals `parseCSV` |
| `DataSourcesPage.LeadingBreakHeaders` | src/components/pages/DataSources.tsx:382 | after a leading line break, the header line is empty: one header, the empty name |
| `DataSourcesPage.InlineLosesHeaders` | src/components/pages/DataSources.tsx:380-390 | with a leading line break, the page's parse has as many records as `parseCSV`, but every non-empty field reads as absent |
| `DataSourcesPage.LeadingBreakRejectsProducts` | src/components/pages/DataSources.tsx:380-401 | such a file previewed as products has no valid record and, if non-empty, is invalid |
| `DataSourcesPage.UploadNeverThrows` | src/components/pages/DataSources.tsx:376-413 | the preview validation never throws and its report is well formed |
| `DataSourcesPage.XlsTaggedJson` | src/components/pages/DataSources.tsx:462-463 | an `.xls` file, read as a spreadsheet by the importer, is tagged `json` |
| `DataSourcesPage.SourceTypeFacts` | src/components/pages/DataSources.tsx:462-463 | the tag is `csv` exactly for CSV files, and `excel` exactly for `.xlsx` |
| `DataSourcesPage.ImportedSourceFacts` | src/components/pages/DataSources.tsx:457-467 | a successful import's source keeps the importer's id, never the clock fallback, and counts every record |
| `DataSourcesPage.ConnectorAcceptedIff` | src/components/pages/DataSources.tsx:503-522 | an API connector is added exactly when its probe is answered 2xx; other connectors always are |
| `DataSourcesPage.ProgressClimbs` | src/components/pages/DataSources.tsx:357-365 | from 0 the progress bar rises by ten per tick and stops at 90 |
| `DataSourcesPage.CardDownloads` | src/components/pages/DataSources.tsx:549-564 | every template card downloads a template: the product one when its name mentions `product`, else the sales one |
| `DataSourcesPage.Page.constructor` | src/components/pages/DataSources.tsx:307-348 | the page starts with the three shipped sources, no upload, no preview and no import |
| `DataSourcesPage.Page.Tick` | src/components/pages/DataSources.tsx:357-365 | one interval tick advances only the progress bar |
| `DataSourcesPage.Page.HandleFileUpload` | src/components/pages/DataSources.tsx:351-426 | the upload guesses the kind, validates without throwing, fills the bar and opens the preview; the sources are untouched |
| `DataSourcesPage.Page.UploadSettled` | src/components/pages/DataSources.tsx:427-430 | half a second later, uploading ends and the bar resets |
| `DataSourcesPage.Page.HandleCancelPreview` | src/components/pages/DataSources.tsx:498-501 | cancelling closes and clears the preview and changes nothing else |
| `DataSourcesPage.Page.HandleImportData` | src/components/pages/DataSources.tsx:444-496 | without a preview nothing happens; otherwise one source is appended and the preview closed exactly when the import succeeds, the import flag ends cleared, and the store logs the file once exactly when the import reaches the upload (no upload without a preview) |
| `DataSourcesPage.Page.HandleConnectorAdd` | src/components/pages/DataSources.tsx:503-547 | one connector source is appended exactly when the connector is accepted |
| `DataPreview.StatusOf` | src/components/ui/data-preview.tsx:29-45 | definition of the error, then warning, split shared by the status text, colour and icon; `StatusFacts` states it |
| `DataPreview.StatusText` | src/components/ui/data-preview.tsx:41-45 | definition of `getStatusText`; `StatusFacts` states which report gives which text |
| `DataPreview.StatusColor` | src/components/ui/data-preview.tsx:29-33 | definition of `getStatusColor`; `StatusFacts` states it follows the status text |
| `DataPreview.StatusIcon` | src/components/ui/data-preview.tsx:35-39 | definition of `getStatusIcon`, by component name; `StatusFacts` states it follows the status text |
| `DataPreview.ShownLines` | src/components/ui/data-preview.tsx:95-125 | definition of one alert's lines; `ShownLinesFacts` and `AlertFacts` state it |
| `DataPreview.ErrorAlert` | src/components/ui/data-preview.tsx:91-107 | definition of the error alert: absent without errors, else at most 5 errors and an overflow line; `AlertFacts` states it |
| `DataPreview.WarningAlert` | src/components/ui/data-preview.tsx:110-126 | definition of the warning alert: absent without warnings, else at most 3 warnings and an overflow line; `AlertFacts` states it |
| `DataPreview.TabLabels` | src/components/ui/data-preview.tsx:130-143 | definition of the tab triggers and their labels; `TabFacts` states it |
| `DataPreview.ImportDisabled` | src/components/ui/data-preview.tsx:229 | definition of the Import button's `disabled` condition; `ImportEnabledIff` states it |
| `DataPreview.CellText` | src/components/ui/data-preview.tsx:170 | definition of `value?.toString() || '-'`; `CellTextNeverBlank` states it |
| `DataPreview.SampleTable` | src/components/ui/data-preview.tsx:145-182 | definition of the sample table drawn from the preview; `CsvTableAligned` and `ColumnsMatchValues` state it |
| `DataPreview.Columns` | src/components/ui/data-preview.tsx:158 | definition of `Object.keys` of a preview record; `ColumnsMatchValues`, `CsvRecordWidth` and `CsvTableAligned` state it |
| `DataPreview.Values` | src/components/ui/data-preview.tsx:168 | definition of `Object.values` of a preview record, in key order; `ColumnsMatchValues`, `CsvRecordWidth` and `CsvTableAligned` state it |
| `DataPreview.StatusFacts` | src/components/ui/data-preview.tsx:29-45 | errors show "Validation Failed", else warnings show "…with Warnings", else "Validation Passed"; colour and icon follow; on a well-formed report "Failed" means invalid |
| `DataPreview.ShownLinesFacts` | src/components/ui/data-preview.tsx:97-104 | an alert shows the first messages in order up to its limit, plus one "...and N more" line exactly when some are hidden |
| `DataPreview.AlertFacts` | src/components/ui/data-preview.tsx:91-127 | each alert appears exactly when its list is non-empty; at most six error lines and four warning lines |
| `DataPreview.TabFacts` | src/components/ui/data-preview.tsx:130-143 | the data tab always comes first; the errors tab appears exactly with errors and the warnings tab exactly with warnings, each labelled with its count |
| `DataPreview.ImportEnabledIff` | src/components/ui/data-preview.tsx:227-233 | on a well-formed report, Import can be pressed exactly when no import is running and the report is valid |
| `DataPreview.ColumnsMatchValues` | src/components/ui/data-preview.tsx:158-168 | `Object.keys` and `Object.values` of any value have the same length |
| `DataPreview.CellTextNeverBlank` | src/components/ui/data-preview.tsx:170 | no cell is blank; `null` and `""` show as `-` |
| `DataPreview.CsvRecordWidth` | src/components/ui/data-preview.tsx:158-172 | a parsed CSV record has one value per column name |
| `DataPreview.CsvTableAligned` | src/components/ui/data-preview.tsx:145-182 | for a parsed CSV file, the sample table has one row per previewed record and one cell per column |
| `RangeAnalysis.RangeData` | src/components/pages/RangeAnalysis.tsx:25-91 | definition of the five shipped products; `ShippedStats` and `ShippedRecommendations` state what the page shows for them |
| `RangeAnalysis.FilterBy` | src/components/pages/RangeAnalysis.tsx:118 | definition of `Array.prototype.filter` on the rows; `FilterByFacts`, `FilterByAll`, `FilterByTwice`, `FilterByEqual` and `FilterByAppend` state it |
| `RangeAnalysis.Matches` | src/components/pages/RangeAnalysis.tsx:119-124 | definition of the category, status and search test of `filteredData`; `FilteredFacts`, `DefaultsShowAll` and `SearchIgnoresCase` state it |
| `RangeAnalysis.Filtered` | src/components/pages/RangeAnalysis.tsx:118-125 | definition of `filteredData`; `FilteredFacts`, `DefaultsShowAll` and `SearchIgnoresCase` state it |
| `RangeAnalysis.Recommended` | src/components/pages/RangeAnalysis.tsx:411-412 | definition of the recommendations list; `RecommendedFacts` states it |
| `RangeAnalysis.ImpactLabel` | src/components/pages/RangeAnalysis.tsx:439-440 | definition of the revenue impact label; `RecommendedFacts` states which labels are positive |
| `RangeAnalysis.CountStatus` | src/components/pages/RangeAnalysis.tsx:129-132 | definition of one status count; `CountIsFilterLength` and `StatusCardMatchesFilter` state it |
| `RangeAnalysis.CategoryStats` | src/components/pages/RangeAnalysis.tsx:127-133 | definition of `categoryStats`; `StatusCountsBound` and `ShippedStats` state it |
| `RangeAnalysis.FilterByFacts` | src/components/pages/RangeAnalysis.tsx:118-125 | `filter` keeps exactly the passing items, in order, and never lengthens |
| `RangeAnalysis.FilterByAll` | src/components/pages/RangeAnalysis.tsx:118-125 | when every item passes, the filter changes nothing |
| `RangeAnalysis.FilterByTwice` | src/components/pages/RangeAnalysis.tsx:411-412 | filtering twice is filtering once by both tests |
| `RangeAnalysis.FilterByEqual` | src/components/pages/RangeAnalysis.tsx:118-133 | filters that agree on every item give the same result |
| `RangeAnalysis.FilterByAppend` | src/components/pages/RangeAnalysis.tsx:411-412 | the filter of two joined lists is the two filters joined |
| `RangeAnalysis.CountIsFilterLength` | src/components/pages/RangeAnalysis.tsx:129-132 | a status count is the length of the status filter |
| `RangeAnalysis.FilteredFacts` | src/components/pages/RangeAnalysis.tsx:118-125 | the table shows, in order, exactly the items matching category, status and search |
| `RangeAnalysis.DefaultsShowAll` | src/components/pages/RangeAnalysis.tsx:114-125 | with both selectors on `all` and an empty search, every item is shown |
| `RangeAnalysis.SearchIgnoresCase` | src/components/pages/RangeAnalysis.tsx:121-122 | the search is case-insensitive, and a term found in the name as typed always matches |
| `RangeAnalysis.StatusCardMatchesFilter` | src/components/pages/RangeAnalysis.tsx:118-133 | selecting a status shows as many rows as that status card counts |
| `RangeAnalysis.StatusCountsBound` | src/components/pages/RangeAnalysis.tsx:127-133 | the four status counts add up to at most the total |
| `RangeAnalysis.RecommendedFacts` | src/components/pages/RangeAnalysis.tsx:411-440 | the recommendations tab lists, in order, the shown items not marked `maintain`; the impact starts with `+` exactly for `expand` |
| `RangeAnalysis.ShippedStats` | src/components/pages/RangeAnalysis.tsx:25-91 | on the shipped data the cards read 5 products: 2 performing, 1 underperforming, 1 opportunity, 1 at risk |
| `RangeAnalysis.MiddleMaintainDropped` | src/components/pages/RangeAnalysis.tsx:411-412 | of five items with only the third marked `maintain`, the tab keeps the other four |
| `RangeAnalysis.ShippedRecommendations` | src/components/pages/RangeAnalysis.tsx:25-91 | with the default filters, the tab lists every shipped product but the one marked `maintain` |
| `Scenarios.ProductTemplateImports` | src/lib/dataProcessing.ts:210-303 | the product template saved under any `.csv` name imports as three records with no warning |
| `Scenarios.SalesTemplateRefused` | src/lib/dataProcessing.ts:210-314 | the sales template saved under any `.csv` name and imported as sales data is refused, all rows missing `unitsSold`, and nothing is uploaded |
| `Scenarios.SalesTemplateNameIsSales` | src/components/pages/DataSources.tsx:369-371 | the page guesses the sales kind for `sales_template.csv` |
| `Scenarios.SalesTemplatePreviewFails` | src/components/pages/DataSources.tsx:376-413 | uploading the downloaded sales template previews three records, none valid |
| `Scenarios.CsvUploadIsParsed` | src/components/pages/DataSources.tsx:376-413 | a CSV upload that does not start with white space is previewed on exactly the records `parseCSV` returns |
| `Scenarios.SalesTemplateStart` | src/lib/dataProcessing.ts:313 | the sales template starts with its first header |
| `Scenarios.EmptyInventoryRefused` | src/lib/dataProcessing.ts:236-256 | a CSV inventory file with at most a header line is refused with "No data found in file" and is never uploaded |
| `Scenarios.ServerErrorRefused` | src/components/pages/DataSources.tsx:505-520 | an API answering 500 is reported as "API returned status 500", and its connector is not added |

## Left out

- File I/O, the upload transport and the browser: `file.text()`, `FileReader` and `blink.storage.upload` become a file value and the `Storage` class. A failure of `file.text()` and the `FileReader` error path of `parseExcel` are not modelled.
- `JSON.parse`, `Date.parse`, the secure fetch, and `toString` on numbers and arrays are parameters. Their own algorithms are not modelled.
- `Date.now()`, `new Date().toISOString()` and `Math.random()` are parameters. Timing, interval scheduling and the 200 ms and 500 ms delays are not modelled. The progress bar is a `Tick` method the caller invokes.
- Floating point: numbers are kept as literal text. Values are never computed, so rounding is not modelled. Underflow to zero of literals such as `1e-400` is not modelled either: `IsZeroText` only looks at the mantissa's digits.
- `Object.keys` puts integer-like keys first. The model keeps insertion order for every key.
- `JsText.ToLower`: lower-cases ASCII letters only, not the rest of Unicode.
- `JsValue.Put`: the `__proto__` key is treated as an ordinary property. In JavaScript, `record['__proto__'] = v` goes through the prototype setter, and a string or number `v` creates no property at all, so a CSV header `__proto__` yields no such key (`sku,__proto__` over `A,B` gives only `sku`). In that one case the model's record has a `__proto__` member, and `CsvParser.RecordKeys`, `JsValue.PutLookup` and `JsValue.PutKeys` describe a key the program never has.
- `JsValue.BlankString`, `JsValue.NumberIsNaN` and `DataPreview.CellText`: every object value converts as `"[object Object]"`. A JSON object with its own `toString` or `valueOf` member is not modelled. When such a member is not callable, `.toString()` (src/lib/dataProcessing.ts:123, :173), `Number(...)` (:137, :180) and `value?.toString()` (src/components/ui/data-preview.tsx:170) throw a TypeError, and `processDataFile` reports a failed import. The model lets that import go on as if the field were an ordinary object (an example is `[{"sku": {"toString": 1}, "name": "x"}]`).
- Toasts, console logging, JSX layout, drag-over styling, icons other than their names, and the connector dialog's form handling are rendering only and are left out.
- The `catch` of `handleFileUpload` and `handleImportData`: nothing in their `try` blocks can throw in the model (`DataSourcesPage.UploadNeverThrows`, and `processDataFile` catches everything itself), so that path is not modelled.
- `DataSourcesPage.Page.HandleConnectorAdd`: the `catch` path is left out, because `testAPIConnection` catches everything itself. `roll < 3000` stands for `Math.floor(Math.random() * 3000)`.
- The range analysis page's colour and icon switches and its static charts are display only and are left out. Margins and velocities are kept in tenths as naturals because nothing computes with them.
