/** The two per-format `handle` methods: parse the upload, ask the mapper
    for a decision, reshape, and pair the result with the upload's name.
    Parsing and the language-model call are parameters (`Services`). */
module Adapters {
  import opened Wrappers
  import opened Errors
  import opened Strings
  import opened Tables
  import opened Workbooks
  import opened Reshape

  type Bytes = seq<bv8>

  datatype UploadedFile = UploadedFile(filename: string, contents: Bytes)

  /** What a handler returns under `"file"`: one frame for CSV, the whole
      workbook for Excel. */
  datatype Payload = CsvFrame(frame: Frame) | ExcelBook(book: Workbook)

  /** The `{"filename": ..., "file": ...}` record of a handler. */
  datatype FileDetail = FileDetail(filename: string, file: Payload)

  /** The collaborators the handlers call but the model does not contain:
      the pandas readers (`None` when they raise) and the two
      `_get_column_mapping` calls (`None` when the call or the JSON decoding
      fails). */
  datatype Services = Services(
    readCsv: Bytes -> Option<Frame>,
    readWorkbook: Bytes -> Option<Workbook>,
    csvMapper: (seq<string>, OutputSchema) -> Option<MappingResult>,
    excelMapper: (Frame, OutputSchema) -> Option<MappingResult>)

  /** How many leading rows the Excel mapper is shown. */
  const SampleRows: nat := 10

  /** A sample header label: pandas' `Unnamed: k` placeholders read `NaN`. */
  function SampleLabel(col: string): string {
    if StartsWith(col, "Unnamed") then "NaN" else col
  }

  /** `sheet.head(10)` with its placeholder labels renamed; the sheet itself
      is not touched. */
  function MapperSample(sheet: Frame): (r: Frame)
    ensures |r.rows| == (if |sheet.rows| < SampleRows then |sheet.rows| else SampleRows)
    ensures r.rows == sheet.rows[..|r.rows|]
    ensures |r.header| == |sheet.header|
    ensures forall k :: 0 <= k < |sheet.header| ==>
      r.header[k] == (if StartsWith(sheet.header[k], "Unnamed") then "NaN" else sheet.header[k])
  {
    var first := Head(sheet, SampleRows);
    Relabel(first, seq(|first.header|, k requires 0 <= k < |first.header| => SampleLabel(first.header[k])))
  }

  /** The requested sheet is one of the workbook's; a missing name (`None`)
      never is. */
  predicate SheetPresent(book: Workbook, sheetName: Option<string>) {
    sheetName.Some? && sheetName.value in SheetNames(book)
  }

  /** `SyncHandlerExcel.handle`. An unreadable upload raises; a sheet that
      is not in the workbook gives `None` before the mapper is asked; a
      failed mapper call raises when its `None` is dereferenced; otherwise
      the reshape of the requested sheet replaces it, or its fault is the
      handler's. */
  function HandleExcel(svc: Services, schema: OutputSchema, file: UploadedFile, sheetName: Option<string>)
    : (r: Result<Option<FileDetail>, Fault>)
    ensures svc.readWorkbook(file.contents).None? ==> r == Err(Unreadable)
    ensures (svc.readWorkbook(file.contents).Some? &&
             !SheetPresent(svc.readWorkbook(file.contents).value, sheetName)) ==> r == Ok(None)
    ensures svc.readWorkbook(file.contents).Some? && SheetPresent(svc.readWorkbook(file.contents).value, sheetName) ==>
      var book := svc.readWorkbook(file.contents).value;
      var sheet := book[FindSheet(book, sheetName.value).value].frame;
      var m := svc.excelMapper(MapperSample(sheet), schema);
      && (m.None? ==> r == Err(NoMapping))
      && (m.Some? ==> (r.Ok? <==> ExcelOutput(sheet, m.value, schema).Ok?))
      && (m.Some? && ExcelOutput(sheet, m.value, schema).Err? ==> r == Err(ExcelOutput(sheet, m.value, schema).error))
      && (r.Ok? ==> r.value.Some?)
    ensures r.Ok? && r.value.Some? ==>
      var book := svc.readWorkbook(file.contents).value;
      && SheetPresent(book, sheetName)
      && r.value.value.filename == file.filename
      && r.value.value.file.ExcelBook?
      && SheetNames(r.value.value.file.book) == SheetNames(book)
      && (forall i :: 0 <= i < |book| && book[i].name != sheetName.value ==> r.value.value.file.book[i] == book[i])
  {
    match svc.readWorkbook(file.contents)
    case None => Err(Unreadable)
    case Some(book) =>
      if !SheetPresent(book, sheetName) then Ok(None)
      else
        var i := FindSheet(book, sheetName.value).value;
        var sheet := book[i].frame;
        match svc.excelMapper(MapperSample(sheet), schema)
        case None => Err(NoMapping)
        case Some(m) =>
          match ExcelOutput(sheet, m, schema)
          case Err(e) => Err(e)
          case Ok(processed) =>
            Ok(Some(FileDetail(file.filename, ExcelBook(ReplaceSheet(book, sheetName.value, processed)))))
  }

  /** `SyncHandlerCSV.handle`. The mapper sees only the header labels; its
      failure raises; otherwise the handler succeeds exactly when the
      reshape does, pairing the upload's name with the reshaped frame. */
  function HandleCsv(svc: Services, schema: OutputSchema, file: UploadedFile)
    : (r: Result<Option<FileDetail>, Fault>)
    ensures svc.readCsv(file.contents).None? ==> r == Err(Unreadable)
    ensures (svc.readCsv(file.contents).Some? &&
             svc.csvMapper(svc.readCsv(file.contents).value.header, schema).None?) ==> r == Err(NoMapping)
    ensures svc.readCsv(file.contents).Some? && svc.csvMapper(svc.readCsv(file.contents).value.header, schema).Some? ==>
      var df := svc.readCsv(file.contents).value;
      var m := svc.csvMapper(df.header, schema).value;
      && (r.Ok? <==> CsvOutput(df, m, schema).Ok?)
      && (CsvOutput(df, m, schema).Err? ==> r == Err(CsvOutput(df, m, schema).error))
    ensures r.Ok? ==> r.value.Some? && r.value.value.filename == file.filename
    ensures r.Ok? ==>
      var df := svc.readCsv(file.contents).value;
      var m := svc.csvMapper(df.header, schema).value;
      CsvOutput(df, m, schema).Ok? && r.value.value.file == CsvFrame(CsvOutput(df, m, schema).value)
  {
    match svc.readCsv(file.contents)
    case None => Err(Unreadable)
    case Some(df) =>
      match svc.csvMapper(df.header, schema)
      case None => Err(NoMapping)
      case Some(m) =>
        match CsvOutput(df, m, schema)
        case Err(e) => Err(e)
        case Ok(processed) => Ok(Some(FileDetail(file.filename, CsvFrame(processed))))
  }

  /** A missing sheet is reported as `None` whatever the mapper would
      answer: the mapper is not consulted. */
  lemma SheetAbsentSkipsMapper(svc: Services, other: Services, schema: OutputSchema,
                               file: UploadedFile, sheetName: Option<string>)
    requires svc.readWorkbook(file.contents).Some?
    requires !SheetPresent(svc.readWorkbook(file.contents).value, sheetName)
    requires other == svc.(excelMapper := other.excelMapper)
    ensures HandleExcel(svc, schema, file, sheetName) == Ok(None)
    ensures HandleExcel(other, schema, file, sheetName) == Ok(None)
  {
  }

  /** On a reported mapping error the whole workbook comes back as read. */
  lemma {:induction false} ExcelErrorKeepsWorkbook(svc: Services, schema: OutputSchema,
                                                   file: UploadedFile, sheetName: Option<string>)
    requires svc.readWorkbook(file.contents).Some?
    requires SheetPresent(svc.readWorkbook(file.contents).value, sheetName)
    requires var book := svc.readWorkbook(file.contents).value;
             var i := FindSheet(book, sheetName.value).value;
             svc.excelMapper(MapperSample(book[i].frame), schema).Some? &&
             svc.excelMapper(MapperSample(book[i].frame), schema).value.error
    ensures HandleExcel(svc, schema, file, sheetName) ==
            Ok(Some(FileDetail(file.filename, ExcelBook(svc.readWorkbook(file.contents).value))))
  {
    var book := svc.readWorkbook(file.contents).value;
    var i := FindSheet(book, sheetName.value).value;
    ReplaceWithOwnFrame(book, i);
  }

  /** On success the requested sheet holds the Excel reshape of the sheet
      as read, computed from the mapper's answer on the sample. */
  lemma ExcelProcessedSheet(svc: Services, schema: OutputSchema, file: UploadedFile, sheetName: Option<string>)
    requires HandleExcel(svc, schema, file, sheetName).Ok?
    requires HandleExcel(svc, schema, file, sheetName).value.Some?
    ensures var book := svc.readWorkbook(file.contents).value;
            var i := FindSheet(book, sheetName.value).value;
            var m := svc.excelMapper(MapperSample(book[i].frame), schema);
            && m.Some?
            && ExcelOutput(book[i].frame, m.value, schema).Ok?
            && HandleExcel(svc, schema, file, sheetName).value.value.file.book[i].frame ==
               ExcelOutput(book[i].frame, m.value, schema).value
  {
  }
}
