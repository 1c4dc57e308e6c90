/** `SyncHandler.handle` of the newer orchestrator: files without metadata
    or without a stored schema are skipped silently, the rest are sent to
    the adapter their extension names, and only non-`None` results are
    kept. As written, its Excel branch omits the adapter's required
    `sheet_name` argument; `StepCorrected` is the call with it. */
module SyncHandler {
  import opened Wrappers
  import opened Errors
  import opened Reshape
  import opened Adapters
  import opened Routing
  import opened Batches

  /** One loop iteration as written: `handle(output_schema, file)` on the
      Excel handler raises TypeError for the missing `sheet_name`. */
  function StepAsWritten(svc: Services, meta: SyncMetadata, schemas: map<string, OutputSchema>,
                         file: UploadedFile): (r: Result<Option<FileDetail>, Fault>)
    ensures r.Ok? && r.value.Some? ==>
      && file.filename in meta.fileMetadatas
      && ResolveSchema(schemas, meta.fileMetadatas[file.filename]).Some?
      && RouteOf(file.filename) == ToCsv
      && r.value.value.filename == file.filename
  {
    if file.filename !in meta.fileMetadatas then Ok(None)
    else
      var md := meta.fileMetadatas[file.filename];
      var schema := ResolveSchema(schemas, md);
      if schema.None? then Ok(None)
      else
        match RouteOf(file.filename)
        case ToCsv => HandleCsv(svc, schema.value, file)
        case ToExcel => Err(MissingSheetName)
        case Unsupported => Ok(None)
  }

  /** One loop iteration with the metadata's `sheet_name` passed on, as
      `file_metadata.get("sheet_name")`: an entry without one passes `None`,
      which the Excel handler finds among no workbook's sheets. */
  function StepCorrected(svc: Services, meta: SyncMetadata, schemas: map<string, OutputSchema>,
                         file: UploadedFile): (r: Result<Option<FileDetail>, Fault>)
    ensures r.Ok? && r.value.Some? ==>
      && file.filename in meta.fileMetadatas
      && ResolveSchema(schemas, meta.fileMetadatas[file.filename]).Some?
      && RouteOf(file.filename) != Unsupported
      && r.value.value.filename == file.filename
  {
    if file.filename !in meta.fileMetadatas then Ok(None)
    else
      var md := meta.fileMetadatas[file.filename];
      var schema := ResolveSchema(schemas, md);
      if schema.None? then Ok(None)
      else
        match RouteOf(file.filename)
        case ToCsv => HandleCsv(svc, schema.value, file)
        case ToExcel => HandleExcel(svc, schema.value, file, md.sheetName)
        case Unsupported => Ok(None)
  }

  /** `SyncHandler.handle` as written; `records` is what the data-access
      layer returns for `meta.userUuid`. */
  function HandleAsWritten(svc: Services, meta: SyncMetadata, records: seq<SchemaRecord>,
                           files: seq<UploadedFile>): (r: Result<seq<FileDetail>, Fault>)
    ensures r.Ok? <==> forall i :: 0 <= i < |files| ==> StepAsWritten(svc, meta, SchemaMap(records), files[i]).Ok?
    ensures r.Ok? ==> |r.value| <= |files|
  {
    var schemas := SchemaMap(records);
    Collect(f => StepAsWritten(svc, meta, schemas, f), files)
  }

  /** `SyncHandler.handle` with the Excel call corrected. */
  method Handle(svc: Services, meta: SyncMetadata, records: seq<SchemaRecord>, files: seq<UploadedFile>)
    returns (r: Result<seq<FileDetail>, Fault>)
    ensures r == Collect(f => StepCorrected(svc, meta, SchemaMap(records), f), files)
    ensures r.Ok? ==> |r.value| <= |files|
  {
    var schemas := SchemaMap(records);
    r := CollectLoop(f => StepCorrected(svc, meta, schemas, f), files);
  }

  /** A file without a metadata entry yields no entry, and no handler is
      called for it: the outcome is the same for any services. */
  lemma NoMetadataNoEntry(svc: Services, meta: SyncMetadata, schemas: map<string, OutputSchema>,
                          file: UploadedFile)
    requires file.filename !in meta.fileMetadatas
    ensures StepAsWritten(svc, meta, schemas, file) == Ok(None)
    ensures StepCorrected(svc, meta, schemas, file) == Ok(None)
  {
  }

  /** A file whose `schema_uuid` is missing or unknown is never dispatched. */
  lemma UnresolvedSchemaNotDispatched(svc: Services, meta: SyncMetadata, schemas: map<string, OutputSchema>,
                                      file: UploadedFile)
    requires file.filename in meta.fileMetadatas
    requires ResolveSchema(schemas, meta.fileMetadatas[file.filename]).None?
    ensures StepAsWritten(svc, meta, schemas, file) == Ok(None)
    ensures StepCorrected(svc, meta, schemas, file) == Ok(None)
  {
  }

  /** With a resolved schema, a `csv` extension goes to the CSV handler
      (see `Routing.RouteFollowsLastDot` for how the extension is read). */
  lemma CsvDispatch(svc: Services, meta: SyncMetadata, schemas: map<string, OutputSchema>,
                    file: UploadedFile)
    requires file.filename in meta.fileMetadatas
    requires ResolveSchema(schemas, meta.fileMetadatas[file.filename]).Some?
    requires RouteOf(file.filename) == ToCsv
    ensures StepAsWritten(svc, meta, schemas, file) ==
            HandleCsv(svc, ResolveSchema(schemas, meta.fileMetadatas[file.filename]).value, file)
    ensures StepCorrected(svc, meta, schemas, file) == StepAsWritten(svc, meta, schemas, file)
  {
  }

  /** As written, an upload routed to Excel (`stem.xlsx`, `stem.xls`, or
      the bare names `xlsx` and `xls`) with a resolved schema raises before
      the Excel handler does anything. */
  lemma ExcelDispatchAsWritten(svc: Services, meta: SyncMetadata, schemas: map<string, OutputSchema>,
                               file: UploadedFile, stem: string, ext: string)
    requires (file.filename == stem + "." + ext || file.filename == ext) && (ext == "xlsx" || ext == "xls")
    requires file.filename in meta.fileMetadatas
    requires ResolveSchema(schemas, meta.fileMetadatas[file.filename]).Some?
    ensures StepAsWritten(svc, meta, schemas, file) == Err(MissingSheetName)
  {
    ExcelName(stem, ext);
  }

  /** Any other extension yields no entry. */
  lemma UnsupportedNotDispatched(svc: Services, meta: SyncMetadata, schemas: map<string, OutputSchema>,
                                 file: UploadedFile)
    requires RouteOf(file.filename) == Unsupported
    ensures StepAsWritten(svc, meta, schemas, file) == Ok(None)
    ensures StepCorrected(svc, meta, schemas, file) == Ok(None)
  {
  }

  /** Every entry names the upload it came from, uploads appear in input
      order, and no upload contributes more than one entry. */
  lemma {:induction false} EntriesFollowFileOrder(svc: Services, meta: SyncMetadata,
                                                  records: seq<SchemaRecord>, files: seq<UploadedFile>)
    requires HandleAsWritten(svc, meta, records, files).Ok?
    ensures var out := HandleAsWritten(svc, meta, records, files).value;
            var step := f => StepAsWritten(svc, meta, SchemaMap(records), f);
            var p := Producers(step, files);
            && |out| == |p| && |out| <= |files|
            && (forall k :: 0 <= k < |p| ==> p[k] < |files| && out[k].filename == files[p[k]].filename)
            && (forall k, l :: 0 <= k < l < |p| ==> p[k] < p[l])
  {
    var step := f => StepAsWritten(svc, meta, SchemaMap(records), f);
    CollectInOrder(step, files);
  }

  /** Finding: as written, any batch holding an Excel upload that has
      metadata and a stored schema fails as a whole. */
  lemma ExcelUploadFailsBatch(svc: Services, meta: SyncMetadata, records: seq<SchemaRecord>,
                              files: seq<UploadedFile>, i: nat, stem: string, ext: string)
    requires i < |files|
    requires (files[i].filename == stem + "." + ext || files[i].filename == ext) && (ext == "xlsx" || ext == "xls")
    requires files[i].filename in meta.fileMetadatas
    requires ResolveSchema(SchemaMap(records), meta.fileMetadatas[files[i].filename]).Some?
    ensures HandleAsWritten(svc, meta, records, files).Err?
  {
    var step := f => StepAsWritten(svc, meta, SchemaMap(records), f);
    ExcelDispatchAsWritten(svc, meta, SchemaMap(records), files[i], stem, ext);
    assert step(files[i]) == Err(MissingSheetName);
    CollectFailsOnFault(step, files, i);
  }

  /** Corrected: such an upload reaches the Excel handler with the sheet
      its metadata names. */
  lemma CorrectedExcelDispatch(svc: Services, meta: SyncMetadata, schemas: map<string, OutputSchema>,
                               file: UploadedFile, stem: string, ext: string)
    requires (file.filename == stem + "." + ext || file.filename == ext) && (ext == "xlsx" || ext == "xls")
    requires file.filename in meta.fileMetadatas
    requires ResolveSchema(schemas, meta.fileMetadatas[file.filename]).Some?
    ensures StepCorrected(svc, meta, schemas, file) ==
            HandleExcel(svc, ResolveSchema(schemas, meta.fileMetadatas[file.filename]).value, file,
                        meta.fileMetadatas[file.filename].sheetName)
  {
    ExcelName(stem, ext);
  }

  /** Corrected: entries still name their uploads, in input order, at most
      one per upload. */
  lemma {:induction false} CorrectedEntriesFollowFileOrder(svc: Services, meta: SyncMetadata,
                                                           records: seq<SchemaRecord>, files: seq<UploadedFile>)
    requires Collect(f => StepCorrected(svc, meta, SchemaMap(records), f), files).Ok?
    ensures var step := f => StepCorrected(svc, meta, SchemaMap(records), f);
            var out := Collect(step, files).value;
            var p := Producers(step, files);
            && |out| == |p|
            && (forall k :: 0 <= k < |p| ==> p[k] < |files| && out[k].filename == files[p[k]].filename)
            && (forall k, l :: 0 <= k < l < |p| ==> p[k] < p[l])
  {
    var step := f => StepCorrected(svc, meta, SchemaMap(records), f);
    CollectInOrder(step, files);
  }
}
