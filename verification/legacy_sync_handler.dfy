/** `SyncHandler.handle` of the older orchestrator: a file without metadata
    gets an error record and the loop goes on; supported files are handed
    the raw per-file metadata (the schema map is computed but unused); an
    unsupported extension gets no record at all. The handlers it imports
    are not part of this model, so they are parameters. */
module LegacySyncHandler {
  import opened Wrappers
  import opened Errors
  import opened Adapters
  import opened Routing
  import opened Batches

  /** `{"file_name", "file", "error", "error_message"}`. */
  datatype FileRecord<P> = FileRecord(fileName: string, file: Option<P>, error: bool, errorMessage: Option<string>)

  /** A handler as this orchestrator calls it: `handle(file_metadata, file)`. */
  type Handler<P> = (FileMetadata, UploadedFile) -> Result<Option<P>, Fault>

  const SchemaNotFound: string := "Schema not found"

  function Step<P>(csv: Handler<P>, excel: Handler<P>, meta: SyncMetadata, file: UploadedFile)
    : (r: Result<Option<FileRecord<P>>, Fault>)
    ensures r.Ok? && r.value.Some? ==> r.value.value.fileName == file.filename
  {
    if file.filename !in meta.fileMetadatas then
      Ok(Some(FileRecord(file.filename, None, true, Some(SchemaNotFound))))
    else
      var md := meta.fileMetadatas[file.filename];
      var processed :- match RouteOf(file.filename)
                       case ToCsv => csv(md, file)
                       case ToExcel => excel(md, file)
                       case Unsupported => Ok(None);
      match processed
      case None => Ok(None)
      case Some(p) => Ok(Some(FileRecord(file.filename, Some(p), false, None)))
  }

  /** The stored schemas are loaded but play no part in the result. */
  function Handle<P>(csv: Handler<P>, excel: Handler<P>, meta: SyncMetadata, records: seq<SchemaRecord>,
                     files: seq<UploadedFile>): (r: Result<seq<FileRecord<P>>, Fault>)
    ensures r.Ok? <==> forall i :: 0 <= i < |files| ==> Step(csv, excel, meta, files[i]).Ok?
    ensures r.Ok? ==> |r.value| <= |files|
  {
    Collect(f => Step(csv, excel, meta, f), files)
  }

  /** A file without metadata yields the "Schema not found" error record;
      no handler is called, and the batch goes on. */
  lemma MissingMetadataRecord<P>(csv: Handler<P>, excel: Handler<P>, meta: SyncMetadata, file: UploadedFile)
    requires file.filename !in meta.fileMetadatas
    ensures Step(csv, excel, meta, file) == Ok(Some(FileRecord(file.filename, None, true, Some("Schema not found"))))
  {
  }

  /** A handler's non-`None` result becomes a success record for the file;
      a `None` result, or an unsupported extension, leaves no record. */
  lemma HandlerResultRecord<P>(csv: Handler<P>, excel: Handler<P>, meta: SyncMetadata, file: UploadedFile)
    requires file.filename in meta.fileMetadatas
    ensures var md := meta.fileMetadatas[file.filename];
            var called := match RouteOf(file.filename)
                          case ToCsv => csv(md, file)
                          case ToExcel => excel(md, file)
                          case Unsupported => Ok(None);
            && (RouteOf(file.filename) == Unsupported ==> Step(csv, excel, meta, file) == Ok(None))
            && (called == Ok(None) ==> Step(csv, excel, meta, file) == Ok(None))
            && (called.Ok? && called.value.Some? ==>
                  Step(csv, excel, meta, file) == Ok(Some(FileRecord(file.filename, called.value, false, None))))
            && (called.Err? ==> Step(csv, excel, meta, file) == Err(called.error))
  {
  }

  /** The stored schemas never matter: the handlers get the raw metadata. */
  lemma IgnoresStoredSchemas<P>(csv: Handler<P>, excel: Handler<P>, meta: SyncMetadata,
                                r1: seq<SchemaRecord>, r2: seq<SchemaRecord>, files: seq<UploadedFile>)
    ensures Handle(csv, excel, meta, r1, files) == Handle(csv, excel, meta, r2, files)
  {
  }

  /** Records name their uploads, in input order, at most one per upload;
      every upload without metadata has its record. */
  lemma {:induction false} RecordsFollowFileOrder<P>(csv: Handler<P>, excel: Handler<P>, meta: SyncMetadata,
                                                     records: seq<SchemaRecord>, files: seq<UploadedFile>)
    requires Handle(csv, excel, meta, records, files).Ok?
    ensures var step := f => Step(csv, excel, meta, f);
            var out := Handle(csv, excel, meta, records, files).value;
            var p := Producers(step, files);
            && |out| == |p| && |out| <= |files|
            && (forall k :: 0 <= k < |p| ==> p[k] < |files| && out[k].fileName == files[p[k]].filename)
            && (forall k, l :: 0 <= k < l < |p| ==> p[k] < p[l])
            && (forall i :: 0 <= i < |files| && files[i].filename !in meta.fileMetadatas ==> i in p)
  {
    var step := f => Step(csv, excel, meta, f);
    CollectInOrder(step, files);
    var out := Collect(step, files).value;
    var p := Producers(step, files);
    forall k | 0 <= k < |p| ensures out[k].fileName == files[p[k]].filename {
      assert step(files[p[k]]) == Ok(Some(out[k]));
    }
    forall i | 0 <= i < |files| && files[i].filename !in meta.fileMetadatas ensures i in p {
      MissingMetadataRecord(csv, excel, meta, files[i]);
      assert Produces(step, files[i]);
    }
  }

  /** When every upload with metadata has a supported extension and its
      handler returns a result, there is exactly one record per upload. */
  lemma {:induction false} OneRecordPerFile<P>(csv: Handler<P>, excel: Handler<P>, meta: SyncMetadata,
                                               records: seq<SchemaRecord>, files: seq<UploadedFile>)
    requires forall i :: 0 <= i < |files| && files[i].filename in meta.fileMetadatas ==>
      var md := meta.fileMetadatas[files[i].filename];
      match RouteOf(files[i].filename)
      case ToCsv => csv(md, files[i]).Ok? && csv(md, files[i]).value.Some?
      case ToExcel => excel(md, files[i]).Ok? && excel(md, files[i]).value.Some?
      case Unsupported => false
    ensures Handle(csv, excel, meta, records, files).Ok?
    ensures |Handle(csv, excel, meta, records, files).value| == |files|
  {
    var step := f => Step(csv, excel, meta, f);
    forall i | 0 <= i < |files| ensures Produces(step, files[i]) {
      if files[i].filename in meta.fileMetadatas {
        HandlerResultRecord(csv, excel, meta, files[i]);
      } else {
        MissingMetadataRecord(csv, excel, meta, files[i]);
      }
    }
    CollectAllProduce(step, files);
  }
}
