/** What both orchestrators look up before dispatching a file: the request's
    per-file metadata, the user's stored schemas keyed by `schema_uuid`, and
    the file extension. */
module Routing {
  import opened Wrappers
  import opened Strings
  import opened Reshape

  /** One `file_metadatas` entry; a key that is absent reads as `None`. */
  datatype FileMetadata = FileMetadata(schemaUuid: Option<string>, sheetName: Option<string>)

  /** The request's `sync_metadata`: the user whose schemas are loaded, and
      the metadata per uploaded filename. */
  datatype SyncMetadata = SyncMetadata(userUuid: string, fileMetadatas: map<string, FileMetadata>)

  /** One stored schema as the data-access layer returns it. */
  datatype SchemaRecord = SchemaRecord(schemaUuid: string, schema: OutputSchema)

  /** No record after position `i` carries the same `schema_uuid`. */
  predicate LastWithKey(records: seq<SchemaRecord>, i: nat)
    requires i < |records|
  {
    forall j :: i < j < |records| ==> records[j].schemaUuid != records[i].schemaUuid
  }

  /** `get_output_schemas`: the records inserted into a dictionary one by
      one, in order. */
  function SchemaMap(records: seq<SchemaRecord>): map<string, OutputSchema> {
    if |records| == 0 then map[]
    else
      var last := records[|records| - 1];
      SchemaMap(records[..|records| - 1])[last.schemaUuid := last.schema]
  }

  /** The map's keys are exactly the records' uuids. */
  lemma {:induction false} SchemaMapKeys(records: seq<SchemaRecord>, id: string)
    ensures id in SchemaMap(records) <==> exists i :: 0 <= i < |records| && records[i].schemaUuid == id
  {
    if |records| > 0 {
      var init := records[..|records| - 1];
      SchemaMapKeys(init, id);
      assert forall i :: 0 <= i < |init| ==> init[i] == records[i];
      if id in SchemaMap(records) && id != records[|records| - 1].schemaUuid {
        var i :| 0 <= i < |init| && init[i].schemaUuid == id;
        assert records[i].schemaUuid == id;
      }
    }
  }

  /** A uuid maps to the schema of the last record that carries it: a
      later record overwrites an earlier one. */
  lemma {:induction false} SchemaMapLastWins(records: seq<SchemaRecord>, i: nat)
    requires i < |records| && LastWithKey(records, i)
    ensures records[i].schemaUuid in SchemaMap(records)
    ensures SchemaMap(records)[records[i].schemaUuid] == records[i].schema
  {
    var n := |records| - 1;
    if i < n {
      var init := records[..n];
      assert init[i] == records[i];
      assert LastWithKey(init, i) by {
        forall j | i < j < |init| ensures init[j].schemaUuid != init[i].schemaUuid {
          assert init[j] == records[j];
        }
      }
      SchemaMapLastWins(init, i);
    }
  }

  /** `output_schemas_dict.get(file_metadata.get("schema_uuid"))`. */
  function ResolveSchema(schemas: map<string, OutputSchema>, md: FileMetadata): (r: Option<OutputSchema>)
    ensures r.Some? <==> md.schemaUuid.Some? && md.schemaUuid.value in schemas
    ensures r.Some? ==> r.value == schemas[md.schemaUuid.value]
  {
    match md.schemaUuid
    case None => None
    case Some(id) => if id in schemas then Some(schemas[id]) else None
  }

  /** `filename.split('.')[-1]`. */
  function Extension(filename: string): string {
    LastSegment(filename, '.')
  }

  datatype Route = ToCsv | ToExcel | Unsupported

  /** Exact, case-sensitive comparison of the extension. */
  function RouteOf(filename: string): Route {
    var ext := Extension(filename);
    if ext == "csv" then ToCsv
    else if ext == "xlsx" || ext == "xls" then ToExcel
    else Unsupported
  }

  /** The extension is what follows the last dot. */
  lemma ExtensionAfterLastDot(prefix: string, ext: string)
    requires '.' !in ext
    ensures Extension(prefix + "." + ext) == ext
  {
    var name := prefix + "." + ext;
    assert name[|name| - |ext| - 1] == '.';
    assert name[|name| - |ext|..] == ext;
  }

  /** Routing looks only at the text after the last dot, so `a.b.csv` is
      CSV but `a.csv.bak` and `a.CSV` are not. A name without a dot is
      routed by the whole name, so among those only `csv`, `xlsx` and `xls`
      themselves are dispatched. */
  lemma RouteFollowsLastDot(prefix: string, ext: string)
    requires '.' !in ext
    ensures RouteOf(prefix + "." + ext) == RouteOf(ext)
    ensures RouteOf(prefix + "." + ext) == ToCsv <==> ext == "csv"
    ensures RouteOf(prefix + "." + ext) == ToExcel <==> ext == "xlsx" || ext == "xls"
  {
    ExtensionAfterLastDot(prefix, ext);
  }

  /** A name ending in `.xlsx` or `.xls`, and each of the bare names
      `xlsx` and `xls`, routes to the Excel handler. */
  lemma ExcelName(stem: string, ext: string)
    requires ext == "xlsx" || ext == "xls"
    ensures RouteOf(stem + "." + ext) == ToExcel
    ensures RouteOf(ext) == ToExcel
  {
    RouteFollowsLastDot(stem, ext);
  }
}
