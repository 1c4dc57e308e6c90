# schema_sync — a Dafny model of the reshaping core

schema_sync takes uploaded CSV and Excel files, asks a language model how
each file's columns line up with a stored output schema, and reshapes the
data to that schema. This project models the deterministic part of that
pipeline and proves properties about it:

- **Reshapers.** These are the two `_create_output_dataframe` methods.
  The Excel one drops `skip_n_rows` leading rows, selects columns by
  position and renames them to the schema keys. The CSV one only selects
  columns (`reshape.dfy`), using pandas `iloc` and `head` semantics over
  a rectangular table (`tables.dfy`).
- **Format adapters.** These are the two `handle` methods
  (`adapters.dfy`). The Excel one checks that the sheet exists, builds
  the 10-row mapper sample with `Unnamed…` labels shown as `NaN`, and
  replaces the processed sheet in its workbook (`workbooks.dfy`).
- **The two batch orchestrators.**
  - The current `SyncHandler.handle` (`sync_handler.dfy`) drops files
    without metadata or schema.
  - The older one (`legacy_sync_handler.dfy`) emits a "Schema not found"
    record for files without metadata.

  Both:
  - build the `schema_uuid → schema` map and look up the per-file
    metadata (`routing.dfy`);
  - dispatch on the text after the last dot;
  - walk the uploads in order, and an exception from any file aborts the
    whole batch (`batches.dfy`, shared by both).
- **The tool-calling agent** (`agent.dfy`). It is a two-node graph
  (`llm`, `tools`) over an append-only message log. The model covers
  `should_continue`, `tool_node`, the `read_excel_file` record sampling
  and the select-and-relabel step of `column_mapper`.
- **The migration helpers of `alembic/env.py`** (`migrations.dfy`):
  - the next revision number from the existing file stems;
  - the 4-digit prefix;
  - the revision id and file name the directive hook writes;
  - the `include_object` filter.

  The string and digit helpers they use are in `strings.dfy`.

Some things are parameters (the `Services` datatype and the `Handler`
type):
- the language model;
- the CSV and Excel parsers;
- the tool bodies;
- the older orchestrator's handlers.

Python exceptions become `Err` values of the `Errors.Fault` datatype.
`@log_errors` (config/logger.py:42-50) is a synchronous wrapper that logs
and re-raises what the call itself raises. On the `async` handlers the call
only builds the coroutine: a call-time error such as a missing argument's
`TypeError` is logged and re-raised, while an exception in the body reaches
the awaiting caller unlogged. Either way it propagates, so a fault in one
file aborts the batch.

The code behaves as follows in these cases:
- **A reported mapping error.** With `error: true` the table comes back
  unchanged; no failure is raised (`Reshape.ExcelOutput`,
  `Reshape.CsvOutput`).
- **Column-count mismatch.** A mismatch between the selected columns and
  the schema keys raises; nothing is truncated (`LengthMismatch`).
- **Out-of-range positions.** An out-of-range column position raises
  pandas' indexing error.
- **Results per file.** Files without metadata or schema produce no entry
  in the current orchestrator, so the result is not one entry per input
  file. Any adapter fault fails the whole batch.
- **CSV labels.** The CSV reshaper keeps the source labels; the schema
  keys are read and never applied.
- **The mapper sample.** It is the first 10 rows, with placeholder labels
  replaced by `NaN`.
- **Column positions.** They may be negative, and then count from the end,
  as `iloc` allows.

## Model

| member | source | states |
|---|---|---|
| Tables.ResolveIndex | handlers/sync_handlers/sync_handler_excel.py:93 | a position resolves exactly when it is in `[-w, w)`; negative positions count from the end |
| Tables.ResolveAll | handlers/sync_handlers/sync_handler_csv.py:92 | a position list resolves exactly when every entry is in bounds; each resolved entry agrees with its own position |
| Tables.Project | handlers/sync_handlers/sync_handler_csv.py:92 | selecting positions keeps every row and gives one column per position |
| Tables.ProjectColumn | handlers/sync_handlers/sync_handler_csv.py:92 | column `k` of a selection is input column `idx[k]` cell for cell, under its original label |
| Tables.ProjectIdentity | handlers/sync_handlers/sync_handler_csv.py:92 | selecting every column in order gives the table back |
| Tables.ProjectCompose | handlers/sync_handlers/sync_handler_csv.py:92 | selecting out of a selection equals one selection by the composed positions |
| Tables.DropLeading | handlers/sync_handlers/sync_handler_excel.py:93 | dropping leading rows keeps the labels |
| Tables.DropLeadingRows | handlers/sync_handlers/sync_handler_excel.py:93 | dropping `s >= 0` rows leaves `max(0, n - s)` rows, and row `i` is input row `s + i` |
| Tables.DropLeadingDefault | handlers/sync_handlers/sync_handler_excel.py:84 | a missing start and a start of 0 both keep the table as is |
| Tables.Head | handlers/sync_handlers/agent.py:31 | `head(n)` is a prefix of the rows, of length `min(n, rows)` for `n >= 0` and of `rows + n` (floored at 0) for negative `n` |
| Tables.Relabel | handlers/sync_handlers/sync_handler_excel.py:94 | relabelling changes the labels and no cell |
| Reshape.SelectColumns | handlers/sync_handlers/sync_handler_csv.py:90-93 | `None` positions and out-of-range positions are the two failures, and it succeeds exactly when every position is in bounds; on success, all rows are kept, column `k` holds input column `cols[k]`, and labels are carried over |
| Reshape.ExcelOutput | handlers/sync_handlers/sync_handler_excel.py:81-95 | `error: true` returns the sheet unchanged. Otherwise it succeeds exactly when the positions are present, in bounds and as many as the schema keys, and each failure has its own fault. On success the labels are the schema keys, the row count is `n - start`, and cell `(i, k)` is input cell `(start + i, cols[k])` |
| Reshape.RenameColumns | handlers/sync_handlers/sync_handler_excel.py:94 | assigning labels succeeds exactly when the counts agree, and otherwise reports both counts |
| Reshape.ExcelSkipDefaultsToZero | handlers/sync_handlers/sync_handler_excel.py:84 | an absent `skip_n_rows` gives the same result as 0 |
| Reshape.ExcelRowsFromSkip | handlers/sync_handlers/sync_handler_excel.py:93 | with `skip >= 0` the output has `max(0, n - skip)` rows, and output row `i` comes from input row `skip + i` |
| Reshape.ExcelColumnOrigin | handlers/sync_handlers/sync_handler_excel.py:93-94 | output column `k` is input column `reordered_columns[k]` from the skip point on, labelled with the `k`-th schema key |
| Reshape.CsvOutput | handlers/sync_handlers/sync_handler_csv.py:81-93 | `error: true` returns the frame unchanged. Otherwise it succeeds exactly when the positions are present and in bounds. On success every row is kept, there are `len(reordered_columns)` columns carrying the original labels of the selected columns, and cell `(i, k)` is input cell `(i, cols[k])` |
| Reshape.CsvIgnoresSchema | handlers/sync_handlers/sync_handler_csv.py:83 | the schema keys never influence the CSV output |
| Reshape.CsvIdentityKeepsTable | handlers/sync_handlers/sync_handler_csv.py:90-93 | the identity decision leaves a CSV frame unchanged |
| Reshape.ExcelOutputOfSelection | handlers/sync_handlers/sync_handler_excel.py:87-94 | without a reported error, the Excel reshape is the relabelling, with the schema keys, of the row-and-column selection |
| Reshape.ExcelIdentityKeepsTable | handlers/sync_handlers/sync_handler_excel.py:84-94 | the identity decision with the sheet's own labels as schema leaves the sheet unchanged |
| Workbooks.FindSheet | handlers/sync_handlers/sync_handler_excel.py:106-110 | a sheet is found exactly when its name is among the workbook's sheet names |
| Workbooks.ReplaceSheet | handlers/sync_handlers/sync_handler_excel.py:122 | replacing a sheet keeps the sheet names and order, leaves every other sheet as it was, and puts the new frame under the name |
| Workbooks.ReplaceWithOwnFrame | handlers/sync_handlers/sync_handler_excel.py:122 | putting a sheet's own frame back gives the same workbook |
| Adapters.MapperSample | handlers/sync_handlers/sync_handler_excel.py:116-118 | the sample is the first `min(10, n)` rows; every label starting with `Unnamed` becomes `NaN`, and every other label is kept as it is |
| Adapters.HandleExcel | handlers/sync_handlers/sync_handler_excel.py:98-127 | an unreadable upload faults; once it is read, an absent sheet name or one the workbook lacks gives `None`. Otherwise no mapper answer is the `NoMapping` fault, and with an answer the call succeeds exactly when the Excel reshape of the sheet does, with the reshape's fault propagated. A result is never `None` there, names the upload, keeps the sheet names, and leaves every sheet other than the requested one unchanged |
| Adapters.SheetAbsentSkipsMapper | handlers/sync_handlers/sync_handler_excel.py:106-113 | with the sheet absent the result is `None` whatever the mapper would answer |
| Adapters.ExcelErrorKeepsWorkbook | handlers/sync_handlers/sync_handler_excel.py:87-89 | a reported mapping error returns the whole workbook as read, under the upload's name |
| Adapters.ExcelProcessedSheet | handlers/sync_handlers/sync_handler_excel.py:116-127 | on success the requested sheet holds the Excel reshape of that sheet, computed from the decision the mapper gave on its sample |
| Adapters.HandleCsv | handlers/sync_handlers/sync_handler_csv.py:96-111 | an unreadable upload faults. The mapper sees only the header labels, and its failure is a fault. With an answer the call succeeds exactly when the CSV reshape does, with the reshape's fault propagated; a result pairs the upload's name with the CSV reshape |
| Batches.Collect | handlers/sync_handlers/sync_handler.py:15-33 | the batch succeeds exactly when no file's step faults, and has at most one entry per file |
| Batches.CollectInOrder | handlers/sync_handlers/sync_handler.py:18-32 | the entries are, in input order, the results of exactly the files that produced one |
| Batches.CollectFailsOnFault | handler/sync_handler.py:13-14 | a fault on any file fails the whole batch |
| Batches.CollectAllProduce | handler/sync_handler.py:18-42 | when every file produces an entry, entry `i` belongs to file `i` |
| Batches.CollectKeepsFirstFault | handlers/sync_handlers/sync_handler.py:18-33 | files after a faulting one do not change the outcome |
| Batches.CollectLoop | handlers/sync_handlers/sync_handler.py:15-33 | the `for` loop with its `append` computes the same result as the fold |
| Routing.SchemaMapKeys | handlers/sync_handlers/sync_handler.py:36-41 | the keys of `get_output_schemas`' map (`SchemaMap`) are exactly the records' `schema_uuid`s |
| Routing.SchemaMapLastWins | handlers/sync_handlers/sync_handler.py:39-40 | in `SchemaMap`, a key maps to the schema of the last record that carries it |
| Routing.ResolveSchema | handlers/sync_handlers/sync_handler.py:24 | a schema is found exactly when the metadata has a `schema_uuid` that is a key of the map |
| Routing.ExtensionAfterLastDot | handlers/sync_handlers/sync_handler.py:25 | `Extension`, `filename.split('.')[-1]`, of `prefix.ext` is `ext` when `ext` has no dot |
| Routing.ExcelName | handlers/sync_handlers/sync_handler.py:29 | a name ending in `.xlsx` or `.xls`, and each of the bare names `xlsx` and `xls`, routes to the Excel handler |
| Routing.RouteFollowsLastDot | handlers/sync_handlers/sync_handler.py:25-30 | `RouteOf` compares the text after the last dot exactly: `csv` routes to CSV, `xlsx`/`xls` to Excel, anything else to no handler |
| SyncHandler.StepAsWritten | handlers/sync_handlers/sync_handler.py:19-32 | as written, an iteration yields an entry only for an upload with metadata, a resolved schema and the `csv` extension, and the entry names that upload |
| SyncHandler.StepCorrected | handlers/sync_handlers/sync_handler.py:19-32 | corrected, an iteration yields an entry only for an upload with metadata, a resolved schema and a supported extension, and the entry names that upload |
| SyncHandler.HandleAsWritten | handlers/sync_handlers/sync_handler.py:14-33 | as written, the batch succeeds exactly when every file's iteration succeeds, with at most one entry per file |
| SyncHandler.NoMetadataNoEntry | handlers/sync_handlers/sync_handler.py:21-23 | a file without metadata gives no entry, as written and corrected |
| SyncHandler.UnresolvedSchemaNotDispatched | handlers/sync_handlers/sync_handler.py:24-30 | a file whose schema does not resolve is not dispatched and gives no entry |
| SyncHandler.CsvDispatch | handlers/sync_handlers/sync_handler.py:27-28 | a `.csv` upload with a resolved schema gets the CSV handler's result |
| SyncHandler.ExcelDispatchAsWritten | handlers/sync_handlers/sync_handler.py:29-30 | as written, every resolved upload routed to Excel (`stem.xlsx`, `stem.xls`, or the bare names `xlsx` and `xls`) faults, because the sheet name is missing from the call |
| SyncHandler.UnsupportedNotDispatched | handlers/sync_handlers/sync_handler.py:25-32 | any other extension gives no entry |
| SyncHandler.EntriesFollowFileOrder | handlers/sync_handlers/sync_handler.py:15-33 | entries name their uploads, follow input order, and number at most one per file |
| SyncHandler.ExcelUploadFailsBatch | handlers/sync_handlers/sync_handler.py:30 | as written, a batch holding a resolved Excel upload fails as a whole |
| SyncHandler.CorrectedExcelDispatch | handlers/sync_handlers/sync_handler_excel.py:98 | corrected: every resolved upload routed to Excel reaches the Excel handler with the metadata's `sheet_name`, or `None` when it has none, so the upload is still parsed first |
| SyncHandler.CorrectedEntriesFollowFileOrder | handlers/sync_handlers/sync_handler.py:15-33 | corrected: entries still name their uploads, in input order, at most one per file |
| SyncHandler.Handle | handlers/sync_handlers/sync_handler.py:14-33 | the corrected batch loop returns at most one entry per file, equal to the fold over the corrected step |
| LegacySyncHandler.Step | handler/sync_handler.py:18-41 | every record carries the upload's filename |
| LegacySyncHandler.Handle | handler/sync_handler.py:14-42 | the older batch succeeds exactly when every file's iteration succeeds, with at most one record per file |
| LegacySyncHandler.MissingMetadataRecord | handler/sync_handler.py:20-28 | a file without metadata gives the record with no file, `error` true and "Schema not found" |
| LegacySyncHandler.HandlerResultRecord | handler/sync_handler.py:29-41 | an unsupported extension or a `None` result gives no record. A handler result gives the success record with no message, and a handler fault propagates |
| LegacySyncHandler.IgnoresStoredSchemas | handler/sync_handler.py:16-34 | the stored schemas never change the result; the handlers get the raw metadata |
| LegacySyncHandler.RecordsFollowFileOrder | handler/sync_handler.py:18-42 | records name their uploads, in input order, at most one per file. Every file without metadata has its record |
| LegacySyncHandler.OneRecordPerFile | handler/sync_handler.py:18-42 | when every handled file returns a result, there is exactly one record per file |
| Agent.Reduce | handlers/sync_handlers/agent.py:12-13 | the state reducer appends the update after the existing log |
| Agent.RunCall | handlers/sync_handlers/agent.py:157-176 | each call gives one tool message carrying the call's id. An unknown name gives "Tool <name> not found." without invoking anything. A known tool's result becomes the content |
| Agent.ToolDictLastWins | handlers/sync_handlers/agent.py:156 | `tool_dict` (`ToolDict`) holds exactly the tools' names, and each name maps to the last tool that carries it |
| Agent.ToolNodeAnswersEachCall | handlers/sync_handlers/agent.py:145-179 | `tool_node` (`ToolNode`) gives exactly one tool message per call, in call order, each carrying that call's id; unknown tools are reported as not found |
| Agent.GraphEdges | handlers/sync_handlers/agent.py:116-137 | through `should_continue` (`ShouldContinue`), `llm` goes to `tools` exactly when the last message has non-empty tool calls, and to END otherwise. `tools` always goes to `llm`. END is never entered from `tools`, and `tools` is entered only when its input is ready |
| Agent.StepGrowth | handlers/sync_handlers/agent.py:139-179 | an `llm` step (`CallLlm`) fails exactly when the model call raises, with that fault, and otherwise appends exactly the model's one reply; a `tools` step appends one message per call |
| Agent.ModelFaultFailsInvoke | handlers/sync_handlers/agent.py:139-143 | a model call that raises on the initial messages fails `graph.invoke` with that fault |
| Agent.RunAppendOnly | handlers/sync_handlers/agent.py:108-126 | a graph run (`Run`) only ever appends to the message log |
| Agent.RunEndsWithReply | handlers/sync_handlers/agent.py:116-124 | a finished graph run (`Run`) ends with the model's reply to the log before it, and that reply routes to END |
| Agent.InvokeEndsWithReply | handlers/sync_handlers/agent.py:108-126 | a finished `graph.invoke` (`Invoke`, entered at `llm`) strictly extends the initial messages and ends with the model's reply to the log before it, which routes to END |
| Agent.RowRecordKeys | handlers/sync_handlers/agent.py:31 | a `to_dict(orient='records')` record (`RowRecord`) has exactly the header labels as keys |
| Agent.RowRecordLastWins | handlers/sync_handlers/agent.py:31 | under a label, a record holds the cell of the last column carrying that label |
| Agent.ReadExcelFile | handlers/sync_handlers/agent.py:18-38 | with `no_of_rows_to_read` defaulting to 5, there are `min(n, rows)` records for `n >= 0` and `rows + n` (floored at 0) for negative `n`; record `i` is the label→cell record of row `i` |
| Agent.ColumnMapper | handlers/sync_handlers/agent.py:66-88 | succeeds exactly when the positions are in bounds. It keeps the selected columns' original labels, because the standard list is overwritten, and it keeps every row. A bad position gives the error message instead of raising |
| Migrations.StemNumber | alembic/env.py:52-54 | a stem contributes a number exactly when its first `_`-piece is all digits |
| Migrations.Numbers | alembic/env.py:50-54 | the numbers are exactly those of the numbered stems |
| Migrations.NextNumber | alembic/env.py:48-55 | the result is above every stem number and is either 1 or one more than some stem's number; it is 1 when no stem is numbered |
| Migrations.UnnumberedStemIgnored | alembic/env.py:52-54 | a stem whose first piece is not all digits does not change the next number |
| Migrations.Prefix | alembic/env.py:62 | the prefix is all digits, `max(4, len(str(n)))` long, and reads back as `n` |
| Migrations.RevisionId | alembic/env.py:101-103 | the id is the prefix, `_`, then the old id: "base" when the old id is missing and "None" when it is `None` |
| Migrations.FileName | alembic/env.py:97-108 | the name is the id followed by `_manual.py` when the message is missing, by `_<message>.py` when it is truthy, and by `.py` otherwise |
| Migrations.ProcessRevisionDirectives | alembic/env.py:81-110 | no directives: nothing changes. Otherwise only the first directive changes: its new id and the path of its new file name, with the message kept |
| Migrations.NextNumberAfterNewFile | alembic/env.py:48-108 | round trip: after adding the file the hook names for number `n`, the next number is `n + 1` |
| Migrations.IncludeObject | alembic/env.py:113-118 | an object is included exactly when it is not a table outside the configured schema and is not named `alembic_version` |
| Strings.FirstSegment | alembic/env.py:52 | the first `_`-piece is a separator-free prefix, and it is shorter than the stem exactly when the stem contains the separator |
| Strings.LastSegment | handlers/sync_handlers/sync_handler.py:25 | the last piece is a separator-free suffix, preceded by the separator unless it is the whole name |
| Strings.NatToDigits | alembic/env.py:62 | `str(n)` is all digits, has no leading zero, and reads back as `n` |
| Strings.ParseIgnoresLeadingZeros | alembic/env.py:54-62 | zero padding does not change the value `int` reads |

## Left out

- Language-model calls (Groq and ChatAnthropic), prompt text and JSON decoding: the mapper is a parameter returning an optional decoded decision, and the agent's model is a parameter whose call may fail with a fault (a raised error or the 30-second timeout).
- Upload I/O and parsing (`file.read`, `BytesIO`, `read_csv`, `read_excel`, `ExcelFile`) and writing with `to_excel`: the model starts from parsed tables supplied by the `Services` parameters.
- `_fallback_exact_matching` (handlers/sync_handlers/sync_handler_csv.py:74,78): `class SyncHandlerCSV` has no base class and does not define the method (handlers/sync_handlers/sync_handler_csv.py:11-111), so the lookup raises `AttributeError`, which the model reports as the `NoMapping` fault.
- The DAO layer, ORM models, database and settings configuration: `get_output_schemas` starts from the records the DAO would return.
- The HTTP routes and `main.py`, and the logging done by `config/logger.py`; `@log_errors` never swallows an exception, so it is modelled only as fault propagation.
- The migration runtime in `alembic/env.py`: the directory glob, `ScriptDirectory`, database connection and migration execution. The versions directory is given as a list of stems.
- `handler/sync_handler_csv.py`, a stub that only prints filenames, and the self-import in handler/sync_handler.py:2-3, which cannot resolve. The older orchestrator's handlers are parameters.
- The agent's module-level construction and run (handlers/sync_handlers/agent.py:182-218), the Excel files it reads and writes by fixed path, and the success message text of `column_mapper`.
- `async`/`await`: execution is sequential.
- Cell types, NaN and type coercion: cells are opaque values passed through unchanged.
- Agent.Run: the graph run carries a step bound (`fuel`) in place of langgraph's recursion limit, and a run that exhausts it reports `StepLimit`.
- Agent.RunCall: a tool's result is its content string; the `str(result)` rendering of a non-string result is not modelled.
- Agent.ReadExcelFile: the `str(result)` rendering of the records dictionary is not modelled.
- Strings.IsDigits: `str.isdigit` is limited to the ASCII digits; other Unicode digits are not modelled.
- Migrations.NextNumberAfterNewFile: the round trip is stated on the stem of the file name. A message containing `/` would make `os.path.join` place the file in a sub-directory, and that case is not modelled.
- Migrations.ProcessRevisionDirectives: the attribute values are modelled as missing, `None` or a string. Other Python objects and their renderings are not.
- Adapters.MapperSample: labels are modelled as strings. `read_excel` can give non-string labels (integers, dates), on which `startswith` raises `AttributeError` and fails the upload and the batch; that failure is not modelled.

## Findings

| source | as written | input that shows it | evidently intended | confidence | as-written member | corrected member |
|---|---|---|---|---|---|---|
| handlers/sync_handlers/sync_handler.py:30 | The Excel branch calls `handle(output_schema, file)`, but the Excel adapter requires a third argument, `sheet_name` (handlers/sync_handlers/sync_handler_excel.py:98). The call raises `TypeError`, and `@log_errors` re-raises it, so the batch fails | one upload `book.xlsx` whose metadata has a `schema_uuid` that the user's stored schemas contain | pass the sheet the metadata names to the Excel handler | not executed | SyncHandler.ExcelUploadFailsBatch | SyncHandler.CorrectedExcelDispatch |
