/** The two `_create_output_dataframe` reshapers: they apply the mapper's
    decision to a parsed table. The Excel one drops leading rows, selects
    columns and renames them to the schema's keys; the CSV one only selects
    columns and keeps their labels. */
module Reshape {
  import opened Wrappers
  import opened Errors
  import opened Tables

  /** The mapper's decoded JSON answer. `error` holds only for a JSON
      `true` (the source tests `is True`); an absent key and an explicit
      `null` both read as `None`. */
  datatype MappingResult = MappingResult(
    error: bool,
    skipRows: Option<int>,
    reorderedColumns: Option<seq<int>>)

  /** A stored output schema, reduced to what the reshapers use: its keys
      in order. */
  datatype OutputSchema = OutputSchema(fields: seq<string>)

  /** `df.iloc[:, cols]` with pandas' failures: `None` is not a positional
      indexer, and a position outside the frame raises. */
  function SelectColumns(t: Frame, cols: Option<seq<int>>): (r: Result<Frame, Fault>)
    ensures cols.None? ==> r == Err(BadColumnIndexer)
    ensures cols.Some? ==> (r.Ok? <==> InBounds(cols.value, |t.header|))
    ensures cols.Some? && r.Err? ==> r.error == IndexOutOfBounds
    ensures r.Ok? ==> |r.value.rows| == |t.rows| && |r.value.header| == |cols.value|
    ensures r.Ok? ==> forall k :: 0 <= k < |cols.value| ==>
      r.value.header[k] == t.header[ResolveIndex(cols.value[k], |t.header|).value]
    ensures r.Ok? ==> forall i, k :: 0 <= i < |t.rows| && 0 <= k < |cols.value| ==>
      r.value.rows[i][k] == t.rows[i][ResolveIndex(cols.value[k], |t.header|).value]
  {
    match cols
    case None => Err(BadColumnIndexer)
    case Some(c) =>
      match ResolveAll(c, |t.header|)
      case None => Err(IndexOutOfBounds)
      case Some(idx) =>
        assert Selectable(idx, |t.header|) by {
          forall k | 0 <= k < |idx| ensures idx[k] < |t.header| {
            assert ResolveIndex(c[k], |t.header|) == Some(idx[k]);
          }
        }
        Ok(Project(t, idx))
  }

  /** Excel `_create_output_dataframe`: unchanged sheet on a reported
      error; otherwise `sheet.iloc[skip:, cols]` relabelled with the schema
      keys, which must match the selected column count. */
  function ExcelOutput(sheet: Frame, m: MappingResult, schema: OutputSchema): (r: Result<Frame, Fault>)
    ensures m.error ==> r == Ok(sheet)
    ensures !m.error ==>
      (r.Ok? <==> m.reorderedColumns.Some? && InBounds(m.reorderedColumns.value, |sheet.header|)
                  && |m.reorderedColumns.value| == |schema.fields|)
    ensures !m.error && m.reorderedColumns.None? ==> r == Err(BadColumnIndexer)
    ensures !m.error && m.reorderedColumns.Some? && !InBounds(m.reorderedColumns.value, |sheet.header|) ==>
      r == Err(IndexOutOfBounds)
    ensures !m.error && m.reorderedColumns.Some? && InBounds(m.reorderedColumns.value, |sheet.header|)
            && |m.reorderedColumns.value| != |schema.fields| ==>
      r == Err(LengthMismatch(|m.reorderedColumns.value|, |schema.fields|))
    ensures !m.error && r.Ok? ==> r.value.header == schema.fields
    ensures !m.error && r.Ok? ==>
      var start := SliceStart(m.skipRows, |sheet.rows|);
      && |r.value.rows| == |sheet.rows| - start
      && forall i, k :: 0 <= i < |r.value.rows| && 0 <= k < |schema.fields| ==>
           r.value.rows[i][k] ==
             sheet.rows[start + i][ResolveIndex(m.reorderedColumns.value[k], |sheet.header|).value]
  {
    if m.error then Ok(sheet)
    else
      match SelectColumns(DropLeading(sheet, m.skipRows), m.reorderedColumns)
      case Err(e) => Err(e)
      case Ok(mapped) => RenameColumns(mapped, schema.fields)
  }

  /** `df.columns = labels`, which raises unless the counts agree. */
  function RenameColumns(t: Frame, labels: seq<string>): (r: Result<Frame, Fault>)
    ensures r.Ok? <==> |labels| == |t.header|
    ensures r.Ok? ==> r.value == Relabel(t, labels)
    ensures r.Err? ==> r.error == LengthMismatch(|t.header|, |labels|)
  {
    if |labels| != |t.header| then Err(LengthMismatch(|t.header|, |labels|))
    else Ok(Relabel(t, labels))
  }

  /** CSV `_create_output_dataframe`: unchanged frame on a reported error;
      otherwise `df.iloc[:, cols]`. The schema's keys are read but never
      applied, so the original labels stay. */
  function CsvOutput(df: Frame, m: MappingResult, schema: OutputSchema): (r: Result<Frame, Fault>)
    ensures m.error ==> r == Ok(df)
    ensures !m.error ==>
      (r.Ok? <==> m.reorderedColumns.Some? && InBounds(m.reorderedColumns.value, |df.header|))
    ensures !m.error && m.reorderedColumns.None? ==> r == Err(BadColumnIndexer)
    ensures !m.error && r.Err? && m.reorderedColumns.Some? ==> r.error == IndexOutOfBounds
    ensures !m.error && r.Ok? ==>
      && |r.value.rows| == |df.rows|
      && |r.value.header| == |m.reorderedColumns.value|
      && (forall k :: 0 <= k < |m.reorderedColumns.value| ==>
            r.value.header[k] == df.header[ResolveIndex(m.reorderedColumns.value[k], |df.header|).value])
      && (forall i, k :: 0 <= i < |df.rows| && 0 <= k < |m.reorderedColumns.value| ==>
            r.value.rows[i][k] == df.rows[i][ResolveIndex(m.reorderedColumns.value[k], |df.header|).value])
  {
    if m.error then Ok(df)
    else SelectColumns(df, m.reorderedColumns)
  }

  /** A missing `skip_n_rows` behaves exactly like `0`. */
  lemma ExcelSkipDefaultsToZero(sheet: Frame, m: MappingResult, schema: OutputSchema)
    ensures ExcelOutput(sheet, m.(skipRows := None), schema) ==
            ExcelOutput(sheet, m.(skipRows := Some(0)), schema)
  {
    DropLeadingDefault(sheet);
  }

  /** With `skip >= 0` the Excel output has `max(0, n - skip)` rows, and
      its row `i` comes from input row `skip + i`. */
  lemma ExcelRowsFromSkip(sheet: Frame, m: MappingResult, schema: OutputSchema, skip: nat)
    requires !m.error && m.skipRows == Some(skip)
    requires ExcelOutput(sheet, m, schema).Ok?
    ensures |ExcelOutput(sheet, m, schema).value.rows| ==
            (if skip <= |sheet.rows| then |sheet.rows| - skip else 0)
    ensures forall i, k :: 0 <= i < |ExcelOutput(sheet, m, schema).value.rows| && 0 <= k < |schema.fields| ==>
      ExcelOutput(sheet, m, schema).value.rows[i][k] ==
        sheet.rows[skip + i][ResolveIndex(m.reorderedColumns.value[k], |sheet.header|).value]
  {
  }

  /** Output column `k` of a successful Excel reshape holds the cells of
      input column `reordered_columns[k]` from the skip point on, under the
      `k`-th schema key. */
  lemma ExcelColumnOrigin(sheet: Frame, m: MappingResult, schema: OutputSchema, k: nat)
    requires !m.error && ExcelOutput(sheet, m, schema).Ok?
    requires k < |schema.fields|
    ensures var out := ExcelOutput(sheet, m, schema).value;
            var j := ResolveIndex(m.reorderedColumns.value[k], |sheet.header|).value;
            && j < |sheet.header|
            && out.header[k] == schema.fields[k]
            && Column(out, k) == Column(sheet, j)[SliceStart(m.skipRows, |sheet.rows|)..]
  {
    var out := ExcelOutput(sheet, m, schema).value;
    var j := ResolveIndex(m.reorderedColumns.value[k], |sheet.header|).value;
    var start := SliceStart(m.skipRows, |sheet.rows|);
    assert |Column(out, k)| == |Column(sheet, j)[start..]|;
    forall i | 0 <= i < |out.rows|
      ensures Column(out, k)[i] == Column(sheet, j)[start..][i]
    {
      assert out.rows[i][k] == sheet.rows[start + i][j];
    }
  }

  /** The schema never influences the CSV output. */
  lemma CsvIgnoresSchema(df: Frame, m: MappingResult, s1: OutputSchema, s2: OutputSchema)
    ensures CsvOutput(df, m, s1) == CsvOutput(df, m, s2)
  {
  }

  /** The identity decision (`skip 0`, every column in order) leaves a
      CSV frame unchanged. */
  lemma {:induction false} CsvIdentityKeepsTable(t: Frame, schema: OutputSchema)
    ensures CsvOutput(t, IdentityMapping(|t.header|), schema) == Ok(t)
  {
    IdentitySelection(t);
  }

  /** The identity decision leaves an Excel sheet unchanged when the schema
      keys are the sheet's own labels. */
  lemma {:induction false} ExcelIdentityKeepsTable(t: Frame)
    ensures ExcelOutput(t, IdentityMapping(|t.header|), OutputSchema(t.header)) == Ok(t)
  {
    ExcelIdentityIsRename(t);
    RenameToOwnLabels(t);
  }

  lemma {:induction false} ExcelIdentityIsRename(t: Frame)
    ensures ExcelOutput(t, IdentityMapping(|t.header|), OutputSchema(t.header)) == RenameColumns(t, t.header)
  {
    var id := IdentityMapping(|t.header|);
    assert id.skipRows == Some(0) && id.reorderedColumns == Some(Positions(|t.header|)) && !id.error;
    DropLeadingDefault(t);
    IdentitySelection(t);
    assert SelectColumns(DropLeading(t, id.skipRows), id.reorderedColumns) == Ok(t);
    ExcelOutputOfSelection(t, id, OutputSchema(t.header), t);
  }

  lemma RenameToOwnLabels(t: Frame)
    ensures RenameColumns(t, t.header) == Ok(t)
  {
  }

  /** Without a reported error, the Excel reshape is the relabelling of
      the row-and-column selection. */
  lemma ExcelOutputOfSelection(sheet: Frame, m: MappingResult, schema: OutputSchema, mapped: Frame)
    requires !m.error
    requires SelectColumns(DropLeading(sheet, m.skipRows), m.reorderedColumns) == Ok(mapped)
    ensures ExcelOutput(sheet, m, schema) == RenameColumns(mapped, schema.fields)
  {
  }

  function IdentityMapping(w: nat): MappingResult {
    MappingResult(false, Some(0), Some(Positions(w)))
  }

  lemma {:induction false} IdentitySelection(t: Frame)
    ensures SelectColumns(t, Some(Positions(|t.header|))) == Ok(t)
  {
    var w := |t.header|;
    ResolveAllPositions(w);
    ProjectIdentity(t);
  }

  lemma ResolveAllPositions(w: nat)
    ensures ResolveAll(Positions(w), w) == Some(Positions(w))
  {
    var cols: seq<int> := Positions(w);
    var r := ResolveAll(cols, w);
    assert InBounds(cols, w);
    assert |r.value| == w;
    forall k | 0 <= k < w ensures r.value[k] == cols[k] {
      assert ResolveIndex(cols[k], w) == Some(r.value[k]);
    }
    assert r.value == Positions(w);
  }
}
