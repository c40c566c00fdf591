/**
 * InsertBatchRequest: one multi-row INSERT. The column list comes from the first descriptor,
 * each descriptor adds one `(?, …)` tuple, and the values are bound row after row.
 */
module InsertBatchRequests {
  import opened Wrappers
  import opened Text
  import opened Configuration
  import opened Statements
  import opened ColumnDefinitions
  import opened SchemaBuilders
  import opened RequestParts

  /** Each descriptor's column values, row by row. */
  function RowValues(ds: seq<Descriptor>): (r: seq<seq<Value>>)
    ensures |r| == |ds| && forall k :: 0 <= k < |ds| ==> r[k] == Objects(ds[k].columns)
  {
    seq(|ds|, k requires 0 <= k < |ds| => Objects(ds[k].columns))
  }

  /** Everything the batch binds: the rows' values, flattened in row order. */
  function BatchValues(ds: seq<Descriptor>): seq<Value>
  {
    Flatten(RowValues(ds))
  }

  /** One tuple of placeholders per descriptor, sized by that descriptor's own columns. */
  function Rows(ds: seq<Descriptor>): (r: seq<Template>)
    ensures |r| == |ds| && forall k :: 0 <= k < |ds| ==> r[k] == Tuple(Objects(ds[k].columns))
  {
    seq(|ds|, k requires 0 <= k < |ds| => Tuple(Objects(ds[k].columns)))
  }

  /** The text of each row's tuple. */
  function RowTexts(ds: seq<Descriptor>): (r: seq<string>)
    ensures |r| == |ds| && forall k :: 0 <= k < |ds| ==> r[k] == TupleText(|ds[k].columns|)
  {
    seq(|ds|, k requires 0 <= k < |ds| => TupleText(|ds[k].columns|))
  }

  /** The statement up to the tuples: the first descriptor's table and column names. */
  function InsertBatchHead(first: Descriptor): string
  {
    "INSERT INTO " + first.tableName + " (" + Join(", ", SafeNames(first.columns)) + ") " + "VALUES "
  }

  function InsertBatchTemplate(ds: seq<Descriptor>): Template
    requires |ds| > 0
  {
    [Lit(InsertBatchHead(ds[0]))] + JoinT(", ", Rows(ds))
  }

  /** The text execute composes before the prefix is substituted. */
  function InsertBatchText(ds: seq<Descriptor>): string
    requires |ds| > 0
  {
    InsertBatchHead(ds[0]) + Join(", ", RowTexts(ds))
  }

  lemma InsertBatchTemplateRender(ds: seq<Descriptor>)
    requires |ds| > 0
    ensures Render(InsertBatchTemplate(ds)) == InsertBatchText(ds)
  {
    var rows := Rows(ds);
    RenderAppend([Lit(InsertBatchHead(ds[0]))], JoinT(", ", rows));
    SingleLit(InsertBatchHead(ds[0]));
    RenderJoinT(", ", rows);
    forall k | 0 <= k < |ds|
      ensures RenderEach(rows)[k] == RowTexts(ds)[k]
    {
      TupleMeaning(Objects(ds[k].columns));
    }
    assert RenderEach(rows) == RowTexts(ds);
  }

  lemma InsertBatchTemplateParams(ds: seq<Descriptor>)
    requires |ds| > 0
    ensures Params(InsertBatchTemplate(ds)) == BatchValues(ds)
  {
    var rows := Rows(ds);
    ParamsAppend([Lit(InsertBatchHead(ds[0]))], JoinT(", ", rows));
    SingleLit(InsertBatchHead(ds[0]));
    ParamsJoinT(", ", rows);
    RowsParams(ds);
  }

  /** Each row tuple binds that row's values. */
  lemma RowsParams(ds: seq<Descriptor>)
    ensures ParamsEach(Rows(ds)) == RowValues(ds)
  {
    var rows := Rows(ds);
    forall k | 0 <= k < |ds|
      ensures ParamsEach(rows)[k] == RowValues(ds)[k]
    {
      TupleMeaning(Objects(ds[k].columns));
    }
  }

  lemma InsertBatchTemplatePlain(ds: seq<Descriptor>)
    requires |ds| > 0 && '?' !in InsertBatchHead(ds[0])
    ensures Plain(InsertBatchTemplate(ds))
  {
    var rows := Rows(ds);
    forall k | 0 <= k < |ds|
      ensures Plain(rows[k])
    {
      TupleMeaning(Objects(ds[k].columns));
    }
    PlainJoinT(", ", rows);
  }

  lemma HeadNoMarks(first: Descriptor)
    requires '?' !in first.tableName && NamesNoMarks(first.columns)
    ensures '?' !in InsertBatchHead(first)
  {
    SafeNamesNoMarks(", ", first.columns);
    BatchKeywordsNoMarks();
  }

  lemma BatchKeywordsNoMarks()
    ensures '?' !in "INSERT INTO " && '?' !in " (" && '?' !in ") " && '?' !in "VALUES "
  {
  }

  // ------------------------------------------------------------------ the loops of execute

  lemma SafeNamesStep(cs: seq<ColumnDefinition>, i: int)
    requires 0 <= i < |cs|
    ensures SafeNames(cs[..i + 1]) == SafeNames(cs[..i]) + [SafeName(cs[i].name)]
  {
  }

  /** columnNames: the backticked names of the first descriptor's columns, auto-increment ones included. */
  method CollectColumnNames(cs: seq<ColumnDefinition>) returns (columnNames: seq<string>)
    ensures columnNames == SafeNames(cs)
  {
    columnNames := [];
    var i := 0;
    assert cs[..0] == [];
    while i < |cs|
      invariant 0 <= i <= |cs|
      invariant columnNames == SafeNames(cs[..i])
    {
      SafeNamesStep(cs, i);
      columnNames := columnNames + [SafeName(cs[i].name)];
      i := i + 1;
    }
    assert cs[..i] == cs;
  }

  /** The inner loop: one "?" and one value per column of this descriptor. */
  method AppendRow(values: seq<Value>, cs: seq<ColumnDefinition>) returns (newValues: seq<Value>, rowPlaceholders: seq<string>)
    ensures newValues == values + Objects(cs)
    ensures rowPlaceholders == Repeat("?", |cs|)
  {
    newValues := values;
    rowPlaceholders := [];
    var j := 0;
    assert cs[..0] == [];
    while j < |cs|
      invariant 0 <= j <= |cs|
      invariant newValues == values + Objects(cs[..j])
      invariant rowPlaceholders == Repeat("?", j)
    {
      ValueStep(cs, j);
      newValues := newValues + [cs[j].obj];
      rowPlaceholders := rowPlaceholders + ["?"];
      j := j + 1;
    }
    assert cs[..j] == cs;
  }

  lemma RowsStep(ds: seq<Descriptor>, i: int)
    requires 0 <= i < |ds|
    ensures RowTexts(ds[..i + 1]) == RowTexts(ds[..i]) + [TupleText(|ds[i].columns|)]
    ensures BatchValues(ds[..i + 1]) == BatchValues(ds[..i]) + Objects(ds[i].columns)
  {
    assert RowValues(ds[..i + 1])[..i] == RowValues(ds[..i]);
  }

  /** The outer loop: each descriptor's tuple text, and its values after the earlier rows'. */
  method CollectRows(ds: seq<Descriptor>) returns (placeholders: seq<string>, values: seq<Value>)
    ensures placeholders == RowTexts(ds)
    ensures values == BatchValues(ds)
  {
    placeholders := [];
    values := [];
    var i := 0;
    assert ds[..0] == [];
    while i < |ds|
      invariant 0 <= i <= |ds|
      invariant placeholders == RowTexts(ds[..i])
      invariant values == BatchValues(ds[..i])
    {
      RowsStep(ds, i);
      var rowPlaceholders;
      values, rowPlaceholders := AppendRow(values, ds[i].columns);
      placeholders := placeholders + ["(" + Join(", ", rowPlaceholders) + ")"];
      i := i + 1;
    }
    assert ds[..i] == ds;
  }

  /** The two builders of execute, put together, give the batch text. */
  lemma InsertBatchTextAssembly(ds: seq<Descriptor>, columnNames: seq<string>, placeholders: seq<string>)
    requires |ds| > 0 && columnNames == SafeNames(ds[0].columns) && placeholders == RowTexts(ds)
    ensures ("INSERT INTO " + ds[0].tableName + " (" + Join(", ", columnNames) + ") ") + ("VALUES " + Join(", ", placeholders))
      == InsertBatchText(ds)
  {
  }

  /**
   * execute's statement: none for an empty batch; otherwise the multi-row INSERT with the
   * prefix substituted and every row's values bound from 1 on.
   */
  method CompileInsertBatch(config: DatabaseConfiguration, ds: seq<Descriptor>) returns (sql: Option<string>, bindings: Bindings)
    requires Substitutable(config)
    ensures |ds| == 0 ==> sql.None? && bindings == map[]
    ensures |ds| > 0 ==> sql == Some(Sql(config, InsertBatchTemplate(ds)))
    ensures |ds| > 0 ==> bindings == Positional(Params(InsertBatchTemplate(ds)), 1)
  {
    if |ds| == 0 {
      return None, map[];
    }
    var first := ds[0];
    var columnNames := CollectColumnNames(first.columns);
    var insertQuery := "INSERT INTO " + first.tableName + " (" + Join(", ", columnNames) + ") ";
    var placeholders, values := CollectRows(ds);
    var valuesQuery := "VALUES " + Join(", ", placeholders);
    InsertBatchTextAssembly(ds, columnNames, placeholders);
    InsertBatchTemplateRender(ds);
    sql := Some(ReplacePrefix(config, insertQuery + valuesQuery));
    InsertBatchTemplateParams(ds);
    bindings := BindFresh(values);
  }

  /**
   * Headline for the batch: one `?` per bound value, the values being every row's columns
   * in row order.
   */
  lemma InsertBatchPlaceholders(config: DatabaseConfiguration, ds: seq<Descriptor>)
    requires |ds| > 0 && SafeConfiguration(config)
    requires '?' !in ds[0].tableName && NamesNoMarks(ds[0].columns)
    ensures Params(InsertBatchTemplate(ds)) == BatchValues(ds)
    ensures Count(Sql(config, InsertBatchTemplate(ds)), '?') == |BatchValues(ds)|
  {
    InsertBatchTemplateParams(ds);
    HeadNoMarks(ds[0]);
    InsertBatchTemplatePlain(ds);
    PlaceholderCountAfterSubstitution(config, InsertBatchTemplate(ds));
  }

  /** Every descriptor has as many columns as the first: the shape the code assumes but does not check. */
  predicate SameArity(ds: seq<Descriptor>)
  {
    forall k :: 0 <= k < |ds| ==> |ds[k].columns| == |ds[0].columns|
  }

  /**
   * With rows of the same arity n, the batch binds |ds| * n values, and column j of row k is
   * the value at position k * n + j + 1.
   */
  lemma SameArityLayout(ds: seq<Descriptor>)
    requires |ds| > 0 && SameArity(ds)
    ensures |BatchValues(ds)| == |ds| * |ds[0].columns|
    ensures forall k, j :: 0 <= k < |ds| && 0 <= j < |ds[0].columns| ==>
      Offset(k, |ds[0].columns|, j) < |BatchValues(ds)| && BatchValues(ds)[Offset(k, |ds[0].columns|, j)] == ds[k].columns[j].obj
  {
    FlattenUniform(RowValues(ds), |ds[0].columns|);
  }

  /** A row with a different arity still gets a tuple of its own size: nothing checks it against the column list. */
  lemma RowArity(ds: seq<Descriptor>, k: int)
    requires 0 <= k < |ds|
    ensures Count(RowTexts(ds)[k], '?') == |ds[k].columns|
  {
    TupleTextCount(|ds[k].columns|);
  }

  /** What the driver reports for a non-empty batch: a failure, or the updated rows and the first generated key if any. */
  datatype BatchOutcome = BatchFailed | BatchRan(updatedRows: int, firstKey: Option<int>)

  /** The result: 0 for an empty batch, -1 on failure, else the first generated key or the updated-row count. */
  function InsertBatchResult(ds: seq<Descriptor>, outcome: BatchOutcome): (r: int)
    ensures |ds| == 0 ==> r == 0
    ensures |ds| > 0 && outcome.BatchFailed? ==> r == -1
    ensures |ds| > 0 && outcome.BatchRan? && outcome.firstKey.Some? ==> r == outcome.firstKey.value
    ensures |ds| > 0 && outcome.BatchRan? && outcome.firstKey.None? ==> r == outcome.updatedRows
  {
    if |ds| == 0 then 0
    else match outcome
      case BatchFailed => -1
      case BatchRan(updatedRows, firstKey) => if firstKey.Some? then firstKey.value else updatedRows
  }
}
