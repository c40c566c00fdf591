/**
 * UpsertBatchRequest: one multi-row INSERT followed by the dialect's conflict clause. The
 * column list and the update list come from the first descriptor; auto-increment columns are
 * left out of both, and out of every row's tuple and values.
 */
module UpsertBatchRequests {
  import opened Wrappers
  import opened Errors
  import opened Text
  import opened Configuration
  import opened Statements
  import opened ColumnDefinitions
  import opened SchemaBuilders
  import opened RequestParts
  import InsertBatchRequests

  /** insertColumnNames: the backticked names of the first descriptor's non-auto-increment columns. */
  function InsertColumnNames(first: Descriptor): seq<string>
  {
    SafeNames(Insertable(first.columns))
  }

  /** Each descriptor's written values, row by row. */
  function UpsertRowValues(ds: seq<Descriptor>): (r: seq<seq<Value>>)
    ensures |r| == |ds| && forall k :: 0 <= k < |ds| ==> r[k] == Objects(Insertable(ds[k].columns))
  {
    seq(|ds|, k requires 0 <= k < |ds| => Objects(Insertable(ds[k].columns)))
  }

  /** Everything the upsert binds: the rows' written values in row order. */
  function UpsertValues(ds: seq<Descriptor>): seq<Value>
  {
    Flatten(UpsertRowValues(ds))
  }

  /** One tuple per descriptor, sized by that descriptor's own non-auto-increment columns. */
  function UpsertRows(ds: seq<Descriptor>): (r: seq<Template>)
    ensures |r| == |ds| && forall k :: 0 <= k < |ds| ==> r[k] == Tuple(Objects(Insertable(ds[k].columns)))
  {
    seq(|ds|, k requires 0 <= k < |ds| => Tuple(Objects(Insertable(ds[k].columns))))
  }

  function UpsertRowTexts(ds: seq<Descriptor>): (r: seq<string>)
    ensures |r| == |ds| && forall k :: 0 <= k < |ds| ==> r[k] == TupleText(|Insertable(ds[k].columns)|)
  {
    seq(|ds|, k requires 0 <= k < |ds| => TupleText(|Insertable(ds[k].columns)|))
  }

  /** One item of the update list: SQLite takes the excluded row's value, the others VALUES(n). */
  function UpdateItem(dialect: DatabaseType, name: string): string
  {
    if dialect == Sqlite then name + " = excluded." + name else name + " = VALUES(" + name + ")"
  }

  function UpdateItems(dialect: DatabaseType, names: seq<string>): (r: seq<string>)
    ensures |r| == |names| && forall i :: 0 <= i < |names| ==> r[i] == UpdateItem(dialect, names[i])
  {
    seq(|names|, i requires 0 <= i < |names| => UpdateItem(dialect, names[i]))
  }

  /** What follows the tuples: ON CONFLICT … DO UPDATE SET on SQLite, ON DUPLICATE KEY UPDATE elsewhere. */
  function ConflictClause(dialect: DatabaseType, first: Descriptor): string
  {
    var items := Join(", ", UpdateItems(dialect, InsertColumnNames(first)));
    if dialect == Sqlite then " ON CONFLICT (" + Join(", ", first.primaryKeys) + ") DO UPDATE SET " + items
    else " ON DUPLICATE KEY UPDATE " + items
  }

  /** The statement up to the tuples. */
  function UpsertHead(first: Descriptor): string
  {
    "INSERT INTO " + first.tableName + " (" + Join(", ", InsertColumnNames(first)) + ") " + "VALUES "
  }

  function UpsertBatchTemplate(dialect: DatabaseType, ds: seq<Descriptor>): Template
    requires |ds| > 0
  {
    [Lit(UpsertHead(ds[0]))] + JoinT(", ", UpsertRows(ds)) + [Lit(ConflictClause(dialect, ds[0]))]
  }

  /** The text execute composes before the prefix is substituted. */
  function UpsertBatchText(dialect: DatabaseType, ds: seq<Descriptor>): string
    requires |ds| > 0
  {
    UpsertHead(ds[0]) + Join(", ", UpsertRowTexts(ds)) + ConflictClause(dialect, ds[0])
  }

  lemma UpsertBatchTemplateRender(dialect: DatabaseType, ds: seq<Descriptor>)
    requires |ds| > 0
    ensures Render(UpsertBatchTemplate(dialect, ds)) == UpsertBatchText(dialect, ds)
  {
    var rows := UpsertRows(ds);
    BracketedRender(UpsertHead(ds[0]), JoinT(", ", rows), ConflictClause(dialect, ds[0]));
    RenderJoinT(", ", rows);
    forall k | 0 <= k < |ds|
      ensures RenderEach(rows)[k] == UpsertRowTexts(ds)[k]
    {
      TupleMeaning(Objects(Insertable(ds[k].columns)));
    }
    assert RenderEach(rows) == UpsertRowTexts(ds);
  }

  lemma UpsertBatchTemplateParams(dialect: DatabaseType, ds: seq<Descriptor>)
    requires |ds| > 0
    ensures Params(UpsertBatchTemplate(dialect, ds)) == UpsertValues(ds)
  {
    var rows := UpsertRows(ds);
    BracketedParams(UpsertHead(ds[0]), JoinT(", ", rows), ConflictClause(dialect, ds[0]));
    ParamsJoinT(", ", rows);
    forall k | 0 <= k < |ds|
      ensures ParamsEach(rows)[k] == UpsertRowValues(ds)[k]
    {
      TupleMeaning(Objects(Insertable(ds[k].columns)));
    }
    assert ParamsEach(rows) == UpsertRowValues(ds);
  }

  lemma UpsertBatchTemplatePlain(dialect: DatabaseType, ds: seq<Descriptor>)
    requires |ds| > 0 && '?' !in UpsertHead(ds[0]) && '?' !in ConflictClause(dialect, ds[0])
    ensures Plain(UpsertBatchTemplate(dialect, ds))
  {
    var rows := UpsertRows(ds);
    forall k | 0 <= k < |ds|
      ensures Plain(rows[k])
    {
      TupleMeaning(Objects(Insertable(ds[k].columns)));
    }
    PlainJoinT(", ", rows);
    BracketedPlain(UpsertHead(ds[0]), JoinT(", ", rows), ConflictClause(dialect, ds[0]));
  }

  /** Primary-key names free of `?`. */
  predicate KeysNoMarks(keys: seq<string>)
  {
    forall i :: 0 <= i < |keys| ==> '?' !in keys[i]
  }

  lemma UpsertKeywordsNoMarks()
    ensures '?' !in "INSERT INTO " && '?' !in " (" && '?' !in ") " && '?' !in "VALUES " && '?' !in ", "
    ensures '?' !in " ON CONFLICT (" && '?' !in ") DO UPDATE SET " && '?' !in " ON DUPLICATE KEY UPDATE "
    ensures '?' !in " = excluded." && '?' !in " = VALUES(" && '?' !in ")"
  {
  }

  lemma UpsertHeadNoMarks(first: Descriptor)
    requires '?' !in first.tableName && NamesNoMarks(first.columns)
    ensures '?' !in UpsertHead(first)
  {
    InsertableNamesNoMarks(first.columns);
    SafeNamesNoMarks(", ", Insertable(first.columns));
    UpsertKeywordsNoMarks();
  }

  lemma ConflictClauseNoMarks(dialect: DatabaseType, first: Descriptor)
    requires NamesNoMarks(first.columns) && KeysNoMarks(first.primaryKeys)
    ensures '?' !in ConflictClause(dialect, first)
  {
    var names := InsertColumnNames(first);
    var items := UpdateItems(dialect, names);
    InsertableNamesNoMarks(first.columns);
    UpsertKeywordsNoMarks();
    forall i | 0 <= i < |items|
      ensures '?' !in items[i]
    {
      assert '?' !in names[i];
    }
    JoinAvoids(", ", items, '?');
    JoinAvoids(", ", first.primaryKeys, '?');
  }

  // ------------------------------------------------------------------ the loops of execute

  lemma InsertColumnNamesStep(cs: seq<ColumnDefinition>, i: int)
    requires 0 <= i < |cs|
    ensures SafeNames(Insertable(cs[..i + 1]))
      == SafeNames(Insertable(cs[..i])) + (if cs[i].isAutoIncrement then [] else [SafeName(cs[i].name)])
    ensures Objects(Insertable(cs[..i + 1]))
      == Objects(Insertable(cs[..i])) + (if cs[i].isAutoIncrement then [] else [cs[i].obj])
  {
    InsertableStep(cs, i);
    var before := Insertable(cs[..i]);
    if cs[i].isAutoIncrement {
      assert Insertable(cs[..i + 1]) == before + [];
      assert before + [] == before;
    } else {
      assert Insertable(cs[..i + 1]) == before + [cs[i]];
      assert SafeNames(before + [cs[i]])[..|before|] == SafeNames(before);
      assert Objects(before + [cs[i]])[..|before|] == Objects(before);
    }
  }

  /** The column loop: the names of the columns that are not auto-increment. */
  method CollectInsertColumnNames(cs: seq<ColumnDefinition>) returns (names: seq<string>)
    ensures names == SafeNames(Insertable(cs))
  {
    names := [];
    var i := 0;
    assert cs[..0] == [];
    while i < |cs|
      invariant 0 <= i <= |cs|
      invariant names == SafeNames(Insertable(cs[..i]))
    {
      InsertColumnNamesStep(cs, i);
      if !cs[i].isAutoIncrement {
        names := names + [SafeName(cs[i].name)];
      }
      i := i + 1;
    }
    assert cs[..i] == cs;
  }

  /** The inner loop: one "?" and one value per column that is not auto-increment. */
  method AppendWrittenRow(values: seq<Value>, cs: seq<ColumnDefinition>) returns (newValues: seq<Value>, rowPlaceholders: seq<string>)
    ensures newValues == values + Objects(Insertable(cs))
    ensures rowPlaceholders == Repeat("?", |Insertable(cs)|)
  {
    newValues := values;
    rowPlaceholders := [];
    var j := 0;
    assert cs[..0] == [];
    while j < |cs|
      invariant 0 <= j <= |cs|
      invariant newValues == values + Objects(Insertable(cs[..j]))
      invariant rowPlaceholders == Repeat("?", |Insertable(cs[..j])|)
    {
      InsertColumnNamesStep(cs, j);
      if !cs[j].isAutoIncrement {
        rowPlaceholders := rowPlaceholders + ["?"];
        newValues := newValues + [cs[j].obj];
      }
      j := j + 1;
    }
    assert cs[..j] == cs;
  }

  lemma UpsertRowsStep(ds: seq<Descriptor>, i: int)
    requires 0 <= i < |ds|
    ensures UpsertRowTexts(ds[..i + 1]) == UpsertRowTexts(ds[..i]) + [TupleText(|Insertable(ds[i].columns)|)]
    ensures UpsertValues(ds[..i + 1]) == UpsertValues(ds[..i]) + Objects(Insertable(ds[i].columns))
  {
    assert UpsertRowValues(ds[..i + 1])[..i] == UpsertRowValues(ds[..i]);
  }

  /** The outer loop: each descriptor's tuple text, and its values after the earlier rows'. */
  method CollectUpsertRows(ds: seq<Descriptor>) returns (placeholders: seq<string>, values: seq<Value>)
    ensures placeholders == UpsertRowTexts(ds)
    ensures values == UpsertValues(ds)
  {
    placeholders := [];
    values := [];
    var i := 0;
    assert ds[..0] == [];
    while i < |ds|
      invariant 0 <= i <= |ds|
      invariant placeholders == UpsertRowTexts(ds[..i])
      invariant values == UpsertValues(ds[..i])
    {
      UpsertRowsStep(ds, i);
      var rowPlaceholders;
      values, rowPlaceholders := AppendWrittenRow(values, ds[i].columns);
      placeholders := placeholders + ["(" + Join(", ", rowPlaceholders) + ")"];
      i := i + 1;
    }
    assert ds[..i] == ds;
  }

  lemma UpdateItemsStep(dialect: DatabaseType, names: seq<string>, i: int)
    requires 0 <= i < |names|
    ensures Join(", ", UpdateItems(dialect, names[..i + 1]))
      == Join(", ", UpdateItems(dialect, names[..i])) + (if i > 0 then ", " else "") + UpdateItem(dialect, names[i])
  {
    assert UpdateItems(dialect, names)[..i + 1] == UpdateItems(dialect, names[..i + 1]);
    assert UpdateItems(dialect, names)[..i] == UpdateItems(dialect, names[..i]);
    JoinStep(", ", UpdateItems(dialect, names), i);
  }

  /** The update-list loop: one item per written column, separated by ", ". */
  method CollectUpdateItems(dialect: DatabaseType, names: seq<string>) returns (onUpdate: string)
    ensures onUpdate == Join(", ", UpdateItems(dialect, names))
  {
    onUpdate := "";
    var i := 0;
    assert names[..0] == [];
    while i < |names|
      invariant 0 <= i <= |names|
      invariant onUpdate == Join(", ", UpdateItems(dialect, names[..i]))
    {
      UpdateItemsStep(dialect, names, i);
      if i > 0 {
        onUpdate := onUpdate + ", ";
      }
      onUpdate := onUpdate + UpdateItem(dialect, names[i]);
      i := i + 1;
    }
    assert names[..i] == names;
  }

  /** The builders of execute, put together, give the upsert text. */
  lemma UpsertBatchTextAssembly(dialect: DatabaseType, ds: seq<Descriptor>, names: seq<string>, placeholders: seq<string>, tail: string)
    requires |ds| > 0 && names == InsertColumnNames(ds[0]) && placeholders == UpsertRowTexts(ds)
    requires tail == ConflictClause(dialect, ds[0])
    ensures ("INSERT INTO " + ds[0].tableName + " (" + Join(", ", names) + ") ") + ("VALUES " + Join(", ", placeholders)) + tail
      == UpsertBatchText(dialect, ds)
  {
  }

  /**
   * execute's statement: none for an empty list; otherwise the multi-row INSERT and the
   * dialect's conflict clause with the prefix substituted, every written value bound from 1 on.
   */
  method CompileUpsertBatch(config: DatabaseConfiguration, ds: seq<Descriptor>) returns (sql: Option<string>, bindings: Bindings)
    requires Substitutable(config)
    ensures |ds| == 0 ==> sql.None? && bindings == map[]
    ensures |ds| > 0 ==> sql == Some(Sql(config, UpsertBatchTemplate(config.databaseType, ds)))
    ensures |ds| > 0 ==> bindings == Positional(Params(UpsertBatchTemplate(config.databaseType, ds)), 1)
  {
    if |ds| == 0 {
      return None, map[];
    }
    var dialect := config.databaseType;
    var first := ds[0];
    var names := CollectInsertColumnNames(first.columns);
    var insertQuery := "INSERT INTO " + first.tableName + " (" + Join(", ", names) + ") ";
    var placeholders, values := CollectUpsertRows(ds);
    var valuesQuery := "VALUES " + Join(", ", placeholders);
    var tail;
    if dialect == Sqlite {
      var onConflictQuery := " ON CONFLICT (" + Join(", ", first.primaryKeys) + ") DO UPDATE SET ";
      var onUpdateQuery := CollectUpdateItems(dialect, names);
      tail := onConflictQuery + onUpdateQuery;
    } else {
      var onUpdateQuery := CollectUpdateItems(dialect, names);
      tail := " ON DUPLICATE KEY UPDATE " + onUpdateQuery;
    }
    UpsertBatchTextAssembly(dialect, ds, names, placeholders, tail);
    UpsertBatchTemplateRender(dialect, ds);
    sql := Some(ReplacePrefix(config, insertQuery + valuesQuery + tail));
    UpsertBatchTemplateParams(dialect, ds);
    bindings := BindFresh(values);
  }

  // ------------------------------------------------------------------ what the statement means

  /**
   * Headline for the upsert: one `?` per bound value, the values being every row's
   * non-auto-increment columns in row order.
   */
  lemma UpsertBatchPlaceholders(config: DatabaseConfiguration, ds: seq<Descriptor>)
    requires |ds| > 0 && SafeConfiguration(config)
    requires '?' !in ds[0].tableName && NamesNoMarks(ds[0].columns) && KeysNoMarks(ds[0].primaryKeys)
    ensures Params(UpsertBatchTemplate(config.databaseType, ds)) == UpsertValues(ds)
    ensures Count(Sql(config, UpsertBatchTemplate(config.databaseType, ds)), '?') == |UpsertValues(ds)|
  {
    UpsertBatchTemplateParams(config.databaseType, ds);
    UpsertHeadNoMarks(ds[0]);
    ConflictClauseNoMarks(config.databaseType, ds[0]);
    UpsertBatchTemplatePlain(config.databaseType, ds);
    PlaceholderCountAfterSubstitution(config, UpsertBatchTemplate(config.databaseType, ds));
  }

  /** Name i of the INSERT list is a non-auto-increment column of first, and update item i assigns that column. */
  predicate ColumnUpdated(dialect: DatabaseType, first: Descriptor, i: int)
    requires 0 <= i < |InsertColumnNames(first)|
  {
    exists c :: c in first.columns && !c.isAutoIncrement && InsertColumnNames(first)[i] == SafeName(c.name)
      && UpdateItems(dialect, InsertColumnNames(first))[i] == UpdateItem(dialect, SafeName(c.name))
  }

  /**
   * The update list covers the inserted columns one for one: item i updates column name i
   * of the INSERT list, and no auto-increment column of the first descriptor is updated.
   */
  lemma UpdateListMatchesInsertList(dialect: DatabaseType, first: Descriptor)
    ensures |UpdateItems(dialect, InsertColumnNames(first))| == |InsertColumnNames(first)|
    ensures forall i :: 0 <= i < |InsertColumnNames(first)| ==> ColumnUpdated(dialect, first, i)
  {
    var written := Insertable(first.columns);
    InsertableMembers(first.columns);
    forall i | 0 <= i < |InsertColumnNames(first)|
      ensures ColumnUpdated(dialect, first, i)
    {
      assert written[i] in written;
    }
  }

  /**
   * Without auto-increment columns the upsert is the plain batch insert followed by the
   * conflict clause, binding the same values.
   */
  lemma UpsertExtendsInsertBatch(dialect: DatabaseType, ds: seq<Descriptor>)
    requires |ds| > 0
    requires forall k, i :: 0 <= k < |ds| && 0 <= i < |ds[k].columns| ==> !ds[k].columns[i].isAutoIncrement
    ensures UpsertBatchText(dialect, ds) == InsertBatchRequests.InsertBatchText(ds) + ConflictClause(dialect, ds[0])
    ensures UpsertValues(ds) == InsertBatchRequests.BatchValues(ds)
  {
    forall k | 0 <= k < |ds|
      ensures Insertable(ds[k].columns) == ds[k].columns
    {
      InsertableWithoutAutoIncrement(ds[k].columns);
    }
    assert UpsertRowTexts(ds) == InsertBatchRequests.RowTexts(ds);
    assert UpsertRowValues(ds) == InsertBatchRequests.RowValues(ds);
  }

  /**
   * With every row writing n columns, the upsert binds |ds| * n values, and written column j
   * of row k is the value at position k * n + j + 1.
   */
  lemma SameWidthLayout(ds: seq<Descriptor>, n: nat, k: nat, j: nat)
    requires forall i :: 0 <= i < |ds| ==> |Insertable(ds[i].columns)| == n
    requires k < |ds| && j < n
    ensures |UpsertValues(ds)| == |ds| * n
    ensures k * n + j < |UpsertValues(ds)| && UpsertValues(ds)[k * n + j] == Objects(Insertable(ds[k].columns))[j]
  {
    FlattenUniformLength(UpsertRowValues(ds), n);
    FlattenCell(UpsertRowValues(ds), n, k, j);
  }

  /** The result: 0 for an empty list, the driver's update count, or DatabaseException("upsertBatch", first table). */
  function UpsertBatchResult(ds: seq<Descriptor>, outcome: Result<int, string>): (r: Result<int, Error>)
    ensures |ds| == 0 ==> r == Ok(0)
    ensures |ds| > 0 && outcome.Ok? ==> r == Ok(outcome.value)
    ensures |ds| > 0 && outcome.Err? ==> r == Err(DatabaseException("upsertBatch", ds[0].tableName))
  {
    if |ds| == 0 then Ok(0)
    else match outcome
      case Ok(count) => Ok(count)
      case Err(_) => Err(DatabaseException("upsertBatch", ds[0].tableName))
  }
}
