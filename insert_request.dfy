/** InsertRequest: one row, one `?` per column, the columns' values bound in column order. */
module InsertRequests {
  import opened Wrappers
  import opened Text
  import opened Configuration
  import opened Statements
  import opened ColumnDefinitions
  import opened SchemaBuilders
  import opened RequestParts

  /** The statement text up to the value tuple. */
  function InsertHead(d: Descriptor): string
  {
    "INSERT INTO " + d.tableName + " (" + Join(", ", SafeNames(d.columns)) + ") VALUES ("
  }

  /** The INSERT statement: every column, auto-increment ones included, each with its value. */
  function InsertTemplate(d: Descriptor): Template
  {
    [Lit(InsertHead(d))] + Slots(", ", Objects(d.columns)) + [Lit(")")]
  }

  lemma InsertTemplateRender(d: Descriptor)
    ensures Render(InsertTemplate(d)) == InsertHead(d) + Join(", ", Repeat("?", |d.columns|)) + ")"
  {
    BracketedRender(InsertHead(d), Slots(", ", Objects(d.columns)), ")");
    SlotsRender(", ", Objects(d.columns));
  }

  lemma InsertTemplateParams(d: Descriptor)
    ensures Params(InsertTemplate(d)) == Objects(d.columns)
  {
    BracketedParams(InsertHead(d), Slots(", ", Objects(d.columns)), ")");
    SlotsParams(", ", Objects(d.columns));
  }

  lemma InsertTemplatePlain(d: Descriptor)
    requires '?' !in d.tableName && NamesNoMarks(d.columns)
    ensures Plain(InsertTemplate(d))
  {
    SafeNamesNoMarks(", ", d.columns);
    SlotsPlain(", ", Objects(d.columns));
    BracketedPlain(InsertHead(d), Slots(", ", Objects(d.columns)), ")");
  }

  /**
   * The INSERT renders `INSERT INTO t (`a`, `b`) VALUES (?, ?)` and binds the columns'
   * values in column order.
   */
  lemma InsertTemplateMeaning(d: Descriptor)
    ensures Render(InsertTemplate(d)) == InsertHead(d) + Join(", ", Repeat("?", |d.columns|)) + ")"
    ensures Params(InsertTemplate(d)) == Objects(d.columns)
    ensures '?' !in d.tableName && NamesNoMarks(d.columns) ==> Plain(InsertTemplate(d))
  {
    InsertTemplateRender(d);
    InsertTemplateParams(d);
    if '?' !in d.tableName && NamesNoMarks(d.columns) {
      InsertTemplatePlain(d);
    }
  }

  /** The column loop of execute: names and `?` appended column by column, values collected alongside. */
  method CollectInsertParts(cs: seq<ColumnDefinition>) returns (names: string, marks: string, values: seq<Value>)
    ensures names == Join(", ", SafeNames(cs))
    ensures marks == Render(Slots(", ", Objects(cs)))
    ensures values == Objects(cs)
  {
    names := "";
    marks := "";
    values := [];
    var i := 0;
    while i < |cs|
      invariant 0 <= i <= |cs|
      invariant names == Join(", ", SafeNames(cs[..i]))
      invariant marks == Render(Slots(", ", Objects(cs[..i])))
      invariant values == Objects(cs[..i])
    {
      NameStep(cs, i);
      MarkStep(cs, i);
      ValueStep(cs, i);
      names := names + (if i > 0 then ", " else "") + SafeName(cs[i].name);
      marks := marks + (if i > 0 then ", " else "") + "?";
      values := values + [cs[i].obj];
      i := i + 1;
    }
    assert cs[..i] == cs;
  }

  /** The two halves execute builds, put together, are the rendered template. */
  lemma InsertTextAssembly(d: Descriptor, names: string, marks: string)
    requires names == Join(", ", SafeNames(d.columns))
    requires marks == Render(Slots(", ", Objects(d.columns)))
    ensures ("INSERT INTO " + d.tableName + " (" + names + ") ") + ("VALUES (" + marks + ")") == Render(InsertTemplate(d))
  {
    BracketedRender(InsertHead(d), Slots(", ", Objects(d.columns)), ")");
  }

  /**
   * execute's statement: the names and the `?` are appended column by column, the values
   * collected alongside, and then bound from position 1.
   */
  method CompileInsert(config: DatabaseConfiguration, d: Descriptor) returns (sql: string, bindings: Bindings)
    requires Substitutable(config)
    ensures sql == Sql(config, InsertTemplate(d))
    ensures bindings == Positional(Params(InsertTemplate(d)), 1)
  {
    var names, marks, values := CollectInsertParts(d.columns);
    var insertQuery := "INSERT INTO " + d.tableName + " (" + names + ") ";
    var valuesQuery := "VALUES (" + marks + ")";
    InsertTextAssembly(d, names, marks);
    sql := ReplacePrefix(config, insertQuery + valuesQuery);
    InsertTemplateParams(d);
    bindings := BindFresh(values);
  }

  /**
   * Headline for INSERT: the text sent holds one `?` per column, and column i's value is
   * the one bound at position i + 1.
   */
  lemma InsertPlaceholders(config: DatabaseConfiguration, d: Descriptor)
    requires SafeConfiguration(config) && '?' !in d.tableName && NamesNoMarks(d.columns)
    ensures Count(Sql(config, InsertTemplate(d)), '?') == |d.columns|
    ensures Params(InsertTemplate(d)) == Objects(d.columns)
    ensures forall i :: 0 <= i < |d.columns| ==> Positional(Params(InsertTemplate(d)), 1)[i + 1] == d.columns[i].obj
  {
    InsertTemplateMeaning(d);
    PlaceholderCountAfterSubstitution(config, InsertTemplate(d));
    forall i | 0 <= i < |d.columns|
      ensures Positional(Params(InsertTemplate(d)), 1)[i + 1] == d.columns[i].obj
    {
      assert 1 + i == i + 1;
    }
  }

  /** What the driver reports: a failure, or the generated keys (whose reading can fail). */
  datatype InsertOutcome = InsertFailed(message: string) | Inserted(generatedKeys: Result<Option<int>, string>)

  /** The result: the first generated key, 0 without one, -1 when the statement or the key reading fails. */
  function InsertResult(outcome: InsertOutcome): (r: int)
    ensures outcome.InsertFailed? || outcome.generatedKeys.Err? ==> r == -1
    ensures outcome.Inserted? && outcome.generatedKeys == Ok(None) ==> r == 0
    ensures outcome.Inserted? && outcome.generatedKeys.Ok? && outcome.generatedKeys.value.Some? ==> r == outcome.generatedKeys.value.value
  {
    match outcome
    case InsertFailed(_) => -1
    case Inserted(Err(_)) => -1
    case Inserted(Ok(None)) => 0
    case Inserted(Ok(Some(key))) => key
  }
}
