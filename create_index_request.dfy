/**
 * CreateIndexRequest: `CREATE INDEX idx_<table>_<column> ON `<table>` (`<column>` )`, built
 * from the first column only.
 */
module CreateIndexRequests {
  import opened Wrappers
  import opened Errors
  import opened Configuration
  import opened ColumnDefinitions
  import opened SchemaBuilders

  /** The index name: "idx_", the table, "_" and the first column's raw name. */
  function IndexName(tableName: string, column: ColumnDefinition): (r: string)
    ensures |r| == |tableName| + |column.name| + 5
    ensures r[..4] == "idx_" && r[4..4 + |tableName|] == tableName && r[|r| - |column.name|..] == column.name
  {
    "idx_" + tableName + "_" + column.name
  }

  /**
   * execute's text before the prefix is substituted; columns.get(0) on an empty list throws
   * IndexOutOfBoundsException.
   */
  function CreateIndexText(d: Descriptor): (r: Result<string, Error>)
    ensures r.Err? <==> |d.columns| == 0
    ensures r.Err? ==> r.error == IndexOutOfBounds
  {
    if |d.columns| == 0 then Err(IndexOutOfBounds)
    else
      var column := d.columns[0];
      Ok("CREATE INDEX " + IndexName(d.tableName, column) + " ON " + "`" + d.tableName + "`" + " (" + SafeName(column.name) + " )")
  }

  /** The statement sent: the text with the prefix substituted. */
  function CreateIndexSql(config: DatabaseConfiguration, d: Descriptor): (r: Result<string, Error>)
    requires Substitutable(config)
    ensures r.Err? <==> |d.columns| == 0
    ensures r.Ok? ==> r.value == ReplacePrefix(config, CreateIndexText(d).value)
  {
    match CreateIndexText(d)
    case Ok(text) => Ok(ReplacePrefix(config, text))
    case Err(e) => Err(e)
  }

  /** Only the first column counts: descriptors that agree on the table and the first column name agree on the text. */
  lemma OnlyFirstColumn(d: Descriptor, e: Descriptor)
    requires |d.columns| > 0 && |e.columns| > 0
    requires d.tableName == e.tableName && d.columns[0].name == e.columns[0].name
    ensures CreateIndexText(d) == CreateIndexText(e)
  {
  }

  /** The text opens with the index name and closes on the backticked first column and " )". */
  lemma CreateIndexShape(d: Descriptor)
    requires |d.columns| > 0
    ensures var text := CreateIndexText(d).value;
      var tail := SafeName(d.columns[0].name) + " )";
      "CREATE INDEX " + IndexName(d.tableName, d.columns[0]) <= text
      && |tail| <= |text| && text[|text| - |tail|..] == tail
  {
    var opening := "CREATE INDEX " + IndexName(d.tableName, d.columns[0]);
    var middle := " ON " + "`" + d.tableName + "`" + " (";
    var tail := SafeName(d.columns[0].name) + " )";
    assert CreateIndexText(d).value == opening + middle + tail;
    PrefixAndSuffix(opening, middle, tail);
  }

  lemma PrefixAndSuffix(a: string, b: string, c: string)
    ensures a <= a + b + c
    ensures (a + b + c)[|a + b + c| - |c|..] == c
  {
    assert (a + b + c)[..|a|] == a;
  }

  /**
   * Index names can collide: table "a_b" with column "c" and table "a" with column "b_c" both
   * give idx_a_b_c.
   */
  lemma IndexNamesCanCollide()
    ensures IndexName("a_b", NewColumn("c")) == IndexName("a", NewColumn("b_c"))
  {
  }

  /** The result: the driver's update count; a failure raises DatabaseException("createIndex", table). */
  function CreateIndexResult(d: Descriptor, outcome: Result<int, string>): (r: Result<int, Error>)
    ensures outcome.Ok? ==> r == Ok(outcome.value)
    ensures outcome.Err? ==> r == Err(DatabaseException("createIndex", d.tableName))
  {
    match outcome
    case Ok(count) => Ok(count)
    case Err(_) => Err(DatabaseException("createIndex", d.tableName))
  }
}
