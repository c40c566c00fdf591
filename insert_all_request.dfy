/**
 * InsertAllRequest: `INSERT INTO <to> (cols) SELECT cols FROM <from>`, copying every
 * non-auto-increment column from one table to another; nothing is bound.
 */
module InsertAllRequests {
  import opened Wrappers
  import opened Text
  import opened Configuration
  import opened ColumnDefinitions
  import opened SchemaBuilders
  import opened RequestParts

  /** The copied columns: the backticked names of the non-auto-increment columns, joined by ",". */
  function CopiedColumns(cs: seq<ColumnDefinition>): string
  {
    Join(",", SafeNames(Insertable(cs)))
  }

  /** The statement text before the prefix is substituted: the same column list on both sides. */
  function InsertAllText(d: Descriptor, toTableName: string): (r: string)
    ensures "INSERT INTO " + toTableName + " (" <= r
    ensures |r| >= |d.tableName| + 6 && r[|r| - |d.tableName| - 6..] == " FROM " + d.tableName
  {
    var columns := CopiedColumns(d.columns);
    "INSERT INTO " + toTableName + " (" + columns + ") " + "SELECT " + columns + " FROM " + d.tableName
  }

  lemma CopiedColumnsStep(cs: seq<ColumnDefinition>, i: int)
    requires 0 <= i < |cs|
    ensures |Insertable(cs[..i + 1])| == |Insertable(cs[..i])| + (if cs[i].isAutoIncrement then 0 else 1)
    ensures CopiedColumns(cs[..i + 1]) == if cs[i].isAutoIncrement then CopiedColumns(cs[..i])
      else CopiedColumns(cs[..i]) + (if |Insertable(cs[..i])| > 0 then "," else "") + SafeName(cs[i].name)
  {
    InsertableStep(cs, i);
    if !cs[i].isAutoIncrement {
      var before := Insertable(cs[..i]);
      assert Insertable(cs[..i + 1]) == before + [cs[i]];
      NamesSnoc(",", before, cs[i]);
    } else {
      assert Insertable(cs[..i + 1]) == Insertable(cs[..i]) + [];
      assert Insertable(cs[..i]) + [] == Insertable(cs[..i]);
    }
  }

  /**
   * The column loop of execute: auto-increment columns are skipped, the others joined by ","
   * with columnIndex counting the names written.
   */
  method CollectCopiedColumns(cs: seq<ColumnDefinition>) returns (columns: string, columnIndex: int)
    ensures columns == CopiedColumns(cs)
    ensures columnIndex == |Insertable(cs)|
  {
    columns := "";
    columnIndex := 0;
    var i := 0;
    assert cs[..0] == [];
    while i < |cs|
      invariant 0 <= i <= |cs|
      invariant columns == CopiedColumns(cs[..i])
      invariant columnIndex == |Insertable(cs[..i])|
    {
      CopiedColumnsStep(cs, i);
      if !cs[i].isAutoIncrement {
        if columnIndex > 0 {
          columns := columns + ",";
        }
        columns := columns + SafeName(cs[i].name);
        columnIndex := columnIndex + 1;
      }
      i := i + 1;
    }
    assert cs[..i] == cs;
  }

  /** execute's statement, with the prefix substituted. */
  method CompileInsertAll(config: DatabaseConfiguration, d: Descriptor, toTableName: string) returns (sql: string)
    requires Substitutable(config)
    ensures sql == ReplacePrefix(config, InsertAllText(d, toTableName))
  {
    var columns, columnIndex := CollectCopiedColumns(d.columns);
    var query := "INSERT INTO " + toTableName + " (" + columns + ") ";
    query := query + "SELECT " + columns;
    query := query + " FROM " + d.tableName;
    sql := ReplacePrefix(config, query);
  }

  /**
   * The copied list names exactly the columns that are not auto-increment, each once per
   * occurrence and in declaration order; without auto-increment columns it names them all.
   */
  lemma CopiedColumnsSkipAutoIncrement(cs: seq<ColumnDefinition>)
    ensures forall c :: c in Insertable(cs) <==> c in cs && !c.isAutoIncrement
    ensures (forall i :: 0 <= i < |cs| ==> !cs[i].isAutoIncrement) ==> CopiedColumns(cs) == Join(",", SafeNames(cs))
  {
    InsertableMembers(cs);
    if forall i :: 0 <= i < |cs| ==> !cs[i].isAutoIncrement {
      InsertableWithoutAutoIncrement(cs);
    }
  }

  /** Nothing is bound, and the text holds no placeholder when the names hold none. */
  lemma InsertAllHasNoPlaceholder(d: Descriptor, toTableName: string)
    requires '?' !in toTableName && '?' !in d.tableName && NamesNoMarks(d.columns)
    ensures Count(InsertAllText(d, toTableName), '?') == 0
  {
    InsertableNamesNoMarks(d.columns);
    SafeNamesNoMarks(",", Insertable(d.columns));
    InsertAllKeywordsNoMarks();
    var columns := CopiedColumns(d.columns);
    assert '?' !in "INSERT INTO " + toTableName + " (" + columns + ") ";
    assert '?' !in "SELECT " + columns + " FROM " + d.tableName;
    CountAbsent(InsertAllText(d, toTableName), '?');
  }

  lemma InsertAllKeywordsNoMarks()
    ensures '?' !in "INSERT INTO " && '?' !in " (" && '?' !in ") " && '?' !in "SELECT " && '?' !in " FROM "
  {
  }

  /** The result: 0 once the statement ran, -1 when it fails. */
  function InsertAllResult(outcome: Result<int, string>): (r: int)
    ensures outcome.Ok? <==> r == 0
    ensures outcome.Err? <==> r == -1
  {
    if outcome.Ok? then 0 else -1
  }
}
