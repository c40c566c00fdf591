/**
 * CreateRequest: `CREATE TABLE IF NOT EXISTS t (<columns>[, PRIMARY KEY (…)][, <fk>]…)`.
 * The columns render through ColumnDefinition.build; SQLite's inline auto-increment key
 * suppresses the separate PRIMARY KEY clause.
 */
module CreateRequests {
  import opened Wrappers
  import opened Errors
  import opened Text
  import opened Configuration
  import opened ColumnDefinitions
  import opened SchemaBuilders

  /** Every column renders on the given dialect (an SQLite auto-increment column has a type). */
  predicate AllRenderable(cs: seq<ColumnDefinition>, dialect: DatabaseType)
  {
    forall i :: 0 <= i < |cs| ==> Renderable(cs[i], dialect)
  }

  /** build(configuration) of each column, in declaration order. */
  function ColumnSqls(cs: seq<ColumnDefinition>, config: DatabaseConfiguration): (r: seq<string>)
    requires AllRenderable(cs, config.databaseType)
    ensures |r| == |cs|
    decreases |cs|
  {
    if |cs| == 0 then [] else ColumnSqls(cs[..|cs| - 1], config) + [Build(cs[|cs| - 1], config)]
  }

  /** The i-th fragment is the i-th column's build output. */
  lemma {:induction false} ColumnSqlsIndex(cs: seq<ColumnDefinition>, config: DatabaseConfiguration, i: int)
    requires AllRenderable(cs, config.databaseType) && 0 <= i < |cs|
    ensures ColumnSqls(cs, config)[i] == Build(cs[i], config)
    decreases |cs|
  {
    if i < |cs| - 1 {
      ColumnSqlsIndex(cs[..|cs| - 1], config, i);
    }
  }

  /** Some column declares the key inline: SQLite and a column both auto-increment and primary. */
  predicate InlinePrimaryKey(cs: seq<ColumnDefinition>, dialect: DatabaseType)
  {
    dialect == Sqlite && exists i :: 0 <= i < |cs| && cs[i].isAutoIncrement && cs[i].isPrimaryKey
  }

  /** ", PRIMARY KEY (k1, k2…)" when there are keys and none is declared inline. */
  function PrimaryKeyClause(primaryKeys: seq<string>, inline: bool): (r: string)
    ensures r != "" <==> |primaryKeys| > 0 && !inline
    ensures r != "" ==> r == ", PRIMARY KEY (" + Join(", ", primaryKeys) + ")"
  {
    if |primaryKeys| > 0 && !inline then ", PRIMARY KEY (" + Join(", ", primaryKeys) + ")" else ""
  }

  /** Each foreign-key fragment after ", ", in insertion order. */
  function ForeignKeyClauses(foreignKeys: seq<string>): string
    decreases |foreignKeys|
  {
    if |foreignKeys| == 0 then ""
    else ForeignKeyClauses(foreignKeys[..|foreignKeys| - 1]) + ", " + foreignKeys[|foreignKeys| - 1]
  }

  /** The foreign-key clauses are the fragments joined by ", ", led by one more ", ". */
  lemma {:induction false} ForeignKeyClausesJoin(foreignKeys: seq<string>)
    ensures ForeignKeyClauses(foreignKeys) == if |foreignKeys| == 0 then "" else ", " + Join(", ", foreignKeys)
    decreases |foreignKeys|
  {
    var n := |foreignKeys|;
    if n > 1 {
      ForeignKeyClausesJoin(foreignKeys[..n - 1]);
    } else if n == 1 {
      assert foreignKeys[..0] == [];
    }
  }

  /** The statement text before the prefix is substituted. */
  function CreateText(d: Descriptor, config: DatabaseConfiguration): (r: string)
    requires AllRenderable(d.columns, config.databaseType)
    ensures "CREATE TABLE IF NOT EXISTS " + d.tableName + " (" <= r
    ensures r[|r| - 1] == ')'
  {
    "CREATE TABLE IF NOT EXISTS " + d.tableName + " ("
    + Join(", ", ColumnSqls(d.columns, config))
    + PrimaryKeyClause(d.primaryKeys, InlinePrimaryKey(d.columns, config.databaseType))
    + ForeignKeyClauses(d.foreignKeys)
    + ")"
  }

  /** A descriptor whose columns all render on SQLite renders on every dialect. */
  lemma TypedColumnsRender(d: Descriptor, dialect: DatabaseType)
    requires ColumnsTyped(d)
    ensures AllRenderable(d.columns, dialect)
  {
  }

  lemma ColumnSqlsStep(cs: seq<ColumnDefinition>, config: DatabaseConfiguration, i: int)
    requires AllRenderable(cs, config.databaseType) && 0 <= i < |cs|
    ensures ColumnSqls(cs[..i + 1], config) == ColumnSqls(cs[..i], config) + [Build(cs[i], config)]
  {
    assert cs[..i + 1][..i] == cs[..i];
  }

  lemma InlinePrimaryKeyStep(cs: seq<ColumnDefinition>, dialect: DatabaseType, i: int)
    requires 0 <= i < |cs|
    ensures InlinePrimaryKey(cs[..i + 1], dialect)
        <==> InlinePrimaryKey(cs[..i], dialect) || (cs[i].isAutoIncrement && cs[i].isPrimaryKey && dialect == Sqlite)
  {
    assert cs[..i + 1][i] == cs[i];
    assert forall k :: 0 <= k < i ==> cs[..i + 1][k] == cs[..i][k];
  }

  /**
   * The column loop of execute: each column's fragment in order, and the inline-key flag raised
   * exactly when SQLite meets an auto-increment primary key column.
   */
  method CollectColumnSqls(cs: seq<ColumnDefinition>, config: DatabaseConfiguration)
    returns (columnSqls: seq<string>, hasInlinePrimaryKey: bool)
    requires AllRenderable(cs, config.databaseType)
    ensures columnSqls == ColumnSqls(cs, config)
    ensures hasInlinePrimaryKey <==> InlinePrimaryKey(cs, config.databaseType)
  {
    columnSqls := [];
    hasInlinePrimaryKey := false;
    var i := 0;
    while i < |cs|
      invariant 0 <= i <= |cs|
      invariant columnSqls == ColumnSqls(cs[..i], config)
      invariant hasInlinePrimaryKey <==> InlinePrimaryKey(cs[..i], config.databaseType)
    {
      ColumnSqlsStep(cs, config, i);
      InlinePrimaryKeyStep(cs, config.databaseType, i);
      columnSqls := columnSqls + [Build(cs[i], config)];
      if cs[i].isAutoIncrement && cs[i].isPrimaryKey && config.databaseType == Sqlite {
        hasInlinePrimaryKey := true;
      }
      i := i + 1;
    }
    assert cs[..i] == cs;
  }

  lemma ForeignKeyClausesStep(foreignKeys: seq<string>, j: int)
    requires 0 <= j < |foreignKeys|
    ensures ForeignKeyClauses(foreignKeys[..j + 1]) == ForeignKeyClauses(foreignKeys[..j]) + ", " + foreignKeys[j]
  {
    assert foreignKeys[..j + 1][..j] == foreignKeys[..j];
  }

  /** The foreign-key loop of execute. */
  method AppendForeignKeys(text: string, foreignKeys: seq<string>) returns (r: string)
    ensures r == text + ForeignKeyClauses(foreignKeys)
  {
    r := text;
    var j := 0;
    while j < |foreignKeys|
      invariant 0 <= j <= |foreignKeys|
      invariant r == text + ForeignKeyClauses(foreignKeys[..j])
    {
      ForeignKeyClausesStep(foreignKeys, j);
      r := r + ", " + foreignKeys[j];
      j := j + 1;
    }
    assert foreignKeys[..j] == foreignKeys;
  }

  /** The text execute assembles from the column fragments, the key flag and the foreign keys. */
  lemma CreateTextAssembly(d: Descriptor, config: DatabaseConfiguration, columnSqls: seq<string>, inline: bool, keyClause: string)
    requires AllRenderable(d.columns, config.databaseType)
    requires columnSqls == ColumnSqls(d.columns, config)
    requires inline == InlinePrimaryKey(d.columns, config.databaseType)
    requires keyClause == if |d.primaryKeys| > 0 && !inline then ", PRIMARY KEY (" + Join(", ", d.primaryKeys) + ")" else ""
    ensures ("CREATE TABLE IF NOT EXISTS " + d.tableName + " (" + Join(", ", columnSqls) + keyClause)
      + ForeignKeyClauses(d.foreignKeys) + ")" == CreateText(d, config)
  {
  }

  /**
   * execute's statement: nothing is bound, the text is sent with the prefix substituted. On
   * SQLite an auto-increment column without a type makes build throw NullPointerException
   * (equalsIgnoreCase on the null type) before any statement is prepared.
   */
  method CompileCreate(config: DatabaseConfiguration, d: Descriptor) returns (sql: Result<string, Error>)
    requires Substitutable(config)
    ensures sql.Err? <==> exists i :: 0 <= i < |d.columns| && d.columns[i].isAutoIncrement
                                      && config.databaseType == Sqlite && d.columns[i].colType.None?
    ensures sql.Err? ==> sql.error == NullPointer
    ensures sql.Ok? ==> AllRenderable(d.columns, config.databaseType)
                        && sql.value == ReplacePrefix(config, CreateText(d, config))
  {
    if !AllRenderable(d.columns, config.databaseType) {
      return Err(NullPointer);
    }
    var columnSqls, hasInlinePrimaryKey := CollectColumnSqls(d.columns, config);
    var keyClause := "";
    if |d.primaryKeys| > 0 && !hasInlinePrimaryKey {
      keyClause := ", PRIMARY KEY (" + Join(", ", d.primaryKeys) + ")";
    }
    var query := "CREATE TABLE IF NOT EXISTS " + d.tableName + " (" + Join(", ", columnSqls) + keyClause;
    query := AppendForeignKeys(query, d.foreignKeys);
    CreateTextAssembly(d, config, columnSqls, hasInlinePrimaryKey, keyClause);
    sql := Ok(ReplacePrefix(config, query + ")"));
  }

  /**
   * Where the key is declared: on MySQL and MariaDB the PRIMARY KEY clause is there exactly
   * when there are keys; on SQLite an inline auto-increment key removes it.
   */
  lemma PrimaryKeyPlacement(d: Descriptor, config: DatabaseConfiguration)
    ensures config.databaseType != Sqlite ==>
      (PrimaryKeyClause(d.primaryKeys, InlinePrimaryKey(d.columns, config.databaseType)) != "" <==> |d.primaryKeys| > 0)
    ensures InlinePrimaryKey(d.columns, config.databaseType) ==>
      PrimaryKeyClause(d.primaryKeys, InlinePrimaryKey(d.columns, config.databaseType)) == ""
  {
  }

  /** The joined column fragments hold no `?` when no column text does. */
  lemma ColumnSqlsNoMarks(cs: seq<ColumnDefinition>, config: DatabaseConfiguration)
    requires AllRenderable(cs, config.databaseType)
    requires forall i :: 0 <= i < |cs| ==> NoMarks(cs[i])
    ensures '?' !in Join(", ", ColumnSqls(cs, config))
  {
    var sqls := ColumnSqls(cs, config);
    forall i | 0 <= i < |sqls|
      ensures '?' !in sqls[i]
    {
      ColumnSqlsIndex(cs, config, i);
      BuildHasNoPlaceholder(cs[i], config);
    }
    JoinAvoids(", ", sqls, '?');
  }

  /** The statement carries no placeholder when none of its parts does: nothing is to be bound. */
  lemma CreateHasNoPlaceholder(d: Descriptor, config: DatabaseConfiguration)
    requires AllRenderable(d.columns, config.databaseType)
    requires '?' !in d.tableName
    requires forall i :: 0 <= i < |d.columns| ==> NoMarks(d.columns[i])
    requires forall i :: 0 <= i < |d.primaryKeys| ==> '?' !in d.primaryKeys[i]
    requires forall i :: 0 <= i < |d.foreignKeys| ==> '?' !in d.foreignKeys[i]
    ensures Count(CreateText(d, config), '?') == 0
  {
    ColumnSqlsNoMarks(d.columns, config);
    var inline := InlinePrimaryKey(d.columns, config.databaseType);
    KeyClauseNoMarks(d.primaryKeys, inline);
    ForeignKeyClausesNoMarks(d.foreignKeys);
    CreateKeywordsNoMarks();
    assert '?' !in "CREATE TABLE IF NOT EXISTS " + d.tableName + " (";
    NoMarkParts("CREATE TABLE IF NOT EXISTS " + d.tableName + " (", Join(", ", ColumnSqls(d.columns, config)),
                PrimaryKeyClause(d.primaryKeys, inline), ForeignKeyClauses(d.foreignKeys), ")");
  }

  lemma KeyClauseNoMarks(primaryKeys: seq<string>, inline: bool)
    requires forall i :: 0 <= i < |primaryKeys| ==> '?' !in primaryKeys[i]
    ensures '?' !in PrimaryKeyClause(primaryKeys, inline)
  {
    JoinAvoids(", ", primaryKeys, '?');
  }

  lemma ForeignKeyClausesNoMarks(foreignKeys: seq<string>)
    requires forall i :: 0 <= i < |foreignKeys| ==> '?' !in foreignKeys[i]
    ensures '?' !in ForeignKeyClauses(foreignKeys)
  {
    JoinAvoids(", ", foreignKeys, '?');
    ForeignKeyClausesJoin(foreignKeys);
  }

  lemma CreateKeywordsNoMarks()
    ensures '?' !in "CREATE TABLE IF NOT EXISTS " && '?' !in " (" && '?' !in ")"
  {
  }

  lemma NoMarkParts(a: string, b: string, c: string, e: string, f: string)
    requires '?' !in a && '?' !in b && '?' !in c && '?' !in e && '?' !in f
    ensures Count(a + b + c + e + f, '?') == 0
  {
    CountAbsent(a + b + c + e + f, '?');
  }

  /** The result: the driver's update count, or -1 when the statement fails. */
  function CreateResult(outcome: Result<int, string>): (r: int)
    ensures outcome.Ok? ==> r == outcome.value
    ensures outcome.Err? ==> r == -1
  {
    match outcome
    case Ok(count) => count
    case Err(_) => -1
  }
}
