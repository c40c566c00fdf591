/**
 * ColumnDefinition: one column of a table descriptor and the DDL fragment it
 * renders for CREATE TABLE / ALTER TABLE in a given dialect.
 */
module ColumnDefinitions {
  import opened Wrappers
  import opened Text
  import opened Configuration
  import opened Statements

  /**
   * The column's fields. `colType` is None for a column created without a type (it
   * then prints as `null`); `obj` (the source's `object` field) is the value an INSERT/UPDATE binds for it.
   * The fluent setters (setLength, setNullable, setObject, ...) are the record
   * updates `c.(length := l)`, `c.(nullable := b)`, ... at their call sites.
   */
  datatype ColumnDefinition = ColumnDefinition(
    name: string,
    colType: Option<string>,
    length: int,
    decimal: int,
    nullable: bool,
    defaultValue: Option<string>,
    isPrimaryKey: bool,
    referenceTable: Option<string>,
    obj: Value,
    isAutoIncrement: bool,
    unique: bool)

  /** new ColumnDefinition(name, type) */
  function NewTypedColumn(name: string, colType: string): (c: ColumnDefinition)
    ensures c.name == name && c.colType == Some(colType)
    ensures !c.nullable && !c.isPrimaryKey && !c.unique && !c.isAutoIncrement
    ensures c.defaultValue.None? && c.referenceTable.None? && c.obj == Null
    ensures c.length == 0 && c.decimal == 0
  {
    ColumnDefinition(name, Some(colType), 0, 0, false, None, false, None, Null, false, false)
  }

  /** new ColumnDefinition(name): no type at all. */
  function NewColumn(name: string): (c: ColumnDefinition)
    ensures c.name == name && c.colType.None?
    ensures !c.nullable && !c.isPrimaryKey && !c.unique && !c.isAutoIncrement
    ensures c.defaultValue.None? && c.referenceTable.None? && c.obj == Null
    ensures c.length == 0 && c.decimal == 0
  {
    ColumnDefinition(name, None, 0, 0, false, None, false, None, Null, false, false)
  }

  /** getSafeName: the name between backticks. */
  function SafeName(name: string): (r: string)
    ensures |r| == |name| + 2 && r[0] == '`' && r[|r| - 1] == '`'
  {
    "`" + name + "`"
  }

  /** Between the backticks is the name itself. */
  lemma SafeNameInner(name: string)
    ensures SafeName(name)[1..|name| + 1] == name
  {
  }

  /** Backticking keeps distinct names distinct. */
  lemma SafeNameInjective(a: string, b: string)
    ensures SafeName(a) == SafeName(b) ==> a == b
  {
    if SafeName(a) == SafeName(b) {
      SafeNameInner(a);
      SafeNameInner(b);
    }
  }

  /** The integer spellings SQLite requires to become INTEGER for an AUTOINCREMENT key. */
  predicate IsIntegerSpelling(t: string)
  {
    EqualsIgnoreCase(t, "BIGINT") || EqualsIgnoreCase(t, "INT") || EqualsIgnoreCase(t, "INTEGER")
  }

  /** equalsIgnoreCase on a null type would throw: an auto-increment column on SQLite must have a type. */
  predicate Renderable(c: ColumnDefinition, dialect: DatabaseType)
  {
    c.isAutoIncrement && dialect == Sqlite ==> c.colType.Some?
  }

  /** The type as printed: normalised to INTEGER for an SQLite auto-increment integer column. */
  function ColumnType(c: ColumnDefinition, dialect: DatabaseType): (r: string)
    requires Renderable(c, dialect)
    ensures c.isAutoIncrement && dialect == Sqlite && IsIntegerSpelling(c.colType.value) ==> r == "INTEGER"
    ensures !(c.isAutoIncrement && dialect == Sqlite && IsIntegerSpelling(c.colType.value)) ==> r == StringOf(c.colType)
  {
    if c.isAutoIncrement && dialect == Sqlite && IsIntegerSpelling(c.colType.value) then "INTEGER"
    else StringOf(c.colType)
  }

  /** `(length,decimal)`, `(length)` or nothing. */
  function SizeSuffix(length: int, decimal: int): (r: string)
    ensures r == "" <==> length == 0
    ensures r != "" ==> r[0] == '(' && r[|r| - 1] == ')'
    ensures ',' in r <==> length != 0 && decimal != 0
    ensures '?' !in r
  {
    IntToStringHasNoPunctuation(length);
    IntToStringHasNoPunctuation(decimal);
    if length != 0 && decimal != 0 then "(" + IntToString(length) + "," + IntToString(decimal) + ")"
    else if length != 0 then "(" + IntToString(length) + ")"
    else ""
  }

  lemma IntToStringHasNoPunctuation(n: int)
    ensures ',' !in IntToString(n) && '?' !in IntToString(n) && ')' !in IntToString(n)
  {
    var s := NatToString(if n < 0 then -n else n);
    assert forall i :: 0 <= i < |s| ==> IsDigit(s[i]);
  }

  /** The fixed start of every fragment: backticked name, a space, the type and the size. */
  function Head(c: ColumnDefinition, dialect: DatabaseType): string
    requires Renderable(c, dialect)
  {
    SafeName(c.name) + " " + ColumnType(c, dialect) + SizeSuffix(c.length, c.decimal)
  }

  /** The clauses after the auto-increment keyword: nullability, then DEFAULT, then UNIQUE. */
  function Constraints(c: ColumnDefinition): string
  {
    (if c.nullable then " NULL" else " NOT NULL")
    + (if c.defaultValue.Some? then " DEFAULT " + c.defaultValue.value else "")
    + (if c.unique then " UNIQUE" else "")
  }

  /** build(configuration): the column's DDL fragment. */
  function Build(c: ColumnDefinition, config: DatabaseConfiguration): string
    requires Renderable(c, config.databaseType)
  {
    var head := Head(c, config.databaseType);
    if c.isAutoIncrement && c.isPrimaryKey then
      if config.databaseType == Sqlite then
        head + " PRIMARY KEY AUTOINCREMENT" + (if c.unique then " UNIQUE" else "")
      else
        head + " AUTO_INCREMENT" + Constraints(c)
    else
      head + Constraints(c)
  }

  /** SQLite declares an auto-increment primary key inline, with nothing after it but an optional UNIQUE. */
  lemma BuildSqliteInlineKey(c: ColumnDefinition, config: DatabaseConfiguration)
    requires config.databaseType == Sqlite && c.isAutoIncrement && c.isPrimaryKey && c.colType.Some?
    ensures Build(c, config) == Head(c, Sqlite) + " PRIMARY KEY AUTOINCREMENT" + (if c.unique then " UNIQUE" else "")
    ensures IsIntegerSpelling(c.colType.value) ==> Head(c, Sqlite) == SafeName(c.name) + " INTEGER" + SizeSuffix(c.length, c.decimal)
  {
  }

  /** MySQL and MariaDB put AUTO_INCREMENT before the nullability clause; without a primary key no keyword is emitted. */
  lemma BuildServerAutoIncrement(c: ColumnDefinition, config: DatabaseConfiguration)
    requires config.databaseType != Sqlite && c.isAutoIncrement
    ensures c.isPrimaryKey ==> Build(c, config) == Head(c, config.databaseType) + " AUTO_INCREMENT" + Constraints(c)
    ensures !c.isPrimaryKey ==> Build(c, config) == Head(c, config.databaseType) + Constraints(c)
    ensures Head(c, config.databaseType) == SafeName(c.name) + " " + StringOf(c.colType) + SizeSuffix(c.length, c.decimal)
  {
  }

  /** Every fragment starts with the backticked name and a space, followed by the printed type. */
  lemma BuildStartsWithNameAndType(c: ColumnDefinition, config: DatabaseConfiguration)
    requires Renderable(c, config.databaseType)
    ensures SafeName(c.name) + " " + ColumnType(c, config.databaseType) <= Build(c, config)
  {
    var p := SafeName(c.name) + " " + ColumnType(c, config.databaseType);
    var b := Build(c, config);
    assert b == p + b[|p|..];
  }

  /** Outside the inline SQLite key, exactly one of NULL / NOT NULL follows, per the nullable flag. */
  lemma ConstraintsOrder(c: ColumnDefinition)
    ensures c.nullable ==> Constraints(c)[..5] == " NULL"
    ensures !c.nullable ==> Constraints(c)[..9] == " NOT NULL"
    ensures c.defaultValue.None? && !c.unique ==> Constraints(c) == (if c.nullable then " NULL" else " NOT NULL")
  {
  }

  /** MySQL and MariaDB render every column identically. */
  lemma ServerDialectsAgree(c: ColumnDefinition, a: DatabaseConfiguration, b: DatabaseConfiguration)
    requires a.databaseType != Sqlite && b.databaseType != Sqlite
    ensures Build(c, a) == Build(c, b)
  {
  }

  /** A column that is not auto-increment renders the same in every dialect. */
  lemma PlainColumnDialectAgnostic(c: ColumnDefinition, a: DatabaseConfiguration, b: DatabaseConfiguration)
    requires !c.isAutoIncrement
    ensures Build(c, a) == Build(c, b)
  {
  }

  /** A freshly typed column renders as `name` type NOT NULL. */
  lemma NewTypedColumnBuild(name: string, colType: string, config: DatabaseConfiguration)
    ensures Build(NewTypedColumn(name, colType), config) == SafeName(name) + " " + colType + " NOT NULL"
  {
  }

  /** The names, type and default a column carries contain no placeholder. */
  predicate NoMarks(c: ColumnDefinition)
  {
    '?' !in c.name && (c.colType.Some? ==> '?' !in c.colType.value)
    && (c.defaultValue.Some? ==> '?' !in c.defaultValue.value)
  }

  /** A fragment built from placeholder-free parts holds no `?`, so a DDL statement binds nothing. */
  lemma BuildHasNoPlaceholder(c: ColumnDefinition, config: DatabaseConfiguration)
    requires Renderable(c, config.databaseType) && NoMarks(c)
    ensures '?' !in Build(c, config)
  {
    var dialect := config.databaseType;
    var suffix := SizeSuffix(c.length, c.decimal);
    assert '?' !in ColumnType(c, dialect);
    assert '?' !in Head(c, dialect) by {
      assert Head(c, dialect) == SafeName(c.name) + " " + ColumnType(c, dialect) + suffix;
    }
    var nullability := if c.nullable then " NULL" else " NOT NULL";
    var default := if c.defaultValue.Some? then " DEFAULT " + c.defaultValue.value else "";
    var uniqueness := if c.unique then " UNIQUE" else "";
    assert '?' !in nullability && '?' !in default && '?' !in uniqueness;
    assert '?' !in Constraints(c) by {
      assert Constraints(c) == nullability + default + uniqueness;
    }
  }
}
