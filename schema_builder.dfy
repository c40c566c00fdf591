/**
 * SchemaBuilder: the mutable table/query descriptor every executor reads.
 *
 * The descriptor's state is the value `Descriptor`; each fluent builder method is
 * one `BuilderCall`, and `Apply` says what the call does to the state (or which
 * exception it throws). The class `SchemaBuilder` holds the same state in fields
 * and its methods are proved to change it exactly as `Apply` says.
 */
module SchemaBuilders {
  import opened Wrappers
  import opened Errors
  import opened Configuration
  import opened Statements
  import opened ColumnDefinitions
  import opened WhereConditions
  import opened JoinConditions
  import opened SelectConditions

  datatype SchemaType =
    | Create | Alter | Modify | Drop | Rename | Upsert | Insert | Update | Delete | CreateIndex | Select | SelectCount

  /** The builder's fields (the owning migration is kept by the migration registry instead). */
  datatype Descriptor = Descriptor(
    tableName: string,
    schemaType: SchemaType,
    columns: seq<ColumnDefinition>,
    primaryKeys: seq<string>,
    foreignKeys: seq<string>,
    whereConditions: seq<WhereCondition>,
    joinConditions: seq<JoinCondition>,
    selectColumns: seq<SelectCondition>,
    newTableName: Option<string>,
    orderBy: Option<string>,
    isDistinct: bool)

  /** The private constructor: every list empty, no order, not distinct. */
  function EmptyDescriptor(tableName: string, schemaType: SchemaType): (d: Descriptor)
    ensures d.tableName == tableName && d.schemaType == schemaType
    ensures d.columns == [] && d.primaryKeys == [] && d.foreignKeys == []
    ensures d.whereConditions == [] && d.joinConditions == [] && d.selectColumns == []
    ensures d.newTableName.None? && d.orderBy.None? && !d.isDistinct
  {
    Descriptor(tableName, schemaType, [], [], [], [], [], [], None, None, false)
  }

  /** copy(tableName, newType, old): every list and setting of `previous` under a new name and kind. */
  function Copy(tableName: string, newSchemaType: SchemaType, previous: Descriptor): (d: Descriptor)
    ensures d.tableName == tableName && d.schemaType == newSchemaType
    ensures d.(tableName := previous.tableName, schemaType := previous.schemaType) == previous
  {
    previous.(tableName := tableName, schemaType := newSchemaType)
  }

  /** rename(table, newTable) */
  function RenameDescriptor(tableName: string, newTableName: string): (d: Descriptor)
    ensures d.schemaType == Rename && d.newTableName == Some(newTableName) && d.columns == []
  {
    EmptyDescriptor(tableName, Rename).(newTableName := Some(newTableName))
  }

  /** createIndex(table, column): one column with the empty type. */
  function CreateIndexDescriptor(tableName: string, columnName: string): (d: Descriptor)
    ensures d.schemaType == CreateIndex && d.columns == [NewTypedColumn(columnName, "")]
  {
    EmptyDescriptor(tableName, CreateIndex).(columns := [NewTypedColumn(columnName, "")])
  }

  /** selectCount(table) creates a descriptor of kind SELECT, exactly as select(table) does. */
  function SelectCountDescriptor(tableName: string): (d: Descriptor)
    ensures d == EmptyDescriptor(tableName, Select)
  {
    EmptyDescriptor(tableName, Select)
  }

  // ---------------------------------------------------------------- column factories

  /** uuid(name): string(name, 36). */
  function UuidColumn(name: string): (c: ColumnDefinition)
    ensures c.colType == Some("VARCHAR") && c.length == 36 && c.obj == Null
  {
    VarcharColumn(name, 36)
  }

  /** uuid(name, value): an untyped column carrying the UUID's text. */
  function UuidValueColumn(name: string, uuidText: string): (c: ColumnDefinition)
    ensures c.colType.None? && c.obj == Str(uuidText)
  {
    NewColumn(name).(obj := Str(uuidText))
  }

  /** string(name, length) */
  function VarcharColumn(name: string, length: int): (c: ColumnDefinition)
    ensures c.colType == Some("VARCHAR") && c.length == length && c.decimal == 0 && !c.isAutoIncrement
  {
    NewTypedColumn(name, "VARCHAR").(length := length)
  }

  /** decimal(name, length, decimal); decimal(name) is DecimalColumn(name, 65, 30). */
  function DecimalColumn(name: string, length: int, decimal: int): (c: ColumnDefinition)
    ensures c.colType == Some("DECIMAL") && c.length == length && c.decimal == decimal && !c.isAutoIncrement
  {
    NewTypedColumn(name, "DECIMAL").(length := length, decimal := decimal)
  }

  /**
   * string(name, value), decimal(name, value), date(name, value), object(name, value),
   * bigInt(name, value), bool(name, value): an untyped column carrying the value.
   */
  function ValueColumn(name: string, value: Value): (c: ColumnDefinition)
    ensures c.colType.None? && c.obj == value && !c.isAutoIncrement
  {
    NewColumn(name).(obj := value)
  }

  /** blob(name, bytes): a BLOB column carrying the bytes. */
  function BlobValueColumn(name: string, bytes: Value): (c: ColumnDefinition)
    ensures c.colType == Some("BLOB") && c.obj == bytes
  {
    NewTypedColumn(name, "BLOB").(obj := bytes)
  }

  /** autoIncrement(name) uses INTEGER, autoIncrementBigInt(name) BIGINT. */
  function AutoIncrementColumn(name: string, colType: string): (c: ColumnDefinition)
    ensures c.colType == Some(colType) && c.isAutoIncrement && !c.isPrimaryKey
  {
    NewTypedColumn(name, colType).(isAutoIncrement := true)
  }

  /** createdAt(): created_at TIMESTAMP DEFAULT CURRENT_TIMESTAMP. */
  function CreatedAtColumn(): (c: ColumnDefinition)
    ensures c.name == "created_at" && c.colType == Some("TIMESTAMP") && c.defaultValue == Some("CURRENT_TIMESTAMP")
  {
    NewTypedColumn("created_at", "TIMESTAMP").(defaultValue := Some("CURRENT_TIMESTAMP"))
  }

  /** updatedAt(): on the server dialects the timestamp also refreshes on every update. */
  function UpdatedAtColumn(dialect: DatabaseType): (c: ColumnDefinition)
    ensures c.name == "updated_at" && c.colType == Some("TIMESTAMP")
    ensures dialect == Sqlite ==> c.defaultValue == Some("CURRENT_TIMESTAMP")
    ensures dialect != Sqlite ==> c.defaultValue == Some("CURRENT_TIMESTAMP ON UPDATE CURRENT_TIMESTAMP")
  {
    NewTypedColumn("updated_at", "TIMESTAMP").(
      defaultValue := Some(if dialect == Sqlite then "CURRENT_TIMESTAMP" else "CURRENT_TIMESTAMP ON UPDATE CURRENT_TIMESTAMP"))
  }

  // ---------------------------------------------------------------- builder calls

  /** One fluent builder call. Every typed column adder is AddColumnCall with its column. */
  datatype BuilderCall =
    | AddColumnCall(column: ColumnDefinition)
    | AutoIncrementCall(name: string, colType: string)
    | CreatedAtCall
    | UpdatedAtCall(dialect: DatabaseType)
    | TimestampsCall(dialect: DatabaseType)
    | NullableCall
    | UniqueCall(unique: bool)
    | DefaultValueCall(value: Value)
    | PrimaryCall
    | ForeignKeyCall(referenceTable: string)
    | ForeignKeyToCall(referenceTable: string, columnName: string, onCascade: bool)
    | WhereCall(condition: WhereCondition)
    | JoinCall(join: JoinCondition)
    | OrderByCall(columnName: string)
    | OrderByDescCall(columnName: string)
    | DistinctCall
    | SelectCall(selection: SelectCondition)

  /** The calls that act on the last column and throw when there is none. */
  predicate NeedsColumn(call: BuilderCall)
  {
    call.NullableCall? || call.UniqueCall? || call.DefaultValueCall? || call.PrimaryCall?
    || call.ForeignKeyCall? || call.ForeignKeyToCall?
  }

  /** The last column replaced. */
  function WithLast(d: Descriptor, c: ColumnDefinition): (r: Descriptor)
    requires |d.columns| > 0
    ensures |r.columns| == |d.columns| && r.columns[|d.columns| - 1] == c
    ensures r.columns[..|d.columns| - 1] == d.columns[..|d.columns| - 1]
    ensures r.(columns := d.columns) == d
  {
    d.(columns := d.columns[..|d.columns| - 1] + [c])
  }

  /** The foreign-key text of the one-argument form. */
  function ForeignKeyText(column: ColumnDefinition, referenceTable: string): string
  {
    "FOREIGN KEY (" + SafeName(column.name) + ") REFERENCES " + referenceTable + "(" + SafeName(column.name) + ") ON DELETE CASCADE"
  }

  /** The foreign-key text of the three-argument form. */
  function ForeignKeyToText(column: ColumnDefinition, referenceTable: string, columnName: string, onCascade: bool): string
  {
    "FOREIGN KEY (" + SafeName(column.name) + ") REFERENCES " + referenceTable + "(" + columnName + ")"
    + (if onCascade then " ON DELETE CASCADE" else "")
  }

  /** primary(): mark the last column and record its backticked name as a key. */
  function MarkPrimary(d: Descriptor): (r: Descriptor)
    requires |d.columns| > 0
    ensures r.primaryKeys == d.primaryKeys + [SafeName(d.columns[|d.columns| - 1].name)]
    ensures |r.columns| == |d.columns| && r.columns[..|d.columns| - 1] == d.columns[..|d.columns| - 1]
    ensures r.columns[|r.columns| - 1] == d.columns[|d.columns| - 1].(isPrimaryKey := true)
  {
    var last := d.columns[|d.columns| - 1];
    WithLast(d, last.(isPrimaryKey := true)).(primaryKeys := d.primaryKeys + [SafeName(last.name)])
  }

  /** What a call that cannot throw does: add columns, conditions, joins, selections or settings. */
  function ApplyAdder(d: Descriptor, call: BuilderCall): (r: Descriptor)
    requires !NeedsColumn(call)
    ensures r.tableName == d.tableName && r.schemaType == d.schemaType
  {
    match call
    case AddColumnCall(c) => d.(columns := d.columns + [c])
    case AutoIncrementCall(name, colType) => MarkPrimary(d.(columns := d.columns + [AutoIncrementColumn(name, colType)]))
    case CreatedAtCall => d.(columns := d.columns + [CreatedAtColumn()])
    case UpdatedAtCall(dialect) => d.(columns := d.columns + [UpdatedAtColumn(dialect)])
    case TimestampsCall(dialect) => d.(columns := d.columns + [CreatedAtColumn(), UpdatedAtColumn(dialect)])
    case WhereCall(w) => d.(whereConditions := d.whereConditions + [w])
    case JoinCall(j) => d.(joinConditions := d.joinConditions + [j])
    case OrderByCall(columnName) => d.(orderBy := Some("ORDER BY " + columnName))
    case OrderByDescCall(columnName) => d.(orderBy := Some("ORDER BY " + columnName + " DESC"))
    case DistinctCall => d.(isDistinct := true)
    case SelectCall(s) => d.(selectColumns := d.selectColumns + [s])
  }

  /** What a call on the last column does, or the exception it throws. */
  function ApplyModifier(d: Descriptor, call: BuilderCall): (r: Result<Descriptor, Error>)
    requires NeedsColumn(call)
    ensures r.Err? <==> |d.columns| == 0 || call == DefaultValueCall(Null)
    ensures |d.columns| == 0 ==> r.Err? && r.error.IllegalState?
    ensures r.Ok? ==> r.value.tableName == d.tableName && r.value.schemaType == d.schemaType
  {
    var n := |d.columns|;
    if n == 0 then
      Err(IllegalState(if call.ForeignKeyCall? || call.ForeignKeyToCall? then "No column defined to apply foreign key." else "No columns defined."))
    else
      var last := d.columns[n - 1];
      match call
      case NullableCall => Ok(WithLast(d, last.(nullable := true)))
      case UniqueCall(unique) => Ok(WithLast(d, last.(unique := unique)))
      case DefaultValueCall(value) =>
        if value.Null? then Err(NullPointer) else Ok(WithLast(d, last.(defaultValue := Some(ToText(value)))))
      case PrimaryCall => Ok(MarkPrimary(d))
      case ForeignKeyCall(referenceTable) =>
        Ok(d.(foreignKeys := d.foreignKeys + [ForeignKeyText(last, referenceTable)]))
      case ForeignKeyToCall(referenceTable, columnName, onCascade) =>
        Ok(d.(foreignKeys := d.foreignKeys + [ForeignKeyToText(last, referenceTable, columnName, onCascade)]))
  }

  /**
   * What one builder call does to the descriptor, or the exception it throws: only the
   * calls on the last column can fail, with IllegalStateException when there is no column,
   * and defaultValue(null) with NullPointerException.
   */
  function Apply(d: Descriptor, call: BuilderCall): (r: Result<Descriptor, Error>)
    ensures r.Err? <==> NeedsColumn(call) && (|d.columns| == 0 || call == DefaultValueCall(Null))
    ensures r.Err? && |d.columns| == 0 ==> r.error.IllegalState?
    ensures r.Ok? ==> r.value.tableName == d.tableName && r.value.schemaType == d.schemaType
  {
    if NeedsColumn(call) then ApplyModifier(d, call) else Ok(ApplyAdder(d, call))
  }

  /** whereIn's list: String.valueOf of each object, in order. */
  function ObjectTexts(objects: seq<Value>): (r: seq<string>)
    ensures |r| == |objects|
  {
    seq(|objects|, i requires 0 <= i < |objects| => ToText(objects[i]))
  }

  /** A WHERE call appends its condition and changes nothing else. */
  lemma AddsCondition(d: Descriptor, w: WhereCondition)
    ensures Apply(d, WhereCall(w)) == Ok(d.(whereConditions := d.whereConditions + [w]))
  {
  }

  /** A run of builder calls, stopping at the first exception. */
  function ApplyAll(d: Descriptor, calls: seq<BuilderCall>): Result<Descriptor, Error>
    decreases |calls|
  {
    if |calls| == 0 then Ok(d)
    else
      var r := Apply(d, calls[0]);
      if r.Err? then r else ApplyAll(r.value, calls[1..])
  }

  /** A modifier only touches the last column: the others, their number and their order stay as they were. */
  lemma ModifierTouchesOnlyLastColumn(d: Descriptor, call: BuilderCall)
    requires NeedsColumn(call) && Apply(d, call).Ok?
    ensures |Apply(d, call).value.columns| == |d.columns| > 0
    ensures Apply(d, call).value.columns[..|d.columns| - 1] == d.columns[..|d.columns| - 1]
    ensures Apply(d, call).value.columns[|d.columns| - 1].name == d.columns[|d.columns| - 1].name
  {
  }

  /** Adders keep every earlier column and append after them. */
  lemma AdderKeepsColumns(d: Descriptor, call: BuilderCall)
    requires call.AddColumnCall? || call.AutoIncrementCall? || call.CreatedAtCall? || call.UpdatedAtCall? || call.TimestampsCall?
    ensures Apply(d, call).Ok?
    ensures d.columns < Apply(d, call).value.columns
  {
    var r := Apply(d, call).value;
    assert r.columns[..|d.columns|] == d.columns;
  }

  /** On an empty builder every modifier throws IllegalStateException, with the foreign-key message for foreignKey. */
  lemma ModifierWithoutColumn(d: Descriptor, call: BuilderCall)
    requires NeedsColumn(call) && |d.columns| == 0
    ensures call.ForeignKeyCall? || call.ForeignKeyToCall? ==> Apply(d, call) == Err(IllegalState("No column defined to apply foreign key."))
    ensures !call.ForeignKeyCall? && !call.ForeignKeyToCall? ==> Apply(d, call) == Err(IllegalState("No columns defined."))
  {
  }

  /** autoIncrement(name) is addColumn of the auto-increment column followed by primary(). */
  lemma AutoIncrementIsAddThenPrimary(d: Descriptor, name: string, colType: string)
    ensures Apply(d, AutoIncrementCall(name, colType)) == ApplyAll(d, [AddColumnCall(AutoIncrementColumn(name, colType)), PrimaryCall])
    ensures Apply(d, AutoIncrementCall(name, colType)).value.primaryKeys == d.primaryKeys + [SafeName(name)]
  {
    var column := AutoIncrementColumn(name, colType);
    var added := d.(columns := d.columns + [column]);
    ApplyOfAdder(d, AddColumnCall(column));
    ApplyPair(d, AddColumnCall(column), PrimaryCall, added);
    ApplyOfModifier(added, PrimaryCall);
    ApplyOfAdder(d, AutoIncrementCall(name, colType));
  }

  /** timestamps() is createdAt() followed by updatedAt(). */
  lemma TimestampsIsCreatedThenUpdated(d: Descriptor, dialect: DatabaseType)
    ensures Apply(d, TimestampsCall(dialect)) == ApplyAll(d, [CreatedAtCall, UpdatedAtCall(dialect)])
  {
    var c, u := CreatedAtColumn(), UpdatedAtColumn(dialect);
    CreatedThenUpdated(d, dialect);
    ApplyOfAdder(d, TimestampsCall(dialect));
    assert d.columns + [c] + [u] == d.columns + [c, u];
  }

  lemma CreatedThenUpdated(d: Descriptor, dialect: DatabaseType)
    ensures ApplyAll(d, [CreatedAtCall, UpdatedAtCall(dialect)])
         == Ok(d.(columns := d.columns + [CreatedAtColumn()] + [UpdatedAtColumn(dialect)]))
  {
    var created := d.(columns := d.columns + [CreatedAtColumn()]);
    ApplyOfAdder(d, CreatedAtCall);
    ApplyPair(d, CreatedAtCall, UpdatedAtCall(dialect), created);
    ApplyOfAdder(created, UpdatedAtCall(dialect));
  }

  lemma ApplyOfAdder(d: Descriptor, call: BuilderCall)
    requires !NeedsColumn(call)
    ensures Apply(d, call) == Ok(ApplyAdder(d, call))
  {
  }

  lemma ApplyOfModifier(d: Descriptor, call: BuilderCall)
    requires NeedsColumn(call)
    ensures Apply(d, call) == ApplyModifier(d, call)
  {
  }

  /** Two calls in a row when the first succeeds: the second applied to what the first made. */
  lemma ApplyPair(d: Descriptor, first: BuilderCall, second: BuilderCall, between: Descriptor)
    requires Apply(d, first) == Ok(between)
    ensures ApplyAll(d, [first, second]) == Apply(between, second)
  {
    assert [first, second][1..] == [second];
    assert [second][1..] == [];
    var q := Apply(between, second);
    assert ApplyAll(between, [second]) == if q.Err? then q else ApplyAll(q.value, []);
  }

  /** The one-argument foreignKey is the three-argument form referencing the same backticked column, with cascade. */
  lemma ForeignKeyOverloadsAgree(d: Descriptor, referenceTable: string)
    requires |d.columns| > 0
    ensures Apply(d, ForeignKeyCall(referenceTable))
         == Apply(d, ForeignKeyToCall(referenceTable, SafeName(d.columns[|d.columns| - 1].name), true))
    ensures Apply(d, ForeignKeyCall(referenceTable)).value.columns == d.columns
  {
    var last := d.columns[|d.columns| - 1];
    assert ForeignKeyText(last, referenceTable) == ForeignKeyToText(last, referenceTable, SafeName(last.name), true);
  }

  /** nullable() and unique(flag) are idempotent: applying one twice is applying it once. */
  lemma ModifierIdempotent(d: Descriptor, call: BuilderCall)
    requires call == NullableCall || call.UniqueCall?
    requires Apply(d, call).Ok?
    ensures Apply(Apply(d, call).value, call) == Apply(d, call)
  {
  }

  /** primary() twice records the key twice: the key list is not a set. */
  lemma PrimaryTwiceRepeatsKey(d: Descriptor)
    requires |d.columns| > 0
    ensures var once := Apply(d, PrimaryCall).value;
      Apply(once, PrimaryCall).value.primaryKeys == d.primaryKeys + [SafeName(d.columns[|d.columns| - 1].name), SafeName(d.columns[|d.columns| - 1].name)]
  {
  }

  /** Every recorded primary key is the backticked name of a column marked primary. */
  predicate KeysDeclared(d: Descriptor)
  {
    forall k :: k in d.primaryKeys ==> exists i :: 0 <= i < |d.columns| && d.columns[i].isPrimaryKey && SafeName(d.columns[i].name) == k
  }

  /** Every auto-increment column has a type, so it renders on SQLite too. */
  predicate ColumnsTyped(d: Descriptor)
  {
    forall i :: 0 <= i < |d.columns| ==> Renderable(d.columns[i], Sqlite)
  }

  /** Every join has a join type, so it renders. */
  predicate JoinsTyped(d: Descriptor)
  {
    forall i :: 0 <= i < |d.joinConditions| ==> d.joinConditions[i].joinType.Some?
  }

  /** The descriptor invariant the builder keeps. */
  predicate WellFormed(d: Descriptor)
  {
    KeysDeclared(d) && ColumnsTyped(d) && JoinsTyped(d)
  }

  /** A call that keeps the invariant: an added column that is auto-increment has a type, a join has a type. */
  predicate WellFormedCall(call: BuilderCall)
  {
    (call.AddColumnCall? ==> Renderable(call.column, Sqlite)) && (call.JoinCall? ==> call.join.joinType.Some?)
  }

  lemma ModifierKeepsKeysDeclared(d: Descriptor, c: ColumnDefinition)
    requires KeysDeclared(d) && |d.columns| > 0
    requires c.name == d.columns[|d.columns| - 1].name
    requires d.columns[|d.columns| - 1].isPrimaryKey ==> c.isPrimaryKey
    ensures KeysDeclared(WithLast(d, c))
  {
    var r := WithLast(d, c);
    forall k | k in r.primaryKeys
      ensures exists i :: 0 <= i < |r.columns| && r.columns[i].isPrimaryKey && SafeName(r.columns[i].name) == k
    {
      var i :| 0 <= i < |d.columns| && d.columns[i].isPrimaryKey && SafeName(d.columns[i].name) == k;
      if i < |d.columns| - 1 {
        assert r.columns[i] == r.columns[..|d.columns| - 1][i];
      }
      assert r.columns[i].isPrimaryKey && SafeName(r.columns[i].name) == k;
    }
  }

  lemma MarkPrimaryKeepsKeysDeclared(d: Descriptor)
    requires KeysDeclared(d) && |d.columns| > 0
    ensures KeysDeclared(MarkPrimary(d))
  {
    var last := d.columns[|d.columns| - 1];
    ModifierKeepsKeysDeclared(d, last.(isPrimaryKey := true));
    var r := MarkPrimary(d);
    assert r.columns[|d.columns| - 1].isPrimaryKey && SafeName(r.columns[|d.columns| - 1].name) == SafeName(last.name);
  }

  lemma AppendKeepsKeysDeclared(d: Descriptor, added: seq<ColumnDefinition>)
    requires KeysDeclared(d)
    ensures KeysDeclared(d.(columns := d.columns + added))
  {
    var r := d.(columns := d.columns + added);
    forall k | k in r.primaryKeys
      ensures exists i :: 0 <= i < |r.columns| && r.columns[i].isPrimaryKey && SafeName(r.columns[i].name) == k
    {
      var i :| 0 <= i < |d.columns| && d.columns[i].isPrimaryKey && SafeName(d.columns[i].name) == k;
      assert r.columns[i] == d.columns[i];
    }
  }

  lemma AdderKeepsKeysDeclared(d: Descriptor, call: BuilderCall)
    requires KeysDeclared(d) && !NeedsColumn(call)
    ensures KeysDeclared(ApplyAdder(d, call))
  {
    match call {
      case AddColumnCall(c) => AppendKeepsKeysDeclared(d, [c]);
      case AutoIncrementCall(name, colType) =>
        AppendKeepsKeysDeclared(d, [AutoIncrementColumn(name, colType)]);
        MarkPrimaryKeepsKeysDeclared(d.(columns := d.columns + [AutoIncrementColumn(name, colType)]));
      case CreatedAtCall => AppendKeepsKeysDeclared(d, [CreatedAtColumn()]);
      case UpdatedAtCall(dialect) => AppendKeepsKeysDeclared(d, [UpdatedAtColumn(dialect)]);
      case TimestampsCall(dialect) => AppendKeepsKeysDeclared(d, [CreatedAtColumn(), UpdatedAtColumn(dialect)]);
      case WhereCall(_) =>
      case JoinCall(_) =>
      case OrderByCall(_) =>
      case OrderByDescCall(_) =>
      case DistinctCall =>
      case SelectCall(_) =>
    }
  }

  lemma ModifierKeepsKeysDeclaredCall(d: Descriptor, call: BuilderCall)
    requires KeysDeclared(d) && NeedsColumn(call) && ApplyModifier(d, call).Ok?
    ensures KeysDeclared(ApplyModifier(d, call).value)
  {
    var last := d.columns[|d.columns| - 1];
    match call {
      case NullableCall => ModifierKeepsKeysDeclared(d, last.(nullable := true));
      case UniqueCall(u) => ModifierKeepsKeysDeclared(d, last.(unique := u));
      case DefaultValueCall(v) => ModifierKeepsKeysDeclared(d, last.(defaultValue := Some(ToText(v))));
      case PrimaryCall => MarkPrimaryKeepsKeysDeclared(d);
      case ForeignKeyCall(_) =>
      case ForeignKeyToCall(_, _, _) =>
    }
  }

  lemma ApplyKeepsKeysDeclared(d: Descriptor, call: BuilderCall)
    requires KeysDeclared(d) && Apply(d, call).Ok?
    ensures KeysDeclared(Apply(d, call).value)
  {
    if NeedsColumn(call) {
      ModifierKeepsKeysDeclaredCall(d, call);
    } else {
      AdderKeepsKeysDeclared(d, call);
    }
  }

  lemma AppendKeepsColumnsTyped(d: Descriptor, added: seq<ColumnDefinition>)
    requires ColumnsTyped(d)
    requires forall i :: 0 <= i < |added| ==> Renderable(added[i], Sqlite)
    ensures ColumnsTyped(d.(columns := d.columns + added))
  {
  }

  lemma WithLastKeepsColumnsTyped(d: Descriptor, c: ColumnDefinition)
    requires ColumnsTyped(d) && |d.columns| > 0 && Renderable(c, Sqlite)
    ensures ColumnsTyped(WithLast(d, c))
  {
    var r := WithLast(d, c);
    forall i | 0 <= i < |r.columns|
      ensures Renderable(r.columns[i], Sqlite)
    {
      if i < |d.columns| - 1 {
        assert r.columns[i] == r.columns[..|d.columns| - 1][i];
      }
    }
  }

  lemma AdderKeepsColumnsTyped(d: Descriptor, call: BuilderCall)
    requires ColumnsTyped(d) && WellFormedCall(call) && !NeedsColumn(call)
    ensures ColumnsTyped(ApplyAdder(d, call))
  {
    match call {
      case AddColumnCall(c) => AppendKeepsColumnsTyped(d, [c]);
      case AutoIncrementCall(name, colType) => AutoIncrementKeepsColumnsTyped(d, name, colType);
      case CreatedAtCall => AppendKeepsColumnsTyped(d, [CreatedAtColumn()]);
      case UpdatedAtCall(dialect) => AppendKeepsColumnsTyped(d, [UpdatedAtColumn(dialect)]);
      case TimestampsCall(dialect) => AppendKeepsColumnsTyped(d, [CreatedAtColumn(), UpdatedAtColumn(dialect)]);
      case WhereCall(_) =>
      case JoinCall(_) =>
      case OrderByCall(_) =>
      case OrderByDescCall(_) =>
      case DistinctCall =>
      case SelectCall(_) =>
    }
  }

  lemma AutoIncrementKeepsColumnsTyped(d: Descriptor, name: string, colType: string)
    requires ColumnsTyped(d)
    ensures ColumnsTyped(ApplyAdder(d, AutoIncrementCall(name, colType)))
  {
    var column := AutoIncrementColumn(name, colType);
    var e := d.(columns := d.columns + [column]);
    AppendKeepsColumnsTyped(d, [column]);
    WithLastKeepsColumnsTyped(e, column.(isPrimaryKey := true));
    assert ApplyAdder(d, AutoIncrementCall(name, colType)) == MarkPrimary(e);
  }

  lemma ModifierKeepsColumnsTyped(d: Descriptor, call: BuilderCall)
    requires ColumnsTyped(d) && NeedsColumn(call) && ApplyModifier(d, call).Ok?
    ensures ColumnsTyped(ApplyModifier(d, call).value)
  {
    var last := d.columns[|d.columns| - 1];
    match call {
      case NullableCall => WithLastKeepsColumnsTyped(d, last.(nullable := true));
      case UniqueCall(u) => WithLastKeepsColumnsTyped(d, last.(unique := u));
      case DefaultValueCall(v) => WithLastKeepsColumnsTyped(d, last.(defaultValue := Some(ToText(v))));
      case PrimaryCall => WithLastKeepsColumnsTyped(d, last.(isPrimaryKey := true));
      case ForeignKeyCall(_) =>
      case ForeignKeyToCall(_, _, _) =>
    }
  }

  lemma ApplyKeepsColumnsTyped(d: Descriptor, call: BuilderCall)
    requires ColumnsTyped(d) && WellFormedCall(call) && Apply(d, call).Ok?
    ensures ColumnsTyped(Apply(d, call).value)
  {
    if NeedsColumn(call) {
      ModifierKeepsColumnsTyped(d, call);
    } else {
      AdderKeepsColumnsTyped(d, call);
    }
  }

  /** Every builder call that succeeds keeps the descriptor well formed. */
  lemma ApplyKeepsWellFormed(d: Descriptor, call: BuilderCall)
    requires WellFormed(d) && WellFormedCall(call) && Apply(d, call).Ok?
    ensures WellFormed(Apply(d, call).value)
  {
    ApplyKeepsKeysDeclared(d, call);
    ApplyKeepsColumnsTyped(d, call);
  }

  /** A run of calls that succeeds keeps the descriptor well formed. */
  lemma {:induction false} ApplyAllKeepsWellFormed(d: Descriptor, calls: seq<BuilderCall>)
    requires WellFormed(d) && forall i :: 0 <= i < |calls| ==> WellFormedCall(calls[i])
    requires ApplyAll(d, calls).Ok?
    ensures WellFormed(ApplyAll(d, calls).value)
    decreases |calls|
  {
    if |calls| > 0 {
      ApplyKeepsWellFormed(d, calls[0]);
      ApplyAllKeepsWellFormed(Apply(d, calls[0]).value, calls[1..]);
    }
  }

  /** A run of calls is the first call followed by the rest. */
  lemma ApplyAllAppend(d: Descriptor, calls: seq<BuilderCall>, call: BuilderCall)
    requires ApplyAll(d, calls).Ok?
    ensures ApplyAll(d, calls + [call]) == Apply(ApplyAll(d, calls).value, call)
    decreases |calls|
  {
    if |calls| == 0 {
      assert calls + [call] == [call];
      if Apply(d, call).Ok? {
        assert ApplyAll(Apply(d, call).value, []) == Ok(Apply(d, call).value);
      }
    } else {
      assert (calls + [call])[1..] == calls[1..] + [call];
      ApplyAllAppend(Apply(d, calls[0]).value, calls[1..], call);
    }
  }

  // ---------------------------------------------------------------- the mutable builder

  class SchemaBuilder {
    const tableName: string
    const schemaType: SchemaType
    var columns: seq<ColumnDefinition>
    var primaryKeys: seq<string>
    var foreignKeys: seq<string>
    var whereConditions: seq<WhereCondition>
    var joinConditions: seq<JoinCondition>
    var selectColumns: seq<SelectCondition>
    var newTableName: Option<string>
    var orderBy: Option<string>
    var isDistinct: bool

    /** The builder's current state as a value. */
    function Snapshot(): Descriptor
      reads this
    {
      Descriptor(tableName, schemaType, columns, primaryKeys, foreignKeys, whereConditions, joinConditions,
                 selectColumns, newTableName, orderBy, isDistinct)
    }

    constructor (tableName: string, schemaType: SchemaType)
      ensures Snapshot() == EmptyDescriptor(tableName, schemaType)
    {
      this.tableName := tableName;
      this.schemaType := schemaType;
      columns := [];
      primaryKeys := [];
      foreignKeys := [];
      whereConditions := [];
      joinConditions := [];
      selectColumns := [];
      newTableName := None;
      orderBy := None;
      isDistinct := false;
    }

    /** addColumn(column) and every typed column adder. */
    method AddColumn(column: ColumnDefinition)
      modifies this
      ensures Snapshot() == Apply(old(Snapshot()), AddColumnCall(column)).value
    {
      columns := columns + [column];
    }

    /** getLastColumn's check shared by the modifiers: the exception, or none. */
    method RequireLastColumn(message: string) returns (error: Option<Error>)
      ensures error.Some? <==> |columns| == 0
      ensures error.Some? ==> error.value == IllegalState(message)
    {
      if |columns| == 0 {
        return Some(IllegalState(message));
      }
      return None;
    }

    /** nullable() */
    method Nullable() returns (error: Option<Error>)
      modifies this
      ensures Apply(old(Snapshot()), NullableCall).Err? ==> error == Some(Apply(old(Snapshot()), NullableCall).error) && Snapshot() == old(Snapshot())
      ensures Apply(old(Snapshot()), NullableCall).Ok? ==> error.None? && Snapshot() == Apply(old(Snapshot()), NullableCall).value
    {
      error := RequireLastColumn("No columns defined.");
      if error.None? {
        var last := columns[|columns| - 1];
        columns := columns[..|columns| - 1] + [last.(nullable := true)];
      }
    }

    /** unique(flag); unique() is unique(true). */
    method Unique(unique: bool) returns (error: Option<Error>)
      modifies this
      ensures Apply(old(Snapshot()), UniqueCall(unique)).Err? ==> error == Some(Apply(old(Snapshot()), UniqueCall(unique)).error) && Snapshot() == old(Snapshot())
      ensures Apply(old(Snapshot()), UniqueCall(unique)).Ok? ==> error.None? && Snapshot() == Apply(old(Snapshot()), UniqueCall(unique)).value
    {
      error := RequireLastColumn("No columns defined.");
      if error.None? {
        var last := columns[|columns| - 1];
        columns := columns[..|columns| - 1] + [last.(unique := unique)];
      }
    }

    /** defaultValue(value); defaultCurrentTimestamp() passes the text CURRENT_TIMESTAMP. */
    method DefaultValue(value: Value) returns (error: Option<Error>)
      modifies this
      ensures Apply(old(Snapshot()), DefaultValueCall(value)).Err? ==> error == Some(Apply(old(Snapshot()), DefaultValueCall(value)).error) && Snapshot() == old(Snapshot())
      ensures Apply(old(Snapshot()), DefaultValueCall(value)).Ok? ==> error.None? && Snapshot() == Apply(old(Snapshot()), DefaultValueCall(value)).value
    {
      error := RequireLastColumn("No columns defined.");
      if error.None? {
        if value.Null? {
          error := Some(NullPointer);
        } else {
          var last := columns[|columns| - 1];
          columns := columns[..|columns| - 1] + [last.(defaultValue := Some(ToText(value)))];
        }
      }
    }

    /** primary() */
    method Primary() returns (error: Option<Error>)
      modifies this
      ensures Apply(old(Snapshot()), PrimaryCall).Err? ==> error == Some(Apply(old(Snapshot()), PrimaryCall).error) && Snapshot() == old(Snapshot())
      ensures Apply(old(Snapshot()), PrimaryCall).Ok? ==> error.None? && Snapshot() == Apply(old(Snapshot()), PrimaryCall).value
    {
      error := RequireLastColumn("No columns defined.");
      if error.None? {
        var last := columns[|columns| - 1];
        columns := columns[..|columns| - 1] + [last.(isPrimaryKey := true)];
        primaryKeys := primaryKeys + [SafeName(last.name)];
      }
    }

    /** autoIncrement(name) with INTEGER, autoIncrementBigInt(name) with BIGINT: add the column, then primary(). */
    method AutoIncrement(name: string, colType: string)
      modifies this
      ensures Snapshot() == Apply(old(Snapshot()), AutoIncrementCall(name, colType)).value
    {
      AddColumn(AutoIncrementColumn(name, colType));
      var error := Primary();
    }

    /** createdAt() */
    method CreatedAt()
      modifies this
      ensures Snapshot() == Apply(old(Snapshot()), CreatedAtCall).value
    {
      columns := columns + [CreatedAtColumn()];
    }

    /** updatedAt(), with the dialect passed in rather than read from global configuration. */
    method UpdatedAt(dialect: DatabaseType)
      modifies this
      ensures Snapshot() == Apply(old(Snapshot()), UpdatedAtCall(dialect)).value
    {
      columns := columns + [UpdatedAtColumn(dialect)];
    }

    /** timestamps(): createdAt() then updatedAt(). */
    method Timestamps(dialect: DatabaseType)
      modifies this
      ensures Snapshot() == Apply(old(Snapshot()), TimestampsCall(dialect)).value
    {
      columns := columns + [CreatedAtColumn()];
      columns := columns + [UpdatedAtColumn(dialect)];
    }

    /** foreignKey(referenceTable) */
    method ForeignKey(referenceTable: string) returns (error: Option<Error>)
      modifies this
      ensures Apply(old(Snapshot()), ForeignKeyCall(referenceTable)).Err? ==> error == Some(Apply(old(Snapshot()), ForeignKeyCall(referenceTable)).error) && Snapshot() == old(Snapshot())
      ensures Apply(old(Snapshot()), ForeignKeyCall(referenceTable)).Ok? ==> error.None? && Snapshot() == Apply(old(Snapshot()), ForeignKeyCall(referenceTable)).value
    {
      error := RequireLastColumn("No column defined to apply foreign key.");
      if error.None? {
        foreignKeys := foreignKeys + [ForeignKeyText(columns[|columns| - 1], referenceTable)];
      }
    }

    /** foreignKey(referenceTable, columnName, onCascade) */
    method ForeignKeyTo(referenceTable: string, columnName: string, onCascade: bool) returns (error: Option<Error>)
      modifies this
      ensures Apply(old(Snapshot()), ForeignKeyToCall(referenceTable, columnName, onCascade)).Err? ==>
        error == Some(Apply(old(Snapshot()), ForeignKeyToCall(referenceTable, columnName, onCascade)).error) && Snapshot() == old(Snapshot())
      ensures Apply(old(Snapshot()), ForeignKeyToCall(referenceTable, columnName, onCascade)).Ok? ==>
        error.None? && Snapshot() == Apply(old(Snapshot()), ForeignKeyToCall(referenceTable, columnName, onCascade)).value
    {
      error := RequireLastColumn("No column defined to apply foreign key.");
      if error.None? {
        foreignKeys := foreignKeys + [ForeignKeyToText(columns[|columns| - 1], referenceTable, columnName, onCascade)];
      }
    }

    /** where(prefix, column, operator, value); where(column, value) is where(null, column, "=", value). */
    method Where(prefix: Option<string>, column: string, operator: string, value: Value)
      modifies this
      ensures Snapshot() == Apply(old(Snapshot()), WhereCall(NewNormal(prefix, column, operator, value))).value
    {
      var condition := NewNormal(prefix, column, operator, value);
      AddsCondition(Snapshot(), condition);
      whereConditions := whereConditions + [condition];
    }

    /** whereNotNull(column) / whereNull(column) */
    method WhereNullCheck(column: string, isNull: bool)
      modifies this
      ensures Snapshot() == Apply(old(Snapshot()), WhereCall(NewWithAction(column, if isNull then IsNull else IsNotNull))).value
    {
      whereConditions := whereConditions + [NewWithAction(column, if isNull then IsNull else IsNotNull)];
    }

    /** whereIn(prefix, column, objects...): each object by String.valueOf; the List<String> overload passes strings as they are. */
    method WhereIn(prefix: Option<string>, column: string, objects: seq<Value>)
      modifies this
      ensures Snapshot() == Apply(old(Snapshot()), WhereCall(NewIn(prefix, column, ObjectTexts(objects)))).value
    {
      var condition := NewIn(prefix, column, ObjectTexts(objects));
      AddsCondition(Snapshot(), condition);
      whereConditions := whereConditions + [condition];
    }

    /** leftJoin / rightJoin / innerJoin / fullJoin, with the optional extra condition of leftJoin. */
    method Join(joinType: JoinType, primaryTable: string, primaryTableAlias: string, primaryColumn: string,
                foreignTable: string, foreignColumn: string, andCondition: Option<JoinCondition>)
      modifies this
      ensures Snapshot() == Apply(old(Snapshot()), JoinCall(JoinCondition(Some(joinType), Some(primaryTable), primaryTableAlias,
                primaryColumn, Some(foreignTable), foreignColumn, andCondition))).value
    {
      joinConditions := joinConditions + [JoinCondition(Some(joinType), Some(primaryTable), primaryTableAlias,
                                                        primaryColumn, Some(foreignTable), foreignColumn, andCondition)];
    }

    /** orderBy(column) */
    method OrderBy(columnName: string)
      modifies this
      ensures Snapshot() == Apply(old(Snapshot()), OrderByCall(columnName)).value
    {
      orderBy := Some("ORDER BY " + columnName);
    }

    /** orderByDesc(column) */
    method OrderByDesc(columnName: string)
      modifies this
      ensures Snapshot() == Apply(old(Snapshot()), OrderByDescCall(columnName)).value
    {
      orderBy := Some("ORDER BY " + columnName + " DESC");
    }

    /** distinct() */
    method Distinct()
      modifies this
      ensures Snapshot() == Apply(old(Snapshot()), DistinctCall).value
    {
      isDistinct := true;
    }

    /** addSelect(column), addSelect(prefix, column), and the aliased and COALESCE overloads with their prefix kept. */
    method AddSelect(selection: SelectCondition)
      modifies this
      ensures Snapshot() == Apply(old(Snapshot()), SelectCall(selection)).value
    {
      selectColumns := selectColumns + [selection];
    }
  }
}
