/**
 * Migrations and the migration manager. A migration registers schemas, each owned by it; the
 * manager keeps the registries (append-only lists) and, on execute, reconciles every schema
 * with a ledger table of the simple class names of the migrations already applied. A schema
 * whose migration is not in the ledger is executed; one whose migration is recorded is either
 * skipped or, for a createOrAlter migration, diffed against the live table and widened with an
 * ALTER that adds the missing columns as nullable.
 *
 * The database is an oracle: for each schema a `Probe` gives what the driver answers.
 */
module Migrations {
  import opened Wrappers
  import opened Errors
  import opened Text
  import opened Configuration
  import opened ColumnDefinitions
  import opened SchemaBuilders

  /** A migration: its simple class name and the createOrAlter flag. */
  class Migration {
    const name: string
    var alter: bool

    constructor (name: string)
      ensures this.name == name && !alter
    {
      this.name := name;
      alter := false;
    }

    /** create(table, consumer): registers a CREATE schema owned by this migration, with the columns the consumer declared. */
    method Create(manager: MigrationManager, table: string, columns: seq<ColumnDefinition>)
      modifies manager
      ensures manager.schemas == old(manager.schemas) + [SchemaEntry(this, table, SchemaType.Create, columns)]
      ensures manager.migrations == old(manager.migrations) && manager.migrationTableName == old(manager.migrationTableName)
    {
      manager.RegisterSchema(SchemaEntry(this, table, SchemaType.Create, columns));
    }

    /** drop(table): registers a DROP schema owned by this migration. */
    method Drop(manager: MigrationManager, table: string)
      modifies manager
      ensures manager.schemas == old(manager.schemas) + [SchemaEntry(this, table, SchemaType.Drop, [])]
      ensures manager.migrations == old(manager.migrations) && manager.migrationTableName == old(manager.migrationTableName)
    {
      manager.RegisterSchema(SchemaEntry(this, table, SchemaType.Drop, []));
    }

    /** modify(table, consumer): registers a MODIFY schema owned by this migration. */
    method Modify(manager: MigrationManager, table: string, columns: seq<ColumnDefinition>)
      modifies manager
      ensures manager.schemas == old(manager.schemas) + [SchemaEntry(this, table, SchemaType.Modify, columns)]
      ensures manager.migrations == old(manager.migrations) && manager.migrationTableName == old(manager.migrationTableName)
    {
      manager.RegisterSchema(SchemaEntry(this, table, SchemaType.Modify, columns));
    }

    /** createOrAlter(table, consumer): create, then the flag is set; nothing ever clears it. */
    method CreateOrAlter(manager: MigrationManager, table: string, columns: seq<ColumnDefinition>)
      modifies this, manager
      ensures alter
      ensures manager.schemas == old(manager.schemas) + [SchemaEntry(this, table, SchemaType.Create, columns)]
      ensures manager.migrations == old(manager.migrations) && manager.migrationTableName == old(manager.migrationTableName)
    {
      Create(manager, table, columns);
      alter := true;
    }
  }

  /** A registered schema: the migration that owns it, its table, its kind and its own column list. */
  datatype SchemaEntry = SchemaEntry(owner: Migration, tableName: string, schemaType: SchemaType, columns: seq<ColumnDefinition>)

  /** What execute does against the database, in order. */
  datatype Action =
    | RunSchema(index: nat)
    | RunAlter(tableName: string, columns: seq<ColumnDefinition>)
    | Record(migration: string)

  /**
   * What PRAGMA table_info yields: the live column names read, in order, and the SQLException
   * that ended the read, if any (a failure before the first row has no rows).
   */
  datatype TableInfo = TableInfo(rows: seq<string>, failure: Option<string>)

  /**
   * What the driver answers for one schema: schema.execute, PRAGMA table_info, the
   * information_schema counts by column name (an absent name counts 0) and the ALTER.
   * executeResult's Err is the exception that escapes schema.execute: for a CREATE schema the
   * executor reports a driver failure as Ok(-1), so the only one is build's NullPointerException
   * (CreateRequests.CompileCreate); an SQLException is SqlFailure. The other Errs carry the
   * SQLException's message. The ledger insert has no entry: its executor reports a driver
   * failure as -1, throws nothing, and execute ignores the count.
   */
  datatype Probe = Probe(
    executeResult: Result<int, Error>,
    tableInfo: TableInfo,
    columnCounts: Result<map<string, nat>, string>,
    alterResult: Result<int, string>)

  /** What one schema's turn does: its actions, the schema's column list after it, and the exception, if any. */
  datatype SchemaStep = SchemaStep(actions: seq<Action>, columns: seq<ColumnDefinition>, error: Option<Error>)

  // ---------------------------------------------------------------- the ledger

  /** The ledger table created by execute: a TEXT column `migration` and created_at. */
  function LedgerCalls(): seq<BuilderCall>
  {
    [AddColumnCall(NewTypedColumn("migration", "TEXT")), CreatedAtCall]
  }

  lemma LedgerTableColumns(ledgerTable: string)
    ensures ApplyAll(EmptyDescriptor(ledgerTable, Create), LedgerCalls())
      == Ok(EmptyDescriptor(ledgerTable, Create).(columns := [NewTypedColumn("migration", "TEXT"), CreatedAtColumn()]))
  {
    var d := EmptyDescriptor(ledgerTable, Create);
    var first := d.(columns := [NewTypedColumn("migration", "TEXT")]);
    assert d.columns + [NewTypedColumn("migration", "TEXT")] == [NewTypedColumn("migration", "TEXT")];
    assert Apply(d, LedgerCalls()[0]) == Ok(first);
    assert first.columns + [CreatedAtColumn()] == [NewTypedColumn("migration", "TEXT"), CreatedAtColumn()];
    assert LedgerCalls()[1..] == [CreatedAtCall];
    assert Apply(first, CreatedAtCall) == Ok(d.(columns := [NewTypedColumn("migration", "TEXT"), CreatedAtColumn()]));
  }

  /** getMigrations: the names read from the ledger; a failed read gives the empty list. */
  function LedgerNames(read: Result<seq<string>, string>): (r: seq<string>)
    ensures read.Err? ==> r == []
    ensures read.Ok? ==> r == read.value
  {
    match read
    case Ok(names) => names
    case Err(_) => []
  }

  /**
   * The ledger's columns are typed, so build never throws for them: createMigrationTable's
   * CreateRequest reports any driver failure as -1 and its catch never fires.
   */
  lemma LedgerTableRenders(dialect: DatabaseType)
    ensures forall c :: c in [NewTypedColumn("migration", "TEXT"), CreatedAtColumn()] ==> Renderable(c, dialect)
  {
  }

  // ---------------------------------------------------------------- the diff

  /** The declared columns whose name is none of the live names. */
  function Missing(columns: seq<ColumnDefinition>, live: seq<string>): (r: seq<ColumnDefinition>)
    ensures |r| <= |columns|
  {
    if |columns| == 0 then []
    else
      var last := columns[|columns| - 1];
      Missing(columns[..|columns| - 1], live) + (if last.name in live then [] else [last])
  }

  /** columns.removeIf(column -> column.getName().equals(name)) */
  function RemoveNamed(columns: seq<ColumnDefinition>, name: string): (r: seq<ColumnDefinition>)
  {
    if |columns| == 0 then []
    else
      var last := columns[|columns| - 1];
      RemoveNamed(columns[..|columns| - 1], name) + (if last.name == name then [] else [last])
  }

  /** Missing is exactly the declared columns whose name is not live, in declaration order. */
  lemma {:induction false} MissingMembers(columns: seq<ColumnDefinition>, live: seq<string>, c: ColumnDefinition)
    ensures c in Missing(columns, live) <==> c in columns && c.name !in live
  {
    if |columns| > 0 {
      MissingMembers(columns[..|columns| - 1], live, c);
      assert columns == columns[..|columns| - 1] + [columns[|columns| - 1]];
    }
  }

  /** One more live name removes its columns from what is missing. */
  lemma {:induction false} RemoveNamedStep(columns: seq<ColumnDefinition>, live: seq<string>, name: string)
    ensures RemoveNamed(Missing(columns, live), name) == Missing(columns, live + [name])
  {
    if |columns| > 0 {
      var prefix := columns[..|columns| - 1];
      var last := columns[|columns| - 1];
      RemoveNamedStep(prefix, live, name);
      var kept := if last.name in live then [] else [last];
      RemoveNamedAppend(Missing(prefix, live), kept, name);
    }
  }

  lemma RemoveNamedAppend(a: seq<ColumnDefinition>, b: seq<ColumnDefinition>, name: string)
    requires |b| <= 1
    ensures RemoveNamed(a + b, name) == RemoveNamed(a, name) + RemoveNamed(b, name)
  {
    if |b| == 1 {
      assert (a + b)[..|a + b| - 1] == a;
      assert RemoveNamed(b, name) == RemoveNamed([], name) + (if b[0].name == name then [] else [b[0]]);
    } else {
      assert a + b == a;
    }
  }

  /** The SQLite diff: for every live column name, removeIf on the schema's own column list. */
  method RemoveLiveColumns(columns: seq<ColumnDefinition>, live: seq<string>) returns (remaining: seq<ColumnDefinition>)
    ensures remaining == Missing(columns, live)
  {
    remaining := columns;
    MissingNone(columns);
    assert live[..0] == [];
    var k := 0;
    while k < |live|
      invariant 0 <= k <= |live|
      invariant remaining == Missing(columns, live[..k])
    {
      RemoveNamedStep(columns, live[..k], live[k]);
      assert live[..k + 1] == live[..k] + [live[k]];
      remaining := RemoveNamed(remaining, live[k]);
      k := k + 1;
    }
    assert live[..k] == live;
  }

  lemma {:induction false} MissingNone(columns: seq<ColumnDefinition>)
    ensures Missing(columns, []) == columns
  {
    if |columns| > 0 {
      MissingNone(columns[..|columns| - 1]);
      assert columns == columns[..|columns| - 1] + [columns[|columns| - 1]];
    }
  }

  /** The information_schema count of a column name: an absent name counts 0. */
  function CountOf(counts: map<string, nat>, name: string): nat
  {
    if name in counts then counts[name] else 0
  }

  /** The server diff: the declared columns whose count is 0, in declaration order. */
  function Uncounted(columns: seq<ColumnDefinition>, counts: map<string, nat>): (r: seq<ColumnDefinition>)
    ensures |r| <= |columns|
  {
    if |columns| == 0 then []
    else
      var last := columns[|columns| - 1];
      Uncounted(columns[..|columns| - 1], counts) + (if CountOf(counts, last.name) == 0 then [last] else [])
  }

  lemma {:induction false} UncountedMembers(columns: seq<ColumnDefinition>, counts: map<string, nat>, c: ColumnDefinition)
    ensures c in Uncounted(columns, counts) <==> c in columns && CountOf(counts, c.name) == 0
  {
    if |columns| > 0 {
      UncountedMembers(columns[..|columns| - 1], counts, c);
      assert columns == columns[..|columns| - 1] + [columns[|columns| - 1]];
    }
  }

  /** The server loop: one count query per declared column, adding those counted 0. */
  method CollectUncounted(columns: seq<ColumnDefinition>, counts: map<string, nat>) returns (mustBeAdd: seq<ColumnDefinition>)
    ensures mustBeAdd == Uncounted(columns, counts)
  {
    mustBeAdd := [];
    var k := 0;
    while k < |columns|
      invariant 0 <= k <= |columns|
      invariant mustBeAdd == Uncounted(columns[..k], counts)
    {
      assert columns[..k + 1][..k] == columns[..k];
      if CountOf(counts, columns[k].name) == 0 {
        mustBeAdd := mustBeAdd + [columns[k]];
      }
      k := k + 1;
    }
    assert columns[..k] == columns;
  }

  // ---------------------------------------------------------------- the ALTER

  /** The consumer of the ALTER: addColumn(column).nullable() for every missing column. */
  function AlterCalls(missing: seq<ColumnDefinition>): (r: seq<BuilderCall>)
    ensures |r| == 2 * |missing|
  {
    if |missing| == 0 then []
    else AlterCalls(missing[..|missing| - 1]) + [AddColumnCall(missing[|missing| - 1]), NullableCall]
  }

  /** The missing columns, each made nullable. */
  function Nullable(missing: seq<ColumnDefinition>): (r: seq<ColumnDefinition>)
    ensures |r| == |missing|
    ensures forall k :: 0 <= k < |r| ==> r[k] == missing[k].(nullable := true)
  {
    seq(|missing|, k requires 0 <= k < |missing| => missing[k].(nullable := true))
  }

  /** The ALTER's schema holds exactly the missing columns, in order, each nullable. */
  lemma {:induction false} AlterSchemaColumns(tableName: string, missing: seq<ColumnDefinition>)
    ensures ApplyAll(EmptyDescriptor(tableName, Alter), AlterCalls(missing))
      == Ok(EmptyDescriptor(tableName, Alter).(columns := Nullable(missing)))
  {
    var d := EmptyDescriptor(tableName, Alter);
    if |missing| > 0 {
      var prefix := missing[..|missing| - 1];
      var last := missing[|missing| - 1];
      AlterSchemaColumns(tableName, prefix);
      var before := d.(columns := Nullable(prefix));
      var calls := AlterCalls(prefix);
      ApplyAllAppend(d, calls, AddColumnCall(last));
      AddNullableStep(before, last);
      ApplyAllAppend(d, calls + [AddColumnCall(last)], NullableCall);
      assert calls + [AddColumnCall(last)] + [NullableCall] == AlterCalls(missing);
      NullableSnoc(missing);
    }
  }

  /** addColumn(c).nullable() appends c made nullable. */
  lemma AddNullableStep(d: Descriptor, c: ColumnDefinition)
    ensures Apply(d, AddColumnCall(c)) == Ok(d.(columns := d.columns + [c]))
    ensures Apply(d.(columns := d.columns + [c]), NullableCall) == Ok(d.(columns := d.columns + [c.(nullable := true)]))
  {
    var added := d.(columns := d.columns + [c]);
    assert WithLast(added, c.(nullable := true)).columns == d.columns + [c.(nullable := true)];
  }

  lemma NullableSnoc(missing: seq<ColumnDefinition>)
    requires |missing| > 0
    ensures Nullable(missing[..|missing| - 1]) + [missing[|missing| - 1].(nullable := true)] == Nullable(missing)
  {
  }

  // ---------------------------------------------------------------- one schema

  /** The diff of a recorded alter schema: the missing columns and the schema's column list after it. */
  function Diff(entry: SchemaEntry, tableName: string, dialect: DatabaseType, probe: Probe): (r: Result<seq<ColumnDefinition>, Error>)
    ensures dialect == Sqlite ==> (r.Ok? <==> probe.tableInfo.failure.None?)
    ensures dialect == Sqlite && r.Ok? ==> r.value == Missing(entry.columns, probe.tableInfo.rows)
    ensures dialect != Sqlite && r.Ok? ==> probe.columnCounts.Ok? && r.value == Uncounted(entry.columns, probe.columnCounts.value)
    ensures dialect == Sqlite && r.Err? ==> r.error == DatabaseException("migration-table-info", tableName)
  {
    if dialect == Sqlite then
      if probe.tableInfo.failure.None? then Ok(Missing(entry.columns, probe.tableInfo.rows))
      else Err(DatabaseException("migration-table-info", tableName))
    else
      match probe.columnCounts
      case Ok(counts) => Ok(Uncounted(entry.columns, counts))
      case Err(message) => Err(SqlFailure(message))
  }

  /** The ALTER after the diff: nothing when no column is missing; a ledger row only when the ALTER returns -1. */
  function AlterStep(tableName: string, missing: seq<ColumnDefinition>, columns: seq<ColumnDefinition>, ledgerTable: string,
                     migration: string, probe: Probe): (r: SchemaStep)
    ensures r.columns == columns
    ensures |missing| == 0 ==> r == SchemaStep([], columns, None)
  {
    if |missing| == 0 then SchemaStep([], columns, None)
    else
      match probe.alterResult
      case Err(message) => SchemaStep([], columns, Some(SqlFailure(message)))
      case Ok(result) =>
        var ran := [RunAlter(tableName, Nullable(missing))];
        if result == -1 then SchemaStep(ran + [Record(migration)], columns, None)
        else SchemaStep(ran, columns, None)
  }

  /** The body of execute's loop for schema i; isAlter is the owner's flag as it stands. */
  function ProcessSchema(i: nat, entry: SchemaEntry, isAlter: bool, names: seq<string>, config: DatabaseConfiguration,
                         ledgerTable: string, probe: Probe): (r: SchemaStep)
    ensures entry.owner.name in names && !isAlter ==> r == SchemaStep([], entry.columns, None)
  {
    if entry.owner.name !in names then
      match probe.executeResult
      case Err(e) => SchemaStep([], entry.columns, Some(e))
      case Ok(result) =>
        if result != -1 then SchemaStep([RunSchema(i), Record(entry.owner.name)], entry.columns, None)
        else SchemaStep([RunSchema(i)], entry.columns, None)
    else if !isAlter then SchemaStep([], entry.columns, None)
    else
      match config.tablePrefix
      // String.replace with a null replacement
      case None => SchemaStep([], entry.columns, Some(NullPointer))
      case Some(prefix) =>
        var tableName := ReplaceAll(entry.tableName, PrefixToken, prefix);
        // removeIf works on the schema's own list, row by row: under SQLite the list keeps only
        // the columns no row read so far names, whether or not the read then fails
        var columns := if config.databaseType == Sqlite then Missing(entry.columns, probe.tableInfo.rows) else entry.columns;
        match Diff(entry, tableName, config.databaseType, probe)
        case Err(e) => SchemaStep([], columns, Some(e))
        case Ok(missing) => AlterStep(tableName, missing, columns, ledgerTable, entry.owner.name, probe)
  }

  /** A schema of a migration not in the ledger is executed, and recorded iff the result is not -1. */
  lemma NewMigrationRuns(i: nat, entry: SchemaEntry, isAlter: bool, names: seq<string>, config: DatabaseConfiguration,
                         ledgerTable: string, probe: Probe)
    requires entry.owner.name !in names
    ensures var r := ProcessSchema(i, entry, isAlter, names, config, ledgerTable, probe);
      (RunSchema(i) in r.actions <==> probe.executeResult.Ok?)
      && (Record(entry.owner.name) in r.actions
          <==> probe.executeResult.Ok? && probe.executeResult.value != -1)
      && r.columns == entry.columns
      && (forall a :: a in r.actions ==> !a.RunAlter?)
  {
  }

  /**
   * A recorded alter schema: an ALTER runs iff some declared column is missing from the live
   * table, it adds exactly those columns as nullable, and the ledger gets a row only when the
   * ALTER returns -1.
   */
  lemma RecordedAlterDiff(i: nat, entry: SchemaEntry, names: seq<string>, config: DatabaseConfiguration,
                          ledgerTable: string, probe: Probe)
    requires entry.owner.name in names && config.tablePrefix.Some?
    requires Diff(entry, ReplaceAll(entry.tableName, PrefixToken, config.tablePrefix.value), config.databaseType, probe).Ok?
    ensures var tableName := ReplaceAll(entry.tableName, PrefixToken, config.tablePrefix.value);
      var missing := Diff(entry, tableName, config.databaseType, probe).value;
      var r := ProcessSchema(i, entry, true, names, config, ledgerTable, probe);
      (RunAlter(tableName, Nullable(missing)) in r.actions <==> |missing| > 0 && probe.alterResult.Ok?)
      && (Record(entry.owner.name) in r.actions
          <==> |missing| > 0 && probe.alterResult == Ok(-1))
      && (forall a :: a in r.actions ==> !a.RunSchema?)
  {
  }

  /**
   * A PRAGMA table_info read that fails part-way: the DatabaseException, nothing run, and the
   * schema's list already stripped of every column a row read before the failure names.
   */
  lemma TableInfoFailureNarrows(i: nat, entry: SchemaEntry, names: seq<string>, config: DatabaseConfiguration,
                                ledgerTable: string, probe: Probe, c: ColumnDefinition)
    requires entry.owner.name in names && config.tablePrefix.Some? && config.databaseType == Sqlite
    requires probe.tableInfo.failure.Some?
    ensures var r := ProcessSchema(i, entry, true, names, config, ledgerTable, probe);
      r.actions == [] && r.columns == Missing(entry.columns, probe.tableInfo.rows)
      && r.error == Some(DatabaseException("migration-table-info", ReplaceAll(entry.tableName, PrefixToken, config.tablePrefix.value)))
    ensures var r := ProcessSchema(i, entry, true, names, config, ledgerTable, probe);
      c in r.columns <==> c in entry.columns && c.name !in probe.tableInfo.rows
  {
    MissingMembers(entry.columns, probe.tableInfo.rows, c);
  }

  /** Under SQLite a recorded alter schema keeps only its missing columns; elsewhere its list is untouched. */
  lemma DiffShrinksColumns(i: nat, entry: SchemaEntry, isAlter: bool, names: seq<string>, config: DatabaseConfiguration,
                           ledgerTable: string, probe: Probe, c: ColumnDefinition)
    ensures var r := ProcessSchema(i, entry, isAlter, names, config, ledgerTable, probe);
      c in r.columns ==> c in entry.columns
    ensures var r := ProcessSchema(i, entry, isAlter, names, config, ledgerTable, probe);
      config.databaseType != Sqlite ==> r.columns == entry.columns
  {
    if config.tablePrefix.Some? {
      var tableName := ReplaceAll(entry.tableName, PrefixToken, config.tablePrefix.value);
      if config.databaseType == Sqlite {
        MissingMembers(entry.columns, probe.tableInfo.rows, c);
      }
    }
  }

  // ---------------------------------------------------------------- execute

  /**
   * The turn of each schema. A turn reads only its own schema, which no earlier turn touches,
   * so every turn can be stated against the schemas as execute found them.
   */
  function Turns(schemas: seq<SchemaEntry>, flags: seq<bool>, names: seq<string>, config: DatabaseConfiguration,
                 ledgerTable: string, probes: seq<Probe>): (r: seq<SchemaStep>)
    requires |schemas| == |flags| == |probes|
    ensures |r| == |schemas|
    decreases |schemas|
  {
    if |schemas| == 0 then []
    else
      var n := |schemas| - 1;
      Turns(schemas[..n], flags[..n], names, config, ledgerTable, probes[..n])
      + [ProcessSchema(n, schemas[n], flags[n], names, config, ledgerTable, probes[n])]
  }

  /** Turn i is schema i processed with its own flag and probe. */
  lemma {:induction false} TurnAt(schemas: seq<SchemaEntry>, flags: seq<bool>, names: seq<string>, config: DatabaseConfiguration,
               ledgerTable: string, probes: seq<Probe>, i: nat)
    requires i < |schemas| == |flags| == |probes|
    ensures Turns(schemas, flags, names, config, ledgerTable, probes)[i]
      == ProcessSchema(i, schemas[i], flags[i], names, config, ledgerTable, probes[i])
    decreases |schemas|
  {
    var n := |schemas| - 1;
    if i < n {
      TurnAt(schemas[..n], flags[..n], names, config, ledgerTable, probes[..n], i);
    }
  }

  /** What a pass over the turns did: its actions, the exception that ended it, and how many schemas it reached. */
  datatype Pass = Pass(actions: seq<Action>, error: Option<Error>, reached: nat)

  /** The loop from turn i on: the turns run in order until one throws. */
  function PassFrom(turns: seq<SchemaStep>, i: nat): (r: Pass)
    requires i <= |turns|
    ensures i <= r.reached <= |turns|
    ensures r.error.None? ==> r.reached == |turns|
    decreases |turns| - i
  {
    if i == |turns| then Pass([], None, i)
    else if turns[i].error.Some? then Pass(turns[i].actions, turns[i].error, i + 1)
    else
      var rest := PassFrom(turns, i + 1);
      Pass(turns[i].actions + rest.actions, rest.error, rest.reached)
  }

  /** The schemas after the first n turns: each reached schema holds the column list its turn left. */
  function Narrowed(schemas: seq<SchemaEntry>, turns: seq<SchemaStep>, n: nat): (r: seq<SchemaEntry>)
    requires n <= |schemas| == |turns|
    ensures |r| == |schemas|
    ensures forall k :: 0 <= k < |r| ==> r[k] == if k < n then schemas[k].(columns := turns[k].columns) else schemas[k]
  {
    seq(|schemas|, k requires 0 <= k < |schemas| => if k < n then schemas[k].(columns := turns[k].columns) else schemas[k])
  }

  /** One more turn narrows one more schema. */
  lemma NarrowedStep(schemas: seq<SchemaEntry>, turns: seq<SchemaStep>, n: nat)
    requires n < |schemas| == |turns|
    ensures Narrowed(schemas, turns, n)[n := schemas[n].(columns := turns[n].columns)] == Narrowed(schemas, turns, n + 1)
  {
  }

  /** The schemas' owners' flags. */
  function AlterFlags(schemas: seq<SchemaEntry>): (r: seq<bool>)
    reads set k | 0 <= k < |schemas| :: schemas[k].owner
    ensures |r| == |schemas|
    ensures forall k :: 0 <= k < |r| ==> r[k] == schemas[k].owner.alter
  {
    seq(|schemas|, k reads if 0 <= k < |schemas| then {schemas[k].owner} else {} requires 0 <= k < |schemas| => schemas[k].owner.alter)
  }

  /** execute only narrows schemas' own column lists: owners, tables and kinds stay, and no column appears. */
  lemma NarrowedKeepsSchemas(schemas: seq<SchemaEntry>, flags: seq<bool>, names: seq<string>, config: DatabaseConfiguration,
                             ledgerTable: string, probes: seq<Probe>, n: nat, k: nat, c: ColumnDefinition)
    requires |schemas| == |flags| == |probes| && n <= |schemas| && k < |schemas|
    ensures var r := Narrowed(schemas, Turns(schemas, flags, names, config, ledgerTable, probes), n);
      r[k].owner == schemas[k].owner && r[k].tableName == schemas[k].tableName
      && r[k].schemaType == schemas[k].schemaType
      && (c in r[k].columns ==> c in schemas[k].columns)
      && (config.databaseType != Sqlite ==> r[k] == schemas[k])
  {
    TurnAt(schemas, flags, names, config, ledgerTable, probes, k);
    DiffShrinksColumns(k, schemas[k], flags[k], names, config, ledgerTable, probes[k], c);
  }

  /** A run that ends without an exception gives every schema its turn, and its actions are the turns' actions in order. */
  lemma {:induction false} PassWithoutError(turns: seq<SchemaStep>, i: nat, j: nat)
    requires i <= j < |turns| && PassFrom(turns, i).error.None?
    ensures turns[j].error.None?
    decreases |turns| - i
  {
    if i < j {
      PassWithoutError(turns, i + 1, j);
    }
  }

  /** The registries. */
  class MigrationManager {
    var schemas: seq<SchemaEntry>
    var migrations: seq<Migration>
    var migrationTableName: string

    constructor ()
      ensures schemas == [] && migrations == [] && migrationTableName == "migrations"
    {
      schemas := [];
      migrations := [];
      migrationTableName := "migrations";
    }

    /** registerSchema: append. */
    method RegisterSchema(entry: SchemaEntry)
      modifies this
      ensures schemas == old(schemas) + [entry]
      ensures migrations == old(migrations) && migrationTableName == old(migrationTableName)
    {
      schemas := schemas + [entry];
    }

    /** registerMigration: append. */
    method RegisterMigration(migration: Migration)
      modifies this
      ensures migrations == old(migrations) + [migration]
      ensures schemas == old(schemas) && migrationTableName == old(migrationTableName)
    {
      migrations := migrations + [migration];
    }

    method SetMigrationTableName(name: string)
      modifies this
      ensures migrationTableName == name
      ensures schemas == old(schemas) && migrations == old(migrations)
    {
      migrationTableName := name;
    }

    /** One schema's turn, as the loop body does it. */
    static method ProcessOne(i: nat, entry: SchemaEntry, isAlter: bool, names: seq<string>, config: DatabaseConfiguration,
                             ledgerTable: string, probe: Probe) returns (step: SchemaStep)
      ensures step == ProcessSchema(i, entry, isAlter, names, config, ledgerTable, probe)
    {
      if entry.owner.name !in names {
        match probe.executeResult {
          case Err(e) =>
            return SchemaStep([], entry.columns, Some(e));
          case Ok(result) =>
            if result != -1 {
              return SchemaStep([RunSchema(i), Record(entry.owner.name)], entry.columns, None);
            }
            return SchemaStep([RunSchema(i)], entry.columns, None);
        }
      }
      if !isAlter {
        return SchemaStep([], entry.columns, None);
      }
      if config.tablePrefix.None? {
        return SchemaStep([], entry.columns, Some(NullPointer));
      }
      var tableName := ReplaceAll(entry.tableName, PrefixToken, config.tablePrefix.value);
      var mustBeAdd: seq<ColumnDefinition>;
      var columns := entry.columns;
      if config.databaseType == Sqlite {
        columns := RemoveLiveColumns(entry.columns, probe.tableInfo.rows);
        if probe.tableInfo.failure.Some? {
          return SchemaStep([], columns, Some(DatabaseException("migration-table-info", tableName)));
        }
        mustBeAdd := columns;
      } else {
        if probe.columnCounts.Err? {
          return SchemaStep([], entry.columns, Some(SqlFailure(probe.columnCounts.error)));
        }
        mustBeAdd := CollectUncounted(entry.columns, probe.columnCounts.value);
      }
      step := AlterStep(tableName, mustBeAdd, columns, ledgerTable, entry.owner.name, probe);
    }

    /** The turn of schema i of the schemas execute found, taken by the loop body. */
    static method TakeTurn(i: nat, entry: SchemaEntry, isAlter: bool, names: seq<string>, config: DatabaseConfiguration,
                           ledgerTable: string, probe: Probe, ghost schemas: seq<SchemaEntry>, ghost flags: seq<bool>,
                           ghost probes: seq<Probe>) returns (step: SchemaStep)
      requires i < |schemas| == |flags| == |probes|
      requires schemas[i] == entry && flags[i] == isAlter && probes[i] == probe
      ensures step == Turns(schemas, flags, names, config, ledgerTable, probes)[i]
    {
      step := ProcessOne(i, entry, isAlter, names, config, ledgerTable, probe);
      TurnAt(schemas, flags, names, config, ledgerTable, probes, i);
    }

    /** The loop of execute over the schemas: each turn in order, stopping at the first exception. */
    static method RunTurns(schemas: seq<SchemaEntry>, names: seq<string>, config: DatabaseConfiguration,
                           ledgerTable: string, probes: seq<Probe>, ghost flags: seq<bool>)
      returns (current: seq<SchemaEntry>, actions: seq<Action>, error: Option<Error>)
      requires |probes| == |schemas| == |flags|
      requires forall k :: 0 <= k < |schemas| ==> flags[k] == schemas[k].owner.alter
      ensures var turns := Turns(schemas, flags, names, config, ledgerTable, probes);
        var pass := PassFrom(turns, 0);
        actions == pass.actions && error == pass.error && current == Narrowed(schemas, turns, pass.reached)
    {
      current := schemas;
      ghost var turns := Turns(schemas, flags, names, config, ledgerTable, probes);
      actions, error := [], None;
      var i := 0;
      while i < |current|
        invariant 0 <= i <= |current| == |schemas| == |turns|
        invariant current == Narrowed(schemas, turns, i)
        invariant PassFrom(turns, 0).actions == actions + PassFrom(turns, i).actions
        invariant PassFrom(turns, 0).error == PassFrom(turns, i).error
        invariant PassFrom(turns, 0).reached == PassFrom(turns, i).reached
      {
        var entry := current[i];
        var step := TakeTurn(i, entry, entry.owner.alter, names, config, ledgerTable, probes[i], schemas, flags, probes);
        NarrowedStep(schemas, turns, i);
        current := current[i := entry.(columns := step.columns)];
        if step.error.Some? {
          assert PassFrom(turns, i) == Pass(step.actions, step.error, i + 1);
          return current, actions + step.actions, step.error;
        }
        ghost var rest := PassFrom(turns, i + 1);
        assert actions + (step.actions + rest.actions) == actions + step.actions + rest.actions;
        actions := actions + step.actions;
        i := i + 1;
      }
      assert PassFrom(turns, i) == Pass([], None, i);
      assert actions + [] == actions;
    }

    /**
     * execute: ensure the ledger table, read the ledger once, then every schema in order (the
     * migrations' up() calls are the registrations already made). Creating the ledger has no
     * outcome here: its CreateRequest reports a driver failure as -1 and throws nothing (see
     * LedgerTableRenders), and execute goes on whatever the count.
     */
    method Execute(config: DatabaseConfiguration, ledgerRead: Result<seq<string>, string>,
                   probes: seq<Probe>) returns (actions: seq<Action>, error: Option<Error>)
      requires |probes| == |schemas|
      modifies this
      ensures migrations == old(migrations) && migrationTableName == old(migrationTableName)
      ensures var turns := Turns(old(schemas), old(AlterFlags(schemas)), LedgerNames(ledgerRead), config, migrationTableName, probes);
        var pass := PassFrom(turns, 0);
        actions == pass.actions && error == pass.error && schemas == Narrowed(old(schemas), turns, pass.reached)
    {
      var names := LedgerNames(ledgerRead);
      var current;
      current, actions, error := RunTurns(schemas, names, config, migrationTableName, probes, AlterFlags(schemas));
      schemas := current;
    }
  }
}
