# Sarah statement compiler, modelled in Dafny

Sarah is a Java library that builds SQL for MySQL, MariaDB and SQLite. A `Schema` is a
fluent builder (`SchemaBuilder`): calls add columns, mark the last column primary, unique
or nullable, add foreign keys, WHERE conditions, joins, selected columns and an order.
Each request class (`InsertRequest`, `UpdateRequest`, `CreateRequest`, the batch and
upsert requests, `CreateIndexRequest`, `InsertAllRequest`) turns a schema into SQL text
with `?` placeholders. The `%prefix%` token in that text is replaced by the configured
table prefix, and the values are bound to the placeholders by position through
`PreparedStatement.setObject`. Around this core sit `DatabaseConfiguration`, the
reflection-driven `ConsumerConstructor` (one column per field of a template class), the
`MigrationManager` with its ledger table of applied migrations, the `Transaction`
wrapper around a connection, and the deserialization allow-list
`SecureObjectInputStream`.

The model works as follows:

- **Templates.** Every statement is a `Statements.Template`: a list of literal pieces
  and parameter pieces. `Render` is the SQL text, where every parameter piece becomes a
  `?`. `Params` is the list of bound values.
- **Placeholder count.** One lemma proves the central property for all statements. When
  the literal text holds no `?`, the text sent to the driver holds exactly one `?` per
  bound value. The value bound at position k is the k-th parameter, and this still holds
  after `%prefix%` is replaced.
- **Per request.** Each request module proves three things. Its template renders the text
  the Java code builds. Its parameters are the values the Java code binds, in order. Its
  loops (written as Dafny methods with invariants) build that text and those values.
- **The builder.** `SchemaBuilders.SchemaBuilder` is a class whose fields the builder
  methods update. Each method is tied to the pure transition `SchemaBuilders.Apply` on a
  `Descriptor` value. The lemmas about `Apply` establish:
  - which calls throw;
  - that modifiers touch only the last column;
  - that the well-formedness invariant (keys declared, auto-increment columns typed,
    joins typed) is kept.
- **Migrations.** `Migrations.MigrationManager.Execute` runs every registered schema in
  order against a ledger of applied migrations. It is proved against the pure per-schema
  turn `Migrations.ProcessSchema`.
- **Transactions.** `Transactions.Transaction` is proved against the step function
  `Transactions.Step`. The lemmas show that the committed and rolled-back flags are
  exclusive and permanent.
- **Deserialization.** `SecureObjectInputStreams.SecureObjectInputStream.ResolveClass`
  admits a class exactly when its name is allowed or starts with an allowed prefix.

Everything outside Dafny is a parameter of the operation that needs it. This covers
database answers, the success of driver calls and the reflected fields of a template
class.

## Model

| member | source | states |
|---|---|---|
| Configuration.NewConfiguration | src/main/java/fr/maxlego08/sarah/DatabaseConfiguration.java:24-27 | the eight-argument constructor keeps its eight fields and leaves both pool settings null |
| Configuration.ReplacePrefix | src/main/java/fr/maxlego08/sarah/DatabaseConfiguration.java:80-82 | a null prefix returns the text unchanged; a text without `%prefix%` is returned unchanged |
| Configuration.ReplacePrefixOfTableName | src/main/java/fr/maxlego08/sarah/DatabaseConfiguration.java:81 | with prefix p, `%prefix%` followed by a table name becomes p followed by that name |
| Configuration.ReplacePrefixKeepsCount | src/main/java/fr/maxlego08/sarah/DatabaseConfiguration.java:81 | the substitution keeps the number of occurrences of any character absent from `%prefix%` and from the prefix, so `?` placeholders survive it |
| Configuration.ReplacePrefixSplits | src/main/java/fr/maxlego08/sarah/DatabaseConfiguration.java:81 | the substitution acts independently on both sides of a character that is not part of `%prefix%` |
| Configuration.Create | src/main/java/fr/maxlego08/sarah/DatabaseConfiguration.java:44-46 | prefix "", debug off, the given type, port and credentials, no pool settings |
| Configuration.CreateMySql | src/main/java/fr/maxlego08/sarah/DatabaseConfiguration.java:48-50 | prefix "", debug off, type MYSQL, the given port and credentials |
| Configuration.CreateMariaDb | src/main/java/fr/maxlego08/sarah/DatabaseConfiguration.java:52-54 | prefix "", debug off, type MARIADB, the given port and credentials |
| Configuration.CreateMySqlDebug | src/main/java/fr/maxlego08/sarah/DatabaseConfiguration.java:56-58 | prefix "", the given debug flag, type MYSQL |
| Configuration.CreateMariaDbDebug | src/main/java/fr/maxlego08/sarah/DatabaseConfiguration.java:60-62 | prefix "", the given debug flag, type MARIADB |
| Configuration.CreateDefaultPort | src/main/java/fr/maxlego08/sarah/DatabaseConfiguration.java:64-66 | prefix "", debug off, the given type, port 3306 |
| Configuration.CreateFull | src/main/java/fr/maxlego08/sarah/DatabaseConfiguration.java:68-70 | prefix "", the given debug flag, type and port |
| Configuration.CreateMariaDbDefaultPort | src/main/java/fr/maxlego08/sarah/DatabaseConfiguration.java:72-74 | prefix "", debug off, type MARIADB, port 3306 |
| Configuration.SqliteConfiguration | src/main/java/fr/maxlego08/sarah/DatabaseConfiguration.java:76-78 | prefix "", type SQLITE, port 0, null user, password, host and database |
| Configuration.FactoryPrefixDeletesToken | src/main/java/fr/maxlego08/sarah/DatabaseConfiguration.java:44-81 | with the empty prefix every factory installs, `%prefix%` + table becomes the bare table name |
| Configuration.WithPoolSettings | src/main/java/fr/maxlego08/sarah/DatabaseConfiguration.java:124-127 | the copy has the two new pool fields and agrees with the original on every other field |
| Configuration.EqualsIsValueEquality | src/main/java/fr/maxlego08/sarah/DatabaseConfiguration.java:129-144 | comparing the ten fields one by one holds exactly when the two configurations are equal |
| Text.ReplaceAll | src/main/java/fr/maxlego08/sarah/DatabaseConfiguration.java:80-82 | replaceAll("%prefix%", prefix) as literal, leftmost, non-overlapping replacement; a replacement as long as the pattern keeps the length (ReplaceAllWithoutOccurrence, ReplaceAllSelf, ReplaceAllKeepsCount and ReplaceAllSplits characterise it) |
| Text.ReplaceAllKeepsCount | src/main/java/fr/maxlego08/sarah/DatabaseConfiguration.java:81 | literal replaceAll neither creates nor removes a character held by neither the pattern nor the replacement |
| Text.ReplaceAllWithoutOccurrence | src/main/java/fr/maxlego08/sarah/DatabaseConfiguration.java:81 | replaceAll returns a text without an occurrence of the pattern unchanged |
| Text.ReplaceAllSelf | src/main/java/fr/maxlego08/sarah/DatabaseConfiguration.java:81 | replacing the pattern by itself is the identity |
| Text.ReplaceAllSplits | src/main/java/fr/maxlego08/sarah/DatabaseConfiguration.java:81 | a character absent from the pattern splits the replacement into two independent halves |
| Text.CountJoinRepeat | src/main/java/fr/maxlego08/sarah/conditions/WhereCondition.java:42 | joining n copies of a one-character text with a separator free of it holds that character exactly n times |
| Text.JoinAvoids | src/main/java/fr/maxlego08/sarah/SchemaBuilder.java:471 | String.join of parts and a separator free of a character is free of it |
| Text.ParseInteger | src/main/java/fr/maxlego08/sarah/SchemaBuilder.java:619-625 | Long.parseLong / Integer.parseInt accept only values within the type's range |
| Text.ParseIntegerOfIntToString | src/main/java/fr/maxlego08/sarah/SchemaBuilder.java:619-625 | parsing the printed form of an integer gives it back iff it lies in the range, and fails otherwise |
| Text.DigitsValueOfNatToString | src/main/java/fr/maxlego08/sarah/SchemaBuilder.java:619-625 | the decimal text of a natural number denotes that number |
| Text.AfterLastDot | src/main/java/fr/maxlego08/sarah/ConsumerConstructor.java:55 | the simple type name is a suffix of the full name and has no dot; it is the full name when that has no dot |
| Statements.StringOf | src/main/java/fr/maxlego08/sarah/conditions/SelectCondition.java:46-50 | a null string reference concatenates as "null", any other as itself |
| Statements.Render | src/main/java/fr/maxlego08/sarah/requests/InsertRequest.java:29-43 | the text a request's StringBuilder assembles: each literal piece as written and a `?` for each parameter, in order (its promises are Statements.PlaceholderCount and Statements.PlaceholdersInOrder) |
| Statements.Params | src/main/java/fr/maxlego08/sarah/requests/InsertRequest.java:32-53 | the values a request collects and passes to setObject, one per parameter piece, in text order (Statements.PlaceholdersInOrder ties value k to the k-th `?`) |
| Statements.PlaceholderCount | src/main/java/fr/maxlego08/sarah/requests/InsertRequest.java:29-53 | a statement whose literal text holds no `?` renders one `?` per bound value |
| Statements.PlaceholdersInOrder | src/main/java/fr/maxlego08/sarah/requests/InsertRequest.java:43-53 | after `%prefix%` substitution, the `?` of a parameter comes after exactly as many `?` as there are values before it, and its value sits at that same index |
| Statements.PlaceholderCountAfterSubstitution | src/main/java/fr/maxlego08/sarah/requests/InsertRequest.java:43-53 | after `%prefix%` substitution the SQL sent holds as many `?` as there are bound values |
| Statements.RenderJoinT | src/main/java/fr/maxlego08/sarah/requests/CreateRequest.java:41 | a template joined by a separator renders as String.join over the rendered parts |
| Statements.ParamsJoinT | src/main/java/fr/maxlego08/sarah/requests/InsertBatchRequest.java:46-56 | a joined template binds its parts' values part after part |
| Statements.PlainJoinT | src/main/java/fr/maxlego08/sarah/requests/InsertBatchRequest.java:52-55 | joining placeholder-free parts with a separator free of `?` adds no stray `?` |
| Statements.SlotsRender | src/main/java/fr/maxlego08/sarah/conditions/WhereCondition.java:42 | n parameters separated by a separator render as n `?` joined by it |
| Statements.SlotsParams | src/main/java/fr/maxlego08/sarah/conditions/WhereCondition.java:42 | the parameters of such a list are exactly the given values, in order |
| Statements.FlattenUniform | src/main/java/fr/maxlego08/sarah/requests/InsertBatchRequest.java:46-51 | rows of n values flattened: value j of row k lands at position k*n + j |
| Statements.Positional | src/main/java/fr/maxlego08/sarah/requests/InsertRequest.java:51-53 | binding values from a start index fills exactly the positions start..start+n-1, value i at start+i |
| Statements.PositionalSplit | src/main/java/fr/maxlego08/sarah/requests/UpdateRequest.java:52-56 | two lists bound one after the other from 1: the first at 1..k, the second from k+1 |
| Statements.Bind | src/main/java/fr/maxlego08/sarah/SchemaBuilder.java:561-574 | setObject(index++, v) in order lays the positional bindings over what was bound, and returns the next free index |
| Statements.BindFresh | src/main/java/fr/maxlego08/sarah/requests/InsertRequest.java:51-53 | binding a fresh statement fills exactly positions 1..n with the values in order |
| TypeConversions.Convert | src/main/java/fr/maxlego08/sarah/SchemaBuilder.java:607-648 | null converts to null; a boolean target reads "true"/"1" in any case; long and int targets give a value within the type's range or fail; an enum target gives the named constant, ClassCastException for a non-string, or IllegalArgumentException "No enum constant <canonical name>.<name>"; other targets keep the value |
| TypeConversions.BooleanRoundTrip | src/main/java/fr/maxlego08/sarah/SchemaBuilder.java:616-618 | a boolean converts to itself |
| TypeConversions.BooleanFromNumbers | src/main/java/fr/maxlego08/sarah/SchemaBuilder.java:616-618 | 1 and "TRUE" read as true, 0 as false |
| TypeConversions.LongRoundTrip | src/main/java/fr/maxlego08/sarah/SchemaBuilder.java:619-620 | a long in range converts to the same long |
| TypeConversions.IntegerFromLong | src/main/java/fr/maxlego08/sarah/SchemaBuilder.java:623-624 | a long that fits in an int converts to it; one that does not raises NumberFormatException |
| TypeConversions.EnumNeedsString | src/main/java/fr/maxlego08/sarah/SchemaBuilder.java:610-611 | an enum target refuses a non-string value with ClassCastException |
| ColumnDefinitions.NewTypedColumn | src/main/java/fr/maxlego08/sarah/conditions/ColumnDefinition.java:8-23 | a new typed column has the given name and type, is neither nullable, primary, unique nor auto-increment, has no default, no value and no size |
| ColumnDefinitions.NewColumn | src/main/java/fr/maxlego08/sarah/conditions/ColumnDefinition.java:25-27 | the same defaults with no type at all |
| ColumnDefinitions.SafeName | src/main/java/fr/maxlego08/sarah/conditions/ColumnDefinition.java:92-94 | the name between two backticks |
| ColumnDefinitions.SafeNameInjective | src/main/java/fr/maxlego08/sarah/conditions/ColumnDefinition.java:92-94 | distinct names keep distinct safe names |
| ColumnDefinitions.ColumnType | src/main/java/fr/maxlego08/sarah/conditions/ColumnDefinition.java:36-42 | INTEGER for an SQLite auto-increment column typed BIGINT, INT or INTEGER in any case; the declared type otherwise |
| ColumnDefinitions.SizeSuffix | src/main/java/fr/maxlego08/sarah/conditions/ColumnDefinition.java:46-50 | empty iff the length is 0; parenthesised; holds a comma iff both length and decimal are non-zero |
| ColumnDefinitions.Head | src/main/java/fr/maxlego08/sarah/conditions/ColumnDefinition.java:36-50 | the backticked name, a space, the printed type and the size suffix (ColumnDefinitions.BuildStartsWithNameAndType) |
| ColumnDefinitions.Constraints | src/main/java/fr/maxlego08/sarah/conditions/ColumnDefinition.java:66-78 | NULL or NOT NULL, then DEFAULT, then UNIQUE (ColumnDefinitions.ConstraintsOrder) |
| ColumnDefinitions.Build | src/main/java/fr/maxlego08/sarah/conditions/ColumnDefinition.java:35-82 | build(configuration): the inline SQLite auto-increment key, AUTO_INCREMENT on the servers, or the head and the constraints (ColumnDefinitions.BuildSqliteInlineKey, BuildServerAutoIncrement, ConstraintsOrder, BuildHasNoPlaceholder) |
| ColumnDefinitions.BuildSqliteInlineKey | src/main/java/fr/maxlego08/sarah/conditions/ColumnDefinition.java:53-60 | SQLite auto-increment primary key: head, ` PRIMARY KEY AUTOINCREMENT`, optional ` UNIQUE` and nothing else; an integer spelling prints as INTEGER |
| ColumnDefinitions.BuildServerAutoIncrement | src/main/java/fr/maxlego08/sarah/conditions/ColumnDefinition.java:53-65 | MySQL/MariaDB: ` AUTO_INCREMENT` before the constraints when primary, no keyword otherwise; the declared type is kept |
| ColumnDefinitions.BuildStartsWithNameAndType | src/main/java/fr/maxlego08/sarah/conditions/ColumnDefinition.java:44 | every fragment starts with the backticked name, a space and the printed type |
| ColumnDefinitions.ConstraintsOrder | src/main/java/fr/maxlego08/sarah/conditions/ColumnDefinition.java:67-79 | exactly one of ` NULL` / ` NOT NULL` comes first; with no default and not unique it is all there is |
| ColumnDefinitions.ServerDialectsAgree | src/main/java/fr/maxlego08/sarah/conditions/ColumnDefinition.java:35-82 | MySQL and MariaDB render every column identically |
| ColumnDefinitions.PlainColumnDialectAgnostic | src/main/java/fr/maxlego08/sarah/conditions/ColumnDefinition.java:35-82 | a column without auto-increment renders the same in every dialect |
| ColumnDefinitions.NewTypedColumnBuild | src/main/java/fr/maxlego08/sarah/conditions/ColumnDefinition.java:12-18 | a fresh typed column renders as backticked name, type, ` NOT NULL` |
| ColumnDefinitions.BuildHasNoPlaceholder | src/main/java/fr/maxlego08/sarah/conditions/ColumnDefinition.java:35-82 | a fragment built from placeholder-free parts holds no `?` |
| WhereConditions.QualifiedColumn | src/main/java/fr/maxlego08/sarah/conditions/WhereCondition.java:17-24 | without a prefix the column is just the backticked name |
| WhereConditions.QualifiedColumnShape | src/main/java/fr/maxlego08/sarah/conditions/WhereCondition.java:17-24 | with a prefix the column starts with the prefix and a dot; it always ends with the backticked name |
| WhereConditions.NewNormal | src/main/java/fr/maxlego08/sarah/conditions/WhereCondition.java:16-21 | a NORMAL condition on the qualified column with the given operator and value and no list |
| WhereConditions.NewIn | src/main/java/fr/maxlego08/sarah/conditions/WhereCondition.java:23-29 | an IN condition on the qualified column holding its own copy of the values, with null value and operator |
| WhereConditions.NewWithAction | src/main/java/fr/maxlego08/sarah/conditions/WhereCondition.java:31-36 | a null check keeps the column text exactly as given, with null value and operator |
| WhereConditions.BoundValues | src/main/java/fr/maxlego08/sarah/SchemaBuilder.java:563-572 | a NORMAL condition binds its value, an IN condition each of its values in order, a null check nothing |
| WhereConditions.GetCondition | src/main/java/fr/maxlego08/sarah/conditions/WhereCondition.java:38-45 | getCondition starts with the column and a space; a NORMAL condition ends with its `?` and an IN condition with `)` |
| WhereConditions.ConditionTemplate | src/main/java/fr/maxlego08/sarah/conditions/WhereCondition.java:38-45 | one condition as text with its placeholders bound; ConditionTemplateMeaning states its text and values |
| WhereConditions.ConditionTemplateMeaning | src/main/java/fr/maxlego08/sarah/conditions/WhereCondition.java:38-45 | the condition's template renders getCondition's text and binds exactly the values applyWhereConditions binds for it |
| WhereConditions.NullCheckTemplateMeaning | src/main/java/fr/maxlego08/sarah/conditions/WhereCondition.java:39-40 | the null checks render `col IS NULL` / `col IS NOT NULL` and bind nothing |
| WhereConditions.InTemplateMeaning | src/main/java/fr/maxlego08/sarah/conditions/WhereCondition.java:41-43 | an IN condition renders one `?` per value, comma-joined, and binds its values in order |
| WhereConditions.NormalTemplateMeaning | src/main/java/fr/maxlego08/sarah/conditions/WhereCondition.java:44 | a NORMAL condition renders `col op ?` and binds its one value |
| WhereConditions.ConditionPlaceholders | src/main/java/fr/maxlego08/sarah/conditions/WhereCondition.java:38-45 | a NORMAL condition holds one `?`, an IN condition one per value, a null check none: always the number of values bound for it |
| WhereConditions.EmptyInList | src/main/java/fr/maxlego08/sarah/conditions/WhereCondition.java:41-43 | an empty IN list renders `col IN ()` |
| JoinConditions.JoinTypeSql | src/main/java/fr/maxlego08/sarah/conditions/JoinCondition.java:50-65 | every join keyword ends with JOIN |
| JoinConditions.And | src/main/java/fr/maxlego08/sarah/conditions/JoinCondition.java:22-24 | `and` has no join type, no tables and no nested condition, and keeps its alias, column and compared text |
| JoinConditions.JoinClause | src/main/java/fr/maxlego08/sarah/conditions/JoinCondition.java:33-44 | getJoinClause for a typed join: the keyword, the aliased table and the ON equality, then ` AND ` and the extra condition if any (JoinConditions.JoinClauseShape) |
| JoinConditions.JoinClauseShape | src/main/java/fr/maxlego08/sarah/conditions/JoinCondition.java:33-44 | the clause starts with the join keyword and a space; it is the main clause alone without an extra condition, and the main clause, ` AND ` and the extra condition with one |
| JoinConditions.AndAsExtraCondition | src/main/java/fr/maxlego08/sarah/conditions/JoinCondition.java:46-48 | an `and` condition compares `alias.column` with its text as a quoted literal |
| JoinConditions.JoinClauseHasNoPlaceholder | src/main/java/fr/maxlego08/sarah/conditions/JoinCondition.java:33-44 | a join clause built from placeholder-free texts holds no `?`, so it binds nothing |
| SelectConditions.GetSelectColumn | src/main/java/fr/maxlego08/sarah/conditions/SelectCondition.java:45-61 | getSelectColumn opens with the qualified column, or with COALESCE( the qualified column and a comma; an alias closes it as ` as alias` |
| SelectConditions.BareProjection | src/main/java/fr/maxlego08/sarah/conditions/SelectCondition.java:45-56 | no prefix, alias or COALESCE: the backticked column alone |
| SelectConditions.QualifiedAliasedProjection | src/main/java/fr/maxlego08/sarah/conditions/SelectCondition.java:46-60 | a prefix qualifies the backticked column and an alias follows after ` as ` |
| SelectConditions.CoalesceProjection | src/main/java/fr/maxlego08/sarah/conditions/SelectCondition.java:47-50 | COALESCE of the qualified column and the default's text inserted raw, then the alias |
| SelectConditions.EqualsIsValueEquality | src/main/java/fr/maxlego08/sarah/conditions/SelectCondition.java:62-72 | field-wise comparison holds exactly when the two conditions are equal |
| SelectConditions.SelectColumn | src/main/java/fr/maxlego08/sarah/SchemaBuilder.java:795-798 | addSelect(column) projects the backticked column |
| SelectConditions.SelectPrefixedColumn | src/main/java/fr/maxlego08/sarah/SchemaBuilder.java:800-803 | addSelect(prefix, column) projects the column qualified by the prefix, or bare without one |
| SelectConditions.AliasedSelectIgnoresPrefix | src/main/java/fr/maxlego08/sarah/SchemaBuilder.java:805-812 | as written, the aliased and COALESCE addSelect overloads drop the table prefix from the SQL |
| SelectConditions.AliasedSelectCounterexample | src/main/java/fr/maxlego08/sarah/SchemaBuilder.java:805-807 | as written, selecting `id` of `u` as `uid` yields "`id` as uid"; the corrected overload yields "u.`id` as uid" |
| SelectConditions.SelectAliased | src/main/java/fr/maxlego08/sarah/SchemaBuilder.java:805-807 | the corrected addSelect(prefix, column, alias) qualifies the column by the prefix before the alias |
| SelectConditions.SelectCoalesced | src/main/java/fr/maxlego08/sarah/SchemaBuilder.java:810-812 | the corrected addSelect(prefix, column, alias, default) qualifies the column inside COALESCE |
| SelectConditions.ProjectionHasNoPlaceholder | src/main/java/fr/maxlego08/sarah/conditions/SelectCondition.java:45-60 | a projection built from placeholder-free texts holds no `?` |
| SchemaBuilders.EmptyDescriptor | src/main/java/fr/maxlego08/sarah/SchemaBuilder.java:52-68 | a new builder has the given name and kind, every list empty, no new name, no order, not distinct |
| SchemaBuilders.Copy | src/main/java/fr/maxlego08/sarah/SchemaBuilder.java:70-85 | copy keeps every list and setting of the old schema and changes only the name and the kind |
| SchemaBuilders.RenameDescriptor | src/main/java/fr/maxlego08/sarah/SchemaBuilder.java:87-99 | rename gives a RENAME schema carrying the new table name and no columns |
| SchemaBuilders.CreateIndexDescriptor | src/main/java/fr/maxlego08/sarah/SchemaBuilder.java:115-123 | createIndex gives a CREATE_INDEX schema with one column of empty type |
| SchemaBuilders.SelectCountDescriptor | src/main/java/fr/maxlego08/sarah/SchemaBuilder.java:176-182 | selectCount builds exactly what select builds: a SELECT schema |
| SchemaBuilders.UuidColumn | src/main/java/fr/maxlego08/sarah/SchemaBuilder.java:244-248 | uuid(name) is a VARCHAR(36) column without value |
| SchemaBuilders.UuidValueColumn | src/main/java/fr/maxlego08/sarah/SchemaBuilder.java:250-252 | uuid(name, value) is an untyped column carrying the UUID's text |
| SchemaBuilders.VarcharColumn | src/main/java/fr/maxlego08/sarah/SchemaBuilder.java:255-257 | string(name, length) is a VARCHAR column of that length, no decimals, not auto-increment |
| SchemaBuilders.DecimalColumn | src/main/java/fr/maxlego08/sarah/SchemaBuilder.java:270-277 | decimal(name, length, decimal) is a DECIMAL column with that length and scale |
| SchemaBuilders.ValueColumn | src/main/java/fr/maxlego08/sarah/SchemaBuilder.java:280-322 | the value overloads add an untyped column carrying the value |
| SchemaBuilders.BlobValueColumn | src/main/java/fr/maxlego08/sarah/SchemaBuilder.java:335-337 | blob(name, bytes) is a BLOB column carrying the bytes |
| SchemaBuilders.AutoIncrementColumn | src/main/java/fr/maxlego08/sarah/SchemaBuilder.java:383-390 | the auto-increment column has the given type, is auto-increment and not yet primary |
| SchemaBuilders.CreatedAtColumn | src/main/java/fr/maxlego08/sarah/SchemaBuilder.java:370-375 | created_at TIMESTAMP with default CURRENT_TIMESTAMP |
| SchemaBuilders.UpdatedAtColumn | src/main/java/fr/maxlego08/sarah/SchemaBuilder.java:393-404 | updated_at TIMESTAMP; default CURRENT_TIMESTAMP on SQLite, with ON UPDATE CURRENT_TIMESTAMP on the server dialects |
| SchemaBuilders.WithLast | src/main/java/fr/maxlego08/sarah/SchemaBuilder.java:454-457 | replacing the last column keeps the number of columns, the earlier columns and every other field |
| SchemaBuilders.MarkPrimary | src/main/java/fr/maxlego08/sarah/SchemaBuilder.java:435-440 | primary() marks the last column primary, changes no other column and appends its backticked name to the keys |
| SchemaBuilders.ApplyModifier | src/main/java/fr/maxlego08/sarah/SchemaBuilder.java:349-457 | a modifier fails iff there is no column (IllegalStateException) or it is defaultValue(null) |
| SchemaBuilders.Apply | src/main/java/fr/maxlego08/sarah/SchemaBuilder.java:244-812 | a builder call fails iff it acts on the last column and there is none, or it is defaultValue(null); no call changes the name or kind |
| SchemaBuilders.ModifierTouchesOnlyLastColumn | src/main/java/fr/maxlego08/sarah/SchemaBuilder.java:406-440 | a successful modifier keeps the number of columns, every earlier column and the last column's name |
| SchemaBuilders.AdderKeepsColumns | src/main/java/fr/maxlego08/sarah/SchemaBuilder.java:370-452 | the column adders never fail and extend the column list after every earlier column |
| SchemaBuilders.ModifierWithoutColumn | src/main/java/fr/maxlego08/sarah/SchemaBuilder.java:351-457 | on an empty builder foreignKey throws "No column defined to apply foreign key." and the other modifiers "No columns defined." |
| SchemaBuilders.AutoIncrementIsAddThenPrimary | src/main/java/fr/maxlego08/sarah/SchemaBuilder.java:383-390 | autoIncrement is addColumn of the auto-increment column followed by primary(), so its backticked name joins the keys |
| SchemaBuilders.TimestampsIsCreatedThenUpdated | src/main/java/fr/maxlego08/sarah/SchemaBuilder.java:448-452 | timestamps() is createdAt() followed by updatedAt() |
| SchemaBuilders.ForeignKeyOverloadsAgree | src/main/java/fr/maxlego08/sarah/SchemaBuilder.java:349-367 | the one-argument foreignKey equals the three-argument form referencing the last column's backticked name with cascade, and changes no column |
| SchemaBuilders.ModifierIdempotent | src/main/java/fr/maxlego08/sarah/SchemaBuilder.java:406-421 | nullable() and unique(flag) applied twice equal applying them once |
| SchemaBuilders.PrimaryTwiceRepeatsKey | src/main/java/fr/maxlego08/sarah/SchemaBuilder.java:435-440 | primary() applied twice records the same key twice |
| SchemaBuilders.ModifierKeepsKeysDeclared | src/main/java/fr/maxlego08/sarah/SchemaBuilder.java:406-440 | a modifier that keeps the last column's name and primary flag keeps every key declared by a primary column |
| SchemaBuilders.MarkPrimaryKeepsKeysDeclared | src/main/java/fr/maxlego08/sarah/SchemaBuilder.java:435-440 | primary() keeps every recorded key backed by a primary column |
| SchemaBuilders.AdderKeepsKeysDeclared | src/main/java/fr/maxlego08/sarah/SchemaBuilder.java:370-452 | adding columns, conditions, joins or settings keeps every key backed by a primary column |
| SchemaBuilders.ApplyKeepsKeysDeclared | src/main/java/fr/maxlego08/sarah/SchemaBuilder.java:244-457 | every successful builder call keeps every key backed by a primary column |
| SchemaBuilders.ApplyKeepsColumnsTyped | src/main/java/fr/maxlego08/sarah/SchemaBuilder.java:244-457 | every successful call that adds only typed auto-increment columns keeps every auto-increment column typed |
| SchemaBuilders.ApplyKeepsWellFormed | src/main/java/fr/maxlego08/sarah/SchemaBuilder.java:244-703 | every successful well-formed call keeps keys declared, auto-increment columns typed and joins typed |
| SchemaBuilders.ApplyAllKeepsWellFormed | src/main/java/fr/maxlego08/sarah/SchemaBuilder.java:105-113 | a whole consumer of well-formed calls that succeeds keeps the builder well formed |
| SchemaBuilders.ApplyAllAppend | src/main/java/fr/maxlego08/sarah/SchemaBuilder.java:105-113 | running calls then one more equals applying that call to the result of the run |
| SchemaBuilders.SchemaBuilder.constructor | src/main/java/fr/maxlego08/sarah/SchemaBuilder.java:65-68 | the new builder's state is the empty descriptor for that name and kind |
| SchemaBuilders.SchemaBuilder.AddColumn | src/main/java/fr/maxlego08/sarah/SchemaBuilder.java:442-445 | the column is appended and nothing else changes |
| SchemaBuilders.SchemaBuilder.RequireLastColumn | src/main/java/fr/maxlego08/sarah/SchemaBuilder.java:454-457 | an IllegalStateException with the message iff there is no column |
| SchemaBuilders.SchemaBuilder.Nullable | src/main/java/fr/maxlego08/sarah/SchemaBuilder.java:406-410 | the state changes as the nullable call does, or stays and the exception is returned |
| SchemaBuilders.SchemaBuilder.Unique | src/main/java/fr/maxlego08/sarah/SchemaBuilder.java:412-421 | the state changes as the unique call does, or stays and the exception is returned |
| SchemaBuilders.SchemaBuilder.DefaultValue | src/main/java/fr/maxlego08/sarah/SchemaBuilder.java:423-432 | the state changes as the defaultValue call does, or stays and the exception is returned |
| SchemaBuilders.SchemaBuilder.Primary | src/main/java/fr/maxlego08/sarah/SchemaBuilder.java:434-440 | the state changes as primary() does, or stays and the exception is returned |
| SchemaBuilders.SchemaBuilder.AutoIncrement | src/main/java/fr/maxlego08/sarah/SchemaBuilder.java:382-390 | the state changes as the autoIncrement call does |
| SchemaBuilders.SchemaBuilder.CreatedAt | src/main/java/fr/maxlego08/sarah/SchemaBuilder.java:369-375 | the created_at column is appended |
| SchemaBuilders.SchemaBuilder.UpdatedAt | src/main/java/fr/maxlego08/sarah/SchemaBuilder.java:392-404 | the dialect's updated_at column is appended |
| SchemaBuilders.SchemaBuilder.Timestamps | src/main/java/fr/maxlego08/sarah/SchemaBuilder.java:447-452 | created_at then updated_at are appended |
| SchemaBuilders.SchemaBuilder.ForeignKey | src/main/java/fr/maxlego08/sarah/SchemaBuilder.java:349-357 | the cascade foreign key of the last column is appended, or the exception is returned and nothing changes |
| SchemaBuilders.SchemaBuilder.ForeignKeyTo | src/main/java/fr/maxlego08/sarah/SchemaBuilder.java:359-367 | the foreign key to the given column is appended, or the exception is returned and nothing changes |
| SchemaBuilders.SchemaBuilder.Where | src/main/java/fr/maxlego08/sarah/SchemaBuilder.java:188-207 | a NORMAL condition on the qualified column is appended |
| SchemaBuilders.SchemaBuilder.WhereNullCheck | src/main/java/fr/maxlego08/sarah/SchemaBuilder.java:209-219 | an IS NULL / IS NOT NULL condition on the raw column text is appended |
| SchemaBuilders.SchemaBuilder.WhereIn | src/main/java/fr/maxlego08/sarah/SchemaBuilder.java:221-241 | an IN condition holding each object's String.valueOf is appended |
| SchemaBuilders.SchemaBuilder.Join | src/main/java/fr/maxlego08/sarah/SchemaBuilder.java:675-703 | a join of the given type, tables and optional extra condition is appended |
| SchemaBuilders.SchemaBuilder.OrderBy | src/main/java/fr/maxlego08/sarah/SchemaBuilder.java:725-728 | the order becomes `ORDER BY col` |
| SchemaBuilders.SchemaBuilder.OrderByDesc | src/main/java/fr/maxlego08/sarah/SchemaBuilder.java:730-733 | the order becomes `ORDER BY col DESC` |
| SchemaBuilders.SchemaBuilder.Distinct | src/main/java/fr/maxlego08/sarah/SchemaBuilder.java:740-743 | the query becomes DISTINCT |
| SchemaBuilders.SchemaBuilder.AddSelect | src/main/java/fr/maxlego08/sarah/SchemaBuilder.java:794-812 | the projection is appended |
| SchemaQueries.ConditionTexts | src/main/java/fr/maxlego08/sarah/SchemaBuilder.java:466-470 | one text per condition, in order, each the condition's own getCondition |
| SchemaQueries.ConditionTemplates | src/main/java/fr/maxlego08/sarah/SchemaBuilder.java:466-470 | one template per condition, in order, each the condition's own template |
| SchemaQueries.WhereValuesCount | src/main/java/fr/maxlego08/sarah/SchemaBuilder.java:562-574 | the bound WHERE values are one per NORMAL condition plus one per listed IN value; null checks bind none |
| SchemaQueries.WhereClause | src/main/java/fr/maxlego08/sarah/SchemaBuilder.java:465-474 | whereConditions(sql) adds nothing exactly when there are no conditions, else text opening with " WHERE " |
| SchemaQueries.WhereTemplate | src/main/java/fr/maxlego08/sarah/SchemaBuilder.java:464-473 | the WHERE clause with its placeholders bound; WhereTemplateRender, WhereTemplateParams and WherePlaceholders state it |
| SchemaQueries.WhereTemplateRender | src/main/java/fr/maxlego08/sarah/SchemaBuilder.java:464-473 | the WHERE template renders whereConditions' text: nothing without conditions, else " WHERE " and the conditions joined by " AND " |
| SchemaQueries.FlattenConditionParams | src/main/java/fr/maxlego08/sarah/SchemaBuilder.java:562-574 | the conditions' parameters, condition after condition, are the values applyWhereConditions binds |
| SchemaQueries.WhereTemplateParams | src/main/java/fr/maxlego08/sarah/SchemaBuilder.java:464-574 | the WHERE template's placeholders stand for exactly the values applyWhereConditions binds, in order |
| SchemaQueries.WhereTemplatePlain | src/main/java/fr/maxlego08/sarah/SchemaBuilder.java:464-473 | when no column, operator or IN value holds a `?`, the WHERE template's literal text holds none |
| SchemaQueries.WherePlaceholders | src/main/java/fr/maxlego08/sarah/SchemaBuilder.java:464-574 | the WHERE clause holds exactly one `?` per value applyWhereConditions binds |
| SchemaQueries.WhereValuesStep | src/main/java/fr/maxlego08/sarah/SchemaBuilder.java:563-573 | the values of one more condition come after those of the earlier conditions |
| SchemaQueries.BindCondition | src/main/java/fr/maxlego08/sarah/SchemaBuilder.java:564-572 | one condition's values are bound at consecutive positions from `index`, and the next position follows them |
| SchemaQueries.ApplyWhereConditions | src/main/java/fr/maxlego08/sarah/SchemaBuilder.java:561-574 | every WHERE value is bound at consecutive positions from `index`, in order, and the next free position is returned |
| SchemaQueries.Projection | src/main/java/fr/maxlego08/sarah/SchemaBuilder.java:506-511 | `*` without selected columns; otherwise the selected columns' texts joined by "," |
| SchemaQueries.JoinsTextStep | src/main/java/fr/maxlego08/sarah/SchemaBuilder.java:520-524 | one more join appends a space and its clause |
| SchemaQueries.SelectText | src/main/java/fr/maxlego08/sarah/SchemaBuilder.java:503-530 | executeSelect's query opens with the SELECT head (DISTINCT, projection, table, joins) and ends with the order clause when there is one |
| SchemaQueries.SelectTemplate | src/main/java/fr/maxlego08/sarah/SchemaBuilder.java:503-530 | executeSelect's statement with its placeholders bound; SelectTemplateMeaning and SelectPlaceholders state it |
| SchemaQueries.SelectTemplateRender | src/main/java/fr/maxlego08/sarah/SchemaBuilder.java:503-530 | the SELECT template renders executeSelect's query text |
| SchemaQueries.SelectTemplateParams | src/main/java/fr/maxlego08/sarah/SchemaBuilder.java:526-542 | the SELECT template's placeholders stand for the WHERE values |
| SchemaQueries.SelectTemplatePlain | src/main/java/fr/maxlego08/sarah/SchemaBuilder.java:503-530 | no `?` in the projection, table, joins, order or WHERE literals leaves no stray `?` in the query |
| SchemaQueries.SelectTemplateMeaning | src/main/java/fr/maxlego08/sarah/SchemaBuilder.java:503-542 | the SELECT template renders executeSelect's text and binds exactly the WHERE values |
| SchemaQueries.CountText | src/main/java/fr/maxlego08/sarah/SchemaBuilder.java:476-478 | executeSelectCount's query opens with SELECT COUNT(*) FROM the table and is exactly that without conditions |
| SchemaQueries.CountTemplate | src/main/java/fr/maxlego08/sarah/SchemaBuilder.java:476-488 | executeSelectCount's statement with its placeholders bound; CountTemplateMeaning and CountPlaceholders state it |
| SchemaQueries.CountTemplateMeaning | src/main/java/fr/maxlego08/sarah/SchemaBuilder.java:476-488 | the COUNT template renders `SELECT COUNT(*) FROM table` and the WHERE clause and binds exactly the WHERE values |
| SchemaQueries.CountIgnoresProjection | src/main/java/fr/maxlego08/sarah/SchemaBuilder.java:476-478 | the count text ignores the selected columns, joins, order and DISTINCT |
| SchemaQueries.ComposeJoins | src/main/java/fr/maxlego08/sarah/SchemaBuilder.java:520-524 | the appended joins equal the joins text |
| SchemaQueries.ComposeSelectText | src/main/java/fr/maxlego08/sarah/SchemaBuilder.java:504-530 | the query built step by step equals the SELECT text |
| SchemaQueries.ComposeSelect | src/main/java/fr/maxlego08/sarah/SchemaBuilder.java:503-542 | the statement is the prefix-substituted SELECT text with the WHERE values bound from position 1 |
| SchemaQueries.ComposeSelectCount | src/main/java/fr/maxlego08/sarah/SchemaBuilder.java:476-488 | the statement is the prefix-substituted COUNT text with the WHERE values bound from position 1 |
| SchemaQueries.SelectPlaceholders | src/main/java/fr/maxlego08/sarah/SchemaBuilder.java:503-542 | in the final SELECT the `?` count equals the number of bindings and the bound positions are exactly 1..n |
| SchemaQueries.CountPlaceholders | src/main/java/fr/maxlego08/sarah/SchemaBuilder.java:476-488 | in the final COUNT the `?` count equals the number of bindings and the bound positions are exactly 1..n |
| SchemaQueries.CountResult | src/main/java/fr/maxlego08/sarah/SchemaBuilder.java:490-499 | the first row's first column, 0 without rows; a driver failure is rethrown as SQLException |
| SchemaQueries.ExecutorFor | src/main/java/fr/maxlego08/sarah/SchemaBuilder.java:751-792 | each executable kind has its executor; SELECT and SELECT_COUNT throw IllegalArgumentException "Wrong method !" |
| RequestParts.SafeNames | src/main/java/fr/maxlego08/sarah/requests/InsertRequest.java:34-36 | one backticked name per column, in column order |
| RequestParts.Objects | src/main/java/fr/maxlego08/sarah/requests/InsertRequest.java:34-38 | one value per column, in column order: the column's getObject |
| RequestParts.Insertable | src/main/java/fr/maxlego08/sarah/requests/InsertAllRequest.java:31-42 | the written columns are never more than the columns |
| RequestParts.InsertableMembers | src/main/java/fr/maxlego08/sarah/requests/InsertAllRequest.java:31-42 | a column is written iff it is a column and not auto-increment |
| RequestParts.InsertableWithoutAutoIncrement | src/main/java/fr/maxlego08/sarah/requests/InsertAllRequest.java:33-35 | without auto-increment columns every column is written, in order |
| RequestParts.NameStep | src/main/java/fr/maxlego08/sarah/requests/InsertRequest.java:36 | one more column appends ", " (from the second on) and its backticked name |
| RequestParts.MarkStep | src/main/java/fr/maxlego08/sarah/requests/InsertRequest.java:37 | one more column appends ", " (from the second on) and a `?` |
| RequestParts.ValueStep | src/main/java/fr/maxlego08/sarah/requests/InsertRequest.java:38 | one more column appends its value to the collected values |
| RequestParts.SafeNamesNoMarks | src/main/java/fr/maxlego08/sarah/requests/InsertRequest.java:36 | names without `?` joined by a separator without `?` hold no `?` |
| RequestParts.TupleMeaning | src/main/java/fr/maxlego08/sarah/requests/InsertBatchRequest.java:47-52 | a tuple renders one `?` per value between brackets and binds exactly those values |
| RequestParts.TupleTextCount | src/main/java/fr/maxlego08/sarah/requests/InsertBatchRequest.java:47-52 | a tuple for n values holds exactly n `?` |
| RequestParts.AssignmentTexts | src/main/java/fr/maxlego08/sarah/requests/UpdateRequest.java:41 | each SET item is the backticked name followed by " = ?" |
| RequestParts.AssignmentsRender | src/main/java/fr/maxlego08/sarah/requests/UpdateRequest.java:39-43 | the SET list renders as the items joined by ", " |
| RequestParts.AssignmentsParams | src/main/java/fr/maxlego08/sarah/requests/UpdateRequest.java:39-43 | the SET list binds each column's value, in column order |
| RequestParts.AssignmentsPlain | src/main/java/fr/maxlego08/sarah/requests/UpdateRequest.java:39-43 | names without `?` leave one `?` per item and no other |
| RequestParts.AssignmentStep | src/main/java/fr/maxlego08/sarah/requests/UpdateRequest.java:41 | one more column appends ", " (from the second on) and its SET item |
| InsertRequests.InsertTemplate | src/main/java/fr/maxlego08/sarah/requests/InsertRequest.java:29-42 | the INSERT with its placeholders bound; InsertTemplateMeaning and InsertPlaceholders state it |
| InsertRequests.InsertTemplateMeaning | src/main/java/fr/maxlego08/sarah/requests/InsertRequest.java:29-42 | the INSERT renders `INSERT INTO t (names) VALUES (?, …)` with one `?` per column and binds the column values in column order |
| InsertRequests.CollectInsertParts | src/main/java/fr/maxlego08/sarah/requests/InsertRequest.java:34-39 | the loop's names are the joined backticked names, its marks one `?` per column, its values the column values |
| InsertRequests.InsertTextAssembly | src/main/java/fr/maxlego08/sarah/requests/InsertRequest.java:29-43 | the two halves put together are the INSERT template's text |
| InsertRequests.CompileInsert | src/main/java/fr/maxlego08/sarah/requests/InsertRequest.java:27-53 | the statement is the prefix-substituted INSERT text, values bound from position 1 |
| InsertRequests.InsertPlaceholders | src/main/java/fr/maxlego08/sarah/requests/InsertRequest.java:29-53 | the final text holds one `?` per column and column i's value is bound at position i + 1 |
| InsertRequests.InsertResult | src/main/java/fr/maxlego08/sarah/requests/InsertRequest.java:54-68 | the first generated key, 0 without one, -1 when the statement or the key reading fails |
| UpdateRequests.UpdateTemplate | src/main/java/fr/maxlego08/sarah/requests/UpdateRequest.java:27-45 | the UPDATE with its placeholders bound; UpdateTemplateRender, UpdateTemplateParams and UpdatePlaceholders state it |
| UpdateRequests.UpdateTemplateRender | src/main/java/fr/maxlego08/sarah/requests/UpdateRequest.java:27-45 | the UPDATE template renders the table, its joins, " SET ", the items and the WHERE clause |
| UpdateRequests.UpdateTemplateParams | src/main/java/fr/maxlego08/sarah/requests/UpdateRequest.java:37-56 | the UPDATE binds the column values, then the WHERE values |
| UpdateRequests.UpdateTemplatePlain | src/main/java/fr/maxlego08/sarah/requests/UpdateRequest.java:27-45 | without `?` in the table, joins, names or conditions the only `?` are the placeholders |
| UpdateRequests.CollectAssignments | src/main/java/fr/maxlego08/sarah/requests/UpdateRequest.java:39-43 | the loop builds the SET items joined by ", " and collects the column values |
| UpdateRequests.SetThenWhere | src/main/java/fr/maxlego08/sarah/requests/UpdateRequest.java:53-56 | SET values at 1..k then WHERE values from k + 1 bind all values in order from 1 |
| UpdateRequests.CompileUpdate | src/main/java/fr/maxlego08/sarah/requests/UpdateRequest.java:25-56 | the statement is the prefix-substituted UPDATE text, values bound from position 1 |
| UpdateRequests.UpdatePlaceholders | src/main/java/fr/maxlego08/sarah/requests/UpdateRequest.java:27-56 | the text holds one `?` per column plus the WHERE placeholders, bound to the column values then the WHERE values |
| UpdateRequests.UpdateResult | src/main/java/fr/maxlego08/sarah/requests/UpdateRequest.java:57-63 | -1 once the statement ran; a failure is rethrown as "Failed to execute upsert: " and the message |
| InsertAllRequests.CopiedColumnsStep | src/main/java/fr/maxlego08/sarah/requests/InsertAllRequest.java:31-42 | an auto-increment column adds nothing; another adds "," (from the second written on) and its backticked name |
| InsertAllRequests.CollectCopiedColumns | src/main/java/fr/maxlego08/sarah/requests/InsertAllRequest.java:28-42 | the loop builds the copied column list and counts exactly the written columns |
| InsertAllRequests.InsertAllText | src/main/java/fr/maxlego08/sarah/requests/InsertAllRequest.java:27-48 | opens with INSERT INTO the target table and " (", and closes with " FROM " and the source table |
| InsertAllRequests.CompileInsertAll | src/main/java/fr/maxlego08/sarah/requests/InsertAllRequest.java:27-50 | the statement is the prefix-substituted `INSERT INTO to (cols) SELECT cols FROM from` |
| InsertAllRequests.CopiedColumnsSkipAutoIncrement | src/main/java/fr/maxlego08/sarah/requests/InsertAllRequest.java:31-42 | exactly the non-auto-increment columns are copied; without auto-increment all are |
| InsertAllRequests.InsertAllHasNoPlaceholder | src/main/java/fr/maxlego08/sarah/requests/InsertAllRequest.java:27-57 | nothing is bound and the text holds no `?` when the names hold none |
| InsertAllRequests.InsertAllResult | src/main/java/fr/maxlego08/sarah/requests/InsertAllRequest.java:56-63 | 0 once the statement ran, -1 when it fails |
| CreateIndexRequests.IndexName | src/main/java/fr/maxlego08/sarah/requests/CreateIndexRequest.java:29 | "idx_", the table, "_" and the first column's raw name, in that order and nothing else |
| CreateIndexRequests.CreateIndexText | src/main/java/fr/maxlego08/sarah/requests/CreateIndexRequest.java:26-36 | an empty column list throws IndexOutOfBoundsException; otherwise the text is built |
| CreateIndexRequests.CreateIndexSql | src/main/java/fr/maxlego08/sarah/requests/CreateIndexRequest.java:26-38 | the statement is the prefix-substituted text, refused without columns |
| CreateIndexRequests.OnlyFirstColumn | src/main/java/fr/maxlego08/sarah/requests/CreateIndexRequest.java:28-35 | only the table and the first column's name decide the text |
| CreateIndexRequests.CreateIndexShape | src/main/java/fr/maxlego08/sarah/requests/CreateIndexRequest.java:26-36 | the text opens with `CREATE INDEX idx_table_column ON ` and closes on the backticked column and " )" |
| CreateIndexRequests.IndexNamesCanCollide | src/main/java/fr/maxlego08/sarah/requests/CreateIndexRequest.java:29 | table a_b with column c and table a with column b_c get the same index name |
| CreateIndexRequests.CreateIndexResult | src/main/java/fr/maxlego08/sarah/requests/CreateIndexRequest.java:43-49 | the driver's update count; a failure raises DatabaseException("createIndex", table) |
| CreateRequests.ColumnSqls | src/main/java/fr/maxlego08/sarah/requests/CreateRequest.java:33-34 | one build fragment per column |
| CreateRequests.ColumnSqlsIndex | src/main/java/fr/maxlego08/sarah/requests/CreateRequest.java:33-34 | fragment i is column i's build output for the configuration |
| CreateRequests.PrimaryKeyClause | src/main/java/fr/maxlego08/sarah/requests/CreateRequest.java:43-46 | the PRIMARY KEY clause is there iff there are keys and none is inline, and then lists the keys joined by ", " |
| CreateRequests.ForeignKeyClauses | src/main/java/fr/maxlego08/sarah/requests/CreateRequest.java:48-50 | ", " and each foreign-key fragment in insertion order; ForeignKeyClausesJoin and AppendForeignKeys state it |
| CreateRequests.ForeignKeyClausesJoin | src/main/java/fr/maxlego08/sarah/requests/CreateRequest.java:48-50 | the foreign keys are the fragments joined by ", ", led by one more ", " |
| CreateRequests.TypedColumnsRender | src/main/java/fr/maxlego08/sarah/requests/CreateRequest.java:33-34 | columns that render on SQLite render on every dialect |
| CreateRequests.ColumnSqlsStep | src/main/java/fr/maxlego08/sarah/requests/CreateRequest.java:33-34 | one more column appends its fragment |
| CreateRequests.InlinePrimaryKey | src/main/java/fr/maxlego08/sarah/requests/CreateRequest.java:33-40 | hasInlinePrimaryKey after the loop: SQLite and some column both auto-increment and primary; InlinePrimaryKeyStep and CollectColumnSqls state it step by step |
| CreateRequests.InlinePrimaryKeyStep | src/main/java/fr/maxlego08/sarah/requests/CreateRequest.java:36-39 | the flag is raised by a column iff SQLite and it is auto-increment and primary |
| CreateRequests.CollectColumnSqls | src/main/java/fr/maxlego08/sarah/requests/CreateRequest.java:30-40 | the loop yields every column's fragment and raises the flag iff SQLite meets an auto-increment primary column |
| CreateRequests.ForeignKeyClausesStep | src/main/java/fr/maxlego08/sarah/requests/CreateRequest.java:48-50 | one more foreign key appends ", " and the fragment |
| CreateRequests.AppendForeignKeys | src/main/java/fr/maxlego08/sarah/requests/CreateRequest.java:48-50 | the loop appends exactly the foreign-key clauses |
| CreateRequests.CreateText | src/main/java/fr/maxlego08/sarah/requests/CreateRequest.java:27-52 | the CREATE TABLE IF NOT EXISTS text opens with the table and " (" and closes with ")" |
| CreateRequests.CreateTextAssembly | src/main/java/fr/maxlego08/sarah/requests/CreateRequest.java:27-52 | the pieces execute assembles give the CREATE text |
| CreateRequests.CompileCreate | src/main/java/fr/maxlego08/sarah/requests/CreateRequest.java:25-54 | NullPointerException exactly when an SQLite auto-increment column has no type (build's equalsIgnoreCase on null); otherwise the prefix-substituted CREATE TABLE IF NOT EXISTS text |
| CreateRequests.PrimaryKeyPlacement | src/main/java/fr/maxlego08/sarah/requests/CreateRequest.java:36-46 | on MySQL and MariaDB the key clause is there iff there are keys; on SQLite an inline auto-increment key removes it |
| CreateRequests.ColumnSqlsNoMarks | src/main/java/fr/maxlego08/sarah/requests/CreateRequest.java:41 | fragments without `?` join to a text without `?` |
| CreateRequests.CreateHasNoPlaceholder | src/main/java/fr/maxlego08/sarah/requests/CreateRequest.java:27-52 | nothing is bound and the text holds no `?` when none of its parts does |
| CreateRequests.CreateResult | src/main/java/fr/maxlego08/sarah/requests/CreateRequest.java:59-65 | the driver's update count, or -1 when the statement fails |
| InsertBatchRequests.RowValues | src/main/java/fr/maxlego08/sarah/requests/InsertBatchRequest.java:46-51 | one list of values per descriptor, each that descriptor's column values |
| InsertBatchRequests.Rows | src/main/java/fr/maxlego08/sarah/requests/InsertBatchRequest.java:46-53 | one tuple per descriptor, sized by that descriptor's own columns |
| InsertBatchRequests.RowTexts | src/main/java/fr/maxlego08/sarah/requests/InsertBatchRequest.java:52 | one tuple text per descriptor with as many `?` as it has columns |
| InsertBatchRequests.InsertBatchTemplate | src/main/java/fr/maxlego08/sarah/requests/InsertBatchRequest.java:33-56 | the batch INSERT with its placeholders bound; InsertBatchTemplateRender, InsertBatchTemplateParams and InsertBatchPlaceholders state it |
| InsertBatchRequests.InsertBatchTemplateRender | src/main/java/fr/maxlego08/sarah/requests/InsertBatchRequest.java:33-56 | the batch template renders the first table, its column names and the tuples joined by ", " |
| InsertBatchRequests.InsertBatchTemplateParams | src/main/java/fr/maxlego08/sarah/requests/InsertBatchRequest.java:46-53 | the batch binds every row's values in row order |
| InsertBatchRequests.InsertBatchTemplatePlain | src/main/java/fr/maxlego08/sarah/requests/InsertBatchRequest.java:33-56 | without `?` in the head the only `?` are the placeholders |
| InsertBatchRequests.HeadNoMarks | src/main/java/fr/maxlego08/sarah/requests/InsertBatchRequest.java:33-44 | a table and names without `?` give a head without `?` |
| InsertBatchRequests.SafeNamesStep | src/main/java/fr/maxlego08/sarah/requests/InsertBatchRequest.java:40-42 | one more column appends its backticked name |
| InsertBatchRequests.CollectColumnNames | src/main/java/fr/maxlego08/sarah/requests/InsertBatchRequest.java:40-42 | the first descriptor's backticked names, auto-increment columns included |
| InsertBatchRequests.AppendRow | src/main/java/fr/maxlego08/sarah/requests/InsertBatchRequest.java:47-51 | one `?` and one value per column of this descriptor, after the earlier values |
| InsertBatchRequests.RowsStep | src/main/java/fr/maxlego08/sarah/requests/InsertBatchRequest.java:46-53 | one more descriptor appends its tuple text and its values |
| InsertBatchRequests.CollectRows | src/main/java/fr/maxlego08/sarah/requests/InsertBatchRequest.java:46-53 | the loop yields each descriptor's tuple text and all values in row order |
| InsertBatchRequests.InsertBatchTextAssembly | src/main/java/fr/maxlego08/sarah/requests/InsertBatchRequest.java:33-56 | the two builders put together give the batch template's text |
| InsertBatchRequests.CompileInsertBatch | src/main/java/fr/maxlego08/sarah/requests/InsertBatchRequest.java:27-69 | no statement for an empty batch; otherwise the prefix-substituted batch with every value bound from 1 |
| InsertBatchRequests.InsertBatchPlaceholders | src/main/java/fr/maxlego08/sarah/requests/InsertBatchRequest.java:33-69 | the text holds one `?` per bound value, the values being every row's columns in row order |
| InsertBatchRequests.SameArityLayout | src/main/java/fr/maxlego08/sarah/requests/InsertBatchRequest.java:40-53 | with rows of arity n the batch binds rows × n values and column j of row k sits at position k·n + j + 1 |
| InsertBatchRequests.RowArity | src/main/java/fr/maxlego08/sarah/requests/InsertBatchRequest.java:46-53 | each row's tuple has its own arity, unchecked against the first descriptor's names |
| InsertBatchRequests.InsertBatchResult | src/main/java/fr/maxlego08/sarah/requests/InsertBatchRequest.java:28-82 | 0 for an empty batch, -1 on failure, else the first generated key or the updated-row count |
| UpdateBatchRequests.Batch | src/main/java/fr/maxlego08/sarah/requests/UpdateBatchRequest.java:56-63 | addBatch records one parameter set per descriptor |
| UpdateBatchRequests.MaxWidth | src/main/java/fr/maxlego08/sarah/requests/UpdateBatchRequest.java:56-63 | no row binds more values than the widest row |
| UpdateBatchRequests.MaxWidthAttained | src/main/java/fr/maxlego08/sarah/requests/UpdateBatchRequest.java:56-63 | the widest width is 0 for no rows or the width of some row |
| UpdateBatchRequests.CarriedKeys | src/main/java/fr/maxlego08/sarah/requests/UpdateBatchRequest.java:56-63 | the statement holds parameters exactly at 1..the widest row's width |
| UpdateBatchRequests.CarriedStep | src/main/java/fr/maxlego08/sarah/requests/UpdateBatchRequest.java:57-61 | binding one more row lays its column and WHERE values from 1 over the earlier parameters |
| UpdateBatchRequests.BatchStep | src/main/java/fr/maxlego08/sarah/requests/UpdateBatchRequest.java:62 | one more row records the parameters in effect after binding it |
| UpdateBatchRequests.SetterThenWhere | src/main/java/fr/maxlego08/sarah/requests/UpdateBatchRequest.java:58-61 | column values at 1..k then WHERE values from k + 1 are the row's values bound from 1 |
| UpdateBatchRequests.BindRows | src/main/java/fr/maxlego08/sarah/requests/UpdateBatchRequest.java:56-63 | the loop records exactly the batch of parameter sets |
| UpdateBatchRequests.CompileUpdateBatch | src/main/java/fr/maxlego08/sarah/requests/UpdateBatchRequest.java:27-63 | nothing for an empty list; otherwise the first descriptor's prefix-substituted UPDATE and one parameter set per descriptor |
| UpdateBatchRequests.NoStaleValues | src/main/java/fr/maxlego08/sarah/requests/UpdateBatchRequest.java:56-63 | a row's parameter set is its own values alone iff no earlier row was wider |
| UpdateBatchRequests.OverlayOwn | src/main/java/fr/maxlego08/sarah/requests/UpdateBatchRequest.java:58-61 | parameters at 1..n overlaid by values at 1..m leave only the new values iff n ≤ m |
| UpdateBatchRequests.BatchFitsStatement | src/main/java/fr/maxlego08/sarah/requests/UpdateBatchRequest.java:30-63 | when all rows are as wide as the first, each parameter set is the row's own values, one per `?` of the statement |
| UpdateBatchRequests.StaleValueExample | src/main/java/fr/maxlego08/sarah/requests/UpdateBatchRequest.java:56-63 | a narrower second row keeps the first row's second value in its parameter set |
| UpdateBatchRequests.SumAppend | src/main/java/fr/maxlego08/sarah/requests/UpdateBatchRequest.java:66-69 | the total of two lists of counts is the sum of their totals |
| UpdateBatchRequests.SumBounds | src/main/java/fr/maxlego08/sarah/requests/UpdateBatchRequest.java:66-69 | non-negative counts sum to at least zero and at least each count |
| UpdateBatchRequests.TotalUpdated | src/main/java/fr/maxlego08/sarah/requests/UpdateBatchRequest.java:65-70 | the loop's total is the sum of the counts |
| UpdateBatchRequests.UpdateBatchResult | src/main/java/fr/maxlego08/sarah/requests/UpdateBatchRequest.java:27-75 | 0 for an empty list, the summed counts, or DatabaseException("updateBatch", first table) |
| UpsertBatchRequests.UpsertRowValues | src/main/java/fr/maxlego08/sarah/requests/UpsertBatchRequest.java:51-61 | one list per descriptor: the values of its non-auto-increment columns |
| UpsertBatchRequests.UpsertRows | src/main/java/fr/maxlego08/sarah/requests/UpsertBatchRequest.java:51-61 | one tuple per descriptor, sized by its own non-auto-increment columns |
| UpsertBatchRequests.UpsertRowTexts | src/main/java/fr/maxlego08/sarah/requests/UpsertBatchRequest.java:60 | each tuple text holds one `?` per non-auto-increment column of its descriptor |
| UpsertBatchRequests.UpdateItems | src/main/java/fr/maxlego08/sarah/requests/UpsertBatchRequest.java:71-83 | one update item per written column name, in order, by the dialect's form |
| UpsertBatchRequests.UpsertBatchTemplate | src/main/java/fr/maxlego08/sarah/requests/UpsertBatchRequest.java:34-86 | the batch upsert with its placeholders bound; UpsertBatchTemplateRender, UpsertBatchTemplateParams and UpsertBatchPlaceholders state it |
| UpsertBatchRequests.UpsertBatchTemplateRender | src/main/java/fr/maxlego08/sarah/requests/UpsertBatchRequest.java:34-86 | the template renders the INSERT head, the tuples and the dialect's conflict clause |
| UpsertBatchRequests.UpsertBatchTemplateParams | src/main/java/fr/maxlego08/sarah/requests/UpsertBatchRequest.java:51-61 | the upsert binds every row's written values in row order |
| UpsertBatchRequests.UpsertBatchTemplatePlain | src/main/java/fr/maxlego08/sarah/requests/UpsertBatchRequest.java:34-86 | without `?` in the head and conflict clause the only `?` are the placeholders |
| UpsertBatchRequests.UpsertHeadNoMarks | src/main/java/fr/maxlego08/sarah/requests/UpsertBatchRequest.java:34-49 | a table and names without `?` give a head without `?` |
| UpsertBatchRequests.ConflictClause | src/main/java/fr/maxlego08/sarah/requests/UpsertBatchRequest.java:65-86 | ON CONFLICT (keys) DO UPDATE SET on SQLite, ON DUPLICATE KEY UPDATE elsewhere, then the update items; UpdateListMatchesInsertList and ConflictClauseNoMarks state it |
| UpsertBatchRequests.ConflictClauseNoMarks | src/main/java/fr/maxlego08/sarah/requests/UpsertBatchRequest.java:65-86 | names and keys without `?` give a conflict clause without `?` |
| UpsertBatchRequests.InsertColumnNamesStep | src/main/java/fr/maxlego08/sarah/requests/UpsertBatchRequest.java:43-47 | a column adds its name (and value) iff it is not auto-increment |
| UpsertBatchRequests.CollectInsertColumnNames | src/main/java/fr/maxlego08/sarah/requests/UpsertBatchRequest.java:43-47 | the loop keeps the backticked names of the non-auto-increment columns |
| UpsertBatchRequests.AppendWrittenRow | src/main/java/fr/maxlego08/sarah/requests/UpsertBatchRequest.java:52-59 | one `?` and one value per non-auto-increment column, after the earlier values |
| UpsertBatchRequests.UpsertRowsStep | src/main/java/fr/maxlego08/sarah/requests/UpsertBatchRequest.java:51-61 | one more descriptor appends its tuple text and its written values |
| UpsertBatchRequests.CollectUpsertRows | src/main/java/fr/maxlego08/sarah/requests/UpsertBatchRequest.java:51-61 | the loop yields every tuple text and all written values in row order |
| UpsertBatchRequests.UpdateItemsStep | src/main/java/fr/maxlego08/sarah/requests/UpsertBatchRequest.java:71-83 | one more name appends ", " (from the second on) and its update item |
| UpsertBatchRequests.CollectUpdateItems | src/main/java/fr/maxlego08/sarah/requests/UpsertBatchRequest.java:71-83 | the loop builds the update items joined by ", " |
| UpsertBatchRequests.UpsertBatchTextAssembly | src/main/java/fr/maxlego08/sarah/requests/UpsertBatchRequest.java:34-86 | the builders put together give the upsert text |
| UpsertBatchRequests.CompileUpsertBatch | src/main/java/fr/maxlego08/sarah/requests/UpsertBatchRequest.java:27-99 | nothing for an empty list; otherwise the prefix-substituted upsert of the configured dialect, every written value bound from 1 |
| UpsertBatchRequests.UpsertBatchPlaceholders | src/main/java/fr/maxlego08/sarah/requests/UpsertBatchRequest.java:34-99 | one `?` per bound value, the values being every row's non-auto-increment columns in row order |
| UpsertBatchRequests.UpdateListMatchesInsertList | src/main/java/fr/maxlego08/sarah/requests/UpsertBatchRequest.java:43-83 | update item i updates inserted column i, one for one, and never an auto-increment column |
| UpsertBatchRequests.UpsertExtendsInsertBatch | src/main/java/fr/maxlego08/sarah/requests/UpsertBatchRequest.java:34-86 | without auto-increment columns the upsert is the batch insert plus the conflict clause, binding the same values |
| UpsertBatchRequests.SameWidthLayout | src/main/java/fr/maxlego08/sarah/requests/UpsertBatchRequest.java:51-99 | with n written columns per row, written column j of row k is bound at position k·n + j + 1 |
| UpsertBatchRequests.UpsertBatchResult | src/main/java/fr/maxlego08/sarah/requests/UpsertBatchRequest.java:28-105 | 0 for an empty list, the update count, or DatabaseException("upsertBatch", first table) |
| ConsumerConstructors.ColumnName | src/main/java/fr/maxlego08/sarah/ConsumerConstructor.java:54-68 | the annotation's value when non-empty, else the field name |
| ConsumerConstructors.TypeKey | src/main/java/fr/maxlego08/sarah/ConsumerConstructor.java:55-64 | the annotation's type when non-empty, else the text after the last dot of the field's type name |
| ConsumerConstructors.SchemaFromType | src/main/java/fr/maxlego08/sarah/ConsumerConstructor.java:137-191 | an unknown key is IllegalArgumentException "Type … is not supported"; otherwise one column of that name, followed by nullable() for date and timestamp; no value without data; the date key succeeds exactly for null or a value the (Date) cast accepts, carrying it, and is ClassCastException otherwise |
| ConsumerConstructors.DateFieldAcceptsSubclasses | src/main/java/fr/maxlego08/sarah/ConsumerConstructor.java:182-184 | a java.sql.Date, Time or Timestamp value passes the (Date) cast: its column carries it and is made nullable |
| ConsumerConstructors.TypeTableWithoutData | src/main/java/fr/maxlego08/sarah/ConsumerConstructor.java:137-191 | without data every supported key gives one column of the tabled type (strings 255, uuids 36, decimals DECIMAL(65,30)); other keys are refused |
| ConsumerConstructors.NumberFieldWithData | src/main/java/fr/maxlego08/sarah/ConsumerConstructor.java:149-158 | with data a number field is parsed as a long; text that does not parse is NumberFormatException |
| ConsumerConstructors.CastFieldWithData | src/main/java/fr/maxlego08/sarah/ConsumerConstructor.java:159-181 | with data the boolean, decimal and uuid keys cast the value; another class is ClassCastException |
| ConsumerConstructors.FloatValueRejected | src/main/java/fr/maxlego08/sarah/ConsumerConstructor.java:166-174 | a Float or BigDecimal value fails the cast to Double |
| ConsumerConstructors.FieldColumn | src/main/java/fr/maxlego08/sarah/ConsumerConstructor.java:70-86 | an auto-increment long or int field adds only the key column and sets the flag; another type is refused; otherwise schemaFromType's calls with the flag unchanged |
| ConsumerConstructors.ModifierCalls | src/main/java/fr/maxlego08/sarah/ConsumerConstructor.java:92-104 | primary(), foreignKey and nullable() are called iff the annotation asks for them |
| ConsumerConstructors.AnnotationCalls | src/main/java/fr/maxlego08/sarah/ConsumerConstructor.java:88-105 | primary with auto-increment throws; a foreign key without reference throws after primary(); otherwise the annotation's modifiers, and the flag set by primary |
| ConsumerConstructors.ModifiersAfterColumn | src/main/java/fr/maxlego08/sarah/ConsumerConstructor.java:88-105 | modifiers after a column keep the calls column-led and add no value |
| ConsumerConstructors.FieldCalls | src/main/java/fr/maxlego08/sarah/ConsumerConstructor.java:50-111 | each field's calls open with a column, and carry no value without data |
| ConsumerConstructors.FirstFieldIsPrimary | src/main/java/fr/maxlego08/sarah/ConsumerConstructor.java:70-110 | field 0 is auto-increment or made primary; a later field is primary iff annotated so |
| ConsumerConstructors.AutoIncrementField | src/main/java/fr/maxlego08/sarah/ConsumerConstructor.java:70-79 | an auto-increment field adds the key column before anything else is checked, or is refused for another type |
| ConsumerConstructors.PrimaryAutoIncrementClash | src/main/java/fr/maxlego08/sarah/ConsumerConstructor.java:70-91 | primary with auto-increment throws after the auto-increment column was added |
| ConsumerConstructors.EmptyForeignKeyReference | src/main/java/fr/maxlego08/sarah/ConsumerConstructor.java:96-99 | a foreign key with empty reference throws after the column (and any primary mark) was added |
| ConsumerConstructors.RunFrom | src/main/java/fr/maxlego08/sarah/ConsumerConstructor.java:50-111 | the field loop from i keeps every call column-led and value-free when each field's step does |
| ConsumerConstructors.CreateConsumer | src/main/java/fr/maxlego08/sarah/ConsumerConstructor.java:37-45 | IllegalArgumentException iff the field count differs from the first constructor's parameter count |
| ConsumerConstructors.RunFields | src/main/java/fr/maxlego08/sarah/ConsumerConstructor.java:48-112 | the loop makes exactly the calls of the field run and stops at the first exception |
| ConsumerConstructors.ConsumerStep | src/main/java/fr/maxlego08/sarah/ConsumerConstructor.java:50-111 | the loop body for one field, reading the field's value only with a data object; FieldCalls states what it calls |
| ConsumerConstructors.Consumer | src/main/java/fr/maxlego08/sarah/ConsumerConstructor.java:48-112 | the field loop from field 0 with no primary key yet; RunConsumer, RunFrom and ConsumerCallsApply state its calls |
| ConsumerConstructors.RunConsumer | src/main/java/fr/maxlego08/sarah/ConsumerConstructor.java:48-112 | the consumer makes exactly the calls of the field run with the consumer's step |
| ConsumerConstructors.ColumnLedAppend | src/main/java/fr/maxlego08/sarah/ConsumerConstructor.java:50-111 | column-led, value-free call lists stay so when appended |
| ConsumerConstructors.NoDataNoValues | src/main/java/fr/maxlego08/sarah/ConsumerConstructor.java:82 | without data no column the consumer adds carries a value |
| ConsumerConstructors.ColumnLedApplies | src/main/java/fr/maxlego08/sarah/ConsumerConstructor.java:88-110 | calls that open with a column never meet the builder without a column |
| ConsumerConstructors.ConsumerCallsApply | src/main/java/fr/maxlego08/sarah/ConsumerConstructor.java:48-112 | the consumer's calls, up to an exception, apply to any builder without IllegalStateException |
| Migrations.Migration.constructor | src/main/java/fr/maxlego08/sarah/database/Migration.java:12 | a new migration has its name and the alter flag off |
| Migrations.Migration.Create | src/main/java/fr/maxlego08/sarah/database/Migration.java:29-31 | a CREATE schema owned by this migration, with the declared columns, is appended to the registered schemas |
| Migrations.Migration.Drop | src/main/java/fr/maxlego08/sarah/database/Migration.java:48-50 | a DROP schema owned by this migration is appended |
| Migrations.Migration.Modify | src/main/java/fr/maxlego08/sarah/database/Migration.java:60-62 | a MODIFY schema owned by this migration is appended |
| Migrations.Migration.CreateOrAlter | src/main/java/fr/maxlego08/sarah/database/Migration.java:73-99 | create, then the alter flag is set |
| Migrations.LedgerCalls | src/main/java/fr/maxlego08/sarah/MigrationManager.java:185-188 | the ledger schema's builder calls, text("migration") then createdAt(); LedgerTableColumns states the columns they make |
| Migrations.LedgerTableColumns | src/main/java/fr/maxlego08/sarah/MigrationManager.java:184-188 | the ledger table has a TEXT column `migration` and created_at |
| Migrations.LedgerNames | src/main/java/fr/maxlego08/sarah/MigrationManager.java:204-212 | the names read from the ledger; a failed read gives the empty list |
| Migrations.LedgerTableRenders | src/main/java/fr/maxlego08/sarah/MigrationManager.java:184-195 | the ledger's columns are typed, so building them never throws; the ledger CREATE then reports any driver failure as -1, and the create-migration-table catch is never reached |
| Migrations.Missing | src/main/java/fr/maxlego08/sarah/MigrationManager.java:114-122 | the SQLite diff never holds more columns than declared |
| Migrations.MissingMembers | src/main/java/fr/maxlego08/sarah/MigrationManager.java:114-122 | a column is missing iff it is declared and its name is none of the live names |
| Migrations.RemoveNamed | src/main/java/fr/maxlego08/sarah/MigrationManager.java:117-120 | one removeIf: every column of that name leaves the list and the rest keep their order; RemoveNamedStep and RemoveLiveColumns state its effect |
| Migrations.RemoveNamedStep | src/main/java/fr/maxlego08/sarah/MigrationManager.java:117-120 | one more live name removes its columns from what is missing |
| Migrations.RemoveLiveColumns | src/main/java/fr/maxlego08/sarah/MigrationManager.java:114-122 | the removeIf loop leaves exactly the missing columns |
| Migrations.MissingNone | src/main/java/fr/maxlego08/sarah/MigrationManager.java:114-122 | with no live names every declared column is missing |
| Migrations.Uncounted | src/main/java/fr/maxlego08/sarah/MigrationManager.java:128-143 | the server diff never holds more columns than declared |
| Migrations.CountOf | src/main/java/fr/maxlego08/sarah/MigrationManager.java:128-143 | the count executeSelectCount gives for a column name, 0 for a name information_schema does not list; UncountedMembers states the diff it decides |
| Migrations.UncountedMembers | src/main/java/fr/maxlego08/sarah/MigrationManager.java:128-143 | a column is added iff it is declared and information_schema counts it 0 |
| Migrations.CollectUncounted | src/main/java/fr/maxlego08/sarah/MigrationManager.java:128-143 | the count loop collects exactly the uncounted columns, in order |
| Migrations.AlterCalls | src/main/java/fr/maxlego08/sarah/MigrationManager.java:151-155 | two calls per missing column: addColumn then nullable() |
| Migrations.Nullable | src/main/java/fr/maxlego08/sarah/MigrationManager.java:152-154 | every missing column, in order, made nullable |
| Migrations.AlterSchemaColumns | src/main/java/fr/maxlego08/sarah/MigrationManager.java:151-155 | the ALTER's schema holds exactly the missing columns, in order, each nullable |
| Migrations.Diff | src/main/java/fr/maxlego08/sarah/MigrationManager.java:111-144 | SQLite: DatabaseException("migration-table-info", table) exactly when the table_info read fails, else the columns no row names; elsewhere the uncounted columns |
| Migrations.AlterStep | src/main/java/fr/maxlego08/sarah/MigrationManager.java:146-161 | nothing when no column is missing; otherwise the ALTER, with a ledger row only when it returns -1 |
| Migrations.TableInfoFailureNarrows | src/main/java/fr/maxlego08/sarah/MigrationManager.java:111-125 | a table_info read failing part-way throws DatabaseException("migration-table-info", table), runs nothing, and leaves the schema without every column a row read before the failure names |
| Migrations.ProcessSchema | src/main/java/fr/maxlego08/sarah/MigrationManager.java:90-164 | a schema of a recorded migration that is not alter does nothing |
| Migrations.NewMigrationRuns | src/main/java/fr/maxlego08/sarah/MigrationManager.java:91-100 | a schema of an unrecorded migration runs unless its executor throws, and its ledger insert is issued iff the result is not -1, whose own outcome is never an exception |
| Migrations.RecordedAlterDiff | src/main/java/fr/maxlego08/sarah/MigrationManager.java:101-161 | a recorded alter schema runs an ALTER iff some column is missing, adding exactly those as nullable, and records only on -1 |
| Migrations.DiffShrinksColumns | src/main/java/fr/maxlego08/sarah/MigrationManager.java:114-122 | under SQLite the schema keeps only declared columns; elsewhere its list is untouched |
| Migrations.Turns | src/main/java/fr/maxlego08/sarah/MigrationManager.java:90-164 | one turn per registered schema |
| Migrations.PassFrom | src/main/java/fr/maxlego08/sarah/MigrationManager.java:90-164 | the turns run in order until one throws; without an exception all are reached |
| Migrations.Narrowed | src/main/java/fr/maxlego08/sarah/MigrationManager.java:114-122 | each reached schema holds the column list its turn left, the others are untouched |
| Migrations.NarrowedStep | src/main/java/fr/maxlego08/sarah/MigrationManager.java:114-122 | one more turn narrows one more schema |
| Migrations.AlterFlags | src/main/java/fr/maxlego08/sarah/database/Migration.java:97-99 | each schema's owner's alter flag |
| Migrations.NarrowedKeepsSchemas | src/main/java/fr/maxlego08/sarah/MigrationManager.java:90-164 | execute keeps owners, tables and kinds and adds no column |
| Migrations.PassWithoutError | src/main/java/fr/maxlego08/sarah/MigrationManager.java:90-164 | a run without an exception gives every schema its turn without an exception |
| Migrations.MigrationManager.constructor | src/main/java/fr/maxlego08/sarah/MigrationManager.java:20-22 | no schemas, no migrations, ledger table "migrations" |
| Migrations.MigrationManager.RegisterSchema | src/main/java/fr/maxlego08/sarah/MigrationManager.java:72-74 | the schema is appended and nothing else changes |
| Migrations.MigrationManager.RegisterMigration | src/main/java/fr/maxlego08/sarah/MigrationManager.java:239-241 | the migration is appended and nothing else changes |
| Migrations.MigrationManager.SetMigrationTableName | src/main/java/fr/maxlego08/sarah/MigrationManager.java:43-45 | the ledger table name is set and nothing else changes |
| Migrations.MigrationManager.ProcessOne | src/main/java/fr/maxlego08/sarah/MigrationManager.java:90-164 | the loop body's result is the schema's turn |
| Migrations.MigrationManager.TakeTurn | src/main/java/fr/maxlego08/sarah/MigrationManager.java:90-164 | the loop body takes exactly turn i of the schemas execute found |
| Migrations.MigrationManager.RunTurns | src/main/java/fr/maxlego08/sarah/MigrationManager.java:89-165 | the schema loop yields exactly the actions and the first exception of the turns taken in order, with every reached schema narrowed to its turn's columns and the rest untouched |
| Migrations.MigrationManager.Execute | src/main/java/fr/maxlego08/sarah/MigrationManager.java:82-165 | the ledger is created and read (a failed read counts as no migrations), then the turns run in order until the first exception, with the reached schemas narrowed; a failed ledger CREATE or ledger INSERT stops nothing, because both executors return -1 instead of throwing |
| SecureObjectInputStreams.AdmitsMonotone | src/main/java/fr/maxlego08/sarah/security/SecureObjectInputStream.java:113-134 | allowing more classes or prefixes never refuses a class that was admitted |
| SecureObjectInputStreams.EmptyPrefixAdmitsAll | src/main/java/fr/maxlego08/sarah/security/SecureObjectInputStream.java:124-128 | the empty prefix admits every class |
| SecureObjectInputStreams.PrefixIsTextual | src/main/java/fr/maxlego08/sarah/security/SecureObjectInputStream.java:124-128 | a prefix matches as text: a package prefix also admits a sibling package sharing its spelling |
| SecureObjectInputStreams.DefaultsRefuseGadget | src/main/java/fr/maxlego08/sarah/security/SecureObjectInputStream.java:71-134 | the safe defaults alone refuse a class outside them |
| SecureObjectInputStreams.SecureObjectInputStream.WithClasses | src/main/java/fr/maxlego08/sarah/security/SecureObjectInputStream.java:39-51 | the allowed classes are the safe defaults plus each given class's name; no prefix |
| SecureObjectInputStreams.SecureObjectInputStream.WithSets | src/main/java/fr/maxlego08/sarah/security/SecureObjectInputStream.java:61-66 | the given classes plus the safe defaults, and the given prefixes |
| SecureObjectInputStreams.SecureObjectInputStream.ResolveClass | src/main/java/fr/maxlego08/sarah/security/SecureObjectInputStream.java:113-134 | resolves iff the name is allowed or starts with an allowed prefix; otherwise InvalidClassException naming the class |
| SecureObjectInputStreams.SecureObjectInputStream.AllowClass | src/main/java/fr/maxlego08/sarah/security/SecureObjectInputStream.java:141-143 | one more allowed class, prefixes unchanged |
| SecureObjectInputStreams.SecureObjectInputStream.AllowPackagePrefix | src/main/java/fr/maxlego08/sarah/security/SecureObjectInputStream.java:151-153 | one more allowed prefix, classes unchanged |
| Transactions.AlreadyEnded | src/main/java/fr/maxlego08/sarah/transaction/Transaction.java:38-65 | IllegalStateException "Transaction already committed" after a commit, "… rolled back" after a rollback |
| Transactions.CloseStep | src/main/java/fr/maxlego08/sarah/transaction/Transaction.java:71-81 | close rolls back iff no flag is set, then restores autocommit; a failure of either is DatabaseException("close-transaction"); a failed rollback skips the restore |
| Transactions.Step | src/main/java/fr/maxlego08/sarah/transaction/Transaction.java:38-81 | a second commit or rollback is refused unchanged; the flags only grow and are never both set; a driver failure is DatabaseException("commit"/"rollback") |
| Transactions.Run | src/main/java/fr/maxlego08/sarah/transaction/Transaction.java:38-81 | the calls issued on the connection only grow |
| Transactions.RunKeepsExclusive | src/main/java/fr/maxlego08/sarah/transaction/Transaction.java:38-65 | no sequence of operations sets both committed and rolledBack |
| Transactions.RunKeepsFlags | src/main/java/fr/maxlego08/sarah/transaction/Transaction.java:38-65 | once committed or rolled back, it stays so |
| Transactions.SettledOnlyRestores | src/main/java/fr/maxlego08/sarah/transaction/Transaction.java:38-81 | after a commit or rollback succeeded, the only calls reaching the connection restore autocommit |
| Transactions.CommitThenRollbackRefused | src/main/java/fr/maxlego08/sarah/transaction/Transaction.java:55-58 | a rollback after a commit is refused with "Transaction already committed" |
| Transactions.CloseRollsBackOnlyOpen | src/main/java/fr/maxlego08/sarah/transaction/Transaction.java:71-81 | close rolls back only a transaction neither committed nor rolled back |
| Transactions.CloseRollbackFailureSkipsRestore | src/main/java/fr/maxlego08/sarah/transaction/Transaction.java:71-81 | a failed rollback in close skips setAutoCommit(true): autocommit stays as it was, and only the failed rollback is logged |
| Transactions.Transaction.constructor | src/main/java/fr/maxlego08/sarah/transaction/Transaction.java:19-22 | autocommit off, no flag |
| Transactions.Transaction.Open | src/main/java/fr/maxlego08/sarah/transaction/Transaction.java:19-22 | a failing setAutoCommit(false) propagates; otherwise a fresh transaction in the initial state |
| Transactions.Transaction.CommitTx | src/main/java/fr/maxlego08/sarah/transaction/Transaction.java:38-48 | the new state and exception are those of the commit step |
| Transactions.Transaction.RollbackTx | src/main/java/fr/maxlego08/sarah/transaction/Transaction.java:55-65 | the new state and exception are those of the rollback step |
| Transactions.Transaction.Close | src/main/java/fr/maxlego08/sarah/transaction/Transaction.java:71-81 | the new state and exception are those of the close step |

## Left out

- JDBC itself (connections, pooling through Hikari, `DatabaseConnection` and its three subclasses, result-set reading, logging and `printStackTrace`): what the driver answers is a parameter of each operation (`Result` values, success flags, `Migrations.Probe`).
- The executors that are not modelled: `RenameExecutor`, `ModifyRequest`, `DropTableRequest`, `AlterRequest`, `UpsertRequest` and `DeleteRequest`. `RequestHelper` is not part of this model either. `SchemaQueries.ExecutorFor` only names the executor each schema kind is dispatched to.
- Java reflection: a template class is given as its list of `ConsumerConstructors.FieldDesc` (name, type name, `@Column` annotation, current value). `executeSelect(Class, …)`, which builds objects through their first constructor, is not modelled beyond `TypeConversions.Convert`.
- TypeConversions.Convert: the BigDecimal, UUID, Double, Date and Serializable targets are not modelled (`requires Modelled(t)`), because they parse floating point, UUID, date text or serialized bytes; a byte[] value under any Serializable type, String included, is the Serializable case and not OtherTarget.
- Java serialization: `SecureObjectInputStream` is modelled as its allow-list decision only. Reading the stream and the serialized payloads is out of scope.
- Floating point, dates, UUIDs and `BigDecimal`: values of these kinds are opaque texts in `Statements.Value`.
- Text.ReplaceAll: models `String.replaceAll` as literal replacement. The Java call reads its pattern as a regular expression and its replacement with `$` and `\` escapes. The pattern `%prefix%` has no regex metacharacters, so only a prefix holding `$` or `\` would behave differently.
- Letter case: `Text.Lower` and the case-insensitive comparisons fold ASCII letters only.
- Text.ParseInteger: reads ASCII digits only. `Long.parseLong` and `Integer.parseInt` read any Unicode decimal digit through `Character.digit`, so `"١٢"` (Arabic-Indic digits) is 12 in Java and a `NumberFormatException` in the model. This reaches `TypeConversions.Convert` and the number keys of `ConsumerConstructors.SchemaFromType`.
- ConsumerConstructors.SchemaFromType: the `(Date)` cast accepts `java.util.Date` and its JDK subclasses `java.sql.Date`, `java.sql.Time` and `java.sql.Timestamp`. An application's own subclass of `java.util.Date` is refused with `ClassCastException`, because a `Statements.Value` carries its class name but not its class hierarchy.
- ColumnDefinitions.ColumnType: requires `ColumnDefinitions.Renderable`, which excludes an SQLite auto-increment column without a type; `build` throws `NullPointerException` there (`equalsIgnoreCase` on the null type). That exception is modelled at the one caller of `build`: `CreateRequests.CompileCreate` returns `Err(NullPointer)` for such a column.
- Aliasing of `ColumnDefinition` objects: columns are values. In the Java code the ALTER built by `MigrationManager` calls `nullable()` on the very column objects of the registered schema, which then change too. The model hands the ALTER nullable copies instead, and `Migrations.Nullable` states what the ALTER receives.
- The static `SchemaBuilder` dialect read by `updatedAt()` and `timestamps()`: the dialect is passed as an explicit parameter.
- The static registries of `MigrationManager`: they are the fields of one `Migrations.MigrationManager` object.
- `Migration.up()`: this is user code. `Migrations.MigrationManager.Execute` starts from the registry as it stands after every `up()` has run.
- The consumer lambdas passed to `create`, `modify` and `alter`: they are given as the list of builder calls they make (`SchemaBuilders.ApplyAll`) or as the resulting column list.
- The information_schema count query of the server-side migration diff: its answers are given as a map from column name to count (`Migrations.Probe.columnCounts`). The query text itself is covered by `SchemaQueries.ComposeSelectCount`.
- UpdateBatchRequests.TotalUpdated: sums the per-row counts as unbounded integers, whereas the Java `int` total wraps past 2^31 - 1. `executeBatch`'s negative codes (`SUCCESS_NO_INFO`, `EXECUTE_FAILED`) are summed as they come.
- ConsumerConstructors.CreateConsumer: does not model a class without any declared constructor. `constructors[0]` would throw `ArrayIndexOutOfBoundsException` there.
- Transactions.Transaction: `isCommitted()`, `isRolledBack()` and `getConnection()` are plain getters; the flags are public fields of the class and the connection is its call log.
- `Transaction.close()` is documented as restoring auto-commit. In the code the rollback and `setAutoCommit(true)` share one `try`, so a failing rollback skips the restore. The model follows the code (`Transactions.CloseRollbackFailureSkipsRestore`).

## Findings

| source | as written | input that shows it | evidently intended | confidence | as-written member | corrected member |
|---|---|---|---|---|---|---|
| src/main/java/fr/maxlego08/sarah/SchemaBuilder.java:805-807 | `addSelect(prefix, column, alias)` builds its `SelectCondition` with a null prefix, so the prefix never reaches the SQL | `addSelect("u", "id", "uid")` selects "`id` as uid" | the column qualified by the table prefix, "u.`id` as uid", as the `Schema` interface documents | not executed | SelectConditions.AliasedSelectCounterexample | SelectConditions.SelectAliased |
| src/main/java/fr/maxlego08/sarah/SchemaBuilder.java:810-812 | `addSelect(prefix, column, alias, default)` also drops the prefix inside COALESCE | `addSelect("u", "id", "uid", null)` selects "COALESCE(`id`, null) as uid" | "COALESCE(u.`id`, null) as uid" | not executed | SelectConditions.AliasedSelectIgnoresPrefix | SelectConditions.SelectCoalesced |
