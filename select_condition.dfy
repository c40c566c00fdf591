/**
 * SelectCondition: one projection of a SELECT, optionally table-qualified,
 * aliased, or wrapped in COALESCE with a default; and the four ways the builder's
 * addSelect overloads create one.
 */
module SelectConditions {
  import opened Wrappers
  import opened Text
  import opened Statements
  import opened ColumnDefinitions

  datatype SelectCondition = SelectCondition(
    tablePrefix: Option<string>,
    column: string,
    aliases: Option<string>,
    isCoalesce: bool,
    defaultValue: Value)

  /** `prefix.`col`` or `` `col` `` */
  function QualifiedName(s: SelectCondition): string
  {
    (if s.tablePrefix.Some? then s.tablePrefix.value + "." else "") + SafeName(s.column)
  }

  /** getAliases: ` as alias`, or nothing without an alias. */
  function AliasText(aliases: Option<string>): string
  {
    if aliases.Some? then " as " + aliases.value else ""
  }

  /** getSelectColumn */
  function GetSelectColumn(s: SelectCondition): (r: string)
    ensures !s.isCoalesce ==> QualifiedName(s) <= r
    ensures s.isCoalesce ==> "COALESCE(" + QualifiedName(s) + ", " <= r
    ensures s.aliases.Some? ==> |r| >= |s.aliases.value| + 4 && r[|r| - |s.aliases.value| - 4..] == " as " + s.aliases.value
  {
    if s.isCoalesce then "COALESCE(" + QualifiedName(s) + ", " + ToText(s.defaultValue) + ")" + AliasText(s.aliases)
    else QualifiedName(s) + AliasText(s.aliases)
  }

  /** Without prefix, alias or COALESCE, the projection is the backticked column alone. */
  lemma BareProjection(column: string)
    ensures GetSelectColumn(SelectCondition(None, column, None, false, Null)) == SafeName(column)
  {
  }

  /** A prefix qualifies the backticked column; an alias is appended after ` as `. */
  lemma QualifiedAliasedProjection(prefix: string, column: string, alias: string)
    ensures GetSelectColumn(SelectCondition(Some(prefix), column, Some(alias), false, Null))
         == prefix + "." + SafeName(column) + " as " + alias
  {
  }

  /** COALESCE wraps the qualified column and the default's text, inserted raw, and the alias follows. */
  lemma CoalesceProjection(s: SelectCondition)
    requires s.isCoalesce
    ensures GetSelectColumn(s) == "COALESCE(" + QualifiedName(s) + ", " + ToText(s.defaultValue) + ")" + AliasText(s.aliases)
    ensures "COALESCE(" <= GetSelectColumn(s)
  {
  }

  /** equals: field by field. */
  predicate Equals(a: SelectCondition, b: SelectCondition)
  {
    a.isCoalesce == b.isCoalesce && a.tablePrefix == b.tablePrefix && a.column == b.column
    && a.aliases == b.aliases && a.defaultValue == b.defaultValue
  }

  lemma EqualsIsValueEquality(a: SelectCondition, b: SelectCondition)
    ensures Equals(a, b) <==> a == b
  {
  }

  /** addSelect(column) */
  function SelectColumn(column: string): (s: SelectCondition)
    ensures GetSelectColumn(s) == SafeName(column)
  {
    SelectCondition(None, column, None, false, Null)
  }

  /** addSelect(prefix, column) */
  function SelectPrefixedColumn(prefix: Option<string>, column: string): (s: SelectCondition)
    ensures prefix.None? ==> GetSelectColumn(s) == SafeName(column)
    ensures prefix.Some? ==> GetSelectColumn(s) == prefix.value + "." + SafeName(column)
  {
    SelectCondition(prefix, column, None, false, Null)
  }

  /** addSelect(prefix, column, alias) as written: the prefix argument is dropped. */
  function SelectAliasedAsWritten(prefix: Option<string>, column: string, aliases: Option<string>): SelectCondition
  {
    SelectCondition(None, column, aliases, false, Null)
  }

  /** addSelect(prefix, column, alias, default) as written: the prefix argument is dropped. */
  function SelectCoalescedAsWritten(prefix: Option<string>, column: string, aliases: Option<string>,
                                    defaultValue: Value): SelectCondition
  {
    SelectCondition(None, column, aliases, true, defaultValue)
  }

  /** As written, the table prefix never reaches the SQL: `u.id` is selected as plain `id`. */
  lemma AliasedSelectIgnoresPrefix(prefix: string, column: string, alias: string)
    ensures GetSelectColumn(SelectAliasedAsWritten(Some(prefix), column, Some(alias)))
         == GetSelectColumn(SelectAliasedAsWritten(None, column, Some(alias)))
         == SafeName(column) + " as " + alias
    ensures GetSelectColumn(SelectCoalescedAsWritten(Some(prefix), column, Some(alias), Null))
         == "COALESCE(" + SafeName(column) + ", null) as " + alias
  {
  }

  /** The concrete case: selecting `id` of table `u` as `uid` loses the qualification `u.`. */
  lemma AliasedSelectCounterexample()
    ensures GetSelectColumn(SelectAliasedAsWritten(Some("u"), "id", Some("uid"))) == "`id` as uid"
    ensures GetSelectColumn(SelectAliased(Some("u"), "id", Some("uid"))) == "u.`id` as uid"
  {
  }

  /** addSelect(prefix, column, alias), keeping the prefix as its documentation promises. */
  function SelectAliased(prefix: Option<string>, column: string, aliases: Option<string>): (s: SelectCondition)
    ensures prefix.Some? ==> GetSelectColumn(s) == prefix.value + "." + SafeName(column) + AliasText(aliases)
    ensures prefix.None? ==> s == SelectAliasedAsWritten(prefix, column, aliases)
  {
    SelectCondition(prefix, column, aliases, false, Null)
  }

  /** addSelect(prefix, column, alias, default), keeping the prefix inside COALESCE. */
  function SelectCoalesced(prefix: Option<string>, column: string, aliases: Option<string>,
                           defaultValue: Value): (s: SelectCondition)
    ensures prefix.Some? ==>
      GetSelectColumn(s) == "COALESCE(" + prefix.value + "." + SafeName(column) + ", " + ToText(defaultValue) + ")" + AliasText(aliases)
    ensures prefix.None? ==> s == SelectCoalescedAsWritten(prefix, column, aliases, defaultValue)
  {
    SelectCondition(prefix, column, aliases, true, defaultValue)
  }

  /** Texts of a projection free of `?`. */
  predicate NoMarks(s: SelectCondition)
  {
    '?' !in s.column && (s.tablePrefix.Some? ==> '?' !in s.tablePrefix.value)
    && (s.aliases.Some? ==> '?' !in s.aliases.value) && '?' !in ToText(s.defaultValue)
  }

  lemma ProjectionHasNoPlaceholder(s: SelectCondition)
    requires NoMarks(s)
    ensures '?' !in GetSelectColumn(s)
  {
    assert '?' !in QualifiedName(s);
    assert '?' !in AliasText(s.aliases);
  }
}
