/**
 * UpdateRequest: `UPDATE t <joins> SET `a` = ?, `b` = ? <WHERE …>`, the SET values bound
 * first and the WHERE values after them.
 */
module UpdateRequests {
  import opened Wrappers
  import opened Errors
  import opened Text
  import opened Configuration
  import opened Statements
  import opened ColumnDefinitions
  import opened SchemaBuilders
  import opened SchemaQueries
  import opened RequestParts

  /** The statement text up to the SET list: the table and its joins. */
  function UpdateHead(d: Descriptor): string
    requires JoinsTyped(d)
  {
    "UPDATE " + d.tableName + JoinsText(d.joinConditions) + " SET "
  }

  /** The UPDATE statement: head, SET list, WHERE clause. */
  function UpdateTemplate(d: Descriptor): Template
    requires JoinsTyped(d)
  {
    [Lit(UpdateHead(d))] + Assignments(d.columns) + WhereTemplate(d.whereConditions)
  }

  /** The text execute composes before the prefix is substituted. */
  function UpdateText(d: Descriptor): string
    requires JoinsTyped(d)
  {
    UpdateHead(d) + Join(", ", AssignmentTexts(d.columns)) + WhereClause(d.whereConditions)
  }

  /** What an UPDATE binds: the column values, then the WHERE values. */
  function UpdateValues(d: Descriptor): seq<Value>
  {
    Objects(d.columns) + WhereValues(d.whereConditions)
  }

  /** The table, the joins, the column names and the conditions hold no `?` of their own. */
  predicate UpdateNoMarks(d: Descriptor)
    requires JoinsTyped(d)
  {
    '?' !in UpdateHead(d) && NamesNoMarks(d.columns) && WhereNoMarks(d.whereConditions)
  }

  lemma UpdateTemplateRender(d: Descriptor)
    requires JoinsTyped(d)
    ensures Render(UpdateTemplate(d)) == UpdateText(d)
  {
    HeadedRender(UpdateHead(d), Assignments(d.columns), WhereTemplate(d.whereConditions));
    AssignmentsRender(d.columns);
    WhereTemplateRender(d.whereConditions);
  }

  lemma UpdateTemplateParams(d: Descriptor)
    requires JoinsTyped(d)
    ensures Params(UpdateTemplate(d)) == UpdateValues(d)
  {
    HeadedParams(UpdateHead(d), Assignments(d.columns), WhereTemplate(d.whereConditions));
    AssignmentsParams(d.columns);
    WhereTemplateParams(d.whereConditions);
  }

  lemma UpdateTemplatePlain(d: Descriptor)
    requires JoinsTyped(d) && UpdateNoMarks(d)
    ensures Plain(UpdateTemplate(d))
  {
    AssignmentsPlain(d.columns);
    WhereTemplatePlain(d.whereConditions);
  }

  /** The SET loop of execute: items appended column by column, values collected alongside. */
  method CollectAssignments(cs: seq<ColumnDefinition>) returns (assignments: string, values: seq<Value>)
    ensures assignments == Join(", ", AssignmentTexts(cs))
    ensures values == Objects(cs)
  {
    assignments := "";
    values := [];
    var i := 0;
    while i < |cs|
      invariant 0 <= i <= |cs|
      invariant assignments == Join(", ", AssignmentTexts(cs[..i]))
      invariant values == Objects(cs[..i])
    {
      AssignmentStep(cs, i);
      ValueStep(cs, i);
      assignments := assignments + (if i > 0 then ", " else "") + SafeName(cs[i].name) + " = ?";
      values := values + [cs[i].obj];
      i := i + 1;
    }
    assert cs[..i] == cs;
  }

  /** The SET values at 1..k, then the WHERE values from k + 1: together, all values in order. */
  lemma SetThenWhere(sets: seq<Value>, wheres: seq<Value>)
    ensures Positional(sets, 1) + Positional(wheres, |sets| + 1) == Positional(sets + wheres, 1)
  {
    PositionalAppend(sets, wheres, 1);
  }

  /**
   * execute's statement: the joins, the SET list and the WHERE clause with the prefix
   * substituted; the SET values bound from 1, the WHERE values right after them.
   */
  method CompileUpdate(config: DatabaseConfiguration, d: Descriptor) returns (sql: string, bindings: Bindings)
    requires JoinsTyped(d) && Substitutable(config)
    ensures sql == Sql(config, UpdateTemplate(d))
    ensures bindings == Positional(Params(UpdateTemplate(d)), 1)
  {
    var joins := ComposeJoins(d.joinConditions);
    var assignments, values := CollectAssignments(d.columns);
    var query := "UPDATE " + d.tableName + joins + " SET " + assignments + WhereClause(d.whereConditions);
    UpdateTemplateRender(d);
    sql := ReplacePrefix(config, query);
    bindings := BindFresh(values);
    var next;
    bindings, next := ApplyWhereConditions(bindings, d.whereConditions, |values| + 1);
    SetThenWhere(values, WhereValues(d.whereConditions));
    UpdateTemplateParams(d);
  }

  /**
   * Headline for UPDATE: one `?` per column plus the WHERE placeholders, and the values bound
   * are the column values followed by the WHERE values (positions by PositionalSplit).
   */
  lemma UpdatePlaceholders(config: DatabaseConfiguration, d: Descriptor)
    requires JoinsTyped(d) && SafeConfiguration(config) && UpdateNoMarks(d)
    ensures Params(UpdateTemplate(d)) == Objects(d.columns) + WhereValues(d.whereConditions)
    ensures Count(Sql(config, UpdateTemplate(d)), '?') == |d.columns| + |WhereValues(d.whereConditions)|
  {
    UpdateTemplateParams(d);
    UpdateTemplatePlain(d);
    PlaceholderCountAfterSubstitution(config, UpdateTemplate(d));
  }

  /** The result: -1 once the statement ran; a failure is rethrown with its message. */
  function UpdateResult(failure: Option<string>): (r: Result<int, Error>)
    ensures failure.None? <==> r == Ok(-1)
    ensures failure.Some? ==> r == Err(SqlFailure("Failed to execute upsert: " + failure.value))
  {
    match failure
    case None => Ok(-1)
    case Some(message) => Err(SqlFailure("Failed to execute upsert: " + message))
  }
}
