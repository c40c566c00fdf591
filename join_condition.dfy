/**
 * JoinCondition: one JOIN clause of a SELECT or UPDATE, with an optional extra
 * equality appended after AND.
 */
module JoinConditions {
  import opened Wrappers
  import opened Text
  import opened Statements

  datatype JoinType = Inner | Left | Right | Full

  /** JoinType.getSql */
  function JoinTypeSql(t: JoinType): (r: string)
    ensures |r| >= 4 && r[|r| - 4..] == "JOIN"
  {
    match t
    case Inner => "INNER JOIN"
    case Left => "LEFT JOIN"
    case Right => "RIGHT JOIN"
    case Full => "FULL OUTER JOIN"
  }

  /**
   * The seven fields. Join type, primary table and foreign table are null in a
   * condition made by `and`, which only serves as another join's extra condition.
   */
  datatype JoinCondition = JoinCondition(
    joinType: Option<JoinType>,
    primaryTable: Option<string>,
    primaryTableAlias: string,
    primaryColumn: string,
    foreignTable: Option<string>,
    foreignColumn: string,
    additionalCondition: Option<JoinCondition>)

  /** JoinCondition.and(alias, column, value) */
  function And(primaryTableAlias: string, primaryColumn: string, foreignColumn: string): (j: JoinCondition)
    ensures j.joinType.None? && j.primaryTable.None? && j.foreignTable.None? && j.additionalCondition.None?
    ensures j.primaryTableAlias == primaryTableAlias && j.primaryColumn == primaryColumn && j.foreignColumn == foreignColumn
  {
    JoinCondition(None, None, primaryTableAlias, primaryColumn, None, foreignColumn, None)
  }

  /** The private getCondition: the foreign column becomes a quoted string literal. */
  function ExtraCondition(j: JoinCondition): string
  {
    j.primaryTableAlias + "." + j.primaryColumn + " = '" + j.foreignColumn + "'"
  }

  /** What follows the join keyword: the aliased primary table and the ON equality. */
  function JoinTarget(j: JoinCondition): string
  {
    StringOf(j.primaryTable) + " AS " + j.primaryTableAlias
    + " ON " + j.primaryTableAlias + "." + j.primaryColumn
    + " = " + StringOf(j.foreignTable) + "." + j.foreignColumn
  }

  /** The clause before any extra condition. */
  function MainClause(j: JoinCondition): string
    requires j.joinType.Some?
  {
    JoinTypeSql(j.joinType.value) + " " + JoinTarget(j)
  }

  /** getJoinClause; a null join type would throw, so only conditions with a type render. */
  function JoinClause(j: JoinCondition): string
    requires j.joinType.Some?
  {
    MainClause(j) + (if j.additionalCondition.Some? then " AND " + ExtraCondition(j.additionalCondition.value) else "")
  }

  /** The clause starts with the join keyword and the primary table, and ends with the extra condition if any. */
  lemma JoinClauseShape(j: JoinCondition)
    requires j.joinType.Some?
    ensures JoinTypeSql(j.joinType.value) + " " <= JoinClause(j)
    ensures j.additionalCondition.None? ==> JoinClause(j) == MainClause(j)
    ensures j.additionalCondition.Some? ==>
      JoinClause(j) == MainClause(j) + " AND " + ExtraCondition(j.additionalCondition.value)
  {
    var p := JoinTypeSql(j.joinType.value) + " ";
    var extra := if j.additionalCondition.Some? then " AND " + ExtraCondition(j.additionalCondition.value) else "";
    assert JoinClause(j) == p + (JoinTarget(j) + extra);
    assert (p + (JoinTarget(j) + extra))[..|p|] == p;
  }

  /** An `and` condition compares its alias column with the quoted literal. */
  lemma AndAsExtraCondition(alias: string, column: string, literal: string)
    ensures ExtraCondition(And(alias, column, literal)) == alias + "." + column + " = '" + literal + "'"
  {
  }

  /** All texts of the condition and its extra condition free of `?`. */
  predicate NoMarks(j: JoinCondition)
  {
    '?' !in StringOf(j.primaryTable) && '?' !in j.primaryTableAlias && '?' !in j.primaryColumn
    && '?' !in StringOf(j.foreignTable) && '?' !in j.foreignColumn
    && (j.additionalCondition.Some? ==>
          var a := j.additionalCondition.value;
          '?' !in a.primaryTableAlias && '?' !in a.primaryColumn && '?' !in a.foreignColumn)
  }

  /** A join clause holds no placeholder, so joins never shift the positions of bound values. */
  lemma JoinClauseHasNoPlaceholder(j: JoinCondition)
    requires j.joinType.Some? && NoMarks(j)
    ensures '?' !in JoinClause(j)
  {
    MainClauseNoMarks(j);
    if j.additionalCondition.Some? {
      ExtraConditionNoMarks(j.additionalCondition.value);
      assert '?' !in " AND ";
    }
  }

  lemma MainClauseNoMarks(j: JoinCondition)
    requires j.joinType.Some? && NoMarks(j)
    ensures '?' !in MainClause(j)
  {
    JoinTypeSqlNoMarks(j.joinType.value);
    assert '?' !in " ";
    JoinTargetNoMarks(j);
  }

  lemma JoinTypeSqlNoMarks(t: JoinType)
    ensures '?' !in JoinTypeSql(t)
  {
    match t
    case Inner => assert '?' !in "INNER JOIN";
    case Left => assert '?' !in "LEFT JOIN";
    case Right => assert '?' !in "RIGHT JOIN";
    case Full => assert '?' !in "FULL OUTER JOIN";
  }

  lemma JoinTargetNoMarks(j: JoinCondition)
    requires '?' !in StringOf(j.primaryTable) && '?' !in j.primaryTableAlias && '?' !in j.primaryColumn
    requires '?' !in StringOf(j.foreignTable) && '?' !in j.foreignColumn
    ensures '?' !in JoinTarget(j)
  {
    assert '?' !in " AS " && '?' !in " ON " && '?' !in "." && '?' !in " = ";
    var left := StringOf(j.primaryTable) + " AS " + j.primaryTableAlias;
    var right := j.primaryTableAlias + "." + j.primaryColumn;
    var foreign := StringOf(j.foreignTable) + "." + j.foreignColumn;
    assert '?' !in left && '?' !in right && '?' !in foreign;
    assert JoinTarget(j) == left + " ON " + right + " = " + foreign;
  }

  lemma ExtraConditionNoMarks(a: JoinCondition)
    requires '?' !in a.primaryTableAlias && '?' !in a.primaryColumn && '?' !in a.foreignColumn
    ensures '?' !in ExtraCondition(a)
  {
    assert '?' !in "." && '?' !in " = '" && '?' !in "'";
  }
}
