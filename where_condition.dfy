/**
 * WhereCondition: one conjunct of a WHERE clause, its SQL text and the values
 * it binds.
 */
module WhereConditions {
  import opened Wrappers
  import opened Text
  import opened Statements
  import opened ColumnDefinitions

  datatype WhereAction = IsNotNull | IsNull | Normal | In

  /**
   * A condition: the column text as stored, the compared value and operator of a
   * NORMAL condition (Null / None otherwise) and the strings of an IN list.
   */
  datatype WhereCondition = WhereCondition(
    column: string,
    value: Value,
    operator: Option<string>,
    action: WhereAction,
    values: seq<string>)

  /** The column as the NORMAL and IN constructors store it: `prefix.`col`` or `` `col` ``. */
  function QualifiedColumn(prefix: Option<string>, column: string): (r: string)
    ensures prefix.None? ==> r == SafeName(column)
  {
    (if prefix.Some? then prefix.value + "." else "") + SafeName(column)
  }

  /** A qualified column starts with the prefix and a dot, and always ends with the backticked column. */
  lemma QualifiedColumnShape(prefix: Option<string>, column: string)
    ensures var r := QualifiedColumn(prefix, column);
      prefix.Some? ==> |r| > |prefix.value| && r[..|prefix.value| + 1] == prefix.value + "."
    ensures var r := QualifiedColumn(prefix, column);
      |r| >= |column| + 2 && r[|r| - |column| - 2..] == SafeName(column)
  {
    var qualifier := if prefix.Some? then prefix.value + "." else "";
    assert (qualifier + SafeName(column))[|qualifier|..] == SafeName(column);
  }

  /** new WhereCondition(prefix, column, operator, value) */
  function NewNormal(prefix: Option<string>, column: string, operator: string, value: Value): (c: WhereCondition)
    ensures c.action == Normal && c.column == QualifiedColumn(prefix, column)
    ensures c.operator == Some(operator) && c.value == value && c.values == []
  {
    WhereCondition(QualifiedColumn(prefix, column), value, Some(operator), Normal, [])
  }

  /** new WhereCondition(prefix, column, values): a copy of the caller's list. */
  function NewIn(prefix: Option<string>, column: string, values: seq<string>): (c: WhereCondition)
    ensures c.action == In && c.column == QualifiedColumn(prefix, column)
    ensures c.operator.None? && c.value == Null && c.values == values
  {
    WhereCondition(QualifiedColumn(prefix, column), Null, None, In, values)
  }

  /** new WhereCondition(column, action): the column text kept exactly as given. */
  function NewWithAction(column: string, action: WhereAction): (c: WhereCondition)
    ensures c.action == action && c.column == column
    ensures c.operator.None? && c.value == Null && c.values == []
  {
    WhereCondition(column, Null, None, action, [])
  }

  /** getCondition */
  function GetCondition(c: WhereCondition): (r: string)
    ensures c.column + " " <= r
    ensures c.action == Normal ==> r[|r| - 1] == '?'
    ensures c.action == In ==> r[|r| - 1] == ')'
  {
    match c.action
    case IsNotNull => c.column + " IS NOT NULL"
    case IsNull => c.column + " IS NULL"
    case In => c.column + " IN (" + Join(",", Repeat("?", |c.values|)) + ")"
    case Normal => c.column + " " + StringOf(c.operator) + " ?"
  }

  /** The values applyWhereConditions binds for this condition, in order. */
  function BoundValues(c: WhereCondition): (r: seq<Value>)
    ensures c.action == Normal ==> r == [c.value]
    ensures c.action == In ==> |r| == |c.values| && forall i :: 0 <= i < |r| ==> r[i] == Str(c.values[i])
    ensures c.action == IsNull || c.action == IsNotNull ==> r == []
  {
    match c.action
    case Normal => [c.value]
    case In => seq(|c.values|, i requires 0 <= i < |c.values| => Str(c.values[i]))
    case _ => []
  }

  /** The condition as a template: its text with each `?` carrying the value bound to it. */
  function ConditionTemplate(c: WhereCondition): Template
  {
    match c.action
    case IsNotNull => [Lit(c.column + " IS NOT NULL")]
    case IsNull => [Lit(c.column + " IS NULL")]
    case In => [Lit(c.column + " IN (")] + Slots(",", BoundValues(c)) + [Lit(")")]
    case Normal => [Lit(c.column + " " + StringOf(c.operator) + " "), Param(c.value)]
  }

  /** Column and operator texts without `?` of their own. */
  predicate NoMarks(c: WhereCondition)
  {
    '?' !in c.column && (c.operator.Some? ==> '?' !in c.operator.value)
  }

  /** The template renders getCondition's text and binds exactly BoundValues. */
  lemma ConditionTemplateMeaning(c: WhereCondition)
    ensures Render(ConditionTemplate(c)) == GetCondition(c)
    ensures Params(ConditionTemplate(c)) == BoundValues(c)
    ensures NoMarks(c) ==> Plain(ConditionTemplate(c))
  {
    if c.action == In {
      InTemplateMeaning(c);
    } else if c.action == Normal {
      NormalTemplateMeaning(c);
    } else {
      NullCheckTemplateMeaning(c);
    }
  }

  lemma NullCheckTemplateMeaning(c: WhereCondition)
    requires c.action == IsNull || c.action == IsNotNull
    ensures Render(ConditionTemplate(c)) == GetCondition(c)
    ensures Params(ConditionTemplate(c)) == BoundValues(c)
    ensures NoMarks(c) ==> Plain(ConditionTemplate(c))
  {
    var suffix := if c.action == IsNull then " IS NULL" else " IS NOT NULL";
    assert ConditionTemplate(c) == [Lit(c.column + suffix)];
    SingleLit(c.column + suffix);
    if NoMarks(c) {
      NullCheckSuffixes();
      SingleLitPlain(c.column, suffix);
    }
  }

  lemma NullCheckSuffixes()
    ensures '?' !in " IS NULL" && '?' !in " IS NOT NULL"
  {
  }

  lemma InTemplateMeaning(c: WhereCondition)
    requires c.action == In
    ensures Render(ConditionTemplate(c)) == GetCondition(c)
    ensures Params(ConditionTemplate(c)) == BoundValues(c)
    ensures NoMarks(c) ==> Plain(ConditionTemplate(c))
  {
    InRender(c);
    InParams(c);
    InPlain(c);
  }

  lemma InRender(c: WhereCondition)
    requires c.action == In
    ensures Render(ConditionTemplate(c)) == GetCondition(c)
  {
    var vs := BoundValues(c);
    SlotsRender(",", vs);
    BracketedRender(c.column + " IN (", Slots(",", vs), ")");
  }

  lemma InParams(c: WhereCondition)
    requires c.action == In
    ensures Params(ConditionTemplate(c)) == BoundValues(c)
  {
    var vs := BoundValues(c);
    SlotsParams(",", vs);
    BracketedParams(c.column + " IN (", Slots(",", vs), ")");
  }

  lemma InPlain(c: WhereCondition)
    requires c.action == In
    ensures NoMarks(c) ==> Plain(ConditionTemplate(c))
  {
    var vs := BoundValues(c);
    SlotsPlain(",", vs);
    BracketedPlain(c.column + " IN (", Slots(",", vs), ")");
  }

  lemma NormalTemplateMeaning(c: WhereCondition)
    requires c.action == Normal
    ensures Render(ConditionTemplate(c)) == GetCondition(c)
    ensures Params(ConditionTemplate(c)) == BoundValues(c)
    ensures NoMarks(c) ==> Plain(ConditionTemplate(c))
  {
    NormalRender(c);
    NormalParams(c);
    NormalPlain(c);
  }

  lemma NormalRender(c: WhereCondition)
    requires c.action == Normal
    ensures Render(ConditionTemplate(c)) == GetCondition(c)
  {
    var head := c.column + " " + StringOf(c.operator);
    LabelledParam(head + " ", c.value);
    assert (head + " ") + "?" == head + " ?";
  }

  lemma NormalParams(c: WhereCondition)
    requires c.action == Normal
    ensures Params(ConditionTemplate(c)) == BoundValues(c)
  {
    LabelledParam(c.column + " " + StringOf(c.operator) + " ", c.value);
  }

  lemma NormalPlain(c: WhereCondition)
    requires c.action == Normal
    ensures NoMarks(c) ==> Plain(ConditionTemplate(c))
  {
    var head := c.column + " " + StringOf(c.operator) + " ";
    assert ConditionTemplate(c) == [Lit(head)] + [Param(c.value)];
    if NoMarks(c) {
      assert '?' !in StringOf(c.operator);
      assert '?' !in head;
    }
  }

  /** A NORMAL condition has one `?`, an IN condition one per value, a null check none. */
  lemma ConditionPlaceholders(c: WhereCondition)
    requires NoMarks(c)
    ensures Count(GetCondition(c), '?') == |BoundValues(c)|
    ensures c.action == Normal ==> Count(GetCondition(c), '?') == 1
    ensures c.action == In ==> Count(GetCondition(c), '?') == |c.values|
    ensures c.action == IsNull || c.action == IsNotNull ==> Count(GetCondition(c), '?') == 0
  {
    ConditionTemplateMeaning(c);
    PlaceholderCount(ConditionTemplate(c));
  }

  /** An empty IN list renders `col IN ()`. */
  lemma EmptyInList(prefix: Option<string>, column: string)
    ensures GetCondition(NewIn(prefix, column, [])) == QualifiedColumn(prefix, column) + " IN ()"
  {
  }
}
