/**
 * The statements a SchemaBuilder composes itself: the WHERE clause, SELECT and
 * SELECT COUNT(*), the positional binding of the WHERE values, and the choice of
 * executor for every other kind of schema.
 */
module SchemaQueries {
  import opened Wrappers
  import opened Errors
  import opened Text
  import opened Configuration
  import opened Statements
  import WhereConditions
  import JoinConditions
  import SelectConditions
  import opened SchemaBuilders

  type WhereCondition = WhereConditions.WhereCondition
  type JoinCondition = JoinConditions.JoinCondition

  // ---------------------------------------------------------------- WHERE

  /** Each condition's getCondition text, in order. */
  function ConditionTexts(ws: seq<WhereCondition>): (r: seq<string>)
    ensures |r| == |ws| && forall i :: 0 <= i < |ws| ==> r[i] == WhereConditions.GetCondition(ws[i])
  {
    seq(|ws|, i requires 0 <= i < |ws| => WhereConditions.GetCondition(ws[i]))
  }

  /** whereConditions(sql): nothing without conditions, else " WHERE " and the conditions joined by " AND ". */
  function WhereClause(ws: seq<WhereCondition>): (r: string)
    ensures r == "" <==> |ws| == 0
    ensures |ws| > 0 ==> " WHERE " <= r
  {
    if |ws| == 0 then "" else " WHERE " + Join(" AND ", ConditionTexts(ws))
  }

  function ConditionTemplates(ws: seq<WhereCondition>): (r: seq<Template>)
    ensures |r| == |ws| && forall i :: 0 <= i < |ws| ==> r[i] == WhereConditions.ConditionTemplate(ws[i])
  {
    seq(|ws|, i requires 0 <= i < |ws| => WhereConditions.ConditionTemplate(ws[i]))
  }

  /** The WHERE clause as a template. */
  function WhereTemplate(ws: seq<WhereCondition>): Template
  {
    if |ws| == 0 then [] else [Lit(" WHERE ")] + JoinT(" AND ", ConditionTemplates(ws))
  }

  /** The values applyWhereConditions binds: every condition's bound values, condition after condition. */
  function WhereValues(ws: seq<WhereCondition>): seq<Value>
    decreases |ws|
  {
    if |ws| == 0 then [] else WhereValues(ws[..|ws| - 1]) + WhereConditions.BoundValues(ws[|ws| - 1])
  }

  predicate WhereNoMarks(ws: seq<WhereCondition>)
  {
    forall i :: 0 <= i < |ws| ==> WhereConditions.NoMarks(ws[i])
  }

  /** The WHERE values are exactly one per NORMAL condition and one per listed value of an IN condition. */
  lemma {:induction false} WhereValuesCount(ws: seq<WhereCondition>)
    ensures |WhereValues(ws)| == SlotCount(ws)
    decreases |ws|
  {
    if |ws| > 0 {
      WhereValuesCount(ws[..|ws| - 1]);
    }
  }

  /** How many values a condition list binds, counted per action. */
  function SlotCount(ws: seq<WhereCondition>): nat
    decreases |ws|
  {
    if |ws| == 0 then 0
    else
      var c := ws[|ws| - 1];
      SlotCount(ws[..|ws| - 1])
      + (match c.action
         case Normal => 1
         case In => |c.values|
         case _ => 0)
  }

  lemma WhereTemplateRender(ws: seq<WhereCondition>)
    ensures Render(WhereTemplate(ws)) == WhereClause(ws)
  {
    if |ws| > 0 {
      var parts := ConditionTemplates(ws);
      RenderJoinT(" AND ", parts);
      forall i | 0 <= i < |ws|
        ensures RenderEach(parts)[i] == ConditionTexts(ws)[i]
      {
        WhereConditions.ConditionTemplateMeaning(ws[i]);
      }
      assert RenderEach(parts) == ConditionTexts(ws);
      RenderAppend([Lit(" WHERE ")], JoinT(" AND ", parts));
      SingleLit(" WHERE ");
    }
  }

  lemma {:induction false} FlattenConditionParams(ws: seq<WhereCondition>)
    ensures Flatten(ParamsEach(ConditionTemplates(ws))) == WhereValues(ws)
    decreases |ws|
  {
    var n := |ws|;
    if n > 0 {
      FlattenConditionParams(ws[..n - 1]);
      assert ParamsEach(ConditionTemplates(ws))[..n - 1] == ParamsEach(ConditionTemplates(ws[..n - 1]));
      WhereConditions.ConditionTemplateMeaning(ws[n - 1]);
    }
  }

  lemma WhereTemplateParams(ws: seq<WhereCondition>)
    ensures Params(WhereTemplate(ws)) == WhereValues(ws)
  {
    if |ws| > 0 {
      ParamsJoinT(" AND ", ConditionTemplates(ws));
      FlattenConditionParams(ws);
      ParamsAppend([Lit(" WHERE ")], JoinT(" AND ", ConditionTemplates(ws)));
      SingleLit(" WHERE ");
    }
  }

  lemma WhereTemplatePlain(ws: seq<WhereCondition>)
    requires WhereNoMarks(ws)
    ensures Plain(WhereTemplate(ws))
  {
    if |ws| > 0 {
      forall i | 0 <= i < |ws|
        ensures Plain(ConditionTemplates(ws)[i])
      {
        WhereConditions.ConditionTemplateMeaning(ws[i]);
      }
      PlainJoinT(" AND ", ConditionTemplates(ws));
    }
  }

  /** The WHERE clause holds exactly one `?` per value applyWhereConditions binds. */
  lemma WherePlaceholders(ws: seq<WhereCondition>)
    requires WhereNoMarks(ws)
    ensures Count(WhereClause(ws), '?') == |WhereValues(ws)|
  {
    WhereTemplateRender(ws);
    WhereTemplateParams(ws);
    WhereTemplatePlain(ws);
    PlaceholderCount(WhereTemplate(ws));
  }

  lemma PositionalSnoc(bound: Bindings, vs: seq<Value>, v: Value, index: int)
    ensures (bound + Positional(vs, index))[index + |vs| := v] == bound + Positional(vs + [v], index)
  {
    assert (vs + [v])[..|vs|] == vs;
  }

  lemma PositionalThen(bound: Bindings, vs: seq<Value>, more: seq<Value>, index: int)
    ensures bound + Positional(vs, index) + Positional(more, index + |vs|) == bound + Positional(vs + more, index)
  {
    PositionalAppend(vs, more, index);
  }

  lemma WhereValuesStep(ws: seq<WhereCondition>, i: int)
    requires 0 <= i < |ws|
    ensures WhereValues(ws[..i + 1]) == WhereValues(ws[..i]) + WhereConditions.BoundValues(ws[i])
  {
    assert ws[..i + 1][..i] == ws[..i];
  }

  lemma BindNormalStep(bound: Bindings, c: WhereCondition, index: int)
    requires c.action == WhereConditions.Normal
    ensures bound[index := c.value] == bound + Positional(WhereConditions.BoundValues(c), index)
  {
    PositionalSnoc(bound, [], c.value, index);
    assert [] + [c.value] == [c.value];
  }

  lemma BindInStep(bound: Bindings, c: WhereCondition, j: int, index: int)
    requires c.action == WhereConditions.In && 0 <= j < |c.values|
    ensures (bound + Positional(WhereConditions.BoundValues(c)[..j], index))[index + j := Str(c.values[j])]
         == bound + Positional(WhereConditions.BoundValues(c)[..j + 1], index)
  {
    var vs := WhereConditions.BoundValues(c);
    PositionalSnoc(bound, vs[..j], vs[j], index);
    assert vs[..j] + [vs[j]] == vs[..j + 1];
  }

  lemma BindEmpty(bound: Bindings, index: int)
    ensures bound + Positional([], index) == bound
  {
  }

  lemma BindNothing(bound: Bindings, c: WhereCondition, index: int)
    requires c.action != WhereConditions.Normal && c.action != WhereConditions.In
    ensures bound == bound + Positional(WhereConditions.BoundValues(c), index)
  {
    BindEmpty(bound, index);
  }

  /** One condition's iteration of applyWhereConditions: its values bound from `index` on. */
  method BindCondition(bound: Bindings, c: WhereCondition, index: int) returns (r: Bindings, next: int)
    ensures r == bound + Positional(WhereConditions.BoundValues(c), index)
    ensures next == index + |WhereConditions.BoundValues(c)|
  {
    r := bound;
    next := index;
    if c.action == WhereConditions.Normal {
      BindNormalStep(bound, c, index);
      r := r[next := c.value];
      next := next + 1;
    } else if c.action == WhereConditions.In {
      ghost var vs := WhereConditions.BoundValues(c);
      BindEmpty(bound, index);
      assert vs[..0] == [];
      var j := 0;
      while j < |c.values|
        invariant 0 <= j <= |c.values|
        invariant r == bound + Positional(vs[..j], index)
        invariant next == index + j
      {
        BindInStep(bound, c, j, index);
        r := r[next := Str(c.values[j])];
        next := next + 1;
        j := j + 1;
      }
      assert vs[..j] == vs;
    } else {
      BindNothing(bound, c, index);
    }
  }

  /**
   * applyWhereConditions(statement, index): a NORMAL condition binds its value, an IN
   * condition binds each of its values, the null checks bind nothing; the positions run on
   * from `index`.
   */
  method ApplyWhereConditions(bound: Bindings, ws: seq<WhereCondition>, index: int) returns (r: Bindings, next: int)
    ensures r == bound + Positional(WhereValues(ws), index)
    ensures next == index + |WhereValues(ws)|
  {
    r := bound;
    next := index;
    var i := 0;
    while i < |ws|
      invariant 0 <= i <= |ws|
      invariant r == bound + Positional(WhereValues(ws[..i]), index)
      invariant next == index + |WhereValues(ws[..i])|
    {
      WhereValuesStep(ws, i);
      PositionalThen(bound, WhereValues(ws[..i]), WhereConditions.BoundValues(ws[i]), index);
      r, next := BindCondition(r, ws[i], next);
      i := i + 1;
    }
    assert ws[..i] == ws;
  }

  // ---------------------------------------------------------------- SELECT

  /** "*" without selected columns, else their getSelectColumn texts joined by ",". */
  function Projection(selectColumns: seq<SelectConditions.SelectCondition>): (r: string)
    ensures |selectColumns| == 0 ==> r == "*"
  {
    if |selectColumns| == 0 then "*"
    else Join(",", seq(|selectColumns|, i requires 0 <= i < |selectColumns| => SelectConditions.GetSelectColumn(selectColumns[i])))
  }

  /** Every join clause, each after a space. */
  function JoinsText(js: seq<JoinCondition>): string
    requires forall i :: 0 <= i < |js| ==> js[i].joinType.Some?
    decreases |js|
  {
    if |js| == 0 then "" else JoinsText(js[..|js| - 1]) + " " + JoinConditions.JoinClause(js[|js| - 1])
  }

  lemma JoinsTextStep(js: seq<JoinCondition>, i: int)
    requires forall k :: 0 <= k < |js| ==> js[k].joinType.Some?
    requires 0 <= i < |js|
    ensures JoinsText(js[..i + 1]) == JoinsText(js[..i]) + " " + JoinConditions.JoinClause(js[i])
  {
    assert js[..i + 1][..i] == js[..i];
  }

  /** Everything before the WHERE clause. */
  function SelectHead(d: Descriptor): string
    requires JoinsTyped(d)
  {
    (if d.isDistinct then "SELECT DISTINCT " else "SELECT ") + Projection(d.selectColumns) + " FROM " + d.tableName
    + JoinsText(d.joinConditions)
  }

  /** Everything after the WHERE clause. */
  function OrderText(d: Descriptor): string
  {
    if d.orderBy.Some? then " " + d.orderBy.value else ""
  }

  /** executeSelect's query text before the prefix is substituted. */
  function SelectText(d: Descriptor): (r: string)
    requires JoinsTyped(d)
    ensures SelectHead(d) <= r
    ensures d.orderBy.Some? ==> |r| >= |d.orderBy.value| && r[|r| - |d.orderBy.value|..] == d.orderBy.value
  {
    SelectHead(d) + WhereClause(d.whereConditions) + OrderText(d)
  }

  function SelectTemplate(d: Descriptor): Template
    requires JoinsTyped(d)
  {
    [Lit(SelectHead(d))] + WhereTemplate(d.whereConditions) + [Lit(OrderText(d))]
  }

  /** executeSelectCount's query text before the prefix is substituted. */
  function CountText(d: Descriptor): (r: string)
    ensures "SELECT COUNT(*) FROM " + d.tableName <= r
    ensures r == "SELECT COUNT(*) FROM " + d.tableName <==> |d.whereConditions| == 0
  {
    "SELECT COUNT(*) FROM " + d.tableName + WhereClause(d.whereConditions)
  }

  function CountTemplate(d: Descriptor): Template
  {
    [Lit("SELECT COUNT(*) FROM " + d.tableName)] + WhereTemplate(d.whereConditions)
  }

  /** The statement's own text (columns, table, joins, order) holds no `?`. */
  predicate SelectNoMarks(d: Descriptor)
    requires JoinsTyped(d)
  {
    '?' !in SelectHead(d) && '?' !in OrderText(d) && WhereNoMarks(d.whereConditions)
  }

  lemma SelectTemplateRender(d: Descriptor)
    requires JoinsTyped(d)
    ensures Render(SelectTemplate(d)) == SelectText(d)
  {
    WhereTemplateRender(d.whereConditions);
    BracketedRender(SelectHead(d), WhereTemplate(d.whereConditions), OrderText(d));
  }

  lemma SelectTemplateParams(d: Descriptor)
    requires JoinsTyped(d)
    ensures Params(SelectTemplate(d)) == WhereValues(d.whereConditions)
  {
    WhereTemplateParams(d.whereConditions);
    BracketedParams(SelectHead(d), WhereTemplate(d.whereConditions), OrderText(d));
  }

  lemma SelectTemplatePlain(d: Descriptor)
    requires JoinsTyped(d) && SelectNoMarks(d)
    ensures Plain(SelectTemplate(d))
  {
    WhereTemplatePlain(d.whereConditions);
  }

  /** The SELECT template renders executeSelect's text and binds exactly the WHERE values. */
  lemma SelectTemplateMeaning(d: Descriptor)
    requires JoinsTyped(d)
    ensures Render(SelectTemplate(d)) == SelectText(d)
    ensures Params(SelectTemplate(d)) == WhereValues(d.whereConditions)
    ensures SelectNoMarks(d) ==> Plain(SelectTemplate(d))
  {
    SelectTemplateRender(d);
    SelectTemplateParams(d);
    if SelectNoMarks(d) {
      SelectTemplatePlain(d);
    }
  }

  lemma CountTemplateMeaning(d: Descriptor)
    ensures Render(CountTemplate(d)) == CountText(d)
    ensures Params(CountTemplate(d)) == WhereValues(d.whereConditions)
    ensures '?' !in d.tableName && WhereNoMarks(d.whereConditions) ==> Plain(CountTemplate(d))
  {
    CountTemplateRender(d);
    CountTemplateParams(d);
    if '?' !in d.tableName && WhereNoMarks(d.whereConditions) {
      CountTemplatePlain(d);
    }
  }

  lemma CountTemplateRender(d: Descriptor)
    ensures Render(CountTemplate(d)) == CountText(d)
  {
    var head := "SELECT COUNT(*) FROM " + d.tableName;
    WhereTemplateRender(d.whereConditions);
    SingleLit(head);
    RenderAppend([Lit(head)], WhereTemplate(d.whereConditions));
  }

  lemma CountTemplateParams(d: Descriptor)
    ensures Params(CountTemplate(d)) == WhereValues(d.whereConditions)
  {
    var head := "SELECT COUNT(*) FROM " + d.tableName;
    WhereTemplateParams(d.whereConditions);
    SingleLit(head);
    ParamsAppend([Lit(head)], WhereTemplate(d.whereConditions));
  }

  lemma CountTemplatePlain(d: Descriptor)
    requires '?' !in d.tableName && WhereNoMarks(d.whereConditions)
    ensures Plain(CountTemplate(d))
  {
    WhereTemplatePlain(d.whereConditions);
    SingleLitPlain("SELECT COUNT(*) FROM ", d.tableName);
  }

  /** The count ignores the selected columns, the joins, the order and DISTINCT. */
  lemma CountIgnoresProjection(d: Descriptor, selectColumns: seq<SelectConditions.SelectCondition>,
                               joins: seq<JoinCondition>, orderBy: Option<string>, isDistinct: bool)
    ensures CountText(d.(selectColumns := selectColumns, joinConditions := joins, orderBy := orderBy, isDistinct := isDistinct))
         == CountText(d)
  {
  }

  /** The joins of executeSelect's query, appended one by one, each after a space. */
  method ComposeJoins(js: seq<JoinCondition>) returns (text: string)
    requires forall k :: 0 <= k < |js| ==> js[k].joinType.Some?
    ensures text == JoinsText(js)
  {
    text := "";
    var i := 0;
    while i < |js|
      invariant 0 <= i <= |js|
      invariant text == JoinsText(js[..i])
    {
      JoinsTextStep(js, i);
      text := text + " " + JoinConditions.JoinClause(js[i]);
      i := i + 1;
    }
    assert js[..i] == js;
  }

  /** executeSelect's query text: projection, table, joins, WHERE clause, then the order if there is one. */
  method ComposeSelectText(d: Descriptor) returns (query: string)
    requires JoinsTyped(d)
    ensures query == SelectText(d)
  {
    var joins := ComposeJoins(d.joinConditions);
    query := (if d.isDistinct then "SELECT DISTINCT " else "SELECT ") + Projection(d.selectColumns) + " FROM " + d.tableName + joins;
    assert query == SelectHead(d);
    query := query + WhereClause(d.whereConditions);
    ghost var beforeOrder := query;
    if d.orderBy.Some? {
      query := query + " " + d.orderBy.value;
      assert query == beforeOrder + OrderText(d);
    }
  }

  /** executeSelect's statement: the SELECT text with the prefix substituted, and the WHERE values bound from position 1. */
  method ComposeSelect(config: DatabaseConfiguration, d: Descriptor) returns (sql: string, bindings: Bindings)
    requires JoinsTyped(d) && Substitutable(config)
    ensures sql == Sql(config, SelectTemplate(d))
    ensures bindings == Positional(Params(SelectTemplate(d)), 1)
  {
    SelectTemplateRender(d);
    SelectTemplateParams(d);
    var query := ComposeSelectText(d);
    sql := ReplacePrefix(config, query);
    var next;
    bindings, next := ApplyWhereConditions(map[], d.whereConditions, 1);
  }

  /** executeSelectCount's statement: the COUNT text with the prefix substituted, WHERE values from position 1. */
  method ComposeSelectCount(config: DatabaseConfiguration, d: Descriptor) returns (sql: string, bindings: Bindings)
    requires Substitutable(config)
    ensures sql == Sql(config, CountTemplate(d))
    ensures bindings == Positional(Params(CountTemplate(d)), 1)
  {
    CountTemplateMeaning(d);
    sql := ReplacePrefix(config, "SELECT COUNT(*) FROM " + d.tableName + WhereClause(d.whereConditions));
    var next;
    bindings, next := ApplyWhereConditions(map[], d.whereConditions, 1);
  }

  /**
   * In a SELECT, the placeholders are exactly the bound positions: as many `?` as bindings,
   * bound at 1..n.
   */
  lemma SelectPlaceholders(config: DatabaseConfiguration, d: Descriptor)
    requires JoinsTyped(d) && SafeConfiguration(config) && SelectNoMarks(d)
    ensures Count(Sql(config, SelectTemplate(d)), '?') == |WhereValues(d.whereConditions)|
    ensures forall k :: k in Positional(Params(SelectTemplate(d)), 1) <==> 1 <= k <= Count(Sql(config, SelectTemplate(d)), '?')
  {
    SelectTemplateMeaning(d);
    PlaceholderCountAfterSubstitution(config, SelectTemplate(d));
  }

  lemma CountPlaceholders(config: DatabaseConfiguration, d: Descriptor)
    requires SafeConfiguration(config) && '?' !in d.tableName && WhereNoMarks(d.whereConditions)
    ensures Count(Sql(config, CountTemplate(d)), '?') == |WhereValues(d.whereConditions)|
    ensures forall k :: k in Positional(Params(CountTemplate(d)), 1) <==> 1 <= k <= Count(Sql(config, CountTemplate(d)), '?')
  {
    CountTemplateMeaning(d);
    PlaceholderCountAfterSubstitution(config, CountTemplate(d));
  }

  /** The count query's answer: the first column of the first row, 0 without rows; a driver failure is rethrown. */
  function CountResult(outcome: Result<Option<int>, string>): (r: Result<int, Error>)
    ensures outcome.Ok? && outcome.value.None? ==> r == Ok(0)
    ensures outcome.Ok? && outcome.value.Some? ==> r == Ok(outcome.value.value)
    ensures outcome.Err? ==> r.Err? && r.error.SqlFailure?
  {
    match outcome
    case Err(message) => Err(SqlFailure("Failed to execute schema select count: " + message))
    case Ok(None) => Ok(0)
    case Ok(Some(n)) => Ok(n)
  }

  // ---------------------------------------------------------------- execute

  /** The executor each kind of schema is run by. */
  datatype ExecutorKind =
    | RenameExecutor | ModifyExecutor | CreateExecutor | DropTableExecutor | AlterExecutor
    | UpsertExecutor | UpdateExecutor | InsertExecutor | DeleteExecutor | CreateIndexExecutor

  /** execute(): the executor for the schema's kind; the two select kinds are refused. */
  function ExecutorFor(t: SchemaType): (r: Result<ExecutorKind, Error>)
    ensures r.Err? <==> t == Select || t == SelectCount
    ensures r.Err? ==> r.error == IllegalArgument("Wrong method !")
  {
    match t
    case Rename => Ok(RenameExecutor)
    case Modify => Ok(ModifyExecutor)
    case Create => Ok(CreateExecutor)
    case Drop => Ok(DropTableExecutor)
    case Alter => Ok(AlterExecutor)
    case Upsert => Ok(UpsertExecutor)
    case Update => Ok(UpdateExecutor)
    case Insert => Ok(InsertExecutor)
    case Delete => Ok(DeleteExecutor)
    case CreateIndex => Ok(CreateIndexExecutor)
    case Select => Err(IllegalArgument("Wrong method !"))
    case SelectCount => Err(IllegalArgument("Wrong method !"))
  }
}
