/**
 * Pieces the request compilers share: the backticked column names, the column values,
 * the non-auto-increment columns, and one parenthesised tuple of placeholders.
 */
module RequestParts {
  import opened Text
  import opened Statements
  import opened ColumnDefinitions

  /** getSafeName of each column, in order. */
  function SafeNames(cs: seq<ColumnDefinition>): (r: seq<string>)
    ensures |r| == |cs| && forall i :: 0 <= i < |cs| ==> r[i] == SafeName(cs[i].name)
  {
    seq(|cs|, i requires 0 <= i < |cs| => SafeName(cs[i].name))
  }

  /** getObject of each column, in order: the values a statement binds for them. */
  function Objects(cs: seq<ColumnDefinition>): (r: seq<Value>)
    ensures |r| == |cs| && forall i :: 0 <= i < |cs| ==> r[i] == cs[i].obj
  {
    seq(|cs|, i requires 0 <= i < |cs| => cs[i].obj)
  }

  /** The columns an insert writes: every column but the auto-increment ones, in order. */
  function Insertable(cs: seq<ColumnDefinition>): (r: seq<ColumnDefinition>)
    ensures |r| <= |cs|
    decreases |cs|
  {
    if |cs| == 0 then []
    else
      var rest := Insertable(cs[..|cs| - 1]);
      if cs[|cs| - 1].isAutoIncrement then rest else rest + [cs[|cs| - 1]]
  }

  /** The written columns are exactly the columns that are not auto-increment. */
  lemma {:induction false} InsertableMembers(cs: seq<ColumnDefinition>)
    ensures forall c :: c in Insertable(cs) <==> c in cs && !c.isAutoIncrement
    decreases |cs|
  {
    if |cs| > 0 {
      var init := cs[..|cs| - 1];
      InsertableMembers(init);
      assert cs == init + [cs[|cs| - 1]];
    }
  }

  lemma InsertableStep(cs: seq<ColumnDefinition>, i: int)
    requires 0 <= i < |cs|
    ensures Insertable(cs[..i + 1]) == Insertable(cs[..i]) + (if cs[i].isAutoIncrement then [] else [cs[i]])
  {
    assert cs[..i + 1][..i] == cs[..i];
  }

  /** Without auto-increment columns, nothing is skipped. */
  lemma {:induction false} InsertableWithoutAutoIncrement(cs: seq<ColumnDefinition>)
    requires forall i :: 0 <= i < |cs| ==> !cs[i].isAutoIncrement
    ensures Insertable(cs) == cs
    decreases |cs|
  {
    if |cs| > 0 {
      InsertableWithoutAutoIncrement(cs[..|cs| - 1]);
    }
  }

  lemma SafeNamesPrefix(cs: seq<ColumnDefinition>, i: int)
    requires 0 <= i <= |cs|
    ensures SafeNames(cs)[..i] == SafeNames(cs[..i])
  {
  }

  lemma ObjectsPrefix(cs: seq<ColumnDefinition>, i: int)
    requires 0 <= i <= |cs|
    ensures Objects(cs)[..i] == Objects(cs[..i])
  {
  }

  /** One more column: its name joined after the others. */
  lemma NameStep(cs: seq<ColumnDefinition>, i: int)
    requires 0 <= i < |cs|
    ensures Join(", ", SafeNames(cs[..i + 1])) == Join(", ", SafeNames(cs[..i])) + (if i > 0 then ", " else "") + SafeName(cs[i].name)
  {
    SafeNamesPrefix(cs, i);
    SafeNamesPrefix(cs, i + 1);
    JoinStep(", ", SafeNames(cs), i);
  }

  /** One more column: its `?` after the others. */
  lemma MarkStep(cs: seq<ColumnDefinition>, i: int)
    requires 0 <= i < |cs|
    ensures Render(Slots(", ", Objects(cs[..i + 1]))) == Render(Slots(", ", Objects(cs[..i]))) + (if i > 0 then ", " else "") + "?"
  {
    ObjectsPrefix(cs, i);
    ObjectsPrefix(cs, i + 1);
    SlotsPrefixStep(", ", Objects(cs), i);
  }

  /** One more column: its value after the others. */
  lemma ValueStep(cs: seq<ColumnDefinition>, i: int)
    requires 0 <= i < |cs|
    ensures Objects(cs[..i + 1]) == Objects(cs[..i]) + [cs[i].obj]
  {
  }

  /** Column names free of `?`. */
  predicate NamesNoMarks(cs: seq<ColumnDefinition>)
  {
    forall i :: 0 <= i < |cs| ==> '?' !in cs[i].name
  }

  lemma InsertableNamesNoMarks(cs: seq<ColumnDefinition>)
    requires NamesNoMarks(cs)
    ensures NamesNoMarks(Insertable(cs))
  {
    var r := Insertable(cs);
    InsertableMembers(cs);
    forall i | 0 <= i < |r|
      ensures '?' !in r[i].name
    {
      assert r[i] in r;
    }
  }

  /** The joined backticked names hold no `?` when the names hold none. */
  lemma SafeNamesNoMarks(sep: string, cs: seq<ColumnDefinition>)
    requires NamesNoMarks(cs) && '?' !in sep
    ensures '?' !in Join(sep, SafeNames(cs))
  {
    JoinAvoids(sep, SafeNames(cs), '?');
  }

  /** "(?, ?, …)": one tuple of placeholders for the given values. */
  function Tuple(vs: seq<Value>): Template
  {
    [Lit("(")] + Slots(", ", vs) + [Lit(")")]
  }

  function TupleText(n: nat): string
  {
    "(" + Join(", ", Repeat("?", n)) + ")"
  }

  /** A tuple renders as one `?` per value between brackets and binds exactly its values. */
  lemma TupleMeaning(vs: seq<Value>)
    ensures Render(Tuple(vs)) == TupleText(|vs|)
    ensures Params(Tuple(vs)) == vs
    ensures Plain(Tuple(vs))
  {
    BracketedRender("(", Slots(", ", vs), ")");
    SlotsRender(", ", vs);
    BracketedParams("(", Slots(", ", vs), ")");
    SlotsParams(", ", vs);
    SlotsPlain(", ", vs);
    BracketedPlain("(", Slots(", ", vs), ")");
  }

  /** A tuple for n values holds exactly n placeholders. */
  lemma TupleTextCount(n: nat)
    ensures Count(TupleText(n), '?') == n
  {
    CountJoinRepeat(", ", '?', n);
    CountAppend("(", Join(", ", Repeat("?", n)), '?');
    CountAppend("(" + Join(", ", Repeat("?", n)), ")", '?');
  }

  /** One SET item, "`c` = ?", as a template. */
  function Assignment(c: ColumnDefinition): Template
  {
    [Lit(SafeName(c.name) + " = "), Param(c.obj)]
  }

  function AssignmentParts(cs: seq<ColumnDefinition>): (r: seq<Template>)
    ensures |r| == |cs| && forall i :: 0 <= i < |cs| ==> r[i] == Assignment(cs[i])
  {
    seq(|cs|, i requires 0 <= i < |cs| => Assignment(cs[i]))
  }

  /** The SET list: each column's item, separated by ", ". */
  function Assignments(cs: seq<ColumnDefinition>): Template
  {
    JoinT(", ", AssignmentParts(cs))
  }

  /** The text of each SET item. */
  function AssignmentTexts(cs: seq<ColumnDefinition>): (r: seq<string>)
    ensures |r| == |cs| && forall i :: 0 <= i < |cs| ==> r[i] == SafeName(cs[i].name) + " = ?"
  {
    seq(|cs|, i requires 0 <= i < |cs| => SafeName(cs[i].name) + " = ?")
  }

  lemma AssignmentsRender(cs: seq<ColumnDefinition>)
    ensures Render(Assignments(cs)) == Join(", ", AssignmentTexts(cs))
  {
    var parts := AssignmentParts(cs);
    RenderJoinT(", ", parts);
    forall i | 0 <= i < |cs|
      ensures RenderEach(parts)[i] == AssignmentTexts(cs)[i]
    {
      LabelledParam(SafeName(cs[i].name) + " = ", cs[i].obj);
    }
    assert RenderEach(parts) == AssignmentTexts(cs);
  }

  lemma AssignmentsParams(cs: seq<ColumnDefinition>)
    ensures Params(Assignments(cs)) == Objects(cs)
  {
    var parts := AssignmentParts(cs);
    ParamsJoinT(", ", parts);
    forall i | 0 <= i < |cs|
      ensures ParamsEach(parts)[i] == [Objects(cs)[i]]
    {
      LabelledParam(SafeName(cs[i].name) + " = ", cs[i].obj);
    }
    FlattenSingletons(ParamsEach(parts), Objects(cs));
  }

  lemma AssignmentsPlain(cs: seq<ColumnDefinition>)
    requires NamesNoMarks(cs)
    ensures Plain(Assignments(cs))
  {
    var parts := AssignmentParts(cs);
    forall i | 0 <= i < |cs|
      ensures Plain(parts[i])
    {
      assert '?' !in SafeName(cs[i].name) + " = ";
    }
    PlainJoinT(", ", parts);
  }

  /** One more SET item: after the others, with a separator from the second on. */
  lemma AssignmentStep(cs: seq<ColumnDefinition>, i: int)
    requires 0 <= i < |cs|
    ensures Join(", ", AssignmentTexts(cs[..i + 1])) == Join(", ", AssignmentTexts(cs[..i])) + (if i > 0 then ", " else "") + SafeName(cs[i].name) + " = ?"
  {
    assert AssignmentTexts(cs)[..i + 1] == AssignmentTexts(cs[..i + 1]);
    assert AssignmentTexts(cs)[..i] == AssignmentTexts(cs[..i]);
    JoinStep(", ", AssignmentTexts(cs), i);
  }

  /** One more column's name joined after the others. */
  lemma NamesSnoc(sep: string, cs: seq<ColumnDefinition>, c: ColumnDefinition)
    ensures Join(sep, SafeNames(cs + [c])) == Join(sep, SafeNames(cs)) + (if |cs| > 0 then sep else "") + SafeName(c.name)
  {
    assert SafeNames(cs + [c])[..|cs|] == SafeNames(cs);
  }
}
