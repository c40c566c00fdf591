/**
 * UpdateBatchRequest: one UPDATE statement built from the first descriptor, then every
 * descriptor's values bound on that same statement and added to the batch. The statement's
 * parameters are never cleared between rows, so what a row leaves unbound keeps the value an
 * earlier row gave it.
 */
module UpdateBatchRequests {
  import opened Wrappers
  import opened Errors
  import opened Text
  import opened Configuration
  import opened Statements
  import opened ColumnDefinitions
  import opened SchemaBuilders
  import opened SchemaQueries
  import opened RequestParts
  import opened UpdateRequests

  /** The statement's parameters once the rows ds were bound one after another. */
  function Carried(ds: seq<Descriptor>): Bindings
    decreases |ds|
  {
    if |ds| == 0 then map[] else Carried(ds[..|ds| - 1]) + Positional(UpdateValues(ds[|ds| - 1]), 1)
  }

  /** What addBatch records for each row: the parameters in effect once that row is bound. */
  function Batch(ds: seq<Descriptor>): (r: seq<Bindings>)
    ensures |r| == |ds|
  {
    seq(|ds|, k requires 0 <= k < |ds| => Carried(ds[..k + 1]))
  }

  /** The number of values a row binds: its columns, then its WHERE values. */
  function Width(d: Descriptor): nat
  {
    |UpdateValues(d)|
  }

  /** The widest row so far: the positions the statement holds a value at are 1..MaxWidth. */
  function MaxWidth(ds: seq<Descriptor>): (r: nat)
    ensures forall k :: 0 <= k < |ds| ==> Width(ds[k]) <= r
    decreases |ds|
  {
    if |ds| == 0 then 0
    else
      var m := MaxWidth(ds[..|ds| - 1]);
      assert forall k :: 0 <= k < |ds| - 1 ==> ds[..|ds| - 1][k] == ds[k];
      if Width(ds[|ds| - 1]) > m then Width(ds[|ds| - 1]) else m
  }

  /** MaxWidth is attained: an empty list, or some row as wide as it. */
  lemma {:induction false} MaxWidthAttained(ds: seq<Descriptor>)
    ensures MaxWidth(ds) == 0 || exists k :: 0 <= k < |ds| && Width(ds[k]) == MaxWidth(ds)
    decreases |ds|
  {
    if |ds| > 0 {
      var prefix := ds[..|ds| - 1];
      MaxWidthAttained(prefix);
      if MaxWidth(ds) != Width(ds[|ds| - 1]) && MaxWidth(prefix) != 0 {
        var k :| 0 <= k < |prefix| && Width(prefix[k]) == MaxWidth(prefix);
        assert ds[k] == prefix[k];
      }
    }
  }

  /** The carried parameters sit exactly at 1..MaxWidth: each row fills 1..its width. */
  lemma {:induction false} CarriedKeys(ds: seq<Descriptor>)
    ensures forall key :: key in Carried(ds) <==> 1 <= key <= MaxWidth(ds)
    decreases |ds|
  {
    if |ds| > 0 {
      CarriedKeys(ds[..|ds| - 1]);
    }
  }

  lemma CarriedStep(ds: seq<Descriptor>, i: int)
    requires 0 <= i < |ds|
    ensures Carried(ds[..i + 1]) == Carried(ds[..i]) + Positional(UpdateValues(ds[i]), 1)
  {
    assert ds[..i + 1][..i] == ds[..i];
  }

  lemma BatchStep(ds: seq<Descriptor>, i: int)
    requires 0 <= i < |ds|
    ensures Batch(ds[..i + 1]) == Batch(ds[..i]) + [Carried(ds[..i + 1])]
  {
    forall k | 0 <= k < i
      ensures Batch(ds[..i + 1])[k] == Batch(ds[..i])[k]
    {
      assert ds[..i + 1][..k + 1] == ds[..i][..k + 1];
    }
    assert ds[..i + 1][..i + 1] == ds[..i + 1];
  }

  lemma SetterThenWhere(bound: Bindings, d: Descriptor)
    ensures bound + Positional(Objects(d.columns), 1) + Positional(WhereValues(d.whereConditions), |d.columns| + 1)
      == bound + Positional(UpdateValues(d), 1)
  {
    var sets := Positional(Objects(d.columns), 1);
    var wheres := Positional(WhereValues(d.whereConditions), |d.columns| + 1);
    SetThenWhere(Objects(d.columns), WhereValues(d.whereConditions));
    MergeAssociates(bound, sets, wheres);
  }

  lemma MergeAssociates(a: Bindings, b: Bindings, c: Bindings)
    ensures a + b + c == a + (b + c)
  {
  }

  /**
   * The loop over the descriptors: each row's column values at 1.., its WHERE values after
   * them, laid over the parameters the earlier rows left, and the result recorded by addBatch.
   */
  method BindRows(ds: seq<Descriptor>) returns (batch: seq<Bindings>)
    ensures batch == Batch(ds)
  {
    var bound: Bindings := map[];
    batch := [];
    var i := 0;
    assert ds[..0] == [];
    while i < |ds|
      invariant 0 <= i <= |ds|
      invariant bound == Carried(ds[..i])
      invariant batch == Batch(ds[..i])
    {
      var schemaColumns := ds[i].columns;
      var previous := bound;
      var next;
      bound, next := Bind(bound, Objects(schemaColumns), 1);
      bound, next := ApplyWhereConditions(bound, ds[i].whereConditions, |schemaColumns| + 1);
      SetterThenWhere(previous, ds[i]);
      CarriedStep(ds, i);
      BatchStep(ds, i);
      batch := batch + [bound];
      i := i + 1;
    }
    assert ds[..i] == ds;
  }

  /**
   * execute's statement and batch: none for an empty list; otherwise the first descriptor's
   * UPDATE with the prefix substituted, and one parameter set per descriptor.
   */
  method CompileUpdateBatch(config: DatabaseConfiguration, ds: seq<Descriptor>) returns (sql: Option<string>, batch: seq<Bindings>)
    requires Substitutable(config)
    requires |ds| > 0 ==> JoinsTyped(ds[0])
    ensures |ds| == 0 ==> sql.None? && batch == []
    ensures |ds| > 0 ==> sql == Some(Sql(config, UpdateTemplate(ds[0])))
    ensures batch == Batch(ds)
  {
    if |ds| == 0 {
      return None, [];
    }
    var first := ds[0];
    var joins := ComposeJoins(first.joinConditions);
    var assignments, values := CollectAssignments(first.columns);
    var query := "UPDATE " + first.tableName + joins + " SET " + assignments + WhereClause(first.whereConditions);
    UpdateTemplateRender(first);
    sql := Some(ReplacePrefix(config, query));
    batch := BindRows(ds);
  }

  /**
   * A row's parameter set is its own values and nothing else exactly when no earlier row
   * was wider; otherwise the positions past its width keep an earlier row's values.
   */
  lemma NoStaleValues(ds: seq<Descriptor>, k: int)
    requires 0 <= k < |ds|
    ensures Batch(ds)[k] == Positional(UpdateValues(ds[k]), 1)
      <==> forall j :: 0 <= j < k ==> Width(ds[j]) <= Width(ds[k])
  {
    var prefix := ds[..k];
    CarriedStep(ds, k);
    CarriedKeys(prefix);
    OverlayOwn(Carried(prefix), MaxWidth(prefix), UpdateValues(ds[k]));
    MaxWidthAtMost(prefix, Width(ds[k]));
    assert forall j :: 0 <= j < k ==> prefix[j] == ds[j];
  }

  lemma MaxWidthAtMost(ds: seq<Descriptor>, w: nat)
    ensures MaxWidth(ds) <= w <==> forall j :: 0 <= j < |ds| ==> Width(ds[j]) <= w
  {
    MaxWidthAttained(ds);
  }

  /** Parameters at 1..n, overlaid by values at 1..|vs|: only the new values remain exactly when n <= |vs|. */
  lemma OverlayOwn(m: Bindings, n: nat, vs: seq<Value>)
    requires forall key :: key in m <==> 1 <= key <= n
    ensures m + Positional(vs, 1) == Positional(vs, 1) <==> n <= |vs|
  {
    var own := Positional(vs, 1);
    if n <= |vs| {
      assert (m + own).Keys == own.Keys;
    } else {
      assert n in m + own;
      assert n !in own;
    }
  }

  /**
   * Headline for the batch: when every row binds as many values as the first, each row's
   * parameter set holds exactly its own values, one per `?` of the statement.
   */
  lemma BatchFitsStatement(config: DatabaseConfiguration, ds: seq<Descriptor>, k: int)
    requires 0 <= k < |ds| && JoinsTyped(ds[0]) && SafeConfiguration(config) && UpdateNoMarks(ds[0])
    requires forall j :: 0 <= j < |ds| ==> Width(ds[j]) == Width(ds[0])
    ensures Batch(ds)[k] == Positional(UpdateValues(ds[k]), 1)
    ensures Width(ds[k]) == Count(Sql(config, UpdateTemplate(ds[0])), '?')
  {
    NoStaleValues(ds, k);
    UpdatePlaceholders(config, ds[0]);
  }

  /** Two rows, the second narrower: its parameter set still holds the first row's second value. */
  lemma StaleValueExample()
    ensures var wide := EmptyDescriptor("t", Update).(columns := [NewColumn("a").(obj := Long(1)), NewColumn("b").(obj := Long(2))]);
      var narrow := EmptyDescriptor("t", Update).(columns := [NewColumn("a").(obj := Long(3))]);
      Batch([wide, narrow])[1] == map[1 := Long(3), 2 := Long(2)]
  {
    var wide := EmptyDescriptor("t", Update).(columns := [NewColumn("a").(obj := Long(1)), NewColumn("b").(obj := Long(2))]);
    var narrow := EmptyDescriptor("t", Update).(columns := [NewColumn("a").(obj := Long(3))]);
    var ds := [wide, narrow];
    CarriedStep(ds, 1);
    CarriedStep(ds, 0);
    assert ds[..0] == [];
    assert UpdateValues(wide) == [Long(1), Long(2)];
    assert UpdateValues(narrow) == [Long(3)];
    assert ds[..2] == ds;
  }

  // ------------------------------------------------------------------ the result

  /** The sum of the per-row update counts executeBatch reports. */
  function Sum(counts: seq<int>): int
    decreases |counts|
  {
    if |counts| == 0 then 0 else Sum(counts[..|counts| - 1]) + counts[|counts| - 1]
  }

  lemma {:induction false} SumAppend(a: seq<int>, b: seq<int>)
    ensures Sum(a + b) == Sum(a) + Sum(b)
    decreases |b|
  {
    if |b| == 0 {
      assert a + b == a;
    } else {
      assert (a + b)[..|a + b| - 1] == a + b[..|b| - 1];
      assert (a + b)[|a + b| - 1] == b[|b| - 1];
      SumAppend(a, b[..|b| - 1]);
    }
  }

  /** Counts that are all at least zero add up to at least zero and at least each of them. */
  lemma {:induction false} SumBounds(counts: seq<int>)
    requires forall i :: 0 <= i < |counts| ==> counts[i] >= 0
    ensures Sum(counts) >= 0
    ensures forall i :: 0 <= i < |counts| ==> counts[i] <= Sum(counts)
    decreases |counts|
  {
    if |counts| > 0 {
      var prefix := counts[..|counts| - 1];
      assert forall i :: 0 <= i < |prefix| ==> prefix[i] == counts[i];
      SumBounds(prefix);
    }
  }

  /** The loop over executeBatch's results. */
  method TotalUpdated(results: seq<int>) returns (total: int)
    ensures total == Sum(results)
  {
    total := 0;
    var i := 0;
    assert results[..0] == [];
    while i < |results|
      invariant 0 <= i <= |results|
      invariant total == Sum(results[..i])
    {
      assert results[..i + 1][..i] == results[..i];
      total := total + results[i];
      i := i + 1;
    }
    assert results[..i] == results;
  }

  /** The result: 0 for an empty list, the summed counts, or DatabaseException("updateBatch", first table). */
  function UpdateBatchResult(ds: seq<Descriptor>, outcome: Result<seq<int>, string>): (r: Result<int, Error>)
    ensures |ds| == 0 ==> r == Ok(0)
    ensures |ds| > 0 && outcome.Ok? ==> r == Ok(Sum(outcome.value))
    ensures |ds| > 0 && outcome.Err? ==> r == Err(DatabaseException("updateBatch", ds[0].tableName))
  {
    if |ds| == 0 then Ok(0)
    else match outcome
      case Ok(counts) => Ok(Sum(counts))
      case Err(_) => Err(DatabaseException("updateBatch", ds[0].tableName))
  }
}
