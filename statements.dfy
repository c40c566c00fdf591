/**
 * The shape shared by every executor: SQL text with `?` placeholders and the
 * values bound to them by position (PreparedStatement.setObject(i, v)).
 *
 * A Template is SQL text cut into literal pieces and parameter pieces; a
 * parameter piece renders as `?` and carries the value bound to it. Every
 * executor's text and values are described by one Template, so "the number of
 * `?` equals the number of values, and the values appear in placeholder order"
 * is proved once here for all of them.
 */
module Statements {
  import opened Wrappers
  import opened Text
  import opened Configuration

  /** A Java object as it reaches a statement parameter or a column's stored object. */
  datatype Value =
    | Null
    | Str(s: string)
    | Long(n: int)
    | Bool(b: bool)
    /** any other object, by its class name and its toString() text */
    | Other(className: string, text: string)

  /** String.valueOf(v): the text a value contributes when concatenated into SQL or compared as text. */
  function ToText(v: Value): string
  {
    match v
    case Null => "null"
    case Str(s) => s
    case Long(n) => IntToString(n)
    case Bool(b) => if b then "true" else "false"
    case Other(_, text) => text
  }

  /** A possibly null String reference as string concatenation prints it. */
  function StringOf(s: Option<string>): (r: string)
    ensures s.Some? ==> r == s.value
    ensures s.None? ==> r == "null"
  {
    if s.Some? then s.value else "null"
  }

  datatype Piece = Lit(text: string) | Param(value: Value)

  type Template = seq<Piece>

  function PieceText(p: Piece): string
  {
    match p
    case Lit(text) => text
    case Param(_) => "?"
  }

  /** The SQL text of a template, before `%prefix%` substitution. */
  function Render(t: Template): string
    decreases |t|
  {
    if |t| == 0 then "" else Render(t[..|t| - 1]) + PieceText(t[|t| - 1])
  }

  /** The values of a template's parameters, in text order. */
  function Params(t: Template): seq<Value>
    decreases |t|
  {
    if |t| == 0 then []
    else Params(t[..|t| - 1]) + (if t[|t| - 1].Param? then [t[|t| - 1].value] else [])
  }

  /** No literal piece contains a `?` of its own. */
  predicate Plain(t: Template)
  {
    forall i :: 0 <= i < |t| ==> t[i].Lit? ==> '?' !in t[i].text
  }

  /** The text that reaches the driver: the rendered template after `%prefix%` substitution. */
  function Sql(config: DatabaseConfiguration, t: Template): string
    requires Substitutable(config)
  {
    ReplacePrefix(config, Render(t))
  }

  /** A configuration whose substitution keeps placeholders intact. */
  predicate SafeConfiguration(config: DatabaseConfiguration)
  {
    Substitutable(config) && (config.tablePrefix.Some? ==> '?' !in config.tablePrefix.value)
  }

  lemma {:induction false} RenderAppend(a: Template, b: Template)
    ensures Render(a + b) == Render(a) + Render(b)
    decreases |b|
  {
    if |b| == 0 {
      assert a + b == a;
    } else {
      var n := |b| - 1;
      assert (a + b)[..|a + b| - 1] == a + b[..n];
      assert (a + b)[|a + b| - 1] == b[n];
      RenderAppend(a, b[..n]);
      assert Render(a + b) == Render(a + b[..n]) + PieceText(b[n]);
      assert Render(b) == Render(b[..n]) + PieceText(b[n]);
    }
  }

  lemma {:induction false} ParamsAppend(a: Template, b: Template)
    ensures Params(a + b) == Params(a) + Params(b)
    decreases |b|
  {
    if |b| == 0 {
      assert a + b == a;
    } else {
      assert (a + b)[..|a + b| - 1] == a + b[..|b| - 1];
      ParamsAppend(a, b[..|b| - 1]);
    }
  }

  /** In a template without stray `?`, the rendered text holds exactly one `?` per parameter. */
  lemma {:induction false} PlaceholderCount(t: Template)
    requires Plain(t)
    ensures Count(Render(t), '?') == |Params(t)|
    decreases |t|
  {
    if |t| > 0 {
      var last := t[|t| - 1];
      PlaceholderCount(t[..|t| - 1]);
      CountAppend(Render(t[..|t| - 1]), PieceText(last), '?');
      if last.Lit? {
        CountAbsent(last.text, '?');
      }
    }
  }

  lemma SingleParam(v: Value)
    ensures Render([Param(v)]) == "?" && Params([Param(v)]) == [v]
  {
    assert [Param(v)][..0] == [];
  }

  lemma SingleLit(text: string)
    ensures Render([Lit(text)]) == text && Params([Lit(text)]) == []
  {
    assert [Lit(text)][..0] == [];
  }

  /** A text followed by one parameter: the text and its `?`, binding the one value. */
  lemma LabelledParam(text: string, v: Value)
    ensures Render([Lit(text), Param(v)]) == text + "?"
    ensures Params([Lit(text), Param(v)]) == [v]
  {
    assert [Lit(text), Param(v)][..1] == [Lit(text)];
    SingleLit(text);
  }

  /** A text followed by two templates. */
  lemma HeadedRender(head: string, a: Template, b: Template)
    ensures Render([Lit(head)] + a + b) == head + Render(a) + Render(b)
  {
    RenderAppend([Lit(head)] + a, b);
    RenderAppend([Lit(head)], a);
    SingleLit(head);
  }

  lemma HeadedParams(head: string, a: Template, b: Template)
    ensures Params([Lit(head)] + a + b) == Params(a) + Params(b)
  {
    ParamsAppend([Lit(head)] + a, b);
    ParamsAppend([Lit(head)], a);
    SingleLit(head);
  }

  /** A single text piece is plain when both halves of its text are free of `?`. */
  lemma SingleLitPlain(head: string, tail: string)
    requires '?' !in head && '?' !in tail
    ensures Plain([Lit(head + tail)])
  {
    assert '?' !in head + tail;
  }

  lemma {:induction false} RenderAround(before: Template, v: Value, after: Template)
    ensures Render(before + [Param(v)] + after) == Render(before) + "?" + Render(after)
    ensures Params(before + [Param(v)] + after) == Params(before) + [v] + Params(after)
  {
    RenderAppend(before + [Param(v)], after);
    RenderAppend(before, [Param(v)]);
    ParamsAppend(before + [Param(v)], after);
    ParamsAppend(before, [Param(v)]);
    SingleParam(v);
  }

  /**
   * Headline: the SQL sent to the driver holds the `?` of a parameter after exactly as
   * many `?` as there are parameters before it, and that parameter's value comes at the
   * same index of the bound values; so the value bound at position |Params(before)| + 1
   * is the one whose `?` stands |Params(before)| + 1st in the text.
   */
  lemma {:induction false} PlaceholdersInOrder(config: DatabaseConfiguration, before: Template, v: Value, after: Template)
    requires SafeConfiguration(config)
    requires Plain(before)
    ensures Sql(config, before + [Param(v)] + after) == Sql(config, before) + "?" + Sql(config, after)
    ensures Count(Sql(config, before), '?') == |Params(before)|
    ensures Params(before + [Param(v)] + after) == Params(before) + [v] + Params(after)
    ensures Params(before + [Param(v)] + after)[|Params(before)|] == v
  {
    RenderAround(before, v, after);
    ReplacePrefixSplits(config, Render(before), '?', Render(after));
    PlaceholderCountAfterSubstitution(config, before);
  }

  /** Headline, counting form: the text sent has as many `?` as the template has values. */
  lemma PlaceholderCountAfterSubstitution(config: DatabaseConfiguration, t: Template)
    requires SafeConfiguration(config)
    requires Plain(t)
    ensures Count(Sql(config, t), '?') == |Params(t)|
  {
    PlaceholderCount(t);
    ReplacePrefixKeepsCount(config, Render(t), '?');
  }

  /** Texts joined by a separator, as one template. */
  function JoinT(sep: string, parts: seq<Template>): Template
    decreases |parts|
  {
    if |parts| == 0 then []
    else if |parts| == 1 then parts[0]
    else JoinT(sep, parts[..|parts| - 1]) + [Lit(sep)] + parts[|parts| - 1]
  }

  /** Concatenation of a sequence of value lists. */
  function Flatten(vss: seq<seq<Value>>): seq<Value>
    decreases |vss|
  {
    if |vss| == 0 then [] else Flatten(vss[..|vss| - 1]) + vss[|vss| - 1]
  }

  function RenderEach(parts: seq<Template>): (r: seq<string>)
    ensures |r| == |parts| && forall i :: 0 <= i < |parts| ==> r[i] == Render(parts[i])
  {
    seq(|parts|, i requires 0 <= i < |parts| => Render(parts[i]))
  }

  function ParamsEach(parts: seq<Template>): (r: seq<seq<Value>>)
    ensures |r| == |parts| && forall i :: 0 <= i < |parts| ==> r[i] == Params(parts[i])
  {
    seq(|parts|, i requires 0 <= i < |parts| => Params(parts[i]))
  }

  /** A joined template renders as String.join over the rendered parts. */
  lemma {:induction false} RenderJoinT(sep: string, parts: seq<Template>)
    ensures Render(JoinT(sep, parts)) == Join(sep, RenderEach(parts))
    decreases |parts|
  {
    var n := |parts|;
    if n > 1 {
      RenderJoinT(sep, parts[..n - 1]);
      assert RenderEach(parts)[..n - 1] == RenderEach(parts[..n - 1]);
      RenderAppend(JoinT(sep, parts[..n - 1]) + [Lit(sep)], parts[n - 1]);
      RenderAppend(JoinT(sep, parts[..n - 1]), [Lit(sep)]);
      assert Render([Lit(sep)]) == sep by {
        assert [Lit(sep)][..0] == [];
      }
    }
  }

  /** A joined template binds the parts' values, part after part. */
  lemma {:induction false} ParamsJoinT(sep: string, parts: seq<Template>)
    ensures Params(JoinT(sep, parts)) == Flatten(ParamsEach(parts))
    decreases |parts|
  {
    var n := |parts|;
    if n == 1 {
      assert Flatten(ParamsEach(parts)) == Flatten([]) + Params(parts[0]);
    } else if n > 1 {
      ParamsJoinT(sep, parts[..n - 1]);
      assert ParamsEach(parts)[..n - 1] == ParamsEach(parts[..n - 1]);
      ParamsAppend(JoinT(sep, parts[..n - 1]) + [Lit(sep)], parts[n - 1]);
      ParamsAppend(JoinT(sep, parts[..n - 1]), [Lit(sep)]);
      assert Params([Lit(sep)]) == [] by {
        assert [Lit(sep)][..0] == [];
      }
    }
  }

  lemma {:induction false} PlainJoinT(sep: string, parts: seq<Template>)
    requires '?' !in sep
    requires forall i :: 0 <= i < |parts| ==> Plain(parts[i])
    ensures Plain(JoinT(sep, parts))
    decreases |parts|
  {
    if |parts| > 1 {
      PlainJoinT(sep, parts[..|parts| - 1]);
    }
  }

  /** One parameter per value, separated by `sep`: the `?, ?, ?` of a VALUES tuple or an IN list. */
  function Slots(sep: string, vs: seq<Value>): Template
    decreases |vs|
  {
    if |vs| == 0 then []
    else if |vs| == 1 then [Param(vs[0])]
    else Slots(sep, vs[..|vs| - 1]) + [Lit(sep), Param(vs[|vs| - 1])]
  }

  lemma {:induction false} SlotsRender(sep: string, vs: seq<Value>)
    ensures Render(Slots(sep, vs)) == Join(sep, Repeat("?", |vs|))
    decreases |vs|
  {
    var n := |vs|;
    if n == 1 {
      SingleParam(vs[0]);
    } else if n > 1 {
      var init := Slots(sep, vs[..n - 1]);
      SlotsRender(sep, vs[..n - 1]);
      SlotsStep(sep, init, vs[n - 1]);
      JoinRepeatStep(sep, n);
    }
  }

  lemma SlotsStep(sep: string, init: Template, v: Value)
    ensures Render(init + [Lit(sep), Param(v)]) == Render(init) + sep + "?"
    ensures Params(init + [Lit(sep), Param(v)]) == Params(init) + [v]
  {
    assert init + [Lit(sep), Param(v)] == (init + [Lit(sep)]) + [Param(v)];
    RenderAppend(init + [Lit(sep)], [Param(v)]);
    RenderAppend(init, [Lit(sep)]);
    ParamsAppend(init + [Lit(sep)], [Param(v)]);
    ParamsAppend(init, [Lit(sep)]);
    SingleLit(sep);
    SingleParam(v);
  }

  lemma JoinRepeatStep(sep: string, n: nat)
    requires n > 1
    ensures Join(sep, Repeat("?", n)) == Join(sep, Repeat("?", n - 1)) + sep + "?"
  {
    assert Repeat("?", n)[..n - 1] == Repeat("?", n - 1);
  }

  lemma {:induction false} SlotsParams(sep: string, vs: seq<Value>)
    ensures Params(Slots(sep, vs)) == vs
    decreases |vs|
  {
    var n := |vs|;
    if n == 1 {
      SingleParam(vs[0]);
    } else if n > 1 {
      SlotsParams(sep, vs[..n - 1]);
      SlotsStep(sep, Slots(sep, vs[..n - 1]), vs[n - 1]);
      assert vs == vs[..n - 1] + [vs[n - 1]];
    }
  }

  lemma {:induction false} SlotsPlain(sep: string, vs: seq<Value>)
    requires '?' !in sep
    ensures Plain(Slots(sep, vs))
    decreases |vs|
  {
    if |vs| > 1 {
      SlotsPlain(sep, vs[..|vs| - 1]);
    }
  }

  lemma {:induction false} FlattenSingletons(vss: seq<seq<Value>>, vs: seq<Value>)
    requires |vss| == |vs| && forall i :: 0 <= i < |vs| ==> vss[i] == [vs[i]]
    ensures Flatten(vss) == vs
    decreases |vs|
  {
    if |vs| > 0 {
      FlattenSingletons(vss[..|vss| - 1], vs[..|vs| - 1]);
    }
  }

  lemma {:induction false} FlattenAppend(a: seq<seq<Value>>, b: seq<seq<Value>>)
    ensures Flatten(a + b) == Flatten(a) + Flatten(b)
    decreases |b|
  {
    if |b| == 0 {
      assert a + b == a;
    } else {
      var init := b[..|b| - 1];
      assert (a + b)[..|a + b| - 1] == a + init;
      assert (a + b)[|a + b| - 1] == b[|b| - 1];
      FlattenAppend(a, init);
      assert Flatten(a + b) == Flatten(a + init) + b[|b| - 1];
      assert Flatten(b) == Flatten(init) + b[|b| - 1];
    }
  }

  lemma {:induction false} FlattenUniformLength(vss: seq<seq<Value>>, n: nat)
    requires forall k :: 0 <= k < |vss| ==> |vss[k]| == n
    ensures |Flatten(vss)| == |vss| * n
    decreases |vss|
  {
    if |vss| > 0 {
      FlattenUniformLength(vss[..|vss| - 1], n);
    }
  }

  /** The position of value j of list k when lists of length n are laid out one after the other. */
  function Offset(k: nat, n: nat, j: nat): nat
  {
    k * n + j
  }

  /** Value j of list k sits at position k * n + j of the flat list. */
  predicate LaidOut(flat: seq<Value>, vss: seq<seq<Value>>, n: nat)
    requires forall k :: 0 <= k < |vss| ==> |vss[k]| == n
  {
    forall k, j :: 0 <= k < |vss| && 0 <= j < n ==> Offset(k, n, j) < |flat| && flat[Offset(k, n, j)] == vss[k][j]
  }

  /** Lists of the same length n flattened: list k occupies positions k * n .. k * n + n - 1. */
  lemma FlattenUniform(vss: seq<seq<Value>>, n: nat)
    requires forall k :: 0 <= k < |vss| ==> |vss[k]| == n
    ensures |Flatten(vss)| == |vss| * n
    ensures LaidOut(Flatten(vss), vss, n)
  {
    FlattenUniformLength(vss, n);
    forall k, j | 0 <= k < |vss| && 0 <= j < n
      ensures Offset(k, n, j) < |Flatten(vss)| && Flatten(vss)[Offset(k, n, j)] == vss[k][j]
    {
      FlattenCell(vss, n, k, j);
    }
  }

  lemma {:induction false} FlattenCell(vss: seq<seq<Value>>, n: nat, k: nat, j: nat)
    requires forall i :: 0 <= i < |vss| ==> |vss[i]| == n
    requires k < |vss| && j < n
    ensures k * n + j < |Flatten(vss)| && Flatten(vss)[k * n + j] == vss[k][j]
    decreases |vss|
  {
    var m := |vss| - 1;
    FlattenUniformLength(vss[..m], n);
    FlattenUniformLength(vss, n);
    CellInRange(k, j, |vss|, n);
    if k < m {
      FlattenCell(vss[..m], n, k, j);
      assert vss[..m][k] == vss[k];
    }
  }

  /** Cell (k, j) of an m-by-n grid laid out row after row lies inside it. */
  lemma CellInRange(k: nat, j: nat, m: nat, n: nat)
    requires k < m && j < n
    ensures k * n + j < m * n
  {
    MultiplyMonotone(k + 1, m, n);
    NextMultiple(k, n);
  }

  lemma NextMultiple(k: nat, n: nat)
    ensures (k + 1) * n == k * n + n
  {
  }

  lemma MultiplyMonotone(a: nat, b: nat, n: nat)
    requires a <= b
    ensures a * n <= b * n
  {
  }

  /** A template between two literal texts. */
  lemma BracketedRender(open: string, body: Template, close: string)
    ensures Render([Lit(open)] + body + [Lit(close)]) == open + Render(body) + close
  {
    RenderAppend([Lit(open)] + body, [Lit(close)]);
    RenderAppend([Lit(open)], body);
    SingleLit(open);
    SingleLit(close);
  }

  lemma BracketedParams(open: string, body: Template, close: string)
    ensures Params([Lit(open)] + body + [Lit(close)]) == Params(body)
  {
    ParamsAppend([Lit(open)] + body, [Lit(close)]);
    ParamsAppend([Lit(open)], body);
    SingleLit(open);
    SingleLit(close);
  }

  lemma BracketedPlain(open: string, body: Template, close: string)
    ensures '?' !in open && '?' !in close && Plain(body) ==> Plain([Lit(open)] + body + [Lit(close)])
  {
  }

  /** Slots over one more value: the separator (from the second value on) and one more `?`. */
  lemma SlotsPrefixStep(sep: string, vs: seq<Value>, i: int)
    requires 0 <= i < |vs|
    ensures Render(Slots(sep, vs[..i + 1])) == Render(Slots(sep, vs[..i])) + (if i > 0 then sep else "") + "?"
    ensures Params(Slots(sep, vs[..i + 1])) == Params(Slots(sep, vs[..i])) + [vs[i]]
  {
    assert vs[..i + 1][..i] == vs[..i];
    if i == 0 {
      SingleParam(vs[0]);
    } else {
      SlotsStep(sep, Slots(sep, vs[..i]), vs[i]);
    }
  }

  /** Parameter positions as the driver sees them: position -> value. */
  type Bindings = map<int, Value>

  /** Values bound at consecutive positions from `start`. */
  function Positional(vs: seq<Value>, start: int): (b: Bindings)
    ensures forall k :: k in b <==> start <= k < start + |vs|
    ensures forall i :: 0 <= i < |vs| ==> b[start + i] == vs[i]
    decreases |vs|
  {
    if |vs| == 0 then map[]
    else Positional(vs[..|vs| - 1], start)[start + |vs| - 1 := vs[|vs| - 1]]
  }

  lemma {:induction false} PositionalAppend(a: seq<Value>, b: seq<Value>, start: int)
    ensures Positional(a, start) + Positional(b, start + |a|) == Positional(a + b, start)
    decreases |b|
  {
    if |b| == 0 {
      assert a + b == a;
    } else {
      var n := |b|;
      assert (a + b)[..|a + b| - 1] == a + b[..n - 1];
      PositionalAppend(a, b[..n - 1], start);
    }
  }

  /** Two lists bound one after the other from 1: the first at 1..|a|, the second from |a| + 1. */
  lemma PositionalSplit(a: seq<Value>, b: seq<Value>)
    ensures forall i :: 0 <= i < |a| ==> Positional(a + b, 1)[i + 1] == a[i]
    ensures forall j :: 0 <= j < |b| ==> Positional(a + b, 1)[|a| + 1 + j] == b[j]
  {
    var vs := a + b;
    forall i | 0 <= i < |a|
      ensures Positional(vs, 1)[i + 1] == a[i]
    {
      assert vs[i] == a[i];
      assert 1 + i == i + 1;
    }
    forall j | 0 <= j < |b|
      ensures Positional(vs, 1)[|a| + 1 + j] == b[j]
    {
      assert vs[|a| + j] == b[j];
      assert 1 + (|a| + j) == |a| + 1 + j;
    }
  }

  /** setObject(index++, v) for each v in order: the positional bindings, laid over what was bound before. */
  method Bind(bound: Bindings, vs: seq<Value>, start: int) returns (r: Bindings, next: int)
    ensures r == bound + Positional(vs, start)
    ensures next == start + |vs|
  {
    r := bound;
    next := start;
    var i := 0;
    while i < |vs|
      invariant 0 <= i <= |vs| && next == start + i
      invariant r == bound + Positional(vs[..i], start)
    {
      assert vs[..i + 1][..i] == vs[..i];
      r := r[next := vs[i]];
      next := next + 1;
      i := i + 1;
    }
    assert vs[..i] == vs;
  }

  /** Binding a fresh statement: exactly the positions 1..|vs|, in order. */
  method BindFresh(vs: seq<Value>) returns (r: Bindings)
    ensures r == Positional(vs, 1)
  {
    var next;
    r, next := Bind(map[], vs, 1);
    assert map[] + Positional(vs, 1) == Positional(vs, 1);
  }
}
