/**
 * String helpers standing for the java.lang.String operations the library calls:
 * String.join, character counting, literal replaceAll, ASCII case folding and the
 * decimal rendering and parsing of integers.
 */
module Text {
  import opened Wrappers

  /** String.join(sep, parts); defined from the right so that adding one more part unfolds once. */
  function Join(sep: string, parts: seq<string>): string
    decreases |parts|
  {
    if |parts| == 0 then ""
    else if |parts| == 1 then parts[0]
    else Join(sep, parts[..|parts| - 1]) + sep + parts[|parts| - 1]
  }

  /** Joining texts none of which contains ch (nor the separator) gives a text without ch. */
  lemma {:induction false} JoinAvoids(sep: string, parts: seq<string>, ch: char)
    requires ch !in sep
    requires forall i :: 0 <= i < |parts| ==> ch !in parts[i]
    ensures ch !in Join(sep, parts)
    decreases |parts|
  {
    if |parts| > 1 {
      JoinAvoids(sep, parts[..|parts| - 1], ch);
    }
  }

  /** One more part joined: the separator from the second part on. */
  lemma JoinStep(sep: string, parts: seq<string>, i: int)
    requires 0 <= i < |parts|
    ensures Join(sep, parts[..i + 1]) == Join(sep, parts[..i]) + (if i > 0 then sep else "") + parts[i]
  {
    assert parts[..i + 1][..i] == parts[..i];
  }

  /** n copies of s. */
  function Repeat(s: string, n: nat): (r: seq<string>)
    ensures |r| == n && forall i :: 0 <= i < n ==> r[i] == s
  {
    seq(n, _ => s)
  }

  /** Number of occurrences of the character ch in s. */
  function Count(s: string, ch: char): nat
  {
    if |s| == 0 then 0 else (if s[0] == ch then 1 else 0) + Count(s[1..], ch)
  }

  lemma {:induction false} CountAppend(a: string, b: string, ch: char)
    ensures Count(a + b, ch) == Count(a, ch) + Count(b, ch)
    decreases |a|
  {
    if |a| > 0 {
      assert (a + b)[1..] == a[1..] + b;
      CountAppend(a[1..], b, ch);
    } else {
      assert a + b == b;
    }
  }

  lemma {:induction false} CountAbsent(s: string, ch: char)
    ensures Count(s, ch) == 0 <==> ch !in s
    decreases |s|
  {
    if |s| > 0 {
      CountAbsent(s[1..], ch);
      assert s == [s[0]] + s[1..];
    }
  }

  /** Count of ch in the joined text: one per copy when joining copies of a one-character text. */
  lemma {:induction false} CountJoinRepeat(sep: string, ch: char, n: nat)
    requires ch !in sep
    ensures Count(Join(sep, Repeat([ch], n)), ch) == n
    decreases n
  {
    if n == 1 {
      assert Join(sep, Repeat([ch], 1)) == [ch];
    } else if n > 1 {
      var parts := Repeat([ch], n);
      assert parts[..n - 1] == Repeat([ch], n - 1);
      CountJoinRepeat(sep, ch, n - 1);
      CountAbsent(sep, ch);
      CountAppend(Join(sep, parts[..n - 1]), sep, ch);
      CountAppend(Join(sep, parts[..n - 1]) + sep, [ch], ch);
    }
  }

  /** s contains pat starting at some position. */
  predicate Occurs(s: string, pat: string)
    decreases |s|
  {
    |pat| <= |s| && (s[..|pat|] == pat || (|s| > 0 && Occurs(s[1..], pat)))
  }

  /**
   * String.replaceAll(pat, rep) for a pattern without regular-expression metacharacters
   * and a replacement without '$' or '\': leftmost, non-overlapping, literal replacement.
   */
  function ReplaceAll(s: string, pat: string, rep: string): (r: string)
    requires |pat| > 0
    ensures |rep| == |pat| ==> |r| == |s|
    decreases |s|
  {
    if |s| < |pat| then s
    else if s[..|pat|] == pat then rep + ReplaceAll(s[|pat|..], pat, rep)
    else [s[0]] + ReplaceAll(s[1..], pat, rep)
  }

  /** Replacement never creates nor removes a character that neither the pattern nor the replacement holds. */
  lemma {:induction false} ReplaceAllKeepsCount(s: string, pat: string, rep: string, ch: char)
    requires |pat| > 0 && ch !in pat && ch !in rep
    ensures Count(ReplaceAll(s, pat, rep), ch) == Count(s, ch)
    decreases |s|
  {
    if |s| < |pat| {
    } else if s[..|pat|] == pat {
      ReplaceAllKeepsCount(s[|pat|..], pat, rep, ch);
      CountAppend(rep, ReplaceAll(s[|pat|..], pat, rep), ch);
      CountAbsent(rep, ch);
      CountAbsent(pat, ch);
      assert s == pat + s[|pat|..];
      CountAppend(pat, s[|pat|..], ch);
    } else {
      ReplaceAllKeepsCount(s[1..], pat, rep, ch);
      CountAppend([s[0]], ReplaceAll(s[1..], pat, rep), ch);
      assert s == [s[0]] + s[1..];
      CountAppend([s[0]], s[1..], ch);
    }
  }

  /** Without an occurrence of the pattern the text is returned unchanged. */
  lemma {:induction false} ReplaceAllWithoutOccurrence(s: string, pat: string, rep: string)
    requires |pat| > 0 && !Occurs(s, pat)
    ensures ReplaceAll(s, pat, rep) == s
    decreases |s|
  {
    if |s| >= |pat| {
      ReplaceAllWithoutOccurrence(s[1..], pat, rep);
      assert s == [s[0]] + s[1..];
    }
  }

  /** Replacing the pattern by itself is the identity. */
  lemma {:induction false} ReplaceAllSelf(s: string, pat: string)
    requires |pat| > 0
    ensures ReplaceAll(s, pat, pat) == s
    decreases |s|
  {
    if |s| < |pat| {
    } else if s[..|pat|] == pat {
      ReplaceAllSelf(s[|pat|..], pat);
      assert s == pat + s[|pat|..];
    } else {
      ReplaceAllSelf(s[1..], pat);
      assert s == [s[0]] + s[1..];
    }
  }

  /** A character absent from the pattern cannot be part of a match, so replacement works on each side of it. */
  lemma {:induction false} ReplaceAllSplits(x: string, ch: char, y: string, pat: string, rep: string)
    requires |pat| > 0 && ch !in pat
    ensures ReplaceAll(x + [ch] + y, pat, rep) == ReplaceAll(x, pat, rep) + [ch] + ReplaceAll(y, pat, rep)
    decreases |x|, 1
  {
    var s := x + [ch] + y;
    if |s| < |pat| {
      assert ReplaceAll(x, pat, rep) == x;
      assert ReplaceAll(y, pat, rep) == y;
    } else if |x| >= |pat| {
      SplitsAfterWindow(x, ch, y, pat, rep);
    } else {
      SplitsAcrossWindow(x, ch, y, pat, rep);
    }
  }

  /** The first window lies inside x: it is matched or skipped there, and the rest of x is split the same way. */
  lemma {:induction false} SplitsAfterWindow(x: string, ch: char, y: string, pat: string, rep: string)
    requires |pat| > 0 && ch !in pat && |x| >= |pat|
    ensures ReplaceAll(x + [ch] + y, pat, rep) == ReplaceAll(x, pat, rep) + [ch] + ReplaceAll(y, pat, rep)
    decreases |x|, 0
  {
    var s := x + [ch] + y;
    assert s[..|pat|] == x[..|pat|];
    if x[..|pat|] == pat {
      assert s[|pat|..] == x[|pat|..] + [ch] + y;
      ReplaceAllSplits(x[|pat|..], ch, y, pat, rep);
    } else {
      assert s[1..] == x[1..] + [ch] + y;
      ReplaceAllSplits(x[1..], ch, y, pat, rep);
    }
  }

  /** The first window covers ch, which the pattern lacks: it is skipped, and x is shorter than the pattern. */
  lemma {:induction false} SplitsAcrossWindow(x: string, ch: char, y: string, pat: string, rep: string)
    requires |pat| > 0 && ch !in pat && |x| < |pat| <= |x| + 1 + |y|
    ensures ReplaceAll(x + [ch] + y, pat, rep) == ReplaceAll(x, pat, rep) + [ch] + ReplaceAll(y, pat, rep)
    decreases |x|, 0
  {
    var s := x + [ch] + y;
    assert s[..|pat|][|x|] == ch;
    assert s[..|pat|] != pat;
    assert ReplaceAll(x, pat, rep) == x;
    assert ReplaceAll(s, pat, rep) == [s[0]] + ReplaceAll(s[1..], pat, rep);
    if |x| == 0 {
      assert s[1..] == y;
      assert s[0] == ch;
    } else {
      assert s[0] == x[0];
      assert s[1..] == x[1..] + [ch] + y;
      ReplaceAllSplits(x[1..], ch, y, pat, rep);
      assert ReplaceAll(x[1..], pat, rep) == x[1..];
      assert x == [x[0]] + x[1..];
    }
  }

  /** Character.toLowerCase, restricted to ASCII letters. */
  function LowerChar(c: char): char
  {
    if 'A' <= c <= 'Z' then (c as int + 32) as char else c
  }

  function Lower(s: string): (r: string)
    ensures |r| == |s|
  {
    seq(|s|, i requires 0 <= i < |s| => LowerChar(s[i]))
  }

  /** String.equalsIgnoreCase over ASCII text. */
  predicate EqualsIgnoreCase(a: string, b: string)
  {
    Lower(a) == Lower(b)
  }

  predicate IsDigit(c: char)
  {
    '0' <= c <= '9'
  }

  function DigitChar(d: nat): (c: char)
    requires d < 10
    ensures IsDigit(c) && c as int - '0' as int == d
  {
    ('0' as int + d) as char
  }

  /** The decimal text of a natural number, as Long.toString prints it. */
  function NatToString(n: nat): (r: string)
    ensures |r| > 0 && forall i :: 0 <= i < |r| ==> IsDigit(r[i])
    decreases n
  {
    if n < 10 then [DigitChar(n)] else NatToString(n / 10) + [DigitChar(n % 10)]
  }

  /** The decimal text of an integer, with a leading '-' when negative (Integer.toString/Long.toString). */
  function IntToString(n: int): string
  {
    if n < 0 then "-" + NatToString(-n) else NatToString(n)
  }

  predicate AllDigits(s: string)
  {
    forall i :: 0 <= i < |s| ==> IsDigit(s[i])
  }

  /** The value of a string of decimal digits. */
  function DigitsValue(s: string): nat
    requires AllDigits(s)
    decreases |s|
  {
    if |s| == 0 then 0 else DigitsValue(s[..|s| - 1]) * 10 + (s[|s| - 1] as int - '0' as int)
  }

  lemma {:induction false} DigitsValueOfNatToString(n: nat)
    ensures DigitsValue(NatToString(n)) == n
    decreases n
  {
    if n >= 10 {
      var s := NatToString(n);
      assert s[..|s| - 1] == NatToString(n / 10);
      DigitsValueOfNatToString(n / 10);
    }
  }

  /**
   * Long.parseLong / Integer.parseInt: an optional '+' or '-' followed by at least one
   * decimal digit, and a value within [lo, hi]; anything else is a NumberFormatException.
   */
  function ParseInteger(s: string, lo: int, hi: int): (r: Option<int>)
    ensures r.Some? ==> lo <= r.value <= hi
  {
    var negative := |s| > 0 && s[0] == '-';
    var digits := if |s| > 0 && (s[0] == '-' || s[0] == '+') then s[1..] else s;
    if |digits| == 0 || !AllDigits(digits) then None
    else
      var magnitude: int := DigitsValue(digits);
      var v := if negative then 0 - magnitude else magnitude;
      if lo <= v <= hi then Some(v) else None
  }

  /** Parsing the printed form of an integer gives the integer back when it is in range, and fails otherwise. */
  lemma ParseIntegerOfIntToString(n: int, lo: int, hi: int)
    ensures ParseInteger(IntToString(n), lo, hi) == if lo <= n <= hi then Some(n) else None
  {
    if n < 0 {
      ParseNegativeDigits(n, lo, hi);
    } else {
      ParseNaturalDigits(n, lo, hi);
    }
  }

  lemma ParseNegativeDigits(n: int, lo: int, hi: int)
    requires n < 0
    ensures ParseInteger("-" + NatToString(-n), lo, hi) == if lo <= n <= hi then Some(n) else None
  {
    var s := "-" + NatToString(-n);
    assert s[0] == '-';
    var digits := NatToString(-n);
    assert s[1..] == digits;
    assert AllDigits(digits);
    DigitsValueOfNatToString(-n);
    assert DigitsValue(digits) == -n;
  }

  lemma ParseNaturalDigits(n: nat, lo: int, hi: int)
    ensures ParseInteger(NatToString(n), lo, hi) == if lo <= n <= hi then Some(n) else None
  {
    var s := NatToString(n);
    assert IsDigit(s[0]);
    DigitsValueOfNatToString(n);
  }

  /** The text after the last '.', as type.getTypeName().substring(lastIndexOf('.') + 1). */
  function AfterLastDot(s: string): (r: string)
    ensures |r| <= |s| && '.' !in r
    ensures r == s[|s| - |r|..]
    ensures |r| < |s| ==> s[|s| - |r| - 1] == '.'
    decreases |s|
  {
    if |s| == 0 then ""
    else if s[|s| - 1] == '.' then ""
    else
      var init := s[..|s| - 1];
      var t := AfterLastDot(init);
      assert s[|s| - 1 - |t|..] == init[|init| - |t|..] + [s[|s| - 1]];
      t + [s[|s| - 1]]
  }
}
