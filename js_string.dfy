/** The JavaScript string and array built-ins the application relies on,
    with the behaviour ECMAScript gives them: `trim`, `split` on a one-character
    separator, `join`, `filter`, and the decimal rendering of a natural number
    in a template literal. */
module JsString {

  /** ECMAScript WhiteSpace and LineTerminator code points, the set `trim` removes. */
  predicate IsWhitespace(c: char)
  {
    || c == '\t' || c == '\n' || c == '\U{000B}' || c == '\U{000C}' || c == '\r'
    || c == ' ' || c == '\U{00A0}' || c == '\U{1680}'
    || ('\U{2000}' <= c <= '\U{200A}')
    || c == '\U{2028}' || c == '\U{2029}' || c == '\U{202F}' || c == '\U{205F}'
    || c == '\U{3000}' || c == '\U{FEFF}'
  }

  /** Every character of `s` is whitespace (the empty string included). */
  predicate Blank(s: string)
  {
    forall i :: 0 <= i < |s| ==> IsWhitespace(s[i])
  }

  /** `s` with its leading whitespace removed. */
  function TrimStart(s: string): (r: string)
    ensures |r| <= |s| && r == s[|s| - |r|..]
    ensures forall i :: 0 <= i < |s| - |r| ==> IsWhitespace(s[i])
    ensures r == [] || !IsWhitespace(r[0])
  {
    if |s| > 0 && IsWhitespace(s[0]) then TrimStart(s[1..]) else s
  }

  /** `s` with its trailing whitespace removed. */
  function TrimEnd(s: string): (r: string)
    ensures |r| <= |s| && r == s[..|r|]
    ensures forall i :: |r| <= i < |s| ==> IsWhitespace(s[i])
    ensures r == [] || !IsWhitespace(r[|r| - 1])
  {
    if |s| > 0 && IsWhitespace(s[|s| - 1]) then TrimEnd(s[..|s| - 1]) else s
  }

  /** `String.prototype.trim`. */
  function Trim(s: string): string
  {
    TrimEnd(TrimStart(s))
  }

  /** A blank string has nothing left after its leading whitespace. */
  lemma {:induction false} BlankTrimStart(s: string)
    requires Blank(s)
    ensures TrimStart(s) == []
  {
    if |s| > 0 {
      BlankTrimStart(s[1..]);
    }
  }

  /** A string trims to the empty string exactly when it is blank. */
  lemma TrimEmptyIffBlank(s: string)
    ensures Trim(s) == "" <==> Blank(s)
  {
    var t := TrimStart(s);
    if Blank(s) {
      BlankTrimStart(s);
    }
    if Trim(s) == "" {
      assert t == [];
    }
  }

  /** `String.prototype.split` with a one-character separator: the maximal
      separator-free fields, in order; there is always at least one, and the
      first is a prefix of `s`. */
  function Split(s: string, sep: char): (r: seq<string>)
    ensures |r| >= 1
    ensures forall k :: 0 <= k < |r| ==> sep !in r[k]
    ensures |r[0]| <= |s| && r[0] == s[..|r[0]|]
  {
    if |s| == 0 then [""]
    else if s[0] == sep then [""] + Split(s[1..], sep)
    else
      var t := Split(s[1..], sep);
      [[s[0]] + t[0]] + t[1..]
  }

  /** Joining the fields with the separator restores the split string. */
  lemma {:induction false} JoinSplit(s: string, sep: char)
    ensures Join(Split(s, sep), sep) == s
  {
    if |s| > 0 {
      JoinSplit(s[1..], sep);
      var t := Split(s[1..], sep);
      if s[0] == sep {
        assert s == [sep] + s[1..];
        assert ([""] + t)[1..] == t;
      } else {
        var r := [[s[0]] + t[0]] + t[1..];
        assert s == [s[0]] + s[1..];
        assert r[1..] == t[1..];
      }
    }
  }

  /** The first field ends where the first separator is: a string splits into
      one field exactly when it has no separator, and otherwise the separator
      follows the first field and the rest splits into the remaining fields. */
  lemma {:induction false} SplitFirstField(s: string, sep: char)
    ensures var r := Split(s, sep);
            && (|r| == 1 <==> sep !in s)
            && (|r| == 1 ==> r[0] == s)
            && (|r| > 1 ==> |r[0]| < |s| && s[|r[0]|] == sep && Split(s[|r[0]| + 1..], sep) == r[1..])
  {
    if |s| > 0 && s[0] != sep {
      SplitFirstField(s[1..], sep);
      var t := Split(s[1..], sep);
      assert s == [s[0]] + s[1..];
      if |t| > 1 {
        assert s[|t[0]| + 2..] == s[1..][|t[0]| + 1..];
      }
    } else if |s| > 0 {
      assert s[0] in s;
    }
  }

  /** The first field is the text before the first separator, or all of `s`. */
  lemma FirstField(s: string, sep: char)
    ensures var f := Split(s, sep)[0];
            OccursAt(s, f, 0) && sep !in f && (|f| == |s| || s[|f|] == sep)
  {
    SplitFirstField(s, sep);
  }

  /** The second field is the text between the first separator and the next
      separator or the end. */
  lemma SecondField(s: string, sep: char)
    requires |Split(s, sep)| > 1
    ensures var r := Split(s, sep);
            var a := |r[0]| + 1;
            a <= |s| && OccursAt(s, r[1], a) && sep !in r[1] && (a + |r[1]| == |s| || s[a + |r[1]|] == sep)
  {
    var r := Split(s, sep);
    SplitFirstField(s, sep);
    var rest := s[|r[0]| + 1..];
    FirstField(rest, sep);
    OccursExtendLeft(s[..|r[0]| + 1], rest, r[1], 0);
    assert s[..|r[0]| + 1] + rest == s;
    if |r[0]| + 1 + |r[1]| < |s| {
      assert s[|r[0]| + 1 + |r[1]|] == rest[|r[1]|];
    }
  }

  /** `Array.prototype.join` with a one-character separator. */
  function Join(xs: seq<string>, sep: char): string
  {
    if |xs| == 0 then ""
    else if |xs| == 1 then xs[0]
    else xs[0] + [sep] + Join(xs[1..], sep)
  }

  /** A string without the separator is a single field. */
  lemma {:induction false} SplitWithoutSeparator(a: string, sep: char)
    requires sep !in a
    ensures Split(a, sep) == [a]
  {
    if |a| > 0 {
      SplitWithoutSeparator(a[1..], sep);
      assert [a[0]] + a[1..] == a;
    }
  }

  /** Splitting at the first separator yields the text before it followed by the
      fields of the rest. */
  lemma {:induction false} SplitAtFirstSeparator(a: string, sep: char, b: string)
    requires sep !in a
    ensures Split(a + [sep] + b, sep) == [a] + Split(b, sep)
  {
    var s := a + [sep] + b;
    if |a| == 0 {
      assert s[0] == sep && s[1..] == b;
    } else {
      assert s[0] == a[0] && s[1..] == a[1..] + [sep] + b;
      SplitAtFirstSeparator(a[1..], sep, b);
      assert [a[0]] + a[1..] == a;
    }
  }

  /** Split inverts Join on any non-empty list of separator-free fields. */
  lemma {:induction false} SplitJoin(xs: seq<string>, sep: char)
    requires |xs| >= 1
    requires forall k :: 0 <= k < |xs| ==> sep !in xs[k]
    ensures Split(Join(xs, sep), sep) == xs
  {
    if |xs| == 1 {
      SplitWithoutSeparator(xs[0], sep);
    } else {
      SplitJoin(xs[1..], sep);
      SplitAtFirstSeparator(xs[0], sep, Join(xs[1..], sep));
      assert [xs[0]] + xs[1..] == xs;
    }
  }

  /** `Array.prototype.filter` with a total predicate. */
  function Filter<T>(xs: seq<T>, keep: T -> bool): (r: seq<T>)
    ensures |r| <= |xs|
    ensures forall k :: 0 <= k < |r| ==> keep(r[k]) && r[k] in xs
  {
    if |xs| == 0 then [] else (if keep(xs[0]) then [xs[0]] else []) + Filter(xs[1..], keep)
  }

  /** Filter keeps the kept elements of each part of a concatenation, in order. */
  lemma {:induction false} FilterConcat<T>(xs: seq<T>, ys: seq<T>, keep: T -> bool)
    ensures Filter(xs + ys, keep) == Filter(xs, keep) + Filter(ys, keep)
  {
    if |xs| == 0 {
      assert xs + ys == ys;
    } else {
      var zs := xs + ys;
      var head := if keep(xs[0]) then [xs[0]] else [];
      assert zs[0] == xs[0] && zs[1..] == xs[1..] + ys;
      FilterConcat(xs[1..], ys, keep);
      assert Filter(zs, keep) == head + (Filter(xs[1..], keep) + Filter(ys, keep));
      assert Filter(xs, keep) == head + Filter(xs[1..], keep);
    }
  }

  /** Filter leaves a list unchanged when every element is kept. */
  lemma {:induction false} FilterKeepsAll<T>(xs: seq<T>, keep: T -> bool)
    requires forall k :: 0 <= k < |xs| ==> keep(xs[k])
    ensures Filter(xs, keep) == xs
  {
    if |xs| > 0 {
      FilterKeepsAll(xs[1..], keep);
    }
  }

  /** Filter leaves nothing only when it rejects every element. */
  lemma {:induction false} FilterEmptyRejectsAll<T>(xs: seq<T>, keep: T -> bool)
    requires Filter(xs, keep) == []
    ensures forall k :: 0 <= k < |xs| ==> !keep(xs[k])
  {
    if |xs| > 0 {
      FilterEmptyRejectsAll(xs[1..], keep);
      assert forall k :: 1 <= k < |xs| ==> xs[k] == xs[1..][k - 1];
    }
  }

  /** `sub` occurs in `s` starting at index `k`. */
  predicate OccursAt(s: string, sub: string, k: int)
  {
    0 <= k && k + |sub| <= |s| && s[k..k + |sub|] == sub
  }

  /** An occurrence inside an occurrence is an occurrence. */
  lemma OccursNested(s: string, t: string, k: int, u: string, j: int)
    requires OccursAt(s, t, k) && OccursAt(t, u, j)
    ensures OccursAt(s, u, k + j)
  {
    forall i | 0 <= i < |u| ensures s[k + j + i] == u[i] {
      assert u[i] == t[j..j + |u|][i] == t[j + i];
      assert t[j + i] == s[k..k + |t|][j + i] == s[k + (j + i)];
    }
    assert s[k + j..k + j + |u|] == u;
  }

  /** A character absent from a string is absent from every part of it. */
  lemma AbsentFromPart(s: string, sub: string, k: int, c: char)
    requires OccursAt(s, sub, k) && c !in s
    ensures c !in sub
  {
    forall i | 0 <= i < |sub| ensures sub[i] != c {
      assert sub[i] == s[k + i];
    }
  }

  predicate Contains(s: string, sub: string)
  {
    exists k :: 0 <= k <= |s| && OccursAt(s, sub, k)
  }

  /** The middle part of a three-part concatenation occurs after the first part. */
  lemma OccursInMiddle(a: string, b: string, c: string)
    ensures OccursAt(a + b + c, b, |a|)
  {
    assert (a + b + c)[|a|..|a| + |b|] == b;
  }

  lemma OccursAtStart(a: string, b: string)
    ensures OccursAt(a + b, a, 0)
  {
    assert (a + b)[..|a|] == a;
  }

  lemma OccursAtEnd(a: string, b: string)
    ensures OccursAt(a + b, b, |a|)
  {
    assert (a + b)[|a|..] == b;
  }

  /** An occurrence stays where it is when text is appended. */
  lemma OccursExtendRight(s: string, sub: string, k: int, t: string)
    requires OccursAt(s, sub, k)
    ensures OccursAt(s + t, sub, k)
  {
    assert (s + t)[k..k + |sub|] == s[k..k + |sub|];
  }

  /** An occurrence moves by the length of text prepended. */
  lemma OccursExtendLeft(t: string, s: string, sub: string, k: int)
    requires OccursAt(s, sub, k)
    ensures OccursAt(t + s, sub, |t| + k)
  {
    assert (t + s)[|t| + k..|t| + k + |sub|] == s[k..k + |sub|];
  }

  /** The decimal digit character for `d`. */
  function DigitChar(d: nat): (c: char)
    requires d < 10
    ensures '0' <= c <= '9' && c as int - '0' as int == d
  {
    (d + '0' as int) as char
  }

  /** The number a string of decimal digits denotes. */
  function DigitsValue(s: string): int
  {
    if |s| == 0 then 0 else 10 * DigitsValue(s[..|s| - 1]) + (s[|s| - 1] as int - '0' as int)
  }

  /** The decimal numeral of `n`, as a template literal renders a number: the
      digits denoting `n`, without a leading zero. */
  function DecimalString(n: nat): (r: string)
    ensures 1 <= |r|
    ensures n < 10 <==> |r| == 1
    ensures forall i :: 0 <= i < |r| ==> '0' <= r[i] <= '9'
    ensures r[|r| - 1] == DigitChar(n % 10)
    ensures DigitsValue(r) == n
    ensures n >= 10 ==> r[0] != '0'
  {
    if n < 10 then [DigitChar(n)]
    else
      var hi := DecimalString(n / 10);
      assert (hi + [DigitChar(n % 10)])[..|hi|] == hi;
      hi + [DigitChar(n % 10)]
  }

  /** Distinct numbers have distinct numerals. */
  lemma {:induction false} DecimalStringInjective(m: nat, n: nat)
    requires DecimalString(m) == DecimalString(n)
    ensures m == n
  {
    var s := DecimalString(m);
    assert m % 10 == n % 10 by {
      assert DigitChar(m % 10) == s[|s| - 1] == DigitChar(n % 10);
    }
    if m >= 10 {
      assert DecimalString(m / 10) == s[..|s| - 1] == DecimalString(n / 10);
      DecimalStringInjective(m / 10, n / 10);
    }
  }
}
