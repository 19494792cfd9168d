/** The JavaScript string builtins the core relies on, written out over
    `seq<char>`: `startsWith`, `includes`, a global literal `replace`,
    `split`, `join`, `toLowerCase`, number-to-string, and the character
    classes behind `trim` and the regular-expression escapes `\s` and `.`. */
module Strings {

  /** `s.startsWith(p)`. */
  predicate IsPrefix(p: string, s: string) {
    |p| <= |s| && s[..|p|] == p
  }

  /** `s.includes(pat)`: `pat` occurs somewhere in `s`. */
  predicate Contains(s: string, pat: string)
    decreases |s|
  {
    IsPrefix(pat, s) || (|s| > 0 && Contains(s[1..], pat))
  }

  lemma {:induction false} ContainsAppend(b: string, c: string, pat: string)
    requires Contains(b, pat)
    ensures Contains(b + c, pat)
    decreases |b|
  {
    if IsPrefix(pat, b) {
      assert (b + c)[..|pat|] == b[..|pat|];
    } else {
      assert (b + c)[1..] == b[1..] + c;
      ContainsAppend(b[1..], c, pat);
    }
  }

  lemma {:induction false} ContainsPrepend(a: string, b: string, pat: string)
    requires Contains(b, pat)
    ensures Contains(a + b, pat)
    decreases |a|
  {
    if a != [] {
      assert (a + b)[1..] == a[1..] + b;
      ContainsPrepend(a[1..], b, pat);
    } else {
      assert a + b == b;
    }
  }

  /** Whatever occurs in `b` occurs in any text that has `b` in the middle. */
  lemma ContainsInfix(a: string, b: string, c: string, pat: string)
    requires Contains(b, pat)
    ensures Contains(a + b + c, pat)
  {
    ContainsAppend(b, c, pat);
    ContainsPrepend(a, b + c, pat);
    assert a + b + c == a + (b + c);
  }

  /** What occurs in a suffix occurs in the text. */
  lemma ContainsSuffix(s: string, k: nat, pat: string)
    requires k <= |s|
    ensures Contains(s[k..], pat) ==> Contains(s, pat)
  {
    if Contains(s[k..], pat) {
      ContainsPrepend(s[..k], s[k..], pat);
      assert s[..k] + s[k..] == s;
    }
  }

  /** An occurrence in `[c] + x` starts at `c` or lies in `x`. */
  lemma ContainsCons(c: char, x: string, pat: string)
    ensures Contains([c] + x, pat) <==> IsPrefix(pat, [c] + x) || Contains(x, pat)
  {
    assert ([c] + x)[1..] == x;
  }

  /** What occurs in an occurrence occurs in the text. */
  lemma {:induction false} ContainsTransitive(s: string, t: string, pat: string)
    requires Contains(s, t) && Contains(t, pat)
    ensures Contains(s, pat)
    decreases |s|
  {
    if IsPrefix(t, s) {
      ContainsAppend(t, s[|t|..], pat);
      assert t + s[|t|..] == s;
    } else {
      ContainsTransitive(s[1..], t, pat);
      ContainsPrepend(s[..1], s[1..], pat);
      assert s[..1] + s[1..] == s;
    }
  }

  lemma ContainsItself(s: string)
    ensures Contains(s, s)
  {
    assert s[..|s|] == s;
  }

  /** `s.replace(/pat/g, rep)` for a pattern that matches only the literal
      text `pat`: matches are found left to right and do not overlap. The
      replacement is inserted literally (JavaScript would expand `$`
      sequences in it). */
  function ReplaceAll(s: string, pat: string, rep: string): string
    requires |pat| > 0
    decreases |s|
  {
    if |s| < |pat| then s
    else if s[..|pat|] == pat then rep + ReplaceAll(s[|pat|..], pat, rep)
    else [s[0]] + ReplaceAll(s[1..], pat, rep)
  }

  /** One character that does not start a match is copied through. */
  lemma ReplaceAllCons(c: char, rest: string, pat: string, rep: string)
    requires |pat| > 0
    requires !IsPrefix(pat, [c] + rest)
    ensures ReplaceAll([c] + rest, pat, rep) == [c] + ReplaceAll(rest, pat, rep)
  {
    var s := [c] + rest;
    assert s[1..] == rest;
    if |s| < |pat| {
      assert |rest| < |pat|;
    }
  }

  /** Text that does not contain the first character of the pattern is
      copied through unchanged, whatever follows it. */
  lemma {:induction false} ReplaceAllSkip(t: string, rest: string, pat: string, rep: string)
    requires |pat| > 0
    requires pat[0] !in t
    ensures ReplaceAll(t + rest, pat, rep) == t + ReplaceAll(rest, pat, rep)
    decreases |t|
  {
    if t != [] {
      assert t + rest == [t[0]] + (t[1..] + rest);
      assert !IsPrefix(pat, [t[0]] + (t[1..] + rest)) by {
        assert ([t[0]] + (t[1..] + rest))[0] == t[0];
      }
      ReplaceAllCons(t[0], t[1..] + rest, pat, rep);
      ReplaceAllSkip(t[1..], rest, pat, rep);
      assert t == [t[0]] + t[1..];
    } else {
      assert t + rest == rest;
    }
  }

  /** `xs.join(sep)`. */
  function Join(xs: seq<string>, sep: string): string
    decreases |xs|
  {
    if |xs| == 0 then ""
    else if |xs| == 1 then xs[0]
    else xs[0] + sep + Join(xs[1..], sep)
  }

  /** `xs.join('')`. */
  function Concat(xs: seq<string>): string
    decreases |xs|
  {
    if xs == [] then "" else xs[0] + Concat(xs[1..])
  }

  lemma {:induction false} ConcatAppend(xs: seq<string>, ys: seq<string>)
    ensures Concat(xs + ys) == Concat(xs) + Concat(ys)
    decreases |xs|
  {
    if xs == [] {
      assert xs + ys == ys;
    } else {
      assert (xs + ys)[1..] == xs[1..] + ys;
      ConcatAppend(xs[1..], ys);
    }
  }

  /** A template literal: the fixed texts with the substitutions between
      them, `texts[0] + fields[0] + texts[1] + ... + texts[|fields|]`. */
  function Interleave(texts: seq<string>, fields: seq<string>): string
    requires |texts| == |fields| + 1
    decreases |fields|
  {
    if fields == [] then texts[0]
    else texts[0] + fields[0] + Interleave(texts[1..], fields[1..])
  }

  /** Every substitution occurs in the evaluated template. */
  lemma {:induction false} InterleaveContainsField(texts: seq<string>, fields: seq<string>, k: nat)
    requires |texts| == |fields| + 1 && k < |fields|
    ensures Contains(Interleave(texts, fields), fields[k])
    decreases |fields|
  {
    var rest := Interleave(texts[1..], fields[1..]);
    if k == 0 {
      ContainsItself(fields[0]);
      ContainsInfix(texts[0], fields[0], rest, fields[0]);
    } else {
      InterleaveContainsField(texts[1..], fields[1..], k - 1);
      ContainsPrepend(texts[0] + fields[0], rest, fields[k]);
    }
  }

  /** Every element of a joined list occurs in the joined text. */
  lemma {:induction false} JoinContainsElement(xs: seq<string>, sep: string, i: nat, pat: string)
    requires i < |xs| && Contains(xs[i], pat)
    ensures Contains(Join(xs, sep), pat)
    decreases |xs|
  {
    if |xs| == 1 {
    } else if i == 0 {
      ContainsInfix("", xs[0], sep + Join(xs[1..], sep), pat);
      assert "" + xs[0] + (sep + Join(xs[1..], sep)) == Join(xs, sep);
    } else {
      JoinContainsElement(xs[1..], sep, i - 1, pat);
      ContainsPrepend(xs[0] + sep, Join(xs[1..], sep), pat);
    }
  }

  /** `s.split(sep)` for a non-empty separator: the pieces between the
      non-overlapping left-to-right occurrences of `sep`; joining them with
      `sep` gives `s` back. */
  function Split(s: string, sep: string): (r: seq<string>)
    requires |sep| > 0
    ensures |r| >= 1
    ensures Join(r, sep) == s
    decreases |s|
  {
    if |s| < |sep| then [s]
    else if s[..|sep|] == sep then
      var rest := Split(s[|sep|..], sep);
      assert s == sep + s[|sep|..];
      [""] + rest
    else
      var rest := Split(s[1..], sep);
      var r := [[s[0]] + rest[0]] + rest[1..];
      assert r[1..] == rest[1..];
      assert s == [s[0]] + s[1..];
      r
  }

  /** A text that ends with the separator splits into at least two pieces. */
  lemma {:induction false} SplitEndingInSeparator(x: string, sep: string)
    requires |sep| > 0
    ensures |Split(x + sep, sep)| >= 2
    decreases |x|
  {
    var s := x + sep;
    if x == [] {
      assert s[..|sep|] == sep;
    } else if s[..|sep|] != sep {
      assert s[1..] == x[1..] + sep;
      SplitEndingInSeparator(x[1..], sep);
    }
  }

  /** `c.toLowerCase()` on the ASCII letters; every other character is
      left alone. */
  function Lower(c: char): char {
    if 'A' <= c <= 'Z' then (c as int + 32) as char else c
  }

  /** `s.toLowerCase()`, letter by letter. */
  function LowerString(s: string): (r: string)
    ensures |r| == |s|
    ensures forall k :: 0 <= k < |s| ==> r[k] == Lower(s[k])
  {
    seq(|s|, k requires 0 <= k < |s| => Lower(s[k]))
  }

  predicate IsDigit(c: char) {
    '0' <= c <= '9'
  }

  function DigitChar(d: nat): (c: char)
    requires d < 10
    ensures IsDigit(c)
  {
    ('0' as int + d) as char
  }

  /** `String(n)` for a natural number: its decimal digits. */
  function Dec(n: nat): (r: string)
    ensures |r| >= 1
    ensures forall k :: 0 <= k < |r| ==> IsDigit(r[k])
    ensures n >= 10 <==> |r| >= 2
  {
    if n < 10 then [DigitChar(n)] else Dec(n / 10) + [DigitChar(n % 10)]
  }

  /** Different numbers print differently. */
  lemma {:induction false} DecInjective(a: nat, b: nat)
    requires Dec(a) == Dec(b)
    ensures a == b
  {
    if a >= 10 && b >= 10 {
      var da, db := Dec(a), Dec(b);
      assert da[|da| - 1] == DigitChar(a % 10);
      assert db[|db| - 1] == DigitChar(b % 10);
      assert Dec(a / 10) == da[..|da| - 1] == db[..|db| - 1] == Dec(b / 10);
      DecInjective(a / 10, b / 10);
    } else {
      assert Dec(a)[0] == DigitChar(a);
    }
  }

  /** The characters JavaScript's `trim` removes and `\s` matches: the
      WhiteSpace and LineTerminator code points of ECMAScript. */
  predicate IsSpace(c: char) {
    c == '\t' || c == '\n' || c == '\U{000B}' || c == '\U{000C}' || c == '\r' || c == ' '
    || c == '\U{00A0}' || c == '\U{1680}' || ('\U{2000}' <= c <= '\U{200A}')
    || c == '\U{2028}' || c == '\U{2029}' || c == '\U{202F}' || c == '\U{205F}'
    || c == '\U{3000}' || c == '\U{FEFF}'
  }

  /** The characters the regular-expression `.` does not match. */
  predicate IsLineTerminator(c: char) {
    c == '\n' || c == '\r' || c == '\U{2028}' || c == '\U{2029}'
  }
}
