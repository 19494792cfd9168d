/** The offline generator's sentence templates are texts with `{name}`
    placeholders, and `replacePlaceholders` fills them with one global
    `replace` per placeholder. This module gives such a text its structure:
    a list of literal pieces and placeholder slots whose rendering is the
    text. A global replace of `{name}` on the rendered text is then the same
    as turning every `Slot(name)` into literal text, which is what makes
    "no placeholder remains" provable. */
module Placeholders {
  import opened Strings

  /** Text in which no placeholder can start. */
  predicate Plain(s: string) {
    forall i | 0 <= i < |s| :: s[i] != '{'
  }

  /** A placeholder name: no braces at all. */
  predicate Word(s: string) {
    '{' !in s && '}' !in s
  }

  type PlainText = s: string | Plain(s)
  type Name = s: string | Word(s)

  /** Literal text and placeholder slots: every brace in the rendered
      text belongs to a slot. */
  datatype Piece = Lit(text: PlainText) | Slot(name: Name)

  /** The text of a placeholder, `{name}`. */
  function Placeholder(name: string): string {
    "{" + name + "}"
  }

  function RenderPiece(p: Piece): string {
    match p
    case Lit(t) => t
    case Slot(n) => Placeholder(n)
  }

  /** The text a list of pieces stands for. */
  function Render(ps: seq<Piece>): string
    decreases |ps|
  {
    if ps == [] then "" else RenderPiece(ps[0]) + Render(ps[1..])
  }

  /** What a global replace of `{name}` by `value` does to the pieces. */
  function Fill(ps: seq<Piece>, name: Name, value: PlainText): (r: seq<Piece>)
    ensures |r| == |ps|
    decreases |ps|
  {
    if ps == [] then []
    else [if ps[0] == Slot(name) then Lit(value) else ps[0]] + Fill(ps[1..], name, value)
  }

  lemma {:induction false} RenderAppend(a: seq<Piece>, b: seq<Piece>)
    ensures Render(a + b) == Render(a) + Render(b)
    decreases |a|
  {
    if a != [] {
      assert (a + b)[0] == a[0] && (a + b)[1..] == a[1..] + b;
      RenderAppend(a[1..], b);
      assert Render(a + b) == RenderPiece(a[0]) + Render(a[1..] + b);
    } else {
      assert a + b == b;
    }
  }

  /** A placeholder never matches at the start of a different placeholder. */
  lemma SlotMismatch(n: string, w: string, rest: string)
    requires Word(n) && Word(w) && n != w
    ensures !IsPrefix(Placeholder(w), Placeholder(n) + rest)
  {
    var p, s := Placeholder(w), Placeholder(n) + rest;
    if |n| < |w| {
      assert w[|n|] in w;
      assert s[|n| + 1] == '}' != w[|n|] == p[|n| + 1];
    } else if |n| > |w| {
      assert n[|w|] in n;
      assert p[|w| + 1] == '}' != n[|w|] == s[|w| + 1];
    } else {
      assert s[1..|n| + 1] == n != w == p[1..|w| + 1];
    }
  }

  /** Filling a slot on the pieces is exactly the global replace of its
      placeholder on the rendered text. */
  lemma {:induction false} FillRender(ps: seq<Piece>, name: Name, value: PlainText)
    ensures ReplaceAll(Render(ps), Placeholder(name), value) == Render(Fill(ps, name, value))
    decreases |ps|
  {
    var pat := Placeholder(name);
    if ps != [] {
      var rest := Render(ps[1..]);
      FillRender(ps[1..], name, value);
      match ps[0]
      case Lit(t) =>
        ReplaceAllSkip(t, rest, pat, value);
      case Slot(n) =>
        if n == name {
          assert (pat + rest)[..|pat|] == pat && (pat + rest)[|pat|..] == rest;
        } else {
          OtherSlotCopied(n, name, rest, value);
        }
    }
  }

  /** A global replace copies a different placeholder through. */
  lemma OtherSlotCopied(n: Name, name: Name, rest: string, value: string)
    requires n != name
    ensures ReplaceAll(Placeholder(n) + rest, Placeholder(name), value)
      == Placeholder(n) + ReplaceAll(rest, Placeholder(name), value)
  {
    var pat := Placeholder(name);
    SlotMismatch(n, name, rest);
    assert Placeholder(n) + rest == ['{'] + ((n + "}") + rest);
    ReplaceAllCons('{', (n + "}") + rest, pat, value);
    ReplaceAllSkip(n + "}", rest, pat, value);
    assert Placeholder(n) == ['{'] + (n + "}");
  }

  /** After filling `name`, the slots left are the old ones other than `name`. */
  lemma {:induction false} FillSlots(ps: seq<Piece>, name: Name, value: PlainText, w: Name)
    ensures Slot(w) in Fill(ps, name, value) <==> Slot(w) in ps && w != name
    decreases |ps|
  {
    if ps != [] {
      FillSlots(ps[1..], name, value, w);
      assert ps == [ps[0]] + ps[1..];
    }
  }

  /** A character that a text lacks cannot start an occurrence in it. */
  lemma {:induction false} ContainsSkip(t: string, rest: string, pat: string)
    requires |pat| > 0 && pat[0] !in t
    requires Contains(t + rest, pat)
    ensures Contains(rest, pat)
    decreases |t|
  {
    if t != [] {
      assert (t + rest)[0] == t[0];
      assert (t + rest)[1..] == t[1..] + rest;
      ContainsSkip(t[1..], rest, pat);
    } else {
      assert t + rest == rest;
    }
  }

  /** A placeholder occurs in the rendered text only where its slot is. */
  lemma {:induction false} AbsentSlotNotRendered(ps: seq<Piece>, w: Name)
    requires Slot(w) !in ps
    ensures !Contains(Render(ps), Placeholder(w))
    decreases |ps|
  {
    var pat := Placeholder(w);
    if ps != [] {
      var rest := Render(ps[1..]);
      assert Slot(w) !in ps[1..] by {
        assert ps == [ps[0]] + ps[1..];
      }
      AbsentSlotNotRendered(ps[1..], w);
      if Contains(Render(ps), pat) {
        match ps[0]
        case Lit(t) =>
          ContainsSkip(t, rest, pat);
        case Slot(n) =>
          SlotMismatch(n, w, rest);
          assert (Placeholder(n) + rest)[1..] == (n + "}") + rest;
          ContainsSkip(n + "}", rest, pat);
      }
    } else {
      assert !IsPrefix(pat, "");
    }
  }

  /** A slot that is still there shows up verbatim in the rendered text. */
  lemma {:induction false} PresentSlotRendered(ps: seq<Piece>, w: Name)
    requires Slot(w) in ps
    ensures Contains(Render(ps), Placeholder(w))
    decreases |ps|
  {
    if ps[0] == Slot(w) {
      ContainsItself(Placeholder(w));
      ContainsAppend(Placeholder(w), Render(ps[1..]), Placeholder(w));
    } else {
      assert ps == [ps[0]] + ps[1..];
      PresentSlotRendered(ps[1..], w);
      ContainsPrepend(RenderPiece(ps[0]), Render(ps[1..]), Placeholder(w));
    }
  }

  /** A binding `{key}` -> `value`, one entry of the name dictionary or one
      of the fixed replaces. */
  datatype Binding = Binding(key: Name, value: string)

  /** The global replaces of `{key}` by `value` for each binding in turn. */
  function ReplaceEach(s: string, bs: seq<Binding>): string
    decreases |bs|
  {
    if bs == [] then s
    else ReplaceAll(ReplaceEach(s, bs[..|bs| - 1]), Placeholder(bs[|bs| - 1].key), bs[|bs| - 1].value)
  }

  lemma ReplaceEachSnoc(s: string, bs: seq<Binding>, b: Binding)
    ensures ReplaceEach(s, bs + [b]) == ReplaceAll(ReplaceEach(s, bs), Placeholder(b.key), b.value)
  {
    assert (bs + [b])[..|bs|] == bs;
  }

  /** Replacing by `a` and then by `b` is replacing by `a + b`. */
  lemma {:induction false} ReplaceEachAppend(s: string, a: seq<Binding>, b: seq<Binding>)
    ensures ReplaceEach(s, a + b) == ReplaceEach(ReplaceEach(s, a), b)
    decreases |b|
  {
    if b == [] {
      assert a + b == a;
    } else {
      var front := b[..|b| - 1];
      assert a + b == (a + front) + [b[|b| - 1]];
      ReplaceEachSnoc(s, a + front, b[|b| - 1]);
      ReplaceEachAppend(s, a, front);
    }
  }

  predicate ValuesArePlain(bs: seq<Binding>) {
    forall i :: 0 <= i < |bs| ==> Plain(bs[i].value)
  }

  lemma ValuesArePlainPrefix(bs: seq<Binding>, n: nat)
    requires ValuesArePlain(bs) && n <= |bs|
    ensures ValuesArePlain(bs[..n])
  {
    forall i | 0 <= i < n ensures Plain(bs[..n][i].value) {
      assert bs[..n][i] == bs[i];
    }
  }

  lemma ValuesArePlainAppend(a: seq<Binding>, b: seq<Binding>)
    requires ValuesArePlain(a) && ValuesArePlain(b)
    ensures ValuesArePlain(a + b)
  {
    forall i | 0 <= i < |a + b| ensures Plain((a + b)[i].value) {
      if i >= |a| {
        assert (a + b)[i] == b[i - |a|];
      }
    }
  }

  /** The same bindings applied to the pieces. */
  function FillEach(ps: seq<Piece>, bs: seq<Binding>): (r: seq<Piece>)
    requires ValuesArePlain(bs)
    decreases |bs|
  {
    if bs == [] then ps
    else
      ValuesArePlainPrefix(bs, |bs| - 1);
      Fill(FillEach(ps, bs[..|bs| - 1]), bs[|bs| - 1].key, bs[|bs| - 1].value)
  }

  predicate Binds(bs: seq<Binding>, key: string) {
    exists i :: 0 <= i < |bs| && bs[i].key == key
  }

  /** Applying bindings to the text is filling them in on the pieces. */
  lemma {:induction false} FillEachRender(ps: seq<Piece>, bs: seq<Binding>)
    requires ValuesArePlain(bs)
    ensures ReplaceEach(Render(ps), bs) == Render(FillEach(ps, bs))
    decreases |bs|
  {
    if bs != [] {
      var init, b := bs[..|bs| - 1], bs[|bs| - 1];
      ValuesArePlainPrefix(bs, |bs| - 1);
      FillEachRender(ps, init);
      FillRender(FillEach(ps, init), b.key, b.value);
    }
  }

  /** The slots left after the bindings are the old slots nothing binds. */
  lemma {:induction false} FillEachSlots(ps: seq<Piece>, bs: seq<Binding>, w: Name)
    requires ValuesArePlain(bs)
    ensures Slot(w) in FillEach(ps, bs) <==> Slot(w) in ps && !Binds(bs, w)
    decreases |bs|
  {
    if bs != [] {
      var init, b := bs[..|bs| - 1], bs[|bs| - 1];
      ValuesArePlainPrefix(bs, |bs| - 1);
      FillEachSlots(ps, init, w);
      FillSlots(FillEach(ps, init), b.key, b.value, w);
      if Binds(bs, w) && b.key != w {
        var i :| 0 <= i < |bs| && bs[i].key == w;
        assert init[i] == bs[i];
      }
      if Binds(init, w) {
        var i :| 0 <= i < |init| && init[i].key == w;
        assert bs[i] == init[i];
      }
    }
  }

  /** The value filled into a slot stays in the pieces as literal text. */
  lemma {:induction false} FillKeepsValue(ps: seq<Piece>, name: Name, value: PlainText)
    requires Slot(name) in ps
    ensures Lit(value) in Fill(ps, name, value)
    decreases |ps|
  {
    if ps[0] != Slot(name) {
      assert ps == [ps[0]] + ps[1..];
      FillKeepsValue(ps[1..], name, value);
    }
  }

  lemma {:induction false} FillKeepsLiteral(ps: seq<Piece>, name: Name, value: PlainText, t: PlainText)
    requires Lit(t) in ps
    ensures Lit(t) in Fill(ps, name, value)
    decreases |ps|
  {
    if ps[0] != Lit(t) {
      assert ps == [ps[0]] + ps[1..];
      FillKeepsLiteral(ps[1..], name, value, t);
    }
  }

  /** Literal text survives any later bindings. */
  lemma {:induction false} FillEachKeepsLiteral(ps: seq<Piece>, bs: seq<Binding>, t: PlainText)
    requires ValuesArePlain(bs) && Lit(t) in ps
    ensures Lit(t) in FillEach(ps, bs)
    decreases |bs|
  {
    if bs != [] {
      ValuesArePlainPrefix(bs, |bs| - 1);
      FillEachKeepsLiteral(ps, bs[..|bs| - 1], t);
      FillKeepsLiteral(FillEach(ps, bs[..|bs| - 1]), bs[|bs| - 1].key, bs[|bs| - 1].value, t);
    }
  }

  /** The first binding's value replaces its slot and stays, whatever
      the later bindings are. */
  lemma {:induction false} FillEachFirst(ps: seq<Piece>, bs: seq<Binding>)
    requires ValuesArePlain(bs) && |bs| >= 1 && Slot(bs[0].key) in ps
    ensures Lit(bs[0].value) in FillEach(ps, bs)
    decreases |bs|
  {
    ValuesArePlainPrefix(bs, |bs| - 1);
    var init := bs[..|bs| - 1];
    if |bs| == 1 {
      FillKeepsValue(ps, bs[0].key, bs[0].value);
    } else {
      assert init[0] == bs[0];
      FillEachFirst(ps, init);
      FillKeepsLiteral(FillEach(ps, init), bs[|bs| - 1].key, bs[|bs| - 1].value, bs[0].value);
    }
  }

  /** Literal text among the pieces occurs verbatim in the rendering. */
  lemma {:induction false} LiteralRendered(ps: seq<Piece>, t: PlainText)
    requires Lit(t) in ps
    ensures Contains(Render(ps), t)
    decreases |ps|
  {
    if ps[0] == Lit(t) {
      ContainsItself(t);
      ContainsAppend(t, Render(ps[1..]), t);
    } else {
      assert ps == [ps[0]] + ps[1..];
      LiteralRendered(ps[1..], t);
      ContainsPrepend(RenderPiece(ps[0]), Render(ps[1..]), t);
    }
  }

  /** Sentences joined with a separator, as pieces. */
  function JoinPieces(pss: seq<seq<Piece>>, sep: PlainText): seq<Piece>
    decreases |pss|
  {
    if |pss| == 0 then []
    else if |pss| == 1 then pss[0]
    else pss[0] + [Lit(sep)] + JoinPieces(pss[1..], sep)
  }

  function RenderAll(pss: seq<seq<Piece>>): (r: seq<string>)
    ensures |r| == |pss|
    ensures forall i :: 0 <= i < |pss| ==> r[i] == Render(pss[i])
    decreases |pss|
  {
    if pss == [] then [] else [Render(pss[0])] + RenderAll(pss[1..])
  }

  /** Rendering joined pieces is joining the rendered sentences. */
  lemma {:induction false} RenderJoin(pss: seq<seq<Piece>>, sep: PlainText)
    ensures Render(JoinPieces(pss, sep)) == Join(RenderAll(pss), sep)
    decreases |pss|
  {
    if |pss| >= 2 {
      RenderJoin(pss[1..], sep);
      RenderAppend(pss[0] + [Lit(sep)], JoinPieces(pss[1..], sep));
      RenderAppend(pss[0], [Lit(sep)]);
      assert Render([Lit(sep)]) == sep;
      assert RenderAll(pss)[1..] == RenderAll(pss[1..]);
    }
  }

  /** Joining adds no slot. */
  lemma {:induction false} JoinPiecesSlots(pss: seq<seq<Piece>>, sep: PlainText, w: Name)
    requires forall i :: 0 <= i < |pss| ==> Slot(w) !in pss[i]
    ensures Slot(w) !in JoinPieces(pss, sep)
    decreases |pss|
  {
    if |pss| >= 2 {
      assert forall i :: 0 <= i < |pss[1..]| ==> pss[1..][i] == pss[i + 1];
      JoinPiecesSlots(pss[1..], sep, w);
      assert Slot(w) !in pss[0];
    }
  }
}
