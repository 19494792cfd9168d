/** The text service's clean-up passes: the global regular-expression
    replaces of `geminiService.formatStory` and of the text part of
    `processStoryWithMedia`. Each regular expression is written out as a
    function giving the length of its match at the start of a text (0 when
    it does not match there), following JavaScript's backtracking order;
    none of them looks behind or is anchored, so a global replace is a left
    to right scan that either replaces a match and jumps past it or copies
    one character. */
module GeminiText {
  import opened Strings

  /** The regular expressions of the clean-up. */
  datatype Pattern =
    | Marker(word: string, close: char)  // `\[IMAGE:\s*[^\]]*\]` and `\(Image:\s*[^)]*\)` with /i; `word` in lower case
    | Phrase(word: string, fold: bool)   // literal text, `fold` for /i
    | Heading                            // `#{1,6}\s`
    | NewlineRun(breaks: nat)            // `\n\s*\n` (2 breaks) and `\n\s*\n\s*\n` (3 breaks)
    | Blanks                             // `[ \t]+`
    | MediaMarker                        // `\[IMAGE:\s*(.+?)\]`, case-sensitive

  /** `t` starts with `w` ignoring ASCII case, which is what /i does for a
      pattern without the unicode flag: a non-ASCII character never
      matches an ASCII one. */
  predicate FoldPrefix(w: string, t: string) {
    |w| <= |t| && forall i :: 0 <= i < |w| ==> Lower(t[i]) == Lower(w[i])
  }

  /** The position of the first `c` in `u`. */
  function IndexOf(u: string, c: char): (k: nat)
    requires c in u
    ensures k < |u| && u[k] == c && c !in u[..k]
  {
    if u[0] == c then 0
    else
      var k := IndexOf(u[1..], c);
      assert u[..k + 1] == [u[0]] + u[1..][..k];
      k + 1
  }

  /** The number of characters at the start of `t` that satisfy `IsSpace`. */
  function SpaceRun(t: string): (n: nat)
    ensures n <= |t|
    ensures forall i :: 0 <= i < n ==> IsSpace(t[i])
    ensures n < |t| ==> !IsSpace(t[n])
  {
    if t != [] && IsSpace(t[0]) then 1 + SpaceRun(t[1..]) else 0
  }

  /** The number of `#` at the start of `t`. */
  function HashRun(t: string): (n: nat)
    ensures n <= |t|
    ensures n < |t| ==> t[n] != '#'
    ensures forall i :: 0 <= i < n ==> t[i] == '#'
  {
    if t != [] && t[0] == '#' then 1 + HashRun(t[1..]) else 0
  }

  /** The number of spaces and tabs at the start of `t`. */
  function BlankRun(t: string): (n: nat)
    ensures n <= |t|
    ensures n < |t| ==> t[n] != ' ' && t[n] != '\t'
    ensures forall i :: 0 <= i < n ==> t[i] == ' ' || t[i] == '\t'
  {
    if t != [] && (t[0] == ' ' || t[0] == '\t') then 1 + BlankRun(t[1..]) else 0
  }

  /** The line breaks in the whitespace at the start of `u`. */
  function SpaceBreaks(u: string): nat {
    if u != [] && IsSpace(u[0]) then (if u[0] == '\n' then 1 else 0) + SpaceBreaks(u[1..]) else 0
  }

  /** The length of the whitespace at the start of `u` up to and including
      its last line break, 0 when it has none: where a greedy `\s*`
      followed by `\n` stops. */
  function ThroughLastBreak(u: string): (n: nat)
    ensures SpaceBreaks(u) <= n <= |u|
    ensures n > 0 <==> SpaceBreaks(u) > 0
    ensures n < |u| ==> u[n] != '\n'
  {
    if u != [] && IsSpace(u[0]) then
      var r := ThroughLastBreak(u[1..]);
      if r > 0 then r + 1 else if u[0] == '\n' then 1 else 0
    else 0
  }

  /** Where a lazy `.+?\]` stops in `x`, the text after its first
      character: the first `]`, unless a line terminator comes first. */
  function LazyClose(x: string): (k: int)
    ensures -1 <= k < |x|
    ensures k >= 0 ==> x[k] == ']'
  {
    if x == [] then -1
    else if x[0] == ']' then 0
    else if IsLineTerminator(x[0]) then -1
    else
      var k := LazyClose(x[1..]);
      if k < 0 then -1 else k + 1
  }

  /** `\[IMAGE:\s*(.+?)\]` after its first seven characters: `\s*` first
      takes the whole whitespace run and `.+?` the shortest text after it
      that closes; when that fails, `\s*` gives back one space for `.+?` to
      take, which only helps when the run is followed by `]`. */
  function MediaRest(u: string): (n: nat)
    ensures n <= |u|
    ensures n == 0 || n >= 2
  {
    var w := SpaceRun(u);
    if w < |u| && LazyClose(u[w + 1..]) >= 0 then w + 1 + LazyClose(u[w + 1..]) + 1
    else if 0 < w < |u| && u[w] == ']' && !IsLineTerminator(u[w - 1]) then w + 1
    else 0
  }

  /** The least length of a match: what a replace of a match can at most
      add back without growing the text. */
  function MinLen(p: Pattern): nat {
    match p
    case Marker(w, _) => |w| + 1
    case Phrase(w, _) => |w|
    case Heading => 2
    case NewlineRun(k) => k
    case Blanks => 1
    case MediaMarker => 9
  }

  /** The length of the match of `p` at the start of `t`, 0 for none. */
  function MatchLen(p: Pattern, t: string): (n: nat)
    ensures n <= |t|
    ensures n == 0 || n >= MinLen(p)
  {
    match p
    case Marker(w, close) =>
      if FoldPrefix(w, t) && close in t[|w|..] then |w| + IndexOf(t[|w|..], close) + 1 else 0
    case Phrase(w, fold) =>
      if (if fold then FoldPrefix(w, t) else IsPrefix(w, t)) then |w| else 0
    case Heading =>
      var r := HashRun(t);
      if 1 <= r <= 6 && r < |t| && IsSpace(t[r]) then r + 1 else 0
    case NewlineRun(k) =>
      if k >= 2 && t != [] && t[0] == '\n' && SpaceBreaks(t[1..]) + 1 >= k then 1 + ThroughLastBreak(t[1..]) else 0
    case Blanks =>
      BlankRun(t)
    case MediaMarker =>
      if IsPrefix("[IMAGE:", t) && MediaRest(t[7..]) > 0 then 7 + MediaRest(t[7..]) else 0
  }

  /** `s.replace(p, rep)` for a global regular expression `p` whose
      matches are never empty: matches are taken left to right and do not
      overlap. A replacement no longer than any match does not lengthen
      the text. */
  function ReplaceMatches(s: string, p: Pattern, rep: string): (r: string)
    ensures |rep| <= MinLen(p) ==> |r| <= |s|
    decreases |s|
  {
    if s == [] then []
    else
      var n := MatchLen(p, s);
      if n > 0 then rep + ReplaceMatches(s[n..], p, rep) else [s[0]] + ReplaceMatches(s[1..], p, rep)
  }

  /** Every character of the result comes from the text or from the
      replacement. */
  lemma {:induction false} ReplaceProvenance(s: string, p: Pattern, rep: string, c: char)
    requires c in ReplaceMatches(s, p, rep)
    ensures c in s || c in rep
    decreases |s|
  {
    var n := MatchLen(p, s);
    if n > 0 {
      var rest := ReplaceMatches(s[n..], p, rep);
      if c !in rep {
        assert c in rest;
        ReplaceProvenance(s[n..], p, rep, c);
      }
    } else if c != s[0] {
      ReplaceProvenance(s[1..], p, rep, c);
    }
  }

  /** A character that starts a one-character phrase is removed
      everywhere. */
  lemma {:induction false} PhraseRemoved(s: string, c: char)
    ensures c !in ReplaceMatches(s, Phrase([c], false), "")
    decreases |s|
  {
    if s != [] {
      var n := MatchLen(Phrase([c], false), s);
      if n > 0 {
        PhraseRemoved(s[n..], c);
      } else {
        assert s[..1] == [s[0]];
        PhraseRemoved(s[1..], c);
      }
    }
  }

  /** After `[ \t]+` is replaced by one space there is no tab, and no two
      spaces in a row. */
  lemma {:induction false} BlanksCollapsed(s: string)
    ensures var r := ReplaceMatches(s, Blanks, " ");
      '\t' !in r && !Contains(r, "  ")
      && (s != [] && s[0] != ' ' && s[0] != '\t' ==> r != [] && r[0] == s[0])
    decreases |s|
  {
    if s != [] {
      var n := BlankRun(s);
      if n > 0 {
        BlanksCollapsed(s[n..]);
        var rest := ReplaceMatches(s[n..], Blanks, " ");
        assert s[n..] == [] || (s[n..][0] != ' ' && s[n..][0] != '\t');
        assert rest == [] || rest[0] != ' ';
        assert " " + rest == [' '] + rest;
        ContainsCons(' ', rest, "  ");
        assert !IsPrefix("  ", [' '] + rest) by {
          if |rest| >= 1 { assert ([' '] + rest)[1] == rest[0]; }
        }
      } else {
        BlanksCollapsed(s[1..]);
        var rest := ReplaceMatches(s[1..], Blanks, " ");
        ContainsCons(s[0], rest, "  ");
        assert ([s[0]] + rest)[0] == s[0];
      }
    }
  }

  /** The replace of blanks keeps the line breaks at the start of a text:
      the result starts with a break exactly when the text does, and with
      two breaks only when the text does. */
  lemma BlanksLeadingBreaks(s: string)
    ensures var r := ReplaceMatches(s, Blanks, " ");
      (r != [] && r[0] == '\n' <==> s != [] && s[0] == '\n')
      && (IsPrefix("\n\n", r) ==> IsPrefix("\n\n", s))
  {
    if s != [] && s[0] == '\n' {
      assert BlankRun(s) == 0;
      var rest := ReplaceMatches(s[1..], Blanks, " ");
      assert ReplaceMatches(s, Blanks, " ") == [s[0]] + rest;
      if s[1..] != [] && s[1] == '\n' {
        assert BlankRun(s[1..]) == 0;
      }
      if IsPrefix("\n\n", [s[0]] + rest) {
        assert ([s[0]] + rest)[1] == rest[0];
      }
    } else if s != [] {
      BlanksCollapsed(s);
    }
  }

  /** The replace of blanks creates no line breaks in a row. */
  lemma {:induction false} BlanksKeepBreaks(s: string)
    requires !Contains(s, "\n\n\n")
    ensures !Contains(ReplaceMatches(s, Blanks, " "), "\n\n\n")
    decreases |s|
  {
    if s != [] {
      var n := BlankRun(s);
      if n > 0 {
        ContainsSuffix(s, n, "\n\n\n");
        BlanksKeepBreaks(s[n..]);
        var rest := ReplaceMatches(s[n..], Blanks, " ");
        assert " " + rest == [' '] + rest;
        ContainsCons(' ', rest, "\n\n\n");
        NotThreeBreaks([' '] + rest);
      } else {
        ContainsSuffix(s, 1, "\n\n\n");
        BlanksKeepBreaks(s[1..]);
        var rest := ReplaceMatches(s[1..], Blanks, " ");
        ContainsCons(s[0], rest, "\n\n\n");
        if IsPrefix("\n\n\n", [s[0]] + rest) {
          assert ([s[0]] + rest)[1..3] == rest[..2];
          BlanksLeadingBreaks(s[1..]);
          assert false;
        }
      }
    }
  }

  /** After a replace of blank lines a text starts with a line break
      exactly when it did before. */
  lemma BreaksLeadingBreak(s: string, k: nat)
    ensures var r := ReplaceMatches(s, NewlineRun(k), "\n\n");
      r != [] && r[0] == '\n' <==> s != [] && s[0] == '\n'
  {
  }

  /** After `\n\s*\n\s*\n` is replaced by `\n\n` there are no three line
      breaks in a row. */
  lemma {:induction false} BlankLinesCollapsed(s: string)
    ensures !Contains(ReplaceMatches(s, NewlineRun(3), "\n\n"), "\n\n\n")
    decreases |s|
  {
    var p := NewlineRun(3);
    if s != [] {
      var n := MatchLen(p, s);
      if n > 0 {
        BlankLinesCollapsed(s[n..]);
        var rest := ReplaceMatches(s[n..], p, "\n\n");
        ThroughLastBreakEnds(s[1..]);
        assert s[n..] == [] || s[n..][0] != '\n' by {
          assert s[n..] == s[1..][ThroughLastBreak(s[1..])..];
        }
        BreaksLeadingBreak(s[n..], 3);
        TwoBreaksThen(rest);
      } else {
        BlankLinesCollapsed(s[1..]);
        var rest := ReplaceMatches(s[1..], p, "\n\n");
        ContainsCons(s[0], rest, "\n\n\n");
        if s[0] == '\n' {
          OneBreakAfterBreak(s);
        } else {
          assert ([s[0]] + rest)[0] == s[0];
        }
      }
    }
  }

  /** Where the last break of a whitespace run is, the run has no more. */
  lemma ThroughLastBreakEnds(u: string)
    ensures var n := ThroughLastBreak(u); n == |u| || u[n..][0] != '\n'
  {
  }

  /** Two breaks followed by a text that does not start with one hold no
      three in a row when the text holds none. */
  lemma TwoBreaksThen(rest: string)
    requires !Contains(rest, "\n\n\n") && (rest == [] || rest[0] != '\n')
    ensures !Contains("\n\n" + rest, "\n\n\n")
  {
    assert "\n\n" + rest == ['\n'] + (['\n'] + rest);
    ContainsCons('\n', ['\n'] + rest, "\n\n\n");
    ContainsCons('\n', rest, "\n\n\n");
    if |rest| >= 1 {
      assert (['\n'] + (['\n'] + rest))[2] == rest[0];
      assert (['\n'] + rest)[1] == rest[0];
    }
  }

  /** A line break where `\n\s*\n\s*\n` does not match is followed by at
      most one more in the result. */
  lemma OneBreakAfterBreak(s: string)
    requires s != [] && s[0] == '\n' && MatchLen(NewlineRun(3), s) == 0
    ensures !IsPrefix("\n\n\n", [s[0]] + ReplaceMatches(s[1..], NewlineRun(3), "\n\n"))
  {
    var p := NewlineRun(3);
    var u := s[1..];
    var rest := ReplaceMatches(u, p, "\n\n");
    BreaksLeadingBreak(u, 3);
    if rest != [] && rest[0] == '\n' {
      assert u[0] == '\n';
      assert SpaceBreaks(u) == 1 + SpaceBreaks(u[1..]);
      assert SpaceBreaks(u[1..]) == 0;
      assert MatchLen(p, u) == 0;
      var tail := ReplaceMatches(u[1..], p, "\n\n");
      assert rest == [u[0]] + tail;
      assert u[1..] == [] || u[1..][0] != '\n';
      BreaksLeadingBreak(u[1..], 3);
      assert tail == [] || tail[0] != '\n';
      if |tail| >= 1 {
        assert ([s[0]] + rest)[2] == tail[0];
      }
    } else if rest != [] {
      assert ([s[0]] + rest)[1] == rest[0];
    }
    NotThreeBreaks([s[0]] + rest);
  }

  lemma NotThreeBreaks(x: string)
    requires |x| < 3 || x[0] != '\n' || x[1] != '\n' || x[2] != '\n'
    ensures !IsPrefix("\n\n\n", x)
  {
    if |x| >= 3 {
      assert x[..3][0] == x[0] && x[..3][1] == x[1] && x[..3][2] == x[2];
    }
  }

  /** `[IMAGE:` itself does not start inside a text without it. */
  lemma {:induction false} MediaMarkerFree(s: string)
    requires !Contains(s, "[IMAGE:")
    ensures ReplaceMatches(s, MediaMarker, "") == s
    decreases |s|
  {
    if s != [] {
      assert !IsPrefix("[IMAGE:", s) && !Contains(s[1..], "[IMAGE:");
      assert MatchLen(MediaMarker, s) == 0;
      MediaMarkerFree(s[1..]);
      assert [s[0]] + s[1..] == s;
    }
  }

  /** A description of a marker: no `]` and no line terminator, and not
      only whitespace. */
  predicate Description(d: string) {
    (forall i :: 0 <= i < |d| ==> d[i] != ']' && !IsLineTerminator(d[i]))
    && exists i :: 0 <= i < |d| && !IsSpace(d[i])
  }

  lemma {:induction false} SpaceRunWithin(d: string, rest: string)
    requires exists i :: 0 <= i < |d| && !IsSpace(d[i])
    ensures SpaceRun(d + rest) == SpaceRun(d) < |d|
    decreases |d|
  {
    if IsSpace(d[0]) {
      var i :| 0 <= i < |d| && !IsSpace(d[i]);
      assert d[1..][i - 1] == d[i];
      assert (d + rest)[1..] == d[1..] + rest;
      SpaceRunWithin(d[1..], rest);
    }
  }

  lemma {:induction false} LazyCloseAt(x: string, b: string)
    requires forall i :: 0 <= i < |x| ==> x[i] != ']' && !IsLineTerminator(x[i])
    ensures LazyClose(x + "]" + b) == |x|
    decreases |x|
  {
    if x != [] {
      assert (x + "]" + b)[1..] == x[1..] + "]" + b;
      LazyCloseAt(x[1..], b);
    } else {
      assert (x + "]" + b)[0] == ']';
    }
  }

  /** After `[IMAGE:`, a description and its `]` are the rest of the
      marker. */
  lemma MediaRestDescription(d: string, b: string)
    requires Description(d)
    ensures MediaRest(d + ("]" + b)) == |d| + 1
  {
    var u := d + ("]" + b);
    SpaceRunWithin(d, "]" + b);
    var w := SpaceRun(u);
    assert u[w + 1..] == d[w + 1..] + "]" + b;
    LazyCloseAt(d[w + 1..], b);
  }

  /** `processStoryWithMedia` removes a marker `[IMAGE: d]` at the start
      of the text. */
  lemma MediaMarkerRemoved(d: string, b: string)
    requires Description(d)
    ensures ReplaceMatches("[IMAGE:" + d + "]" + b, MediaMarker, "") == ReplaceMatches(b, MediaMarker, "")
  {
    var s := "[IMAGE:" + d + "]" + b;
    assert s[..7] == "[IMAGE:" && s[7..] == d + ("]" + b);
    MediaRestDescription(d, b);
    assert MatchLen(MediaMarker, s) == 8 + |d|;
    assert s[8 + |d|..] == b;
  }

  /** `formatStory` removes a marker `[image: d]`, in any case, at the
      start of the text. */
  lemma ImageMarkerRemoved(head: string, d: string, b: string)
    requires |head| == 7 && FoldPrefix("[image:", head) && ']' !in d
    ensures ReplaceMatches(head + d + "]" + b, ImageMarker, "") == ReplaceMatches(b, ImageMarker, "")
  {
    var s := head + d + "]" + b;
    var u := d + ("]" + b);
    assert s[..7] == head && s[7..] == u;
    assert FoldPrefix("[image:", s);
    assert u[|d|] == ']';
    assert IndexOf(u, ']') == |d| by {
      var k := IndexOf(u, ']');
      if k > |d| { assert false; }
    }
    assert s[7 + |d| + 1..] == b;
  }

  /** Where the whitespace and line terminators that `s.trim()` cuts off
      the front stop, looking from `i` on. */
  function SpacesFrom(s: string, i: nat): (n: nat)
    requires i <= |s|
    ensures i <= n <= |s|
    ensures forall k :: i <= k < n ==> IsSpace(s[k])
    ensures n < |s| ==> !IsSpace(s[n])
    decreases |s| - i
  {
    if i < |s| && IsSpace(s[i]) then SpacesFrom(s, i + 1) else i
  }

  /** Where the whitespace that `s.trim()` cuts off the end starts,
      looking back from `j` but not past `lo`. */
  function SpacesBefore(s: string, j: nat, lo: nat): (n: nat)
    requires lo <= j <= |s|
    ensures lo <= n <= j
    ensures forall k :: n <= k < j ==> IsSpace(s[k])
    ensures n > lo ==> !IsSpace(s[n - 1])
    decreases j
  {
    if j > lo && IsSpace(s[j - 1]) then SpacesBefore(s, j - 1, lo) else j
  }

  /** `s[i..j]` is what is left of `s` when whitespace is cut off at
      both ends. */
  predicate TrimmedSlice(s: string, i: int, j: int) {
    && 0 <= i <= j <= |s|
    && (forall k :: 0 <= k < i ==> IsSpace(s[k]))
    && (forall k :: j <= k < |s| ==> IsSpace(s[k]))
  }

  /** `s.trim()`: the slice of the text left when the whitespace at both
      ends is cut off; it neither starts nor ends with whitespace. */
  function Trim(s: string): (r: string)
    ensures |r| <= |s|
    ensures exists i, j :: TrimmedSlice(s, i, j) && r == s[i..j]
    ensures r == [] || (!IsSpace(r[0]) && !IsSpace(r[|r| - 1]))
  {
    var i := SpacesFrom(s, 0);
    var j := SpacesBefore(s, |s|, i);
    assert TrimmedSlice(s, i, j);
    s[i..j]
  }

  /** `[IMAGE: ...]` and `[Image: ...]` with /i: the same expression. */
  const ImageMarker: Pattern := Marker("[image:", ']')

  /** `geminiService.formatStory`: trim, remove image markers and
      markdown, normalise paragraph breaks, squeeze blanks. */
  function FormatStory(story: string): string {
    var trimmed := Trim(story);
    var noMarkers := ReplaceMatches(ReplaceMatches(trimmed, ImageMarker, ""), ImageMarker, "");
    var noPhrase := ReplaceMatches(noMarkers, Phrase("image placeholder", true), "");
    var noNotes := ReplaceMatches(noPhrase, Marker("(image:", ')'), "");
    var noStars := ReplaceMatches(ReplaceMatches(noNotes, Phrase("**", false), ""), Phrase("*", false), "");
    var noHeadings := ReplaceMatches(noStars, Heading, "");
    var breaks := ReplaceMatches(ReplaceMatches(noHeadings, NewlineRun(2), "\n\n"), NewlineRun(3), "\n\n");
    ReplaceMatches(breaks, Blanks, " ")
  }

  /** The formatted story is no longer than the story, has no `*`, no tab,
      no two spaces in a row and no three line breaks in a row. */
  lemma FormatStoryCleans(story: string)
    ensures var r := FormatStory(story);
      |r| <= |story| && '*' !in r && '\t' !in r && !Contains(r, "  ") && !Contains(r, "\n\n\n")
  {
    var trimmed := Trim(story);
    var m1 := ReplaceMatches(trimmed, ImageMarker, "");
    var m2 := ReplaceMatches(m1, ImageMarker, "");
    var m3 := ReplaceMatches(m2, Phrase("image placeholder", true), "");
    var m4 := ReplaceMatches(m3, Marker("(image:", ')'), "");
    var m5 := ReplaceMatches(m4, Phrase("**", false), "");
    var m6 := ReplaceMatches(m5, Phrase("*", false), "");
    var m7 := ReplaceMatches(m6, Heading, "");
    var m8 := ReplaceMatches(m7, NewlineRun(2), "\n\n");
    var m9 := ReplaceMatches(m8, NewlineRun(3), "\n\n");
    var r := ReplaceMatches(m9, Blanks, " ");
    PhraseRemoved(m5, '*');
    StarStaysOut(m6, m7, m8, m9, r);
    BlankLinesCollapsed(m8);
    BlanksKeepBreaks(m9);
    BlanksCollapsed(m9);
  }

  /** The passes after the one that removes `*` put none back. */
  lemma StarStaysOut(m6: string, m7: string, m8: string, m9: string, r: string)
    requires '*' !in m6
    requires m7 == ReplaceMatches(m6, Heading, "")
    requires m8 == ReplaceMatches(m7, NewlineRun(2), "\n\n")
    requires m9 == ReplaceMatches(m8, NewlineRun(3), "\n\n")
    requires r == ReplaceMatches(m9, Blanks, " ")
    ensures '*' !in r
  {
    if '*' in m7 { ReplaceProvenance(m6, Heading, "", '*'); }
    if '*' in m8 { ReplaceProvenance(m7, NewlineRun(2), "\n\n", '*'); }
    if '*' in m9 { ReplaceProvenance(m8, NewlineRun(3), "\n\n", '*'); }
    if '*' in r { ReplaceProvenance(m9, Blanks, " ", '*'); }
  }

  /** The text part of `processStoryWithMedia`: `[IMAGE: ...]` markers
      removed, then runs of blank lines collapsed. */
  function CleanStory(story: string): (r: string)
    ensures |r| <= |story| && !Contains(r, "\n\n\n")
  {
    var noMarkers := ReplaceMatches(story, MediaMarker, "");
    BlankLinesCollapsed(noMarkers);
    ReplaceMatches(noMarkers, NewlineRun(3), "\n\n")
  }

  /** Text without `[` goes through the marker removal unchanged, and
      the removal carries on after it. */
  lemma {:induction false} MediaMarkerSkip(a: string, t: string)
    requires '[' !in a
    ensures ReplaceMatches(a + t, MediaMarker, "") == a + ReplaceMatches(t, MediaMarker, "")
    decreases |a|
  {
    if a != [] {
      var s := a + t;
      assert s[0] == a[0] && s[1..] == a[1..] + t;
      assert !IsPrefix("[IMAGE:", s);
      MediaMarkerSkip(a[1..], t);
      assert a == [a[0]] + a[1..];
    } else {
      assert a + t == t;
    }
  }

  /** `processStoryWithMedia`'s text drops an `[IMAGE: d]` marker that
      follows text without `[`: the cleaned story is the one the marker
      was never in. */
  lemma CleanStoryDropsMarker(a: string, d: string, b: string)
    requires '[' !in a && Description(d)
    ensures CleanStory(a + "[IMAGE:" + d + "]" + b) == CleanStory(a + b)
  {
    var m := "[IMAGE:" + d + "]" + b;
    assert a + "[IMAGE:" + d + "]" + b == a + m;
    MediaMarkerSkip(a, m);
    MediaMarkerRemoved(d, b);
    MediaMarkerSkip(a, b);
  }

  /** Without markers the text is only changed where three or more line
      breaks, with whitespace between them, come in a row. */
  lemma CleanStoryMarkerFree(s: string)
    requires !Contains(s, "[IMAGE:")
    ensures CleanStory(s) == ReplaceMatches(s, NewlineRun(3), "\n\n")
  {
    MediaMarkerFree(s);
  }
}
