/**
 * `clean_content`, `calculate_metadata` and `create_generated_content` (backend/utils.py):
 * tag removal, markdown removal, whitespace normalisation, and the word, character and
 * reading-time figures computed from the cleaned text.
 */
module Cleaning {
  import opened Wrappers
  import opened Text
  import opened Seqs
  import opened Markdown
  import opened Types

  /** No two adjacent characters are both space or tab. */
  predicate NoDoubleBlank(s: string) {
    forall i :: 0 < i < |s| ==> !(IsBlank(s[i - 1]) && IsBlank(s[i]))
  }

  /** No space or tab stands directly before a line break. */
  predicate NoBlankBeforeNewline(s: string) {
    forall i :: 0 < i < |s| ==> !(IsBlank(s[i - 1]) && s[i] == '\n')
  }

  /** No three line breaks in a row. */
  predicate NoTripleNewline(s: string) {
    forall i :: 1 < i < |s| ==> !(s[i - 2] == '\n' && s[i - 1] == '\n' && s[i] == '\n')
  }

  /** `re.sub(r'<[^>]+>', '', s)`: every `<…>` with a non-empty inside (which may span lines) is removed. */
  function StripTags(s: string): (r: string)
    ensures |r| <= |s|
    decreases |s|
  {
    if s == [] then []
    else if s[0] == '<' then
      match IndexFrom(s, '>', 1)
      case Some(k) => if k > 1 then StripTags(s[k + 1..]) else [s[0]] + StripTags(s[1..])
      case None => [s[0]] + StripTags(s[1..])
    else [s[0]] + StripTags(s[1..])
  }

  /** Text without `<` is left alone. */
  lemma {:induction false} StripTagsIdentity(s: string)
    requires forall k :: 0 <= k < |s| ==> s[k] != '<'
    ensures StripTags(s) == s
    decreases |s|
  {
    if s != [] {
      StripTagsIdentity(s[1..]);
    }
  }

  /** A character put in front of a text keeps the shape the text has, unless it forms a forbidden pair or triple with the text's start. */
  lemma ConsKeepsShape(c: char, t: string)
    ensures NoDoubleBlank(t) && (t != [] ==> !(IsBlank(c) && IsBlank(t[0])))
            ==> NoDoubleBlank([c] + t)
    ensures NoBlankBeforeNewline(t) && (t != [] ==> !(IsBlank(c) && t[0] == '\n'))
            ==> NoBlankBeforeNewline([c] + t)
    ensures NoTripleNewline(t) && (|t| >= 2 ==> !(c == '\n' && t[0] == '\n' && t[1] == '\n'))
            ==> NoTripleNewline([c] + t)
  {
    var u := [c] + t;
    assert forall k :: 1 <= k < |u| ==> u[k] == t[k - 1];
  }

  /** `re.sub(r'[ \t]+', ' ', s)`: each run of spaces and tabs becomes one space. */
  function CollapseBlanks(s: string): (r: string)
    ensures |r| <= |s|
    decreases |s|
  {
    if s == [] then []
    else if IsBlank(s[0]) then
      var m := SkipBlanks(s, 0);
      [' '] + CollapseBlanks(s[m..])
    else [s[0]] + CollapseBlanks(s[1..])
  }

  /** After the blank collapse no two blanks are adjacent, and the text opens with a space exactly where it opened with a blank. */
  lemma {:induction false} CollapseBlanksShape(s: string)
    ensures NoDoubleBlank(CollapseBlanks(s))
    ensures s != [] ==> CollapseBlanks(s) != [] && CollapseBlanks(s)[0] == (if IsBlank(s[0]) then ' ' else s[0])
    decreases |s|
  {
    if s != [] {
      if IsBlank(s[0]) {
        var m := SkipBlanks(s, 0);
        CollapseBlanksShape(s[m..]);
        ConsKeepsShape(' ', CollapseBlanks(s[m..]));
      } else {
        CollapseBlanksShape(s[1..]);
        ConsKeepsShape(s[0], CollapseBlanks(s[1..]));
      }
    }
  }

  /** `re.sub(r'\n{3,}', '\n\n', s)`: each run of three or more line breaks becomes two. */
  function CollapseNewlines(s: string): (r: string)
    ensures |r| <= |s|
    decreases |s|
  {
    if s == [] then []
    else if s[0] == '\n' && SkipChar(s, '\n', 0) >= 3 then
      var m := SkipChar(s, '\n', 0);
      "\n\n" + CollapseNewlines(s[m..])
    else [s[0]] + CollapseNewlines(s[1..])
  }

  /** The collapse keeps the first character, and the opening run of line breaks is cut to two when it is longer. */
  lemma {:induction false} CollapseNewlinesHead(s: string)
    ensures s != [] ==> CollapseNewlines(s) != [] && CollapseNewlines(s)[0] == s[0]
    ensures SkipChar(CollapseNewlines(s), '\n', 0)
            == (if SkipChar(s, '\n', 0) >= 3 then 2 else SkipChar(s, '\n', 0))
    decreases |s|
  {
    if s != [] {
      var r := CollapseNewlines(s);
      if s[0] == '\n' && SkipChar(s, '\n', 0) >= 3 {
        var m := SkipChar(s, '\n', 0);
        CollapseNewlinesHead(s[m..]);
        RunOfThree(s[m..], CollapseNewlines(s[m..]));
      } else {
        var rest := CollapseNewlines(s[1..]);
        CollapseNewlinesHead(s[1..]);
        if s[0] == '\n' {
          SkipCharTail(s);
          SkipCharTail(r);
          assert r[1..] == rest;
        }
      }
    }
  }

  /** After a maximal run of line breaks the remainder starts with something else. */
  lemma RunOfThree(t: string, r: string)
    requires t != [] ==> r != [] && r[0] == t[0]
    requires t != [] ==> t[0] != '\n'
    requires |r| <= |t|
    ensures SkipChar("\n\n" + r, '\n', 0) == 2
  {
    var u := "\n\n" + r;
    assert SkipChar(u, '\n', 2) == 2;
    assert SkipChar(u, '\n', 1) == 2;
  }

  /** Dropping the first character of a run of line breaks shortens the run by one. */
  lemma SkipCharTail(s: string)
    requires s != []
    ensures s[0] == '\n' ==> SkipChar(s[1..], '\n', 0) == SkipChar(s, '\n', 0) - 1
  {
    if s[0] == '\n' {
      SkipCharShift(s, '\n', 1);
    }
  }

  lemma {:induction false} SkipCharShift(s: string, c: char, from: nat)
    requires 1 <= from <= |s|
    ensures SkipChar(s[1..], c, from - 1) == SkipChar(s, c, from) - 1
    decreases |s| - from
  {
    if from < |s| && s[from] == c {
      assert s[1..][from - 1] == s[from];
      SkipCharShift(s, c, from + 1);
    } else if from < |s| {
      assert s[1..][from - 1] == s[from];
    }
  }

  /** `SkipChar` stops at the end of the run. */
  lemma {:induction false} SkipCharRun(s: string, c: char, from: nat, to: nat)
    requires from <= to <= |s|
    requires forall k :: from <= k < to ==> s[k] == c
    requires to < |s| ==> s[to] != c
    ensures SkipChar(s, c, from) == to
    decreases |s| - from
  {
    if from < to {
      SkipCharRun(s, c, from + 1, to);
    }
  }

  /** After the newline collapse no three line breaks are adjacent. */
  lemma {:induction false} CollapseNewlinesNoTriple(s: string)
    ensures NoTripleNewline(CollapseNewlines(s))
    decreases |s|
  {
    if s != [] {
      if s[0] == '\n' && SkipChar(s, '\n', 0) >= 3 {
        var m := SkipChar(s, '\n', 0);
        var rest := CollapseNewlines(s[m..]);
        CollapseNewlinesNoTriple(s[m..]);
        CollapseNewlinesHead(s[m..]);
        ConsKeepsShape('\n', rest);
        ConsKeepsShape('\n', ['\n'] + rest);
        assert "\n\n" + rest == ['\n'] + (['\n'] + rest);
      } else {
        var rest := CollapseNewlines(s[1..]);
        CollapseNewlinesNoTriple(s[1..]);
        CollapseNewlinesHead(s[1..]);
        if s[0] == '\n' {
          SkipCharTail(s);
        }
        ConsKeepsShape(s[0], rest);
      }
    }
  }

  /** The newline collapse introduces no adjacent blanks. */
  lemma {:induction false} CollapseNewlinesKeepsNoDoubleBlank(s: string)
    requires NoDoubleBlank(s)
    ensures NoDoubleBlank(CollapseNewlines(s))
    decreases |s|
  {
    if s != [] {
      if s[0] == '\n' && SkipChar(s, '\n', 0) >= 3 {
        var m := SkipChar(s, '\n', 0);
        var rest := CollapseNewlines(s[m..]);
        DropKeepsShape(s, m);
        CollapseNewlinesKeepsNoDoubleBlank(s[m..]);
        ConsKeepsShape('\n', rest);
        ConsKeepsShape('\n', ['\n'] + rest);
        assert "\n\n" + rest == ['\n'] + (['\n'] + rest);
      } else {
        var rest := CollapseNewlines(s[1..]);
        DropKeepsShape(s, 1);
        CollapseNewlinesKeepsNoDoubleBlank(s[1..]);
        CollapseNewlinesHead(s[1..]);
        ConsKeepsShape(s[0], rest);
      }
    }
  }

  /** `re.sub(r'[ \t]+\n', '\n', s)`: spaces and tabs directly before a line break are removed. */
  function TrimLineEnds(s: string): (r: string)
    ensures |r| <= |s|
    decreases |s|
  {
    if s == [] then []
    else if IsBlank(s[0]) && SkipBlanks(s, 0) < |s| && s[SkipBlanks(s, 0)] == '\n' then
      var m := SkipBlanks(s, 0);
      "\n" + TrimLineEnds(s[m + 1..])
    else [s[0]] + TrimLineEnds(s[1..])
  }

  /** The first character `TrimLineEnds` produces: a line break if the text opens with blanks and a line break, otherwise its own first character. */
  function LineEndHead(s: string): char
    requires s != []
  {
    var m := SkipBlanks(s, 0);
    if m < |s| && s[m] == '\n' then '\n' else s[0]
  }

  /** The trim opens with `LineEndHead`. */
  lemma TrimLineEndsHead(s: string)
    requires s != []
    ensures TrimLineEnds(s) != [] && TrimLineEnds(s)[0] == LineEndHead(s)
  {
  }

  /** Inside a run of blanks that does not end in a line break, the next character is not a line break. */
  lemma LineEndHeadTail(s: string)
    requires s != []
    requires !(IsBlank(s[0]) && SkipBlanks(s, 0) < |s| && s[SkipBlanks(s, 0)] == '\n')
    ensures IsBlank(s[0]) && |s| > 1 ==> LineEndHead(s[1..]) != '\n'
  {
    if IsBlank(s[0]) && |s| > 1 {
      SkipBlanksShift(s, 1);
    }
  }

  lemma {:induction false} SkipBlanksShift(s: string, from: nat)
    requires 1 <= from <= |s|
    ensures SkipBlanks(s[1..], from - 1) == SkipBlanks(s, from) - 1
    decreases |s| - from
  {
    if from < |s| {
      assert s[1..][from - 1] == s[from];
      if IsBlank(s[from]) {
        SkipBlanksShift(s, from + 1);
      }
    }
  }

  /** After the trim no blank stands before a line break. */
  lemma {:induction false} TrimLineEndsNoBlankBeforeNewline(s: string)
    ensures NoBlankBeforeNewline(TrimLineEnds(s))
    decreases |s|
  {
    if s != [] {
      if IsBlank(s[0]) && SkipBlanks(s, 0) < |s| && s[SkipBlanks(s, 0)] == '\n' {
        var m := SkipBlanks(s, 0);
        TrimLineEndsNoBlankBeforeNewline(s[m + 1..]);
        ConsKeepsShape('\n', TrimLineEnds(s[m + 1..]));
      } else {
        var rest := TrimLineEnds(s[1..]);
        TrimLineEndsNoBlankBeforeNewline(s[1..]);
        LineEndHeadTail(s);
        if |s| > 1 {
          TrimLineEndsHead(s[1..]);
        }
        ConsKeepsShape(s[0], rest);
      }
    }
  }

  /** The trim introduces no adjacent blanks. */
  lemma {:induction false} TrimLineEndsKeepsNoDoubleBlank(s: string)
    requires NoDoubleBlank(s)
    ensures NoDoubleBlank(TrimLineEnds(s))
    decreases |s|
  {
    if s != [] {
      if IsBlank(s[0]) && SkipBlanks(s, 0) < |s| && s[SkipBlanks(s, 0)] == '\n' {
        var m := SkipBlanks(s, 0);
        DropKeepsShape(s, m + 1);
        TrimLineEndsKeepsNoDoubleBlank(s[m + 1..]);
        ConsKeepsShape('\n', TrimLineEnds(s[m + 1..]));
      } else {
        var rest := TrimLineEnds(s[1..]);
        DropKeepsShape(s, 1);
        TrimLineEndsKeepsNoDoubleBlank(s[1..]);
        if |s| > 1 {
          TrimLineEndsHead(s[1..]);
        }
        ConsKeepsShape(s[0], rest);
      }
    }
  }

  /** A suffix of a text keeps the text's whitespace shape. */
  lemma DropKeepsShape(s: string, a: nat)
    requires a <= |s|
    ensures NoDoubleBlank(s) ==> NoDoubleBlank(s[a..])
    ensures NoBlankBeforeNewline(s) ==> NoBlankBeforeNewline(s[a..])
    ensures NoTripleNewline(s) ==> NoTripleNewline(s[a..])
  {
    var t := s[a..];
    assert forall k :: 0 <= k < |t| ==> t[k] == s[a + k];
  }

  /** A prefix of a text keeps the text's whitespace shape. */
  lemma TakeKeepsShape(s: string, b: nat)
    requires b <= |s|
    ensures NoDoubleBlank(s) ==> NoDoubleBlank(s[..b])
    ensures NoBlankBeforeNewline(s) ==> NoBlankBeforeNewline(s[..b])
    ensures NoTripleNewline(s) ==> NoTripleNewline(s[..b])
  {
  }

  /** `str.strip()` keeps the whitespace shape. */
  lemma StripKeepsShape(s: string)
    ensures NoDoubleBlank(s) ==> NoDoubleBlank(Strip(s))
    ensures NoBlankBeforeNewline(s) ==> NoBlankBeforeNewline(Strip(s))
    ensures NoTripleNewline(s) ==> NoTripleNewline(Strip(s))
  {
    var a, b := StripBounds(s);
    SliceKeepsShape(s, a, b);
  }

  /** `strip()` is one slice of the text. */
  lemma StripBounds(s: string) returns (a: nat, b: nat)
    ensures a <= b <= |s| && Strip(s) == s[a..b]
  {
    var l := LStrip(s);
    a := |s| - |l|;
    b := a + |Strip(s)|;
    assert Strip(s) == l[..|Strip(s)|];
    assert l[..|Strip(s)|] == s[a..b];
  }

  /** A slice of a text keeps the text's whitespace shape. */
  lemma SliceKeepsShape(s: string, a: nat, b: nat)
    requires a <= b <= |s|
    ensures NoDoubleBlank(s) ==> NoDoubleBlank(s[a..b])
    ensures NoBlankBeforeNewline(s) ==> NoBlankBeforeNewline(s[a..b])
    ensures NoTripleNewline(s) ==> NoTripleNewline(s[a..b])
  {
    var t := s[a..b];
    assert forall k :: 0 <= k < |t| ==> t[k] == s[a + k];
  }

  /** Collapsing newline runs and then stripping leaves no run of three line breaks and no surrounding whitespace. */
  lemma CollapseStripShape(s: string)
    ensures var r := Strip(CollapseNewlines(s));
            && NoTripleNewline(r)
            && (r != [] ==> !IsSpace(r[0]) && !IsSpace(r[|r| - 1]))
  {
    var c := CollapseNewlines(s);
    CollapseNewlinesNoTriple(s);
    assert NoTripleNewline(c);
    StripNoTriple(c);
  }

  lemma StripNoTriple(c: string)
    requires NoTripleNewline(c)
    ensures NoTripleNewline(Strip(c))
  {
    StripKeepsShape(c);
  }

  /** The whitespace normalisation of `clean_content`: blank runs, newline runs, line-end blanks, then `strip()`. */
  function Normalise(s: string): (r: string)
    ensures |r| <= |s|
  {
    Strip(TrimLineEnds(CollapseNewlines(CollapseBlanks(s))))
  }

  /** The normalised text has no surrounding whitespace, no doubled blank and no blank before a line break. */
  lemma NormaliseShape(s: string)
    ensures var r := Normalise(s);
            && (r != [] ==> !IsSpace(r[0]) && !IsSpace(r[|r| - 1]))
            && NoDoubleBlank(r)
            && NoBlankBeforeNewline(r)
  {
    NormaliseNoDoubleBlank(s);
    NormaliseNoBlankBeforeNewline(s);
  }

  lemma NormaliseNoDoubleBlank(s: string)
    ensures NoDoubleBlank(Normalise(s))
  {
    var b := CollapseBlanks(s);
    var n := CollapseNewlines(b);
    var t := TrimLineEnds(n);
    CollapseBlanksShape(s);
    CollapseNewlinesKeepsNoDoubleBlank(b);
    TrimLineEndsKeepsNoDoubleBlank(n);
    StripKeepsShape(t);
    assert Normalise(s) == Strip(t);
  }

  lemma NormaliseNoBlankBeforeNewline(s: string)
    ensures NoBlankBeforeNewline(Normalise(s))
  {
    var t := TrimLineEnds(CollapseNewlines(CollapseBlanks(s)));
    TrimLineEndsNoBlankBeforeNewline(CollapseNewlines(CollapseBlanks(s)));
    StripKeepsShape(t);
    assert Normalise(s) == Strip(t);
  }

  /** `clean_content`: tags, then markdown, then the whitespace normalisation. */
  function CleanContent(s: string): (r: string)
    ensures |r| <= |s|
  {
    Normalise(RemoveMarkdown(StripTags(s)))
  }

  /** The cleaned text has no surrounding whitespace, no doubled blank and no blank before a line break. */
  lemma CleanContentShape(s: string)
    ensures var r := CleanContent(s);
            && (r != [] ==> !IsSpace(r[0]) && !IsSpace(r[|r| - 1]))
            && NoDoubleBlank(r)
            && NoBlankBeforeNewline(r)
  {
    NormaliseShape(RemoveMarkdown(StripTags(s)));
  }

  /** Text without tabs or doubled blanks passes the blank collapse unchanged. */
  lemma {:induction false} CollapseBlanksIdentity(s: string)
    requires forall k :: 0 <= k < |s| ==> s[k] != '\t'
    requires NoDoubleBlank(s)
    ensures CollapseBlanks(s) == s
    decreases |s|
  {
    if s != [] {
      var rest := s[1..];
      NoTabTail(s);
      DropKeepsShape(s, 1);
      CollapseBlanksIdentity(rest);
      if IsBlank(s[0]) {
        LoneBlank(s);
        assert CollapseBlanks(s) == [' '] + CollapseBlanks(rest);
      } else {
        assert CollapseBlanks(s) == [s[0]] + CollapseBlanks(rest);
      }
      assert s == [s[0]] + rest;
    }
  }

  lemma NoTabTail(s: string)
    requires s != []
    requires forall k :: 0 <= k < |s| ==> s[k] != '\t'
    ensures forall k :: 0 <= k < |s[1..]| ==> s[1..][k] != '\t'
  {
    assert forall k :: 0 <= k < |s[1..]| ==> s[1..][k] == s[k + 1];
  }

  /** Where no two blanks are adjacent, a blank is a run of its own. */
  lemma LoneBlank(s: string)
    requires s != [] && IsBlank(s[0]) && NoDoubleBlank(s)
    ensures SkipBlanks(s, 0) == 1
  {
    if |s| > 1 {
      assert !IsBlank(s[1]);
    }
    assert SkipBlanks(s, 1) == 1;
  }

  /** Text without three line breaks in a row passes the newline collapse unchanged. */
  lemma {:induction false} CollapseNewlinesIdentity(s: string)
    requires NoTripleNewline(s)
    ensures CollapseNewlines(s) == s
    decreases |s|
  {
    if s != [] {
      assert NoTripleNewline(s[1..]) by {
        DropKeepsShape(s, 1);
      }
      CollapseNewlinesIdentity(s[1..]);
      if |s| >= 3 {
        assert !(s[0] == '\n' && s[1] == '\n' && s[2] == '\n');
      }
      assert SkipChar(s, '\n', 0) < 3;
      assert s == [s[0]] + s[1..];
    }
  }

  /** Text with no blank before a line break passes the line-end trim unchanged. */
  lemma {:induction false} TrimLineEndsIdentity(s: string)
    requires NoBlankBeforeNewline(s)
    ensures TrimLineEnds(s) == s
    decreases |s|
  {
    if s != [] {
      DropKeepsShape(s, 1);
      TrimLineEndsIdentity(s[1..]);
      if IsBlank(s[0]) {
        var m := SkipBlanks(s, 0);
        assert m < |s| ==> s[m] != '\n' by {
          if m < |s| {
            assert IsBlank(s[m - 1]);
          }
        }
      }
    }
  }

  /** A character that every cleaning pass treats as plain text: not whitespace, not the start of a tag, not a markdown marker. */
  predicate Ordinary(c: char) {
    !IsSpace(c) && c != '<' && Plain([c])
  }

  /** Text made of ordinary characters, blanks and line breaks passes tag and markdown removal unchanged. */
  lemma MarkupFree(s: string)
    requires forall k :: 0 <= k < |s| ==> Ordinary(s[k]) || IsBlank(s[k]) || s[k] == '\n'
    ensures CleanContent(s) == Normalise(s)
  {
    assert forall k :: 0 <= k < |s| ==> [s[k]][0] == s[k];
    StripTagsIdentity(s);
    RemoveMarkdownIdentity(s);
  }

  /** Text that is already normal is a fixed point of the whitespace normalisation. */
  lemma NormaliseIdentity(s: string)
    requires forall k :: 0 <= k < |s| ==> s[k] != '\t'
    requires NoDoubleBlank(s) && NoTripleNewline(s) && NoBlankBeforeNewline(s)
    requires s != [] ==> !IsSpace(s[0]) && !IsSpace(s[|s| - 1])
    ensures Normalise(s) == s
  {
    CollapseBlanksIdentity(s);
    CollapseNewlinesIdentity(s);
    TrimLineEndsIdentity(s);
  }

  /** Runs of blanks and of line breaks are collapsed: `"a   b\n\n\n\nc"` becomes `"a b\n\nc"`. */
  lemma CleanContentExample(a: char, b: char, c: char)
    requires Ordinary(a) && Ordinary(b) && Ordinary(c)
    ensures CleanContent([a, ' ', ' ', ' ', b, '\n', '\n', '\n', '\n', c]) == [a, ' ', b, '\n', '\n', c]
  {
    MarkupFree([a, ' ', ' ', ' ', b, '\n', '\n', '\n', '\n', c]);
    NormaliseExample(a, b, c);
  }

  lemma NormaliseExample(a: char, b: char, c: char)
    requires Ordinary(a) && Ordinary(b) && Ordinary(c)
    ensures Normalise([a, ' ', ' ', ' ', b, '\n', '\n', '\n', '\n', c]) == [a, ' ', b, '\n', '\n', c]
  {
    var s := [a, ' ', ' ', ' ', b, '\n', '\n', '\n', '\n', c];
    var cb := [a, ' ', b, '\n', '\n', '\n', '\n', c];
    var cn := [a, ' ', b, '\n', '\n', c];
    CollapseBlanksExample(a, b, c);
    CollapseNewlinesExample(a, b, c);
    TrimLineEndsIdentity(cn);
  }

  lemma CollapseBlanksExample(a: char, b: char, c: char)
    requires Ordinary(a) && Ordinary(b) && Ordinary(c)
    ensures CollapseBlanks([a, ' ', ' ', ' ', b, '\n', '\n', '\n', '\n', c]) == [a, ' ', b, '\n', '\n', '\n', '\n', c]
  {
    var s := [a, ' ', ' ', ' ', b, '\n', '\n', '\n', '\n', c];
    var tail := s[4..];
    CollapseBlanksIdentity(tail);
    assert SkipBlanks(s[1..], 0) == 3;
    assert s[1..][3..] == tail;
  }

  lemma CollapseNewlinesExample(a: char, b: char, c: char)
    requires Ordinary(a) && Ordinary(b) && Ordinary(c)
    ensures CollapseNewlines([a, ' ', b, '\n', '\n', '\n', '\n', c]) == [a, ' ', b, '\n', '\n', c]
  {
    var cb := [a, ' ', b, '\n', '\n', '\n', '\n', c];
    var u := cb[3..];
    SkipCharRun(u, '\n', 0, 4);
    assert u[4..] == [c];
    assert CollapseNewlines([c]) == [c];
    assert CollapseNewlines(u) == ['\n', '\n', c];
    assert cb[2..][1..] == u;
    assert CollapseNewlines(cb[2..]) == [b, '\n', '\n', c];
    assert cb[1..][1..] == cb[2..];
    assert CollapseNewlines(cb[1..]) == [' ', b, '\n', '\n', c];
  }

  /** A line holding only a space becomes empty but still leaves three line breaks: `"a\n \n\nb"` cleans to `"a\n\n\nb"`. */
  lemma SpaceOnlyLineKeepsBreaks(a: char, b: char)
    requires Ordinary(a) && Ordinary(b)
    ensures CleanContent([a, '\n', ' ', '\n', '\n', b]) == [a, '\n', '\n', '\n', b]
  {
    SpaceOnlyLineMarkupFree(a, b);
    NormaliseSpaceOnlyLine(a, b);
  }

  lemma SpaceOnlyLineMarkupFree(a: char, b: char)
    requires Ordinary(a) && Ordinary(b)
    ensures CleanContent([a, '\n', ' ', '\n', '\n', b]) == Normalise([a, '\n', ' ', '\n', '\n', b])
  {
    var s := [a, '\n', ' ', '\n', '\n', b];
    assert forall k :: 0 <= k < |s| ==> Ordinary(s[k]) || IsBlank(s[k]) || s[k] == '\n';
    MarkupFree(s);
  }

  lemma NormaliseSpaceOnlyLine(a: char, b: char)
    requires Ordinary(a) && Ordinary(b)
    ensures Normalise([a, '\n', ' ', '\n', '\n', b]) == [a, '\n', '\n', '\n', b]
  {
    var s := [a, '\n', ' ', '\n', '\n', b];
    CollapseBlanksIdentity(s);
    CollapseNewlinesIdentity(s);
    TrimLineEndsSpaceOnlyLine(a, b);
  }

  lemma TrimLineEndsSpaceOnlyLine(a: char, b: char)
    requires Ordinary(a) && Ordinary(b)
    ensures TrimLineEnds([a, '\n', ' ', '\n', '\n', b]) == [a, '\n', '\n', '\n', b]
  {
    var s := [a, '\n', ' ', '\n', '\n', b];
    TrimLineEndsIdentity(s[4..]);
    assert SkipBlanks(s[2..], 0) == 1;
    assert s[2..][2..] == s[4..];
    assert TrimLineEnds(s[2..]) == ['\n', '\n', b];
    assert s[1..][1..] == s[2..];
  }

  /** Three line breaks become two: `"a\n\n\nb"` cleans to `"a\n\nb"`. */
  lemma TripleBreakCollapses(a: char, b: char)
    requires Ordinary(a) && Ordinary(b)
    ensures CleanContent([a, '\n', '\n', '\n', b]) == [a, '\n', '\n', b]
  {
    TripleBreakMarkupFree(a, b);
    NormaliseTriple(a, b);
  }

  lemma TripleBreakMarkupFree(a: char, b: char)
    requires Ordinary(a) && Ordinary(b)
    ensures CleanContent([a, '\n', '\n', '\n', b]) == Normalise([a, '\n', '\n', '\n', b])
  {
    var s := [a, '\n', '\n', '\n', b];
    assert forall k :: 0 <= k < |s| ==> Ordinary(s[k]) || IsBlank(s[k]) || s[k] == '\n';
    MarkupFree(s);
  }

  lemma NormaliseTriple(a: char, b: char)
    requires Ordinary(a) && Ordinary(b)
    ensures Normalise([a, '\n', '\n', '\n', b]) == [a, '\n', '\n', b]
  {
    CollapseBlanksIdentity([a, '\n', '\n', '\n', b]);
    CollapseNewlinesTriple(a, b);
    TrimLineEndsIdentity([a, '\n', '\n', b]);
  }

  lemma CollapseNewlinesTriple(a: char, b: char)
    requires Ordinary(a) && Ordinary(b)
    ensures CollapseNewlines([a, '\n', '\n', '\n', b]) == [a, '\n', '\n', b]
  {
    var s := [a, '\n', '\n', '\n', b];
    var u := s[1..];
    SkipCharRun(u, '\n', 0, 3);
    assert u[3..] == [b];
    assert CollapseNewlines([b]) == [b];
    assert CollapseNewlines(u) == ['\n', '\n', b];
  }

  /**
   * Cleaning twice can differ from cleaning once: the newline collapse runs before the
   * line-end trim, so a blank line made only of spaces leaves three line breaks behind.
   */
  lemma CleanContentNotIdempotent(a: char, b: char)
    requires Ordinary(a) && Ordinary(b)
    ensures var once := CleanContent([a, '\n', ' ', '\n', '\n', b]);
            CleanContent(once) != once
  {
    SpaceOnlyLineKeepsBreaks(a, b);
    TripleBreakCollapses(a, b);
  }

  /** The number of positions where a run of non-whitespace starts, `prevSpace` telling whether the position before counts as whitespace. */
  function RunStarts(s: string, prevSpace: bool): nat
    decreases |s|
  {
    if s == [] then 0
    else (if prevSpace && !IsSpace(s[0]) then 1 else 0) + RunStarts(s[1..], IsSpace(s[0]))
  }

  /** Leading whitespace starts no run. */
  lemma {:induction false} RunStartsLStrip(s: string)
    ensures RunStarts(s, true) == RunStarts(LStrip(s), true)
    decreases |s|
  {
    if s != [] && IsSpace(s[0]) {
      RunStartsLStrip(s[1..]);
    }
  }

  /** Inside a word no new run starts. */
  lemma {:induction false} RunStartsInWord(t: string, k: nat, n: nat)
    requires 1 <= k <= n <= |t|
    requires forall i :: 0 <= i < n ==> !IsSpace(t[i])
    requires n < |t| ==> IsSpace(t[n])
    ensures RunStarts(t[k..], false) == RunStarts(t[n..], true)
    decreases n - k
  {
    if k < n {
      assert t[k..][1..] == t[k + 1..];
      RunStartsInWord(t, k + 1, n);
    } else if n < |t| {
      assert t[n..][1..] == t[n + 1..];
    }
  }

  /** `str.split()` yields one word per run of non-whitespace. */
  lemma {:induction false} WordsCountRuns(s: string)
    ensures |Words(s)| == RunStarts(s, true)
    decreases |s|
  {
    RunStartsLStrip(s);
    var t := LStrip(s);
    if t != [] {
      var n := SkipNonSpaces(t, 0);
      assert Words(s) == [t[..n]] + Words(t[n..]);
      RunStartsInWord(t, 1, n);
      WordsCountRuns(t[n..]);
    }
  }

  /** A word passes the `word.strip()` test. */
  predicate HasText(w: string) {
    Strip(w) != []
  }

  /** The `if word.strip()` filter keeps every word `split()` produces. */
  lemma WordsAllHaveText(ws: seq<string>)
    requires forall i :: 0 <= i < |ws| ==> IsWord(ws[i])
    ensures Filter(ws, HasText) == ws
  {
    forall i | 0 <= i < |ws|
      ensures HasText(ws[i])
    {
      assert !IsSpace(ws[i][0]);
    }
    FilterAll(ws, HasText);
  }

  /** `max(1, ceil(words / 200))`: the reading time in whole minutes at 200 words a minute. */
  function ReadingTime(words: nat): (r: nat)
    ensures r >= 1
    ensures words == 0 ==> r == 1
    ensures words > 0 ==> (r - 1) * 200 < words <= r * 200
  {
    var minutes := (words + 199) / 200;
    if minutes < 1 then 1 else minutes
  }

  /** `calculate_metadata`: the figures of the cleaned text. */
  function Metadata(content: string): (m: ContentMetadata)
    ensures m.characterCount == |CleanContent(content)|
    ensures m.wordCount == RunStarts(CleanContent(content), true)
    ensures m.estimatedReadingTime == ReadingTime(m.wordCount)
  {
    var text := CleanContent(content);
    var words := |Filter(Words(text), HasText)|;
    WordsAreWords(text);
    WordsAllHaveText(Words(text));
    WordsCountRuns(text);
    ContentMetadata(words, |text|, ReadingTime(words))
  }

  /** Three one-letter words separated by spaces: three words, five characters, one minute. */
  lemma MetadataExample(a: char, b: char, c: char)
    requires Ordinary(a) && Ordinary(b) && Ordinary(c)
    ensures Metadata([a, ' ', b, ' ', c]) == ContentMetadata(3, 5, 1)
  {
    ThreeWordsClean(a, b, c);
    ThreeRuns(a, b, c);
  }

  lemma ThreeWordsClean(a: char, b: char, c: char)
    requires Ordinary(a) && Ordinary(b) && Ordinary(c)
    ensures CleanContent([a, ' ', b, ' ', c]) == [a, ' ', b, ' ', c]
  {
    MarkupFree([a, ' ', b, ' ', c]);
    NormaliseThreeWords(a, b, c);
  }

  lemma NormaliseThreeWords(a: char, b: char, c: char)
    requires Ordinary(a) && Ordinary(b) && Ordinary(c)
    ensures Normalise([a, ' ', b, ' ', c]) == [a, ' ', b, ' ', c]
  {
    NormaliseIdentity([a, ' ', b, ' ', c]);
  }

  lemma ThreeRuns(a: char, b: char, c: char)
    requires !IsSpace(a) && !IsSpace(b) && !IsSpace(c)
    ensures RunStarts([a, ' ', b, ' ', c], true) == 3
  {
    var s := [a, ' ', b, ' ', c];
    assert RunStarts(s[4..], true) == 1;
    assert s[3..][1..] == s[4..];
    assert s[2..][1..] == s[3..];
    assert RunStarts(s[2..], true) == 2;
    assert s[1..][1..] == s[2..];
  }

  /**
   * `create_generated_content`: the displayed text is the stripped input without markdown,
   * line breaks kept; the metadata is computed from the input cleaned twice.
   */
  function CreateGeneratedContent(language: string, content: string): (r: GeneratedContent)
    ensures r.language == language
    ensures r.content == RemoveMarkdown(Strip(content)) && |r.content| <= |content|
    ensures Plain(Strip(content)) ==> r.content == Strip(content)
    ensures r.metadata.Some?
    ensures r.metadata.value.characterCount == |CleanContent(CleanContent(content))| <= |content|
    ensures r.metadata.value.wordCount == RunStarts(CleanContent(CleanContent(content)), true)
    ensures r.metadata.value.estimatedReadingTime == ReadingTime(r.metadata.value.wordCount)
  {
    var display := Strip(content);
    assert Plain(display) ==> RemoveMarkdown(display) == display by {
      if Plain(display) {
        RemoveMarkdownIdentity(display);
      }
    }
    GeneratedContent(language, RemoveMarkdown(display), Some(Metadata(CleanContent(content))))
  }

  /** Because cleaning is applied twice, the character count can be below that of one cleaning. */
  lemma CreateGeneratedContentCleansTwice(a: char, b: char)
    requires Ordinary(a) && Ordinary(b)
    ensures CreateGeneratedContent("en", [a, '\n', ' ', '\n', '\n', b]).metadata.value.characterCount == 4
    ensures Metadata([a, '\n', ' ', '\n', '\n', b]).characterCount == 5
  {
    SpaceOnlyLineKeepsBreaks(a, b);
    TripleBreakCollapses(a, b);
  }
}
