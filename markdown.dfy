/**
 * `remove_markdown_formatting` (backend/utils.py): eight regular-expression substitutions
 * applied in a fixed order. Each substitution is a left-to-right scan over the text as
 * Python's `re.sub` performs it: the leftmost match is replaced, scanning resumes after
 * it, and where no match starts the character is copied and scanning moves on by one.
 */
module Markdown {
  import opened Wrappers
  import opened Text

  /**
   * The lazy `(.*?)` followed by the closing delimiter `d`, tried from position `j`:
   * the first position at or after `j` where `d` starts, provided no line break lies
   * in between (`.` does not match `\n`).
   */
  function LazyClose(s: string, d: string, j: nat): (r: Option<nat>)
    requires j <= |s|
    ensures r.Some? ==> j <= r.value && r.value + |d| <= |s| && s[r.value..r.value + |d|] == d
    decreases |s| - j
  {
    if StartsWith(s[j..], d) then Some(j)
    else if j == |s| || s[j] == '\n' then None
    else LazyClose(s, d, j + 1)
  }

  /**
   * One step of `re.sub(d + '(.*?)' + d, r'\1', s)` at the start of a non-empty `s`: the
   * text it emits and where scanning resumes. A match emits its inside and resumes after
   * the closing delimiter; anywhere else the character is copied.
   */
  function UnwrapStep(s: string, d: string): (r: (string, nat))
    requires |s| > 0 && |d| > 0
    ensures 0 < r.1 <= |s|
  {
    if StartsWith(s, d) && LazyClose(s, d, |d|).Some? then
      var j := LazyClose(s, d, |d|).value;
      (s[|d|..j], j + |d|)
    else ([s[0]], 1)
  }

  /** `re.sub(d + '(.*?)' + d, r'\1', s)`: every delimited span on one line loses its delimiters. */
  function Unwrap(s: string, d: string): (r: string)
    requires |d| > 0
    ensures |r| <= |s|
    decreases |s|
  {
    if |s| == 0 then []
    else
      var step := UnwrapStep(s, d);
      step.0 + Unwrap(s[step.1..], d)
  }

  /** Text without the delimiter's first character is left alone. */
  lemma {:induction false} UnwrapIdentity(s: string, d: string)
    requires |d| > 0
    requires forall k :: 0 <= k < |s| ==> s[k] != d[0]
    ensures Unwrap(s, d) == s
    decreases |s|
  {
    if s != [] {
      assert s[0] != d[0];
      UnwrapIdentity(s[1..], d);
    }
  }

  /** The lazy search finds the first start of `d` when every earlier position is free of it. */
  lemma {:induction false} LazyCloseAt(s: string, d: string, j: nat, t: nat)
    requires j <= t && t + |d| <= |s| && s[t..t + |d|] == d
    requires forall k :: j <= k < t ==> s[k] != '\n' && !StartsWith(s[k..], d)
    ensures LazyClose(s, d, j) == Some(t)
    decreases t - j
  {
    if j < t {
      LazyCloseAt(s, d, j + 1, t);
    } else {
      assert s[j..][..|d|] == d;
    }
  }

  /** In `d + x + d + rest`, the lazy search from the end of the opening delimiter stops at the closing one. */
  lemma WrappedClose(x: string, d: string, rest: string)
    requires |d| > 0
    requires forall k :: 0 <= k < |x| ==> x[k] != '\n' && !StartsWith((x + d)[k..], d)
    ensures LazyClose(d + x + d + rest, d, |d|) == Some(|d| + |x|)
  {
    var s := d + x + d + rest;
    assert s[|d| + |x|..|d| + |x| + |d|] == d;
    forall k | |d| <= k < |d| + |x|
      ensures s[k] != '\n' && !StartsWith(s[k..], d)
    {
      assert s[k] == x[k - |d|];
    }
    LazyCloseAt(s, d, |d|, |d| + |x|);
  }

  /** Unwrapping undoes wrapping: `d + x + d` becomes `x`, when `x` is one line in which `d` does not start before the closing delimiter. */
  lemma UnwrapWrapped(x: string, d: string, rest: string)
    requires |d| > 0
    requires forall k :: 0 <= k < |x| ==> x[k] != '\n' && !StartsWith((x + d)[k..], d)
    ensures Unwrap(d + x + d + rest, d) == x + Unwrap(rest, d)
  {
    var s := d + x + d + rest;
    WrappedStep(x, d, rest);
    UnwrapAfterStep(s, d, x, |d| + |x| + |d|);
    assert s[|d| + |x| + |d|..] == rest;
  }

  /** At the start of `d + x + d + rest` the scan emits `x` and resumes after the closing delimiter. */
  lemma WrappedStep(x: string, d: string, rest: string)
    requires |d| > 0
    requires forall k :: 0 <= k < |x| ==> x[k] != '\n' && !StartsWith((x + d)[k..], d)
    ensures UnwrapStep(d + x + d + rest, d) == (x, |d| + |x| + |d|)
  {
    WrappedOpen(x, d, rest);
    WrappedClose(x, d, rest);
    StepAtMatch(d + x + d + rest, d, |d| + |x|, x);
  }

  /** `d + x + d + rest` opens with `d`, and `x` follows it. */
  lemma WrappedOpen(x: string, d: string, rest: string)
    ensures StartsWith(d + x + d + rest, d)
    ensures (d + x + d + rest)[|d|..|d| + |x|] == x
  {
    var s := d + x + d + rest;
    assert s[..|d|] == d;
  }

  /** One step of the scan where a match starts. */
  lemma UnwrapMatch(s: string, d: string, j: nat)
    requires |d| > 0 && StartsWith(s, d) && LazyClose(s, d, |d|) == Some(j)
    ensures Unwrap(s, d) == s[|d|..j] + Unwrap(s[j + |d|..], d)
  {
    StepAtMatch(s, d, j, s[|d|..j]);
    UnwrapAfterStep(s, d, s[|d|..j], j + |d|);
  }

  lemma StepAtMatch(s: string, d: string, j: nat, x: string)
    requires |d| > 0 && StartsWith(s, d) && LazyClose(s, d, |d|) == Some(j)
    requires |d| <= j <= |s| && s[|d|..j] == x
    ensures |s| > 0 && UnwrapStep(s, d) == (x, j + |d|)
  {
  }

  lemma UnwrapAfterStep(s: string, d: string, x: string, n: nat)
    requires |s| > 0 && |d| > 0 && n <= |s| && UnwrapStep(s, d) == (x, n)
    ensures Unwrap(s, d) == x + Unwrap(s[n..], d)
  {
  }

  /** The length of the `#{1,6}` run at the start of `s`. */
  function HashRun(s: string): (n: nat)
    ensures n <= 6 && n <= |s|
    ensures forall k :: 0 <= k < n ==> s[k] == '#'
    ensures n < 6 && n < |s| ==> s[n] != '#'
  {
    var run := SkipChar(s, '#', 0);
    if run < 6 then run else 6
  }

  /**
   * `re.sub(r'^#{1,6}\s*', '', s, flags=re.MULTILINE)`. `bol` says whether the scan stands
   * at a line start (the text's start, or just after `\n`). Because `\s*` also matches line
   * breaks, a match can run over several lines, and the next position is a line start
   * exactly when the match ended with `\n`.
   */
  function StripHeadings(s: string, bol: bool): (r: string)
    ensures |r| <= |s|
    decreases |s|
  {
    if s == [] then []
    else if bol && s[0] == '#' then
      var m := SkipSpaces(s, HashRun(s));
      StripHeadings(s[m..], s[m - 1] == '\n')
    else [s[0]] + StripHeadings(s[1..], s[0] == '\n')
  }

  /** Text without `#` is left alone. */
  lemma {:induction false} StripHeadingsIdentity(s: string, bol: bool)
    requires forall k :: 0 <= k < |s| ==> s[k] != '#'
    ensures StripHeadings(s, bol) == s
    decreases |s|
  {
    if s != [] {
      StripHeadingsIdentity(s[1..], s[0] == '\n');
    }
  }

  /** Away from a line start nothing is removed: a `#` inside a line is kept. */
  lemma {:induction false} StripHeadingsMidLine(s: string)
    requires forall k :: 0 <= k < |s| ==> s[k] != '\n'
    ensures StripHeadings(s, false) == s
    decreases |s|
  {
    if s != [] {
      StripHeadingsMidLine(s[1..]);
    }
  }

  /** A heading line loses its markers and the whitespace after them. */
  lemma {:induction false} StripHeadingLine(n: nat, sp: string, title: string)
    requires 1 <= n <= 6
    requires forall k :: 0 <= k < |sp| ==> sp[k] == ' '
    requires title != [] && title[0] != '#' && !IsSpace(title[0])
    requires forall k :: 0 <= k < |title| ==> title[k] != '\n'
    ensures StripHeadings(seq(n, _ => '#') + sp + title, true) == title
  {
    var s := seq(n, _ => '#') + sp + title;
    assert HashRun(s) == n by {
      assert SkipChar(s, '#', 0) >= n by {
        SkipCharCovers(s, '#', 0, n);
      }
      if n < 6 {
        assert s[n] != '#';
      }
    }
    assert SkipSpaces(s, n) == n + |sp| by {
      SkipSpacesCovers(s, n, n + |sp|);
    }
    assert s[n + |sp|..] == title;
    StripHeadingsMidLine(title[1..]);
    assert title == [title[0]] + title[1..];
  }

  lemma {:induction false} SkipCharCovers(s: string, c: char, from: nat, to: nat)
    requires from <= to <= |s|
    requires forall k :: from <= k < to ==> s[k] == c
    ensures SkipChar(s, c, from) >= to
    decreases |s| - from
  {
    if from < to {
      SkipCharCovers(s, c, from + 1, to);
    }
  }

  lemma {:induction false} SkipSpacesCovers(s: string, from: nat, to: nat)
    requires from <= to <= |s|
    requires forall k :: from <= k < to ==> IsSpace(s[k])
    requires to < |s| ==> !IsSpace(s[to])
    ensures SkipSpaces(s, from) == to
    decreases |s| - from
  {
    if from < to {
      SkipSpacesCovers(s, from + 1, to);
    }
  }

  /**
   * `re.sub(r'\[([^\]]+)\]\([^\)]+\)', r'\1', s)`: a link keeps its text. The bracketed
   * text and the target are greedy runs that may span lines.
   */
  function StripLinks(s: string): (r: string)
    ensures |r| <= |s|
    decreases |s|
  {
    if s == [] then []
    else if s[0] == '[' then
      match IndexFrom(s, ']', 1)
      case Some(k) =>
        if k > 1 && k + 1 < |s| && s[k + 1] == '(' then
          match IndexFrom(s, ')', k + 2)
          case Some(u) =>
            if u > k + 2 then s[1..k] + StripLinks(s[u + 1..]) else [s[0]] + StripLinks(s[1..])
          case None => [s[0]] + StripLinks(s[1..])
        else [s[0]] + StripLinks(s[1..])
      case None => [s[0]] + StripLinks(s[1..])
    else [s[0]] + StripLinks(s[1..])
  }

  /** Text without `[` is left alone. */
  lemma {:induction false} StripLinksIdentity(s: string)
    requires forall k :: 0 <= k < |s| ==> s[k] != '['
    ensures StripLinks(s) == s
    decreases |s|
  {
    if s != [] {
      StripLinksIdentity(s[1..]);
    }
  }

  /** `[text](url)` becomes `text`. */
  lemma StripLinksLink(text: string, url: string, rest: string)
    requires text != [] && url != []
    requires forall k :: 0 <= k < |text| ==> text[k] != ']'
    requires forall k :: 0 <= k < |url| ==> url[k] != ')'
    ensures StripLinks("[" + text + "](" + url + ")" + rest) == text + StripLinks(rest)
  {
    var s := "[" + text + "](" + url + ")" + rest;
    var k, u := |text| + 1, |text| + |url| + 3;
    assert s[k] == ']' && s[k + 1] == '(' && s[u] == ')';
    assert forall i :: 1 <= i < k ==> s[i] == text[i - 1];
    assert forall i :: k + 2 <= i < u ==> s[i] == url[i - k - 2];
    assert IndexFrom(s, ']', 1) == Some(k) by {
      IndexFromAt(s, ']', 1, k);
    }
    assert IndexFrom(s, ')', k + 2) == Some(u) by {
      IndexFromAt(s, ')', k + 2, u);
    }
    assert s[1..k] == text;
    assert s[u + 1..] == rest;
  }

  /** `IndexFrom` finds the first occurrence. */
  lemma {:induction false} IndexFromAt(s: string, c: char, from: nat, at: nat)
    requires from <= at < |s| && s[at] == c
    requires forall i :: from <= i < at ==> s[i] != c
    ensures IndexFrom(s, c, from) == Some(at)
    decreases at - from
  {
    if from < at {
      IndexFromAt(s, c, from + 1, at);
    }
  }

  /** `re.sub(r'`([^`]+)`', r'\1', s)`: inline code keeps its text. */
  function StripCode(s: string): (r: string)
    ensures |r| <= |s|
    decreases |s|
  {
    if s == [] then []
    else if s[0] == '`' then
      match IndexFrom(s, '`', 1)
      case Some(k) => if k > 1 then s[1..k] + StripCode(s[k + 1..]) else [s[0]] + StripCode(s[1..])
      case None => [s[0]] + StripCode(s[1..])
    else [s[0]] + StripCode(s[1..])
  }

  /** Text without a backtick is left alone. */
  lemma {:induction false} StripCodeIdentity(s: string)
    requires forall k :: 0 <= k < |s| ==> s[k] != '`'
    ensures StripCode(s) == s
    decreases |s|
  {
    if s != [] {
      StripCodeIdentity(s[1..]);
    }
  }

  /** `` `code` `` becomes `code`. */
  lemma StripCodeSpan(code: string, rest: string)
    requires code != []
    requires forall k :: 0 <= k < |code| ==> code[k] != '`'
    ensures StripCode("`" + code + "`" + rest) == code + StripCode(rest)
  {
    var s := "`" + code + "`" + rest;
    assert forall i :: 1 <= i < |code| + 1 ==> s[i] == code[i - 1];
    IndexFromAt(s, '`', 1, |code| + 1);
    assert s[1..|code| + 1] == code;
    assert s[|code| + 2..] == rest;
  }

  /** `remove_markdown_formatting`: the eight substitutions in their source order; none lengthens the text. */
  function RemoveMarkdown(s: string): (r: string)
    ensures |r| <= |s|
  {
    var bold := Unwrap(Unwrap(s, "**"), "__");
    var italic := Unwrap(Unwrap(bold, "*"), "_");
    Unwrap(StripCode(StripLinks(StripHeadings(italic, true))), "~~")
  }

  /** None of the characters any of the eight patterns starts with. */
  predicate Plain(s: string) {
    forall k :: 0 <= k < |s| ==> s[k] != '*' && s[k] != '_' && s[k] != '#' && s[k] != '[' && s[k] != '`' && s[k] != '~'
  }

  /** Every pass after the first leaves plain text alone. */
  lemma LaterPassesIdentity(s: string)
    requires Plain(s)
    ensures Unwrap(StripCode(StripLinks(StripHeadings(Unwrap(Unwrap(s, "*"), "_"), true))), "~~") == s
    ensures Unwrap(s, "__") == s
  {
    UnwrapIdentity(s, "*");
    UnwrapIdentity(s, "_");
    UnwrapIdentity(s, "__");
    StripHeadingsIdentity(s, true);
    StripLinksIdentity(s);
    StripCodeIdentity(s);
    UnwrapIdentity(s, "~~");
  }

  /** Text containing none of `* _ # [ ` ~` comes back unchanged. */
  lemma RemoveMarkdownIdentity(s: string)
    requires Plain(s)
    ensures RemoveMarkdown(s) == s
  {
    UnwrapIdentity(s, "**");
    LaterPassesIdentity(s);
  }

  /** Plain text surviving the first pass survives the rest. */
  lemma RemoveMarkdownAfterBold(s: string, x: string)
    requires Unwrap(s, "**") == x && Plain(x)
    ensures RemoveMarkdown(s) == x
  {
    LaterPassesIdentity(x);
  }

  /** A text free of the characters that start the first six patterns reaches the code pass unchanged. */
  lemma FirstPassesIdentity(s: string)
    requires forall k :: 0 <= k < |s| ==> s[k] != '*' && s[k] != '_' && s[k] != '#' && s[k] != '['
    ensures RemoveMarkdown(s) == Unwrap(StripCode(s), "~~")
  {
    UnwrapIdentity(s, "**");
    UnwrapIdentity(s, "__");
    UnwrapIdentity(s, "*");
    UnwrapIdentity(s, "_");
    StripHeadingsIdentity(s, true);
    StripLinksIdentity(s);
  }

  /** A text free of the characters that start the first five patterns reaches the link pass unchanged. */
  lemma HeadPassesIdentity(s: string)
    requires forall k :: 0 <= k < |s| ==> s[k] != '*' && s[k] != '_' && s[k] != '#'
    ensures RemoveMarkdown(s) == Unwrap(StripCode(StripLinks(s)), "~~")
  {
    UnwrapIdentity(s, "**");
    UnwrapIdentity(s, "__");
    UnwrapIdentity(s, "*");
    UnwrapIdentity(s, "_");
    StripHeadingsIdentity(s, true);
  }

  /** `**x**` becomes `x` for plain one-line `x`. */
  lemma RemoveMarkdownBold(x: string)
    requires Plain(x) && forall k :: 0 <= k < |x| ==> x[k] != '\n'
    ensures RemoveMarkdown("**" + x + "**") == x
  {
    forall k | 0 <= k < |x|
      ensures !StartsWith((x + "**")[k..], "**")
    {
      assert (x + "**")[k] == x[k];
    }
    UnwrapWrapped(x, "**", "");
    assert "**" + x + "**" + "" == "**" + x + "**";
    RemoveMarkdownAfterBold("**" + x + "**", x);
  }

  /** `~~x~~` becomes `x` for plain one-line `x`. */
  lemma RemoveMarkdownStrike(x: string)
    requires Plain(x) && forall k :: 0 <= k < |x| ==> x[k] != '\n'
    ensures RemoveMarkdown("~~" + x + "~~") == x
  {
    var s := "~~" + x + "~~";
    assert forall k :: 0 <= k < |s| ==> s[k] != '*' && s[k] != '_' && s[k] != '#' && s[k] != '[' && s[k] != '`' by {
      forall k | 0 <= k < |s|
        ensures s[k] != '*' && s[k] != '_' && s[k] != '#' && s[k] != '[' && s[k] != '`'
      {
        if 2 <= k < |x| + 2 {
          assert s[k] == x[k - 2];
        }
      }
    }
    FirstPassesIdentity(s);
    StripCodeIdentity(s);
    forall k | 0 <= k < |x|
      ensures !StartsWith((x + "~~")[k..], "~~")
    {
      assert (x + "~~")[k] == x[k];
    }
    UnwrapWrapped(x, "~~", "");
    assert s + "" == s;
  }

  /** `[text](url)` becomes `text` for plain `text` and `url` without `)`. */
  lemma RemoveMarkdownLink(text: string, url: string)
    requires text != [] && url != [] && Plain(text) && Plain(url)
    requires forall k :: 0 <= k < |text| ==> text[k] != ']'
    requires forall k :: 0 <= k < |url| ==> url[k] != ')'
    ensures RemoveMarkdown("[" + text + "](" + url + ")") == text
  {
    var s := "[" + text + "](" + url + ")";
    assert forall k :: 0 <= k < |s| ==> s[k] != '*' && s[k] != '_' && s[k] != '#' by {
      forall k | 0 <= k < |s|
        ensures s[k] != '*' && s[k] != '_' && s[k] != '#'
      {
        if 1 <= k < |text| + 1 {
          assert s[k] == text[k - 1];
        } else if |text| + 3 <= k < |text| + 3 + |url| {
          assert s[k] == url[k - |text| - 3];
        }
      }
    }
    calc {
      RemoveMarkdown(s);
    == { HeadPassesIdentity(s); }
      Unwrap(StripCode(StripLinks(s)), "~~");
    == { StripLinksLink(text, url, ""); assert s + "" == s; }
      Unwrap(StripCode(text + StripLinks("")), "~~");
    == { assert text + StripLinks("") == text; }
      Unwrap(StripCode(text), "~~");
    == { StripCodeIdentity(text); UnwrapIdentity(text, "~~"); }
      text;
    }
  }

  /** `` `c` `` becomes `c` for plain non-empty `c`. */
  lemma RemoveMarkdownCode(c: string)
    requires c != [] && Plain(c)
    ensures RemoveMarkdown("`" + c + "`") == c
  {
    var s := "`" + c + "`";
    assert forall k :: 0 <= k < |s| ==> s[k] != '*' && s[k] != '_' && s[k] != '#' && s[k] != '[' by {
      forall k | 0 <= k < |s|
        ensures s[k] != '*' && s[k] != '_' && s[k] != '#' && s[k] != '['
      {
        if 1 <= k < |c| + 1 {
          assert s[k] == c[k - 1];
        }
      }
    }
    calc {
      RemoveMarkdown(s);
    == { FirstPassesIdentity(s); }
      Unwrap(StripCode(s), "~~");
    == { StripCodeSpan(c, ""); assert s + "" == s; }
      Unwrap(c + StripCode(""), "~~");
    == { assert c + StripCode("") == c; }
      Unwrap(c, "~~");
    == { UnwrapIdentity(c, "~~"); }
      c;
    }
  }

  /** A heading line `#…# title` (one to six markers) becomes its title. */
  lemma RemoveMarkdownHeading(n: nat, sp: string, title: string)
    requires 1 <= n <= 6
    requires forall k :: 0 <= k < |sp| ==> sp[k] == ' '
    requires title != [] && Plain(title) && !IsSpace(title[0])
    requires forall k :: 0 <= k < |title| ==> title[k] != '\n'
    ensures RemoveMarkdown(seq(n, _ => '#') + sp + title) == title
  {
    var s := seq(n, _ => '#') + sp + title;
    assert forall k :: 0 <= k < |s| ==> s[k] != '*' && s[k] != '_' by {
      forall k | 0 <= k < |s|
        ensures s[k] != '*' && s[k] != '_'
      {
        if k >= n + |sp| {
          assert s[k] == title[k - n - |sp|];
        } else if k >= n {
          assert s[k] == sp[k - n];
        }
      }
    }
    calc {
      RemoveMarkdown(s);
    == { UnwrapIdentity(s, "**"); UnwrapIdentity(s, "__"); UnwrapIdentity(s, "*"); UnwrapIdentity(s, "_"); }
      Unwrap(StripCode(StripLinks(StripHeadings(s, true))), "~~");
    == { StripHeadingLine(n, sp, title); }
      Unwrap(StripCode(StripLinks(title)), "~~");
    == { StripLinksIdentity(title); StripCodeIdentity(title); UnwrapIdentity(title, "~~"); }
      title;
    }
  }

  /** Inside a line, a `#` is kept: a one-line text that does not start with `#` and holds no other markup is unchanged. */
  lemma RemoveMarkdownInlineHash(s: string)
    requires s != [] && s[0] != '#'
    requires forall k :: 0 <= k < |s| ==> s[k] != '\n' && s[k] != '*' && s[k] != '_' && s[k] != '[' && s[k] != '`' && s[k] != '~'
    ensures RemoveMarkdown(s) == s
  {
    calc {
      RemoveMarkdown(s);
    == { UnwrapIdentity(s, "**"); UnwrapIdentity(s, "__"); UnwrapIdentity(s, "*"); UnwrapIdentity(s, "_"); }
      Unwrap(StripCode(StripLinks(StripHeadings(s, true))), "~~");
    == { StripHeadingsMidLine(s[1..]); assert [s[0]] + s[1..] == s; }
      Unwrap(StripCode(StripLinks(s)), "~~");
    == { StripLinksIdentity(s); StripCodeIdentity(s); UnwrapIdentity(s, "~~"); }
      s;
    }
  }
}
