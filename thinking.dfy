/**
 * `remove_thinking_blocks` (backend/utils.py): strips a model's reasoning from its reply.
 * Closed `<think>`/`<thinking>` spans go first, then anything after an unclosed `<think>`;
 * then every line that reads like reasoning is dropped, a few translation and version
 * artifacts are cut out, runs of line breaks are collapsed and the result is stripped.
 *
 * Every pattern here is matched case-insensitively; case folding is ASCII (`Text.Lower`).
 */
module Thinking {
  import opened Wrappers
  import opened Text
  import opened Seqs
  import opened Cleaning

  /** The pattern `p` (written in lower case) matches `s` at `i`, ignoring case. */
  predicate CiAt(s: string, i: nat, p: string) {
    i + |p| <= |s| && Lower(s[i..i + |p|]) == p
  }

  /** The first position at or after `from` where `p` matches ignoring case. */
  function CiFind(s: string, p: string, from: nat): (r: Option<nat>)
    ensures r.Some? ==> from <= r.value && CiAt(s, r.value, p)
    ensures forall k :: from <= k && (r.None? || k < r.value) ==> !CiAt(s, k, p)
    decreases |s| - from
  {
    if from + |p| > |s| then None
    else if CiAt(s, from, p) then Some(from)
    else CiFind(s, p, from + 1)
  }

  /** A pattern starting with `<` cannot match where the text has no `<`. */
  lemma NoAngleNoMatch(s: string, i: nat, p: string)
    requires |p| > 0 && p[0] == '<'
    requires forall k :: 0 <= k < |s| ==> s[k] != '<'
    ensures !CiAt(s, i, p)
  {
    if i + |p| <= |s| {
      assert Lower(s[i..i + |p|])[0] == LowerChar(s[i]);
    }
  }

  // ---------------------------------------------------------------------------
  // Tag passes
  // ---------------------------------------------------------------------------

  /**
   * `re.sub(open + r'.*?' + close, '', s, flags=re.IGNORECASE | re.DOTALL)`: from each
   * opening tag to the first closing tag after it (across lines) is removed; an opening tag
   * with no closing tag after it is not a match and is kept.
   */
  function RemoveSpans(s: string, open: string, close: string): (r: string)
    requires |open| > 0
    ensures |r| <= |s|
    decreases |s|
  {
    if s == [] then []
    else if CiAt(s, 0, open) then
      match CiFind(s, close, |open|)
      case Some(j) => RemoveSpans(s[j + |close|..], open, close)
      case None => [s[0]] + RemoveSpans(s[1..], open, close)
    else [s[0]] + RemoveSpans(s[1..], open, close)
  }

  /** Text without `<` holds no tag and passes unchanged. */
  lemma {:induction false} RemoveSpansIdentity(s: string, open: string, close: string)
    requires |open| > 0 && open[0] == '<'
    requires forall k :: 0 <= k < |s| ==> s[k] != '<'
    ensures RemoveSpans(s, open, close) == s
    decreases |s|
  {
    if s != [] {
      NoAngleNoMatch(s, 0, open);
      RemoveSpansIdentity(s[1..], open, close);
    }
  }

  /**
   * A closed span is removed together with its tags, and scanning resumes after it. The tags
   * `o` and `c` as written may be in any case: only their lower-case forms must be the patterns.
   */
  lemma ClosedSpanRemoved(x: string, y: string, open: string, close: string, o: string, c: string)
    requires |open| > 0 && |o| == |open| && Lower(o) == open
    requires |close| > 0 && close[0] == '<' && |c| == |close| && Lower(c) == close
    requires forall k :: 0 <= k < |x| ==> x[k] != '<'
    ensures RemoveSpans(o + x + c + y, open, close) == RemoveSpans(y, open, close)
  {
    var s := o + x + c + y;
    var j := |o| + |x|;
    assert s[..|o|] == o;
    assert s[j..j + |c|] == c;
    assert CiAt(s, j, close);
    forall k | |open| <= k < j
      ensures !CiAt(s, k, close)
    {
      if k + |close| <= |s| {
        assert s[k] == x[k - |o|];
        assert Lower(s[k..k + |close|])[0] == LowerChar(s[k]);
      }
    }
    assert CiFind(s, close, |open|) == Some(j);
    assert s[j + |close|..] == y;
  }

  /** An opening tag followed by text without `<` has nothing to close it and is kept. */
  lemma UnclosedSpanKept(s: string, open: string, close: string)
    requires |open| > 0 && open[0] == '<'
    requires |close| > 0 && close[0] == '<'
    requires s != [] && forall k :: 1 <= k < |s| ==> s[k] != '<'
    ensures RemoveSpans(s, open, close) == s
  {
    var t := s[1..];
    assert forall k :: 0 <= k < |t| ==> t[k] == s[k + 1];
    RemoveSpansIdentity(t, open, close);
    if CiAt(s, 0, open) {
      forall k | |open| <= k
        ensures !CiAt(s, k, close)
      {
        if k + |close| <= |s| {
          assert Lower(s[k..k + |close|])[0] == LowerChar(s[k]);
        }
      }
      assert CiFind(s, close, |open|).None?;
    }
    assert s == [s[0]] + t;
  }

  /** `re.sub(r'<think>.*', '', s, flags=re.IGNORECASE | re.DOTALL)`: everything from the first opening tag on is cut. */
  function CutUnclosed(s: string, open: string): (r: string)
    requires |open| > 0
    ensures |r| <= |s| && r == s[..|r|]
    ensures forall k: nat :: !CiAt(r, k, open)
    ensures CiFind(s, open, 0).None? ==> r == s
    ensures CiFind(s, open, 0).Some? ==> CiAt(s, |r|, open)
  {
    match CiFind(s, open, 0)
    case None => s
    case Some(k) =>
      PrefixKeepsNoMatch(s, k, open);
      s[..k]
  }

  /** A prefix free of matches before its end is free of matches altogether. */
  lemma PrefixKeepsNoMatch(s: string, k: nat, p: string)
    requires k <= |s| && |p| > 0
    requires forall j: nat :: j < k ==> !CiAt(s, j, p)
    ensures forall j: nat :: !CiAt(s[..k], j, p)
  {
    forall j: nat
      ensures !CiAt(s[..k], j, p)
    {
      if j + |p| <= k {
        assert s[..k][j..j + |p|] == s[j..j + |p|];
        assert !CiAt(s, j, p);
      }
    }
  }

  // ---------------------------------------------------------------------------
  // Line filter
  // ---------------------------------------------------------------------------

  // The reasoning phrases, in the groups the source lists them in.
  const ThinkingIndicators: seq<string> := ["think", "thinking", "reasoning"]
  const ReasoningStarters: seq<string> := [
    "okay, i", "let me", "first,", "next,", "now,", "then,", "also,", "moving",
    "translating", "i need to", "i should", "i will", "i'll"]
  const ProcessIndicators: seq<string> := [
    "starting with", "going through", "working on", "checking", "ensuring",
    "double-check", "make sure", "verify", "review"]
  const ChoiceReasoning: seq<string> := [
    "could be", "would be", "might be", "sounds better", "is better",
    "for instance", "for example", "such as", "like this"]
  const InstructionalContent: seq<string> := [
    "subject:", "body:", "remember:", "note:", "important:",
    "in french", "in english", "translation", "translate"]
  const MetaCommentary: seq<string> := [
    "the original", "the content", "the text", "the email",
    "this becomes", "this translates", "this should be"]
  const VersionCommentary: seq<string> := [
    "final version", "this version", "adjusted version", "updated version",
    "meets all requirements", "meets the requirements", "with plain text",
    "plain text adjustments", "adjust the", "adjustments as needed",
    "as needed", "placeholders as needed", "address/phone placeholders"]
  const FormattingInstructions: seq<string> := [
    "proper line breaks", "concise paragraphs", "bullet points",
    "no markdown", "without markdown", "plain text only",
    "formatted version", "formatted content", "formatting applied"]
  const CompletionIndicators: seq<string> := [
    "here is the", "here's the", "below is the", "above is the",
    "content is ready", "content ready", "generation complete"]

  /** A line whose trimmed, lower-cased text contains any of these phrases is dropped. */
  const SkipPatterns: seq<string> :=
    ThinkingIndicators + ReasoningStarters + ProcessIndicators + ChoiceReasoning
    + InstructionalContent + MetaCommentary + VersionCommentary + FormattingInstructions
    + CompletionIndicators

  /** Some phrase of `patterns` occurs in `t`. */
  predicate ContainsAnyOf(t: string, patterns: seq<string>) {
    exists i :: 0 <= i < |patterns| && Contains(t, patterns[i])
  }

  /** A quoted line offering alternatives: it opens with `"` and holds an en dash, `or ` or `becomes`. */
  predicate QuotedAlternative(t: string) {
    t != [] && t[0] == '"' && (Contains(t, "–") || Contains(t, "or ") || Contains(t, "becomes"))
  }

  /** An instruction heading: it ends with `:` and mentions a version, adjustments, requirements or a format. */
  predicate InstructionHeading(t: string) {
    t != [] && t[|t| - 1] == ':'
    && (Contains(t, "version") || Contains(t, "adjustments") || Contains(t, "requirements") || Contains(t, "format"))
  }

  /** A fragment of at most two characters other than `hi` and `in`. */
  predicate Fragment(t: string) {
    |t| <= 2 && t != "hi" && t != "in"
  }

  /** The trimmed, lower-cased text `t` of a non-blank line marks it as reasoning. */
  predicate Reasoning(t: string) {
    ContainsAnyOf(t, SkipPatterns) || QuotedAlternative(t) || InstructionHeading(t) || Fragment(t)
  }

  /** The text the line tests look at: `line.strip().lower()`. */
  function Trimmed(line: string): string {
    Lower(Strip(line))
  }

  /** A line survives the filter when it is blank or does not read as reasoning. */
  predicate KeepLine(line: string) {
    Trimmed(line) == [] || !Reasoning(Trimmed(line))
  }

  /** The lines the filter drops. */
  predicate DropLine(line: string) {
    !KeepLine(line)
  }

  /** The inner loop over the phrases, stopping at the first that occurs. */
  method ContainsAny(t: string, patterns: seq<string>) returns (found: bool)
    ensures found <==> ContainsAnyOf(t, patterns)
  {
    found := false;
    for i := 0 to |patterns|
      invariant !found
      invariant forall k :: 0 <= k < i ==> !Contains(t, patterns[k])
    {
      if Contains(t, patterns[i]) {
        found := true;
        break;
      }
    }
  }

  /** The `should_skip` decision for the trimmed text of a non-blank line. */
  method ShouldSkip(t: string) returns (skip: bool)
    ensures skip == Reasoning(t)
  {
    skip := ContainsAny(t, SkipPatterns);
    if QuotedAlternative(t) {
      skip := true;
    }
    if InstructionHeading(t) {
      skip := true;
    }
    if Fragment(t) {
      skip := true;
    }
  }

  /** The loop over the lines: blank lines and lines that do not read as reasoning are kept, in order. */
  method FilterReasoningLines(lines: seq<string>) returns (kept: seq<string>)
    ensures kept == Filter(lines, KeepLine)
  {
    kept := [];
    for i := 0 to |lines|
      invariant kept == Filter(lines[..i], KeepLine)
    {
      var line := lines[i];
      PrefixSnoc(lines, i);
      FilterSnoc(lines[..i], line, KeepLine);
      var stripped := Trimmed(line);
      if stripped == [] {
        kept := kept + [line];
        continue;
      }
      var skip := ShouldSkip(stripped);
      if !skip {
        kept := kept + [line];
      }
    }
    assert lines[..|lines|] == lines;
  }

  /** The filter splits the lines into the kept and the dropped ones without reordering either. */
  lemma LineFilterPartition(lines: seq<string>)
    ensures Interleaving(lines, Filter(lines, KeepLine), Filter(lines, DropLine))
    ensures |Filter(lines, KeepLine)| + |Filter(lines, DropLine)| == |lines|
  {
    FilterPartition(lines, KeepLine, DropLine);
    InterleavingCounts(lines, Filter(lines, KeepLine), Filter(lines, DropLine));
  }

  /** When every line is kept, splitting, filtering and joining give back the text. */
  lemma AllLinesKept(s: string)
    requires forall i :: 0 <= i < |Split(s, '\n')| ==> KeepLine(Split(s, '\n')[i])
    ensures Join("\n", Filter(Split(s, '\n'), KeepLine)) == s
  {
    FilterAll(Split(s, '\n'), KeepLine);
    JoinSplit(s, '\n');
  }

  /** Every phrase of `ps` is at least three characters long. */
  predicate AllLong(ps: seq<string>) {
    forall i :: 0 <= i < |ps| ==> |ps[i]| >= 3
  }

  lemma LongConcat(a: seq<string>, b: seq<string>)
    requires AllLong(a) && AllLong(b)
    ensures AllLong(a + b)
  {
    assert forall i :: |a| <= i < |a + b| ==> (a + b)[i] == b[i - |a|];
  }

  /** Every reasoning phrase is at least three characters long. */
  lemma SkipPatternsLong()
    ensures AllLong(SkipPatterns)
  {
    assert AllLong(ThinkingIndicators);
    assert AllLong(ReasoningStarters);
    assert AllLong(ProcessIndicators);
    assert AllLong(ChoiceReasoning);
    assert AllLong(InstructionalContent);
    assert AllLong(MetaCommentary);
    assert AllLong(VersionCommentary);
    assert AllLong(FormattingInstructions);
    assert AllLong(CompletionIndicators);
    LongConcat(ThinkingIndicators, ReasoningStarters);
    var p := ThinkingIndicators + ReasoningStarters;
    LongConcat(p, ProcessIndicators);
    p := p + ProcessIndicators;
    LongConcat(p, ChoiceReasoning);
    p := p + ChoiceReasoning;
    LongConcat(p, InstructionalContent);
    p := p + InstructionalContent;
    LongConcat(p, MetaCommentary);
    p := p + MetaCommentary;
    LongConcat(p, VersionCommentary);
    p := p + VersionCommentary;
    LongConcat(p, FormattingInstructions);
    p := p + FormattingInstructions;
    LongConcat(p, CompletionIndicators);
  }

  /** A text shorter than every phrase of `ps` contains none of them. */
  lemma ShortTextNoPattern(t: string, ps: seq<string>)
    requires AllLong(ps) && |t| < 3
    ensures !ContainsAnyOf(t, ps)
  {
    forall i | 0 <= i < |ps|
      ensures !Contains(t, ps[i])
    {
      LongerNotContained(t, ps[i]);
    }
  }

  /** A line of one or two characters is kept exactly when it reads `hi` or `in`, in any case. */
  lemma ShortLineKept(line: string)
    requires 0 < |Trimmed(line)| <= 2
    ensures KeepLine(line) <==> Trimmed(line) == "hi" || Trimmed(line) == "in"
  {
    var t := Trimmed(line);
    SkipPatternsLong();
    ShortTextNoPattern(t, SkipPatterns);
    assert t == "hi" || t == "in" ==> !QuotedAlternative(t) && !InstructionHeading(t);
  }

  /** Lowering a prefix is the prefix of the lowered text. */
  lemma LowerPrefix(s: string, n: nat)
    requires n <= |s|
    ensures Lower(s)[..n] == Lower(s[..n])
  {
  }

  /** A text opening with `let me` holds one of the reasoning phrases. */
  lemma LetMeIsReasoning(t: string)
    requires |t| >= 6 && t[..6] == "let me"
    ensures ContainsAnyOf(t, SkipPatterns)
  {
    ContainsAt(t, "let me", 0);
    assert SkipPatterns[4] == "let me";
  }

  /** A line opening with `let me`, in any case and whatever surrounds it, is dropped as reasoning. */
  lemma LetMeDropped(line: string)
    requires |Strip(line)| >= 6 && Lower(Strip(line)[..6]) == "let me"
    ensures DropLine(line)
  {
    LetMeTrimmed(line);
    LetMeIsReasoning(Trimmed(line));
    PhraseDropped(line);
  }

  /** Trimming and lower-casing keep an opening `let me` in place. */
  lemma LetMeTrimmed(line: string)
    requires |Strip(line)| >= 6 && Lower(Strip(line)[..6]) == "let me"
    ensures |Trimmed(line)| >= 6 && Trimmed(line)[..6] == "let me"
  {
    LowerPrefix(Strip(line), 6);
  }

  /** A line whose trimmed text holds a reasoning phrase is dropped. */
  lemma PhraseDropped(line: string)
    requires Trimmed(line) != [] && ContainsAnyOf(Trimmed(line), SkipPatterns)
    ensures DropLine(line)
  {
  }

  // ---------------------------------------------------------------------------
  // Artifact patterns
  // ---------------------------------------------------------------------------

  /** What joins the two quoted strings of a quoted-pair artifact. */
  datatype Link = Dash | Or

  /** The artifact patterns, non-greedy nowhere, each matched ignoring case. */
  datatype Artifact =
    | QuotedPair(link: Link)      // `"[^"]*"[ ]*[–-][ ]*"[^"]*"` and `"[^"]*"[ ]*or[ ]*"[^"]*"`
    | BecomesQuoted               // `becomes[ ]*"[^"]*"`
    | KeywordColon(word: string)  // `.*version.*:.*` and its two companions

  const Artifacts: seq<Artifact> := [
    QuotedPair(Dash), QuotedPair(Or), BecomesQuoted,
    KeywordColon("version"), KeywordColon("requirements"), KeywordColon("adjustments")
  ]

  /** `"[^"]*"` at `i`: the end of the quoted string that opens there. The class `[^"]` also matches line breaks. */
  function QuotedAt(s: string, i: nat): (r: Option<nat>)
    ensures r.Some? ==> i + 2 <= r.value <= |s|
  {
    if i < |s| && s[i] == '"' then
      match IndexFrom(s, '"', i + 1)
      case Some(q) => Some(q + 1)
      case None => None
    else None
  }

  /** The end of the line holding position 0: the first line break, or the end of the text. */
  function LineEnd(s: string): (e: nat)
    ensures e <= |s| && (e < |s| ==> s[e] == '\n')
    ensures forall k :: 0 <= k < e ==> s[k] != '\n'
  {
    match IndexFrom(s, '\n', 0)
    case Some(e) => e
    case None => |s|
  }

  /** `.*w.*:` can match within `line`: `w` occurs, and a colon follows it. */
  predicate WordThenColon(line: string, w: string) {
    match CiFind(line, w, 0)
    case None => false
    case Some(i) => IndexFrom(line, ':', i + |w|).Some?
  }

  /**
   * The length of the match of `a` at the start of `s`, if it matches there. Every `[ ]*` is
   * followed by a character it cannot match and every `[^"]*` by `"`, so each pattern has at
   * most one way to match; `.*w.*:.*` matches up to the end of the line whenever it matches.
   */
  function MatchAt(a: Artifact, s: string): (r: Option<nat>)
    ensures r.Some? ==> 0 < r.value <= |s|
  {
    match a
    case QuotedPair(link) =>
      (match QuotedAt(s, 0)
       case None => None
       case Some(e) =>
         var m := SkipChar(s, ' ', e);
         var linkEnd :=
           match link
           case Dash => if m < |s| && (s[m] == '–' || s[m] == '-') then Some(m + 1) else None
           case Or => if CiAt(s, m, "or") then Some(m + 2) else None;
         match linkEnd
         case None => None
         case Some(l) => QuotedAt(s, SkipChar(s, ' ', l)))
    case BecomesQuoted =>
      if CiAt(s, 0, "becomes") then QuotedAt(s, SkipChar(s, ' ', 7)) else None
    case KeywordColon(w) =>
      var e := LineEnd(s);
      if |w| > 0 && WordThenColon(s[..e], w) then Some(e) else None
  }

  /** `re.sub(pattern, '', s, flags=re.IGNORECASE | re.MULTILINE)`: leftmost matches removed, scanning on. */
  function ApplyArtifact(a: Artifact, s: string): (r: string)
    ensures |r| <= |s|
    decreases |s|
  {
    if s == [] then []
    else
      match MatchAt(a, s)
      case Some(n) => ApplyArtifact(a, s[n..])
      case None => [s[0]] + ApplyArtifact(a, s[1..])
  }

  /** The artifact passes in order, the last one outermost. */
  function ApplyAll(artifacts: seq<Artifact>, s: string): (r: string)
    ensures |r| <= |s|
    decreases |artifacts|
  {
    if artifacts == [] then s
    else ApplyArtifact(artifacts[|artifacts| - 1], ApplyAll(artifacts[..|artifacts| - 1], s))
  }

  /** Text with neither quotes nor colons holds no artifact. */
  lemma {:induction false} ArtifactIdentity(a: Artifact, s: string)
    requires forall k :: 0 <= k < |s| ==> s[k] != '"' && s[k] != ':'
    ensures ApplyArtifact(a, s) == s
    decreases |s|
  {
    if s != [] {
      assert MatchAt(a, s).None? by {
        if a.KeywordColon? {
          var e := LineEnd(s);
          var line := s[..e];
          match CiFind(line, a.word, 0)
          case None =>
          case Some(i) =>
            assert forall k :: i + |a.word| <= k < |line| ==> line[k] != ':';
        }
      }
      ArtifactIdentity(a, s[1..]);
    }
  }

  /** Text with neither quotes nor colons passes all artifact passes unchanged. */
  lemma {:induction false} ApplyAllIdentity(artifacts: seq<Artifact>, s: string)
    requires forall k :: 0 <= k < |s| ==> s[k] != '"' && s[k] != ':'
    ensures ApplyAll(artifacts, s) == s
    decreases |artifacts|
  {
    if artifacts != [] {
      ApplyAllIdentity(artifacts[..|artifacts| - 1], s);
      ArtifactIdentity(artifacts[|artifacts| - 1], s);
    }
  }

  /** `"x" – "y"` is removed as a whole, and scanning resumes after it. */
  lemma QuotedDashRemoved(x: string, y: string, rest: string)
    requires forall k :: 0 <= k < |x| ==> x[k] != '"'
    requires forall k :: 0 <= k < |y| ==> y[k] != '"'
    ensures ApplyArtifact(QuotedPair(Dash), "\"" + x + "\" – \"" + y + "\"" + rest)
            == ApplyArtifact(QuotedPair(Dash), rest)
  {
    var s := "\"" + x + "\" – \"" + y + "\"" + rest;
    var e := |x| + 2;
    assert s[|x| + 1] == '"';
    assert forall k :: 1 <= k < |x| + 1 ==> s[k] == x[k - 1];
    assert QuotedAt(s, 0) == Some(e);
    assert s[e] == ' ' && s[e + 1] == '–';
    assert SkipChar(s, ' ', e + 1) == e + 1;
    assert SkipChar(s, ' ', e) == e + 1;
    assert s[e + 2] == ' ' && s[e + 3] == '"';
    assert SkipChar(s, ' ', e + 3) == e + 3;
    assert SkipChar(s, ' ', e + 2) == e + 3;
    var q := e + 4 + |y|;
    assert s[q] == '"';
    assert forall k :: e + 4 <= k < q ==> s[k] == y[k - e - 4];
    assert IndexFrom(s, '"', e + 4) == Some(q);
    assert MatchAt(QuotedPair(Dash), s) == Some(q + 1);
    assert s[q + 1..] == rest;
  }

  /** A line in which `w` is followed by a colon is emptied; its line break stays. */
  lemma KeywordLineEmptied(w: string, line: string, rest: string)
    requires |w| > 0
    requires forall k :: 0 <= k < |line| ==> line[k] != '\n'
    requires WordThenColon(line, w)
    ensures ApplyArtifact(KeywordColon(w), line + "\n" + rest) == "\n" + ApplyArtifact(KeywordColon(w), rest)
  {
    var s := line + "\n" + rest;
    assert s[|line|] == '\n';
    assert forall k :: 0 <= k < |line| ==> s[k] == line[k];
    assert IndexFrom(s, '\n', 0) == Some(|line|);
    assert s[..|line|] == line;
    var t := s[|line|..];
    assert t == "\n" + rest;
    assert LineEnd(t) == 0;
    assert !WordThenColon(t[..0], w);
    assert t[1..] == rest;
  }

  // ---------------------------------------------------------------------------
  // The whole sanitiser
  // ---------------------------------------------------------------------------

  /** The three tag passes. */
  function TagsRemoved(content: string): string {
    CutUnclosed(RemoveSpans(RemoveSpans(content, "<think>", "</think>"), "<thinking>", "</thinking>"), "<think>")
  }

  /** The line filter: split on line breaks, keep the lines that survive, join them again. */
  function LinesFiltered(text: string): string {
    Join("\n", Filter(Split(text, '\n'), KeepLine))
  }

  /** The artifact passes, then the newline collapse and `strip()`. */
  function Tidied(text: string): string {
    Strip(CollapseNewlines(ApplyAll(Artifacts, text)))
  }

  /** What `remove_thinking_blocks` returns. */
  function ThinkingCleaned(content: string): string {
    Tidied(LinesFiltered(TagsRemoved(content)))
  }

  /** The loop over the artifact patterns, each pass applied to the result of the one before. */
  method RemoveArtifacts(artifacts: seq<Artifact>, text: string) returns (r: string)
    ensures r == ApplyAll(artifacts, text)
  {
    r := text;
    for i := 0 to |artifacts|
      invariant r == ApplyAll(artifacts[..i], text)
    {
      assert artifacts[..i + 1][..i] == artifacts[..i];
      r := ApplyArtifact(artifacts[i], r);
    }
    assert artifacts[..|artifacts|] == artifacts;
  }

  /** `remove_thinking_blocks`, step by step as the source reassigns `cleaned_content`. */
  method RemoveThinkingBlocks(content: string) returns (r: string)
    ensures r == ThinkingCleaned(content)
  {
    var cleaned := RemoveSpans(content, "<think>", "</think>");
    cleaned := RemoveSpans(cleaned, "<thinking>", "</thinking>");
    cleaned := CutUnclosed(cleaned, "<think>");
    var lines := Split(cleaned, '\n');
    var filtered := FilterReasoningLines(lines);
    cleaned := Join("\n", filtered);
    cleaned := RemoveArtifacts(Artifacts, cleaned);
    cleaned := CollapseNewlines(cleaned);
    r := Strip(cleaned);
  }

  /** The tidied text has no run of three line breaks and no surrounding whitespace. */
  lemma TidiedShape(text: string)
    ensures NoTripleNewline(Tidied(text))
    ensures var r := Tidied(text); r != [] ==> !IsSpace(r[0]) && !IsSpace(r[|r| - 1])
  {
    var x := ApplyAll(Artifacts, text);
    CollapseStripShape(x);
  }

  /** The sanitised text has no run of three line breaks. */
  lemma ThinkingCleanedNoTriple(content: string)
    ensures NoTripleNewline(ThinkingCleaned(content))
  {
    TidiedShape(LinesFiltered(TagsRemoved(content)));
  }

  /** Tidying changes nothing in a stripped text without quotes, colons or three line breaks in a row. */
  lemma TidiedIdentity(s: string)
    requires forall k :: 0 <= k < |s| ==> s[k] != '"' && s[k] != ':'
    requires NoTripleNewline(s)
    requires s != [] ==> !IsSpace(s[0]) && !IsSpace(s[|s| - 1])
    ensures Tidied(s) == s
  {
    ApplyAllIdentity(Artifacts, s);
    CollapseNewlinesIdentity(s);
  }

  /** A single line that the filter keeps passes the line filter unchanged. */
  lemma SingleLineFiltered(line: string)
    requires forall k :: 0 <= k < |line| ==> line[k] != '\n'
    requires KeepLine(line)
    ensures LinesFiltered(line) == line
  {
    assert IndexFrom(line, '\n', 0).None?;
    assert Split(line, '\n') == [line];
    FilterSnoc([], line, KeepLine);
  }

  /** The tag passes: a closed `<think>` block, its tags in any case, is removed and the text after it is kept. */
  lemma ClosedBlockTags(x: string, y: string, o: string, c: string)
    requires Lower(o) == "<think>" && Lower(c) == "</think>"
    requires forall k :: 0 <= k < |x| ==> x[k] != '<'
    requires forall k :: 0 <= k < |y| ==> y[k] != '<'
    ensures TagsRemoved(o + x + c + y) == y
  {
    ClosedSpanRemoved(x, y, "<think>", "</think>", o, c);
    RemoveSpansIdentity(y, "<think>", "</think>");
    RemoveSpansIdentity(y, "<thinking>", "</thinking>");
    forall k: nat
      ensures !CiAt(y, k, "<think>")
    {
      NoAngleNoMatch(y, k, "<think>");
    }
    assert CiFind(y, "<think>", 0).None?;
  }

  /** `hi` or `in`, in any case: two letters, kept by the line filter. */
  predicate Greeting(g: string) {
    |g| == 2 && (Lower(g) == "hi" || Lower(g) == "in")
  }

  /** A greeting is two ASCII letters. */
  lemma GreetingLetters(g: string)
    requires Greeting(g)
    ensures forall k :: 0 <= k < |g| ==> 'A' <= g[k] <= 'z'
  {
    assert LowerChar(g[0]) == Lower(g)[0] && LowerChar(g[1]) == Lower(g)[1];
  }

  /** Two letters hold no tag, break, quote or colon, and no whitespace. */
  lemma LettersFacts(g: string)
    requires |g| == 2 && forall k :: 0 <= k < |g| ==> 'A' <= g[k] <= 'z'
    ensures forall k :: 0 <= k < |g| ==> g[k] != '<'
    ensures forall k :: 0 <= k < |g| ==> g[k] != '\n'
    ensures forall k :: 0 <= k < |g| ==> g[k] != '"' && g[k] != ':'
    ensures NoTripleNewline(g)
    ensures !IsSpace(g[0]) && !IsSpace(g[|g| - 1])
  {
  }

  /** A greeting is a single stripped line of letters that the filter keeps. */
  lemma GreetingFacts(g: string)
    requires Greeting(g)
    ensures forall k :: 0 <= k < |g| ==> g[k] != '<'
    ensures forall k :: 0 <= k < |g| ==> g[k] != '\n'
    ensures forall k :: 0 <= k < |g| ==> g[k] != '"' && g[k] != ':'
    ensures NoTripleNewline(g)
    ensures !IsSpace(g[0]) && !IsSpace(g[|g| - 1])
    ensures KeepLine(g)
  {
    GreetingLetters(g);
    LettersFacts(g);
    assert Strip(g) == g;
    ShortLineKept(g);
  }

  /** A line the filter keeps, with no tag, break, quote or colon, and no surrounding whitespace. */
  predicate PlainKeptLine(g: string) {
    && (forall k :: 0 <= k < |g| ==> g[k] != '<' && g[k] != '\n' && g[k] != '"' && g[k] != ':')
    && NoTripleNewline(g)
    && (g != [] ==> !IsSpace(g[0]) && !IsSpace(g[|g| - 1]))
    && KeepLine(g)
  }

  /** A closed `<think>` block, its tags in any case, before a plain kept line leaves only that line. */
  lemma ClosedBlockBeforeLine(x: string, g: string, o: string, c: string)
    requires Lower(o) == "<think>" && Lower(c) == "</think>"
    requires forall k :: 0 <= k < |x| ==> x[k] != '<'
    requires PlainKeptLine(g)
    ensures ThinkingCleaned(o + x + c + g) == g
  {
    assert TagsRemoved(o + x + c + g) == g by { ClosedBlockTags(x, g, o, c); }
    assert LinesFiltered(g) == g by { SingleLineFiltered(g); }
    assert Tidied(g) == g by { TidiedIdentity(g); }
  }

  /** A closed `<think>` block, its tags in any case, before a greeting leaves only the greeting. */
  lemma ClosedBlockExample(x: string, g: string, o: string, c: string)
    requires Lower(o) == "<think>" && Lower(c) == "</think>"
    requires forall k :: 0 <= k < |x| ==> x[k] != '<'
    requires Greeting(g)
    ensures ThinkingCleaned(o + x + c + g) == g
  {
    GreetingFacts(g);
    ClosedBlockBeforeLine(x, g, o, c);
  }

  /** A closed `<think>` block, its tags in any case, before `Hello` leaves `Hello`. */
  lemma ClosedBlockHello(x: string, o: string, c: string)
    requires Lower(o) == "<think>" && Lower(c) == "</think>"
    requires forall k :: 0 <= k < |x| ==> x[k] != '<'
    ensures ThinkingCleaned(o + x + c + "Hello") == "Hello"
  {
    HelloPlainKept();
    ClosedBlockBeforeLine(x, "Hello", o, c);
  }

  /** A phrase cannot occur in `t` when it is longer than `t` or starts with a character `t` lacks. */
  predicate RuledOut(t: string, p: string) {
    |p| > |t| || (p != [] && p[0] !in t)
  }

  predicate AllRuledOut(t: string, ps: seq<string>) {
    forall i :: 0 <= i < |ps| ==> RuledOut(t, ps[i])
  }

  lemma RuledOutConcat(t: string, a: seq<string>, b: seq<string>)
    requires AllRuledOut(t, a) && AllRuledOut(t, b)
    ensures AllRuledOut(t, a + b)
  {
    assert forall i :: |a| <= i < |a + b| ==> (a + b)[i] == b[i - |a|];
  }

  /** No phrase that is ruled out occurs. */
  lemma RuledOutNoPattern(t: string, ps: seq<string>)
    requires AllRuledOut(t, ps)
    ensures !ContainsAnyOf(t, ps)
  {
    forall i | 0 <= i < |ps|
      ensures !Contains(t, ps[i])
    {
      if |ps[i]| > |t| {
        LongerNotContained(t, ps[i]);
      } else {
        MissingCharNotContained(t, ps[i], 0);
      }
    }
  }

  /** Every reasoning phrase is ruled out in `hello`. */
  lemma HelloRulesOutPatterns()
    ensures AllRuledOut("hello", SkipPatterns)
  {
    var t := "hello";
    HelloRulesOutFirstGroups();
    HelloRulesOutMiddleGroups();
    HelloRulesOutLastGroups();
    var p := ThinkingIndicators + ReasoningStarters + ProcessIndicators + ChoiceReasoning;
    RuledOutConcat(t, p, InstructionalContent);
    p := p + InstructionalContent;
    RuledOutConcat(t, p, MetaCommentary);
    p := p + MetaCommentary;
    RuledOutConcat(t, p, VersionCommentary);
    p := p + VersionCommentary;
    RuledOutConcat(t, p, FormattingInstructions);
    p := p + FormattingInstructions;
    RuledOutConcat(t, p, CompletionIndicators);
  }

  lemma HelloRulesOutFirstGroups()
    ensures AllRuledOut("hello", ThinkingIndicators + ReasoningStarters + ProcessIndicators + ChoiceReasoning)
  {
    var t := "hello";
    assert AllRuledOut(t, ThinkingIndicators);
    assert AllRuledOut(t, ReasoningStarters);
    assert AllRuledOut(t, ProcessIndicators);
    assert AllRuledOut(t, ChoiceReasoning);
    RuledOutConcat(t, ThinkingIndicators, ReasoningStarters);
    RuledOutConcat(t, ThinkingIndicators + ReasoningStarters, ProcessIndicators);
    RuledOutConcat(t, ThinkingIndicators + ReasoningStarters + ProcessIndicators, ChoiceReasoning);
  }

  lemma HelloRulesOutMiddleGroups()
    ensures AllRuledOut("hello", InstructionalContent) && AllRuledOut("hello", MetaCommentary)
  {
  }

  lemma HelloRulesOutLastGroups()
    ensures AllRuledOut("hello", VersionCommentary) && AllRuledOut("hello", FormattingInstructions)
    ensures AllRuledOut("hello", CompletionIndicators)
  {
  }

  /** `Hello` is a plain line that the filter keeps: its trimmed text `hello` reads as no reasoning. */
  lemma HelloPlainKept()
    ensures PlainKeptLine("Hello")
  {
    HelloShape();
    HelloKept();
  }

  lemma HelloShape()
    ensures forall k :: 0 <= k < |"Hello"| ==> "Hello"[k] != '<' && "Hello"[k] != '\n' && "Hello"[k] != '"' && "Hello"[k] != ':'
    ensures NoTripleNewline("Hello")
    ensures !IsSpace("Hello"[0]) && !IsSpace("Hello"[4])
  {
  }

  lemma HelloKept()
    ensures KeepLine("Hello")
  {
    HelloTrimmed();
    HelloNotReasoning();
  }

  lemma HelloNotReasoning()
    ensures !Reasoning("hello")
  {
    HelloRulesOutPatterns();
    RuledOutNoPattern("hello", SkipPatterns);
  }

  lemma HelloTrimmed()
    ensures Trimmed("Hello") == "hello"
  {
    HelloStripped();
    HelloLowered();
  }

  lemma HelloStripped()
    ensures Strip("Hello") == "Hello"
  {
    assert !IsSpace("Hello"[0]) && !IsSpace("Hello"[4]);
  }

  lemma HelloLowered()
    ensures Lower("Hello") == "hello"
  {
    var l := Lower("Hello");
    assert l[0] == LowerChar('H') == 'h';
    assert l[1..] == "ello";
  }

  /** An opening `<think>` that is never closed removes everything after it. */
  lemma UnclosedBlockExample(x: string)
    requires forall k :: 0 <= k < |x| ==> x[k] != '<'
    ensures ThinkingCleaned("<think>" + x) == ""
  {
    UnclosedBlockTags(x);
    assert Split("", '\n') == [""];
    assert KeepLine("");
    FilterSnoc([], "", KeepLine);
    assert LinesFiltered("") == "";
    ApplyAllIdentity(Artifacts, "");
  }

  lemma UnclosedBlockTags(x: string)
    requires forall k :: 0 <= k < |x| ==> x[k] != '<'
    ensures TagsRemoved("<think>" + x) == ""
  {
    var s := "<think>" + x;
    assert forall k :: 1 <= k < |s| ==> s[k] != '<' by {
      assert forall k :: 7 <= k < |s| ==> s[k] == x[k - 7];
    }
    UnclosedSpanKept(s, "<think>", "</think>");
    UnclosedSpanKept(s, "<thinking>", "</thinking>");
    assert s[..7] == "<think>";
    assert CiAt(s, 0, "<think>");
  }
}
