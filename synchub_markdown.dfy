// The markdown line and inline parsers SyncHub shares with other plugins
// (synchub/plugin.js, `parseLine` and `parseInlineFormatting`). Every regular
// expression is stated as an explicit match function over the string.

module SyncHubMarkdown {
  import opened Common

  // ---------------------------------------------------------------------
  // Character runs

  /** The length of the run of characters other than `c` in `s` from `i`. */
  function RunNot(s: string, i: nat, c: char): (n: nat)
    requires i <= |s|
    ensures i + n <= |s|
    decreases |s| - i
  {
    if i < |s| && s[i] != c then 1 + RunNot(s, i + 1, c) else 0
  }

  /** The length of the run of `c` in `s` from `i`. */
  function RunOf(s: string, i: nat, c: char): (n: nat)
    requires i <= |s|
    ensures i + n <= |s|
    decreases |s| - i
  {
    if i < |s| && s[i] == c then 1 + RunOf(s, i + 1, c) else 0
  }

  /** Every character of the run `RunOf` measures is `c`. */
  lemma {:induction false} RunOfIsRun(s: string, i: nat, c: char)
    requires i <= |s|
    ensures forall k :: i <= k < i + RunOf(s, i, c) ==> s[k] == c
    decreases |s| - i
  {
    if i < |s| && s[i] == c {
      RunOfIsRun(s, i + 1, c);
    }
  }

  function DigitRun(s: string, i: nat): (n: nat)
    requires i <= |s|
    ensures i + n <= |s|
    decreases |s| - i
  {
    if i < |s| && IsDigit(s[i]) then 1 + DigitRun(s, i + 1) else 0
  }

  predicate IsAsciiLetter(c: char) {
    'a' <= c <= 'z' || 'A' <= c <= 'Z'
  }

  /** The class `[A-Za-z0-9-]` of record GUIDs. */
  predicate IsGuidChar(c: char) {
    IsAsciiLetter(c) || IsDigit(c) || c == '-'
  }

  function GuidRun(s: string, i: nat): (n: nat)
    requires i <= |s|
    ensures i + n <= |s|
    decreases |s| - i
  {
    if i < |s| && IsGuidChar(s[i]) then 1 + GuidRun(s, i + 1) else 0
  }

  predicate NoTerminator(s: string) {
    forall k :: 0 <= k < |s| ==> !IsLineTerminator(s[k])
  }

  predicate At(s: string, i: nat, p: string) {
    i + |p| <= |s| && s[i..i + |p|] == p
  }

  lemma SplitAt(s: string, i: nat, j: nat, k: nat)
    requires i <= j <= k <= |s|
    ensures s[i..k] == s[i..j] + s[j..k]
  {
  }

  // ---------------------------------------------------------------------
  // Inline patterns

  /** The seven patterns of `parseInlineFormatting`, in the order they are tried. */
  datatype Pattern = Code | Ref | Link | BoldStars | BoldUnderscores | ItalicStar | ItalicUnderscore

  const Patterns: seq<Pattern> := [Code, Ref, Link, BoldStars, BoldUnderscores, ItalicStar, ItalicUnderscore]

  /** A match anchored at a start index: its length and its capture groups. */
  datatype Hit = Hit(len: nat, group: string, group2: string)

  /** `open([^stop]+)close` anchored at `i`, where `close` starts with `stop`. */
  function Enclosed(s: string, i: nat, open: string, stop: char, close: string): (h: Option<Hit>)
    requires i <= |s|
    ensures h.Some? ==> i + h.value.len <= |s| && h.value.len == |open| + |h.value.group| + |close| && |h.value.group| >= 1
  {
    if !At(s, i, open) then None
    else
      var j := i + |open|;
      var n := RunNot(s, j, stop);
      var k := j + n;
      if n >= 1 && At(s, k, close) then Some(Hit(k + |close| - i, s[j..k], "")) else None
  }

  lemma EnclosedSpan(s: string, i: nat, open: string, stop: char, close: string)
    requires i <= |s| && Enclosed(s, i, open, stop, close).Some?
    ensures var h := Enclosed(s, i, open, stop, close).value;
      s[i..i + h.len] == open + h.group + close
  {
    var j := i + |open|;
    var k := j + RunNot(s, j, stop);
    SplitAt(s, i, j, k + |close|);
    SplitAt(s, j, k, k + |close|);
  }

  /** `\[\[([A-Za-z0-9-]{20,})\]\]` anchored at `i`. */
  function RefAt(s: string, i: nat): (h: Option<Hit>)
    requires i <= |s|
    ensures h.Some? ==> i + h.value.len <= |s| && h.value.len == |h.value.group| + 4 && |h.value.group| >= 20
  {
    if !At(s, i, "[[") then None
    else
      var n := GuidRun(s, i + 2);
      var k := i + 2 + n;
      if n >= 20 && At(s, k, "]]") then Some(Hit(n + 4, s[i + 2..k], "")) else None
  }

  lemma RefSpan(s: string, i: nat)
    requires i <= |s| && RefAt(s, i).Some?
    ensures var h := RefAt(s, i).value;
      s[i..i + h.len] == "[[" + h.group + "]]"
  {
    var k := i + 2 + GuidRun(s, i + 2);
    SplitAt(s, i, i + 2, k + 2);
    SplitAt(s, i + 2, k, k + 2);
  }

  /** `\[([^\]]+)\]\(([^)]+)\)` anchored at `i`: the link text and the URL. */
  function LinkAt(s: string, i: nat): (h: Option<Hit>)
    requires i <= |s|
    ensures h.Some? ==> i + h.value.len <= |s| && h.value.len == |h.value.group| + |h.value.group2| + 4
    ensures h.Some? ==> |h.value.group| >= 1 && |h.value.group2| >= 1
  {
    if !At(s, i, "[") then None
    else
      var n := RunNot(s, i + 1, ']');
      var k := i + 1 + n;
      if n >= 1 && At(s, k, "](") then
        var m := RunNot(s, k + 2, ')');
        var e := k + 2 + m;
        if m >= 1 && At(s, e, ")") then Some(Hit(e + 1 - i, s[i + 1..k], s[k + 2..e])) else None
      else None
  }

  lemma LinkSpan(s: string, i: nat)
    requires i <= |s| && LinkAt(s, i).Some?
    ensures var h := LinkAt(s, i).value;
      s[i..i + h.len] == "[" + h.group + "](" + h.group2 + ")"
  {
    var k := i + 1 + RunNot(s, i + 1, ']');
    var e := k + 2 + RunNot(s, k + 2, ')');
    LinkPieces(s, i, k, e);
  }

  lemma LinkPieces(s: string, i: nat, k: nat, e: nat)
    requires i + 1 <= k && k + 2 <= e && e + 1 <= |s|
    requires At(s, i, "[") && At(s, k, "](") && At(s, e, ")")
    ensures s[i..e + 1] == "[" + s[i + 1..k] + "](" + s[k + 2..e] + ")"
  {
    SplitAt(s, i, i + 1, e + 1);
    SplitAt(s, i + 1, k, e + 1);
    SplitAt(s, k, k + 2, e + 1);
    SplitAt(s, k + 2, e, e + 1);
  }

  /** `_([^_]+)_` followed by the end or by a non-letter, which the match consumes:
    * the end position of the match body starting at `p`, with its group. */
  function UnderscoreBody(s: string, p: nat): (r: Option<(nat, string)>)
    requires p <= |s|
    ensures r.Some? ==> p + |r.value.1| + 2 <= r.value.0 <= |s| && |r.value.1| >= 1
    ensures r.Some? ==> r.value.0 == p + |r.value.1| + 2 || r.value.0 == p + |r.value.1| + 3
  {
    if !At(s, p, "_") then None
    else
      var n := RunNot(s, p + 1, '_');
      var k := p + 1 + n;
      if n >= 1 && At(s, k, "_") then
        if k + 1 == |s| then Some((k + 1, s[p + 1..k]))
        else if !IsAsciiLetter(s[k + 1]) then Some((k + 2, s[p + 1..k]))
        else None
      else None
  }

  lemma UnderscoreBodySpan(s: string, p: nat)
    requires p <= |s| && UnderscoreBody(s, p).Some?
    ensures var g := UnderscoreBody(s, p).value.1;
      s[p..p + |g| + 2] == "_" + g + "_"
  {
    var k := p + 1 + RunNot(s, p + 1, '_');
    SplitAt(s, p, p + 1, k + 1);
    SplitAt(s, p + 1, k, k + 1);
  }

  /** `(?:^|[^a-zA-Z])_([^_]+)_(?:$|[^a-zA-Z])` anchored at `i`, as written: the match
    * includes the non-letter before the opening `_` and the one after the closing `_`. */
  function UnderscoreItalicAsWritten(s: string, i: nat): (h: Option<Hit>)
    requires i <= |s|
    ensures h.Some? ==> i + h.value.len <= |s| && h.value.len >= 3 && |h.value.group| >= 1
  {
    var first := if i == 0 then UnderscoreBody(s, i) else None;
    if first.Some? then Some(Hit(first.value.0 - i, first.value.1, ""))
    else if i < |s| && !IsAsciiLetter(s[i]) then
      var second := UnderscoreBody(s, i + 1);
      if second.Some? then Some(Hit(second.value.0 - i, second.value.1, "")) else None
    else None
  }

  /** The same pattern with the neighbouring characters only looked at, not consumed:
    * the match is the `_..._` span itself. */
  function UnderscoreItalic(s: string, i: nat): (h: Option<Hit>)
    requires i <= |s|
    ensures h.Some? ==> i + h.value.len <= |s| && h.value.len == |h.value.group| + 2 && |h.value.group| >= 1
  {
    if i > 0 && IsAsciiLetter(s[i - 1]) then None
    else
      var b := UnderscoreBody(s, i);
      if b.Some? then Some(Hit(|b.value.1| + 2, b.value.1, "")) else None
  }

  /** Pattern `p` anchored at `i`; `fixed` selects the corrected underscore-italic pattern. */
  function PatternAt(p: Pattern, s: string, i: nat, fixed: bool): (h: Option<Hit>)
    requires i <= |s|
    ensures h.Some? ==> i + h.value.len <= |s| && h.value.len >= 1 && |h.value.group| >= 1
  {
    match p
    case Code => Enclosed(s, i, "`", '`', "`")
    case Ref => RefAt(s, i)
    case Link => LinkAt(s, i)
    case BoldStars => Enclosed(s, i, "**", '*', "**")
    case BoldUnderscores => Enclosed(s, i, "__", '_', "__")
    case ItalicStar => Enclosed(s, i, "*", '*', "*")
    case ItalicUnderscore => if fixed then UnderscoreItalic(s, i) else UnderscoreItalicAsWritten(s, i)
  }

  /** A match found by `String.prototype.match`: where it starts, its length and groups. */
  datatype Match = Match(index: nat, len: nat, group: string, group2: string)

  /** The leftmost match of `p` in `s` at or after `i`. */
  function FirstFrom(p: Pattern, s: string, i: nat, fixed: bool): (m: Option<Match>)
    requires i <= |s|
    ensures m.Some? ==> i <= m.value.index && m.value.index + m.value.len <= |s| && m.value.len >= 1 && |m.value.group| >= 1
    decreases |s| - i
  {
    if i >= |s| then None
    else
      var h := PatternAt(p, s, i, fixed);
      if h.Some? then Some(Match(i, h.value.len, h.value.group, h.value.group2))
      else FirstFrom(p, s, i + 1, fixed)
  }

  /** The match `FirstFrom` finds is the leftmost one, and there is none when it finds none. */
  lemma {:induction false} FirstFromIsLeftmost(p: Pattern, s: string, i: nat, fixed: bool)
    requires i <= |s|
    ensures var m := FirstFrom(p, s, i, fixed);
      forall j :: i <= j < (if m.Some? then m.value.index else |s|) ==> PatternAt(p, s, j, fixed).None?
    ensures var m := FirstFrom(p, s, i, fixed);
      m.Some? ==> PatternAt(p, s, m.value.index, fixed) == Some(Hit(m.value.len, m.value.group, m.value.group2))
    decreases |s| - i
  {
    if i < |s| && PatternAt(p, s, i, fixed).None? {
      FirstFromIsLeftmost(p, s, i + 1, fixed);
    }
  }

  /** The outcome of the search over the patterns: the pattern that won and its match. */
  datatype Pick = NoMatch | Found(pattern: Pattern, m: Match)

  /** The leftmost match of every pattern, in pattern order. */
  function Candidates(s: string, fixed: bool): (c: seq<Option<Match>>)
    ensures |c| == |Patterns|
    ensures forall k :: 0 <= k < |Patterns| ==> c[k] == FirstFrom(Patterns[k], s, 0, fixed)
  {
    seq(|Patterns|, k requires 0 <= k < |Patterns| => FirstFrom(Patterns[k], s, 0, fixed))
  }

  /** The loop over the first `n` candidates: a later pattern replaces the best so far only
    * when it matches strictly earlier, so ties go to the pattern listed first. */
  function EarliestOf(c: seq<Option<Match>>, n: nat): (r: Pick)
    requires n <= |c| <= |Patterns|
    ensures r.Found? ==> exists k :: 0 <= k < n && c[k] == Some(r.m) && Patterns[k] == r.pattern
  {
    if n == 0 then NoMatch
    else
      var best := EarliestOf(c, n - 1);
      if c[n - 1].Some? && (best.NoMatch? || c[n - 1].value.index < best.m.index) then Found(Patterns[n - 1], c[n - 1].value)
      else best
  }

  /** The match `parseInlineFormatting` takes next in `s`. */
  function Earliest(s: string, fixed: bool): (r: Pick)
    ensures r.Found? ==> r.m.index + r.m.len <= |s| && r.m.len >= 1 && |r.m.group| >= 1
  {
    EarliestOf(Candidates(s, fixed), |Patterns|)
  }

  /** The loop finds nothing exactly when no candidate matches. */
  lemma {:induction false} EarliestOfNone(c: seq<Option<Match>>, n: nat)
    requires n <= |c| <= |Patterns|
    ensures EarliestOf(c, n).NoMatch? <==> forall k :: 0 <= k < n ==> c[k].None?
  {
    if n > 0 {
      EarliestOfNone(c, n - 1);
    }
  }

  /** No candidate starts before the one the loop picks. */
  lemma {:induction false} EarliestOfIsLeftmost(c: seq<Option<Match>>, n: nat, k: nat)
    requires k < n <= |c| <= |Patterns| && c[k].Some?
    ensures EarliestOf(c, n).Found? && EarliestOf(c, n).m.index <= c[k].value.index
  {
    if k < n - 1 {
      EarliestOfIsLeftmost(c, n - 1, k);
    }
  }

  /** Among candidates starting at the same place, the loop keeps the first one listed. */
  lemma {:induction false} EarliestOfPrefersFirst(c: seq<Option<Match>>, n: nat, k: nat)
    requires k < n <= |c| <= |Patterns| && c[k].Some? && EarliestOf(c, n).Found?
    requires EarliestOf(c, n).m.index == c[k].value.index
    ensures exists j :: 0 <= j <= k && Patterns[j] == EarliestOf(c, n).pattern
  {
    var best := EarliestOf(c, n - 1);
    if k < n - 1 {
      EarliestOfIsLeftmost(c, n - 1, k);
      assert EarliestOf(c, n) == best;
      EarliestOfPrefersFirst(c, n - 1, k);
    } else if EarliestOf(c, n) == best {
      var j :| 0 <= j < n - 1 && c[j] == Some(best.m) && Patterns[j] == best.pattern;
      assert j <= k;
    } else {
      assert Patterns[k] == EarliestOf(c, n).pattern;
    }
  }

  /** No pattern matches in `s` before the match `parseInlineFormatting` takes, and it finds
    * none only when no pattern matches anywhere. */
  lemma EarliestIsLeftmost(s: string, fixed: bool)
    ensures Earliest(s, fixed).NoMatch? <==> forall k :: 0 <= k < |Patterns| ==> FirstFrom(Patterns[k], s, 0, fixed).None?
    ensures Earliest(s, fixed).Found? ==> forall k, j :: 0 <= k < |Patterns| && 0 <= j < Earliest(s, fixed).m.index ==> PatternAt(Patterns[k], s, j, fixed).None?
  {
    var c := Candidates(s, fixed);
    EarliestOfNone(c, |Patterns|);
    forall k, j | 0 <= k < |Patterns| && Earliest(s, fixed).Found? && 0 <= j < Earliest(s, fixed).m.index
      ensures PatternAt(Patterns[k], s, j, fixed).None?
    {
      FirstFromIsLeftmost(Patterns[k], s, 0, fixed);
      if c[k].Some? {
        EarliestOfIsLeftmost(c, |Patterns|, k);
      }
    }
  }

  function SegmentOf(p: Pattern, m: Match): Segment {
    match p
    case Code => CodeSeg(m.group)
    case Ref => RefSeg(m.group)
    case Link => TextSeg(m.group)
    case BoldStars => BoldSeg(m.group)
    case BoldUnderscores => BoldSeg(m.group)
    case ItalicStar => ItalicSeg(m.group)
    case ItalicUnderscore => ItalicSeg(m.group)
  }

  /** A match that lies inside `s`, is not empty and captured something. */
  predicate Fits(s: string, m: Match) {
    m.index + m.len <= |s| && m.len >= 1 && |m.group| >= 1
  }

  /** The search the loop makes on what is left of the text. */
  type Finder = string -> Pick

  ghost predicate FinderInBounds(find: Finder) {
    forall s :: find(s).Found? ==> Fits(s, find(s).m)
  }

  /** The search `parseInlineFormatting` makes, with the underscore-italic pattern corrected. */
  const FixedSearch: Finder := s => Earliest(s, true)

  /** The search as written. */
  const WrittenSearch: Finder := s => Earliest(s, false)

  lemma SearchesInBounds()
    ensures FinderInBounds(FixedSearch) && FinderInBounds(WrittenSearch)
  {
  }

  /** The segments the loop of `parseInlineFormatting` emits for `remaining`. */
  function InlineFrom(remaining: string, find: Finder): (r: seq<Segment>)
    requires FinderInBounds(find)
    ensures remaining != [] ==> r != []
    decreases |remaining|
  {
    if remaining == [] then []
    else
      var e := find(remaining);
      if e.NoMatch? then [TextSeg(remaining)]
      else Before(remaining, e.m) + [SegmentOf(e.pattern, e.m)] + InlineFrom(remaining[e.m.index + e.m.len..], find)
  }

  /** The text before a match, as a segment of its own when there is any. */
  function Before(remaining: string, m: Match): seq<Segment>
    requires m.index <= |remaining|
  {
    if m.index > 0 then [TextSeg(remaining[..m.index])] else []
  }

  /** `parseInlineFormatting` with the search `find`: the loop's segments, or one text
    * segment holding the whole text when the loop emitted none. */
  function InlineSegments(text: string, find: Finder): (r: seq<Segment>)
    requires FinderInBounds(find)
    ensures r != []
  {
    var segs := InlineFrom(text, find);
    if segs == [] then [TextSeg(text)] else segs
  }

  /** `parseInlineFormatting`, with the underscore-italic pattern corrected (see `InlineAsWritten`). */
  function ParseInline(text: string): (r: seq<Segment>)
    ensures r != []
  {
    SearchesInBounds();
    InlineSegments(text, FixedSearch)
  }

  /** `parseInlineFormatting` as written. */
  function InlineAsWritten(text: string): (r: seq<Segment>)
    ensures r != []
  {
    SearchesInBounds();
    InlineSegments(text, WrittenSearch)
  }

  /** The while loop of `parseInlineFormatting`, with its `remaining` and `segments`
    * accumulators; `find` is the search over the pattern list. */
  method ScanInline(text: string, find: Finder) returns (segments: seq<Segment>)
    requires FinderInBounds(find)
    ensures segments == InlineSegments(text, find)
  {
    segments := [];
    var remaining := text;
    while |remaining| > 0
      invariant segments + InlineFrom(remaining, find) == InlineFrom(text, find)
      decreases |remaining|
    {
      var e := find(remaining);
      if e.Found? {
        segments := segments + Before(remaining, e.m) + [SegmentOf(e.pattern, e.m)];
        remaining := remaining[e.m.index + e.m.len..];
      } else {
        segments := segments + [TextSeg(remaining)];
        remaining := [];
      }
    }
    if segments == [] {
      segments := [TextSeg(text)];
    }
  }

  /** Text in which no pattern matches anywhere comes back as one text segment. */
  lemma PlainTextIsOneSegment(text: string)
    requires forall k :: 0 <= k < |Patterns| ==> FirstFrom(Patterns[k], text, 0, true).None?
    ensures ParseInline(text) == [TextSeg(text)]
  {
    EarliestIsLeftmost(text, true);
    assert FixedSearch(text).NoMatch?;
  }

  predicate SegmentHasText(g: Segment) {
    match g
    case TextSeg(t) => t != ""
    case BoldSeg(t) => t != ""
    case ItalicSeg(t) => t != ""
    case CodeSeg(t) => t != ""
    case RefSeg(guid) => guid != ""
    case LinkSeg(t, u) => t != ""
  }

  predicate AllHaveText(segs: seq<Segment>) {
    forall k :: 0 <= k < |segs| ==> SegmentHasText(segs[k])
  }

  /** No segment the loop emits is empty. */
  lemma {:induction false} InlineSegmentsHaveText(remaining: string, find: Finder)
    requires FinderInBounds(find)
    ensures AllHaveText(InlineFrom(remaining, find))
    decreases |remaining|
  {
    if remaining != [] {
      var e := find(remaining);
      if e.Found? {
        var rest := remaining[e.m.index + e.m.len..];
        InlineSegmentsHaveText(rest, find);
        AllHaveTextAppend(Before(remaining, e.m) + [SegmentOf(e.pattern, e.m)], InlineFrom(rest, find));
      }
    }
  }

  /** Neither parser emits an empty segment for a non-empty text. */
  lemma ParsedSegmentsHaveText(text: string)
    requires text != []
    ensures AllHaveText(ParseInline(text)) && AllHaveText(InlineAsWritten(text))
  {
    SearchesInBounds();
    InlineSegmentsHaveText(text, FixedSearch);
    InlineSegmentsHaveText(text, WrittenSearch);
  }

  lemma AllHaveTextAppend(a: seq<Segment>, b: seq<Segment>)
    requires AllHaveText(a) && AllHaveText(b)
    ensures AllHaveText(a + b)
  {
    forall k | 0 <= k < |a + b| ensures SegmentHasText((a + b)[k]) {
      if k >= |a| { assert (a + b)[k] == b[k - |a|]; }
    }
  }

  /** What a match of pattern `p` spans: its opening marker, its content and its closing marker. */
  function MarkedSpan(p: Pattern, group: string, group2: string): string {
    match p
    case Code => "`" + group + "`"
    case Ref => "[[" + group + "]]"
    case Link => "[" + group + "](" + group2 + ")"
    case BoldStars => "**" + group + "**"
    case BoldUnderscores => "__" + group + "__"
    case ItalicStar => "*" + group + "*"
    case ItalicUnderscore => "_" + group + "_"
  }

  /** With the correction, every match spans exactly its markers and its content, so no
    * character around a marked-up span is lost. */
  lemma FixedMatchSpansMarkers(p: Pattern, s: string, i: nat, h: Hit)
    requires i <= |s| && PatternAt(p, s, i, true) == Some(h)
    ensures i + h.len <= |s| && s[i..i + h.len] == MarkedSpan(p, h.group, h.group2)
  {
    match p
    case Code => EnclosedSpan(s, i, "`", '`', "`");
    case Ref => RefSpan(s, i);
    case Link => LinkSpan(s, i);
    case BoldStars => EnclosedSpan(s, i, "**", '*', "**");
    case BoldUnderscores => EnclosedSpan(s, i, "__", '_', "__");
    case ItalicStar => EnclosedSpan(s, i, "*", '*', "*");
    case ItalicUnderscore => UnderscoreBodySpan(s, i);
  }

  /** The match `Earliest` picks is the leftmost match of its pattern. */
  lemma EarliestIsFirstFrom(s: string, fixed: bool)
    requires Earliest(s, fixed).Found?
    ensures FirstFrom(Earliest(s, fixed).pattern, s, 0, fixed) == Some(Earliest(s, fixed).m)
  {
    var c := Candidates(s, fixed);
    var r := EarliestOf(c, |Patterns|);
    var k :| 0 <= k < |Patterns| && c[k] == Some(r.m) && Patterns[k] == r.pattern;
  }

  /** The match `Earliest` picks is a match of its pattern where it says it is. */
  lemma EarliestHit(s: string, fixed: bool, p: Pattern, m: Match)
    requires Earliest(s, fixed) == Found(p, m)
    ensures m.index <= |s| && PatternAt(p, s, m.index, fixed) == Some(Hit(m.len, m.group, m.group2))
  {
    EarliestIsFirstFrom(s, fixed);
    FirstFromIsLeftmost(p, s, 0, fixed);
  }

  lemma SpanSplits(s: string, p: Pattern, i: nat, h: Hit)
    requires i <= |s| && PatternAt(p, s, i, true) == Some(h)
    ensures s == s[..i] + MarkedSpan(p, h.group, h.group2) + s[i + h.len..]
  {
    FixedMatchSpansMarkers(p, s, i, h);
    ThreeParts(s, i, i + h.len);
  }

  lemma ThreeParts(s: string, i: nat, j: nat)
    requires i <= j <= |s|
    ensures s == s[..i] + s[i..j] + s[j..]
  {
  }

  /** The match the corrected parser takes next spans exactly its markers and content:
    * the text is what comes before it, that span, and what the loop goes on with. */
  lemma EarliestSpansMarkers(s: string, p: Pattern, m: Match)
    requires Earliest(s, true) == Found(p, m)
    ensures s == s[..m.index] + MarkedSpan(p, m.group, m.group2) + s[m.index + m.len..]
  {
    EarliestHit(s, true, p, m);
    SpanSplits(s, p, m.index, Hit(m.len, m.group, m.group2));
  }

  /** As written, the underscore-italic match at `" _b_ "` takes the spaces around the
    * marked-up word, so they are in no segment; the corrected pattern matches `_b_` one
    * character later. */
  lemma UnderscoreItalicSwallowsNeighbours()
    ensures PatternAt(ItalicUnderscore, " _b_ ", 0, false) == Some(Hit(5, "b", ""))
    ensures " _b_ "[0..5] != MarkedSpan(ItalicUnderscore, "b", "")
    ensures PatternAt(ItalicUnderscore, " _b_ ", 0, true).None?
    ensures PatternAt(ItalicUnderscore, " _b_ ", 1, true) == Some(Hit(3, "b", ""))
  {
    var s := " _b_ ";
    assert s[0..1][0] == ' ';
    assert At(s, 1, "_") && At(s, 3, "_");
    assert RunNot(s, 3, '_') == 0;
    assert RunNot(s, 2, '_') == 1;
    assert s[2..3] == "b";
    assert UnderscoreBody(s, 1) == Some((5, "b"));
  }

  // ---------------------------------------------------------------------
  // Lines

  /** The kind of a markdown line and the text its inline formatting is parsed from. */
  datatype Block =
    | RuleBlock
    | HeadingBlock(level: nat, text: string)
    | TaskBlock(text: string)
    | BulletBlock(text: string)
    | NumberedBlock(text: string)
    | QuoteBlock(text: string)
    | TextBlock(text: string)

  /** A parsed line: its kind and its inline segments. */
  datatype Line =
    | Rule
    | Heading(level: nat, segments: seq<Segment>)
    | Task(segments: seq<Segment>)
    | UList(segments: seq<Segment>)
    | OList(segments: seq<Segment>)
    | Quote(segments: seq<Segment>)
    | TextLine(segments: seq<Segment>)

  predicate IsRuleChar(c: char) { c == '*' || c == '-' || c == '_' }

  /** `^(c\s*c\s*c)[\s\*\-_]*$` for one of the three rule characters `c`. */
  predicate RuleWith(t: string, c: char) {
    && |t| >= 1 && t[0] == c
    && var j1 := 1 + WsRun(t, 1);
    && j1 < |t| && t[j1] == c
    && var j2 := j1 + 1 + WsRun(t, j1 + 1);
    && j2 < |t| && t[j2] == c
    && forall k :: j2 < k < |t| ==> IsWs(t[k]) || IsRuleChar(t[k])
  }

  predicate IsRule(t: string) {
    RuleWith(t, '*') || RuleWith(t, '-') || RuleWith(t, '_')
  }

  /** `\s+(.+)$` from `p`: the text the group captures, with the regex's backtracking
    * (white space alone still leaves its last character to `.+`). */
  function SpacedRest(s: string, p: nat): (r: Option<string>)
    requires p <= |s|
    ensures r.Some? ==> r.value != [] && NoTerminator(r.value)
    ensures r.Some? ==> EndsWith(s, r.value)
  {
    var n := WsRun(s, p);
    var rest := s[p + n..];
    if n == 0 then None
    else if rest != [] && NoTerminator(rest) then Some(rest)
    else if rest == [] && n >= 2 && !IsLineTerminator(s[|s| - 1]) then Some([s[|s| - 1]])
    else None
  }

  /** `^(#{1,6})\s+(.+)$`: the level and the heading text. */
  function HeadingMatch(line: string): (r: Option<(nat, string)>)
    ensures r.Some? ==> 1 <= r.value.0 <= 6 && StartsWith(line, Hashes(r.value.0))
    ensures r.Some? ==> r.value.1 != [] && NoTerminator(r.value.1) && EndsWith(line, r.value.1)
  {
    var h := RunOf(line, 0, '#');
    if 1 <= h <= 6 then
      var rest := SpacedRest(line, h);
      assert line[..h] == Hashes(h) by { HashesAre(h); RunOfIsRun(line, 0, '#'); }
      if rest.Some? then Some((h, rest.value)) else None
    else None
  }

  function Hashes(n: nat): (r: string)
    ensures |r| == n
  {
    if n == 0 then "" else "#" + Hashes(n - 1)
  }

  lemma {:induction false} HashesAre(n: nat)
    ensures forall k :: 0 <= k < n ==> Hashes(n)[k] == '#'
  {
    if n > 0 { HashesAre(n - 1); }
  }

  /** `^(\s*)[-*]\s+\[([ xX])\]\s+(.+)$`. */
  function TaskMatch(line: string): (r: Option<string>)
    ensures r.Some? ==> r.value != [] && NoTerminator(r.value) && EndsWith(line, r.value)
  {
    var p := WsRun(line, 0);
    if p < |line| && (line[p] == '-' || line[p] == '*') then
      var n := WsRun(line, p + 1);
      var q := p + 1 + n;
      if n >= 1 && q + 3 <= |line| && line[q] == '[' && line[q + 1] in " xX" && line[q + 2] == ']'
      then SpacedRest(line, q + 3)
      else None
    else None
  }

  /** `^(\s*)[-*]\s+(.+)$`. */
  function BulletMatch(line: string): (r: Option<string>)
    ensures r.Some? ==> r.value != [] && NoTerminator(r.value) && EndsWith(line, r.value)
  {
    var p := WsRun(line, 0);
    if p < |line| && (line[p] == '-' || line[p] == '*') then SpacedRest(line, p + 1) else None
  }

  /** `^(\s*)\d+\.\s+(.+)$`. */
  function NumberedMatch(line: string): (r: Option<string>)
    ensures r.Some? ==> r.value != [] && NoTerminator(r.value) && EndsWith(line, r.value)
  {
    var p := WsRun(line, 0);
    var d := DigitRun(line, p);
    if d >= 1 && p + d < |line| && line[p + d] == '.' then SpacedRest(line, p + d + 1) else None
  }

  /** The tests of `parseLine`: blank lines give None; otherwise the first of rule,
    * heading, task, bullet, numbered item and quote that matches, else plain text. */
  function ClassifyLine(line: string): (r: Option<Block>)
    ensures r.None? <==> IsBlank(line)
    ensures r == Some(RuleBlock) <==> !IsBlank(line) && IsRule(Trim(line))
    ensures r.Some? && r.value.HeadingBlock? ==> 1 <= r.value.level <= 6 && StartsWith(line, Hashes(r.value.level))
    ensures r.Some? && (r.value.HeadingBlock? || r.value.TaskBlock? || r.value.BulletBlock? || r.value.NumberedBlock?) ==>
      r.value.text != [] && NoTerminator(r.value.text) && EndsWith(line, r.value.text)
    ensures r.Some? && r.value.QuoteBlock? ==> StartsWith(line, "> ") && r.value.text == line[2..]
    ensures r.Some? && r.value.TextBlock? ==> r.value.text == line
  {
    var t := Trim(line);
    if t == [] then None
    else if IsRule(t) then Some(RuleBlock)
    else if HeadingMatch(line).Some? then Some(HeadingBlock(HeadingMatch(line).value.0, HeadingMatch(line).value.1))
    else if TaskMatch(line).Some? then Some(TaskBlock(TaskMatch(line).value))
    else if BulletMatch(line).Some? then Some(BulletBlock(BulletMatch(line).value))
    else if NumberedMatch(line).Some? then Some(NumberedBlock(NumberedMatch(line).value))
    else if StartsWith(line, "> ") then Some(QuoteBlock(line[2..]))
    else Some(TextBlock(line))
  }

  /** `parseLine`: the kind of the line, with the inline formatting of its text parsed. */
  function ParseLine(line: string): (r: Option<Line>)
    ensures r.None? <==> IsBlank(line)
    ensures r == Some(Rule) <==> !IsBlank(line) && IsRule(Trim(line))
    ensures r.Some? && !r.value.Rule? ==> r.value.segments != []
  {
    match ClassifyLine(line)
    case None => None
    case Some(RuleBlock) => Some(Rule)
    case Some(HeadingBlock(level, text)) => Some(Heading(level, ParseInline(text)))
    case Some(TaskBlock(text)) => Some(Task(ParseInline(text)))
    case Some(BulletBlock(text)) => Some(UList(ParseInline(text)))
    case Some(NumberedBlock(text)) => Some(OList(ParseInline(text)))
    case Some(QuoteBlock(text)) => Some(Quote(ParseInline(text)))
    case Some(TextBlock(text)) => Some(TextLine(ParseInline(text)))
  }

  /** Trimming a line that starts and, at `n`, continues with non-white-space keeps its first `n + 1` characters. */
  lemma TrimKeepsPrefix(s: string, n: nat)
    requires n < |s| && !IsWs(s[0]) && !IsWs(s[n])
    ensures |Trim(s)| > n && Trim(s)[..n + 1] == s[..n + 1]
  {
    assert TrimStart(s) == s;
    var r := TrimEnd(s);
    assert Trim(s) == r;
  }

  /** A heading written as `#`×n, white space and its text classifies back to level n and that text. */
  lemma HeadingRoundTrip(n: nat, text: string)
    requires 1 <= n <= 6
    requires text != [] && !IsWs(text[0]) && NoTerminator(text)
    ensures ClassifyLine(Hashes(n) + " " + text) == Some(HeadingBlock(n, text))
  {
    var line := Hashes(n) + " " + text;
    HeadingLineParts(n, text);
    HeadingLineIsNoRule(line);
  }

  lemma HeadingLineParts(n: nat, text: string)
    requires 1 <= n <= 6
    requires text != [] && !IsWs(text[0]) && NoTerminator(text)
    ensures var line := Hashes(n) + " " + text;
      line[0] == '#' && HeadingMatch(line) == Some((n, text))
  {
    var line := Hashes(n) + " " + text;
    HashesAre(n);
    RunOfHashes(line, n, 0);
    assert WsRun(line, n + 1) == 0;
    assert line[n + 1..] == text;
  }

  /** A line starting with `#` is no rule. */
  lemma HeadingLineIsNoRule(line: string)
    requires |line| >= 1 && line[0] == '#'
    ensures !IsBlank(line) && !IsRule(Trim(line))
  {
    TrimKeepsPrefix(line, 0);
  }

  lemma {:induction false} RunOfHashes(line: string, n: nat, i: nat)
    requires i <= n < |line| && (forall k :: 0 <= k < n ==> line[k] == '#') && line[n] != '#'
    ensures RunOf(line, i, '#') == n - i
    decreases n - i
  {
    if i < n { RunOfHashes(line, n, i + 1); }
  }

  /** `- [x] text` is a task whatever the check mark, and the mark is not part of the text. */
  lemma TaskRoundTrip(mark: char, text: string)
    requires mark in " xX"
    requires text != [] && !IsWs(text[0]) && NoTerminator(text)
    ensures ClassifyLine("- [" + [mark] + "] " + text) == Some(TaskBlock(text))
  {
    var line := "- [" + [mark] + "] " + text;
    TaskLineParts(mark, text);
    TaskLineIsNoRule(line);
    assert RunOf(line, 0, '#') == 0;
  }

  lemma TaskLineParts(mark: char, text: string)
    requires mark in " xX"
    requires text != [] && !IsWs(text[0]) && NoTerminator(text)
    ensures var line := "- [" + [mark] + "] " + text;
      line[0] == '-' && line[1] == ' ' && line[2] == '[' && TaskMatch(line) == Some(text)
  {
    var line := "- [" + [mark] + "] " + text;
    assert line[0] == '-' && line[1] == ' ' && line[2] == '[' && line[3] == mark && line[4] == ']' && line[5] == ' ';
    assert WsRun(line, 0) == 0;
    assert WsRun(line, 2) == 0;
    assert WsRun(line, 6) == 0;
    assert line[6..] == text;
  }

  /** A line starting `- [` is no rule. */
  lemma TaskLineIsNoRule(line: string)
    requires |line| >= 3 && line[0] == '-' && line[1] == ' ' && line[2] == '['
    ensures !IsBlank(line) && !IsRule(Trim(line))
  {
    TrimKeepsPrefix(line, 2);
    var t := Trim(line);
    assert t[0] == '-' && t[1] == ' ' && t[2] == '[';
    assert WsRun(t, 2) == 0;
  }

  // ---------------------------------------------------------------------
  // Code-block languages

  /** `normalizeLanguage` of SyncHub: lower-cased, with its alias table applied. */
  function NormalizeLanguage(lang: string): (r: string)
    ensures lang == "" ==> r == "plaintext"
    ensures lang != "" && Lower(lang) !in LanguageAliases ==> r == Lower(lang)
    ensures lang != "" && Lower(lang) in LanguageAliases ==> r == LanguageAliases[Lower(lang)]
  {
    if lang == "" then "plaintext"
    else if Lower(lang) in LanguageAliases then LanguageAliases[Lower(lang)]
    else Lower(lang)
  }

  const LanguageAliases: map<string, string> := map[
    "js" := "javascript", "ts" := "typescript", "py" := "python", "rb" := "ruby", "sh" := "bash",
    "yml" := "yaml", "c++" := "cpp", "c#" := "csharp", "cs" := "csharp", "golang" := "go",
    "rs" := "rust", "kt" := "kotlin", "md" := "markdown", "html" := "xml", "htm" := "xml"]

  predicate NoUpper(s: string) {
    forall k :: 0 <= k < |s| ==> !('A' <= s[k] <= 'Z')
  }

  lemma {:induction false} LowerOfNoUpper(s: string)
    requires NoUpper(s)
    ensures Lower(s) == s
  {
    if s != [] {
      LowerOfNoUpper(s[1..]);
    }
  }

  /** Every alias names a lower-case language that is not itself an alias. */
  lemma AliasTargetsAreCanonical(k: string)
    requires k in LanguageAliases
    ensures NoUpper(LanguageAliases[k]) && LanguageAliases[k] !in LanguageAliases
  {
    AliasTargetsAreLower(k);
    AliasTargetsAreNotAliases(k);
  }

  lemma AliasTargetsAreLower(k: string)
    requires k in LanguageAliases
    ensures NoUpper(LanguageAliases[k])
  {
  }

  lemma AliasTargetsAreNotAliases(k: string)
    requires k in LanguageAliases
    ensures LanguageAliases[k] !in LanguageAliases
  {
  }

  /** Normalising twice changes nothing. */
  lemma NormalizeLanguageIdempotent(lang: string)
    ensures NormalizeLanguage(NormalizeLanguage(lang)) == NormalizeLanguage(lang)
  {
    if lang == "" {
      PlaintextIsCanonical();
    } else if Lower(lang) in LanguageAliases {
      AliasIsCanonical(Lower(lang));
    } else {
      LowerIdempotent(lang);
    }
  }

  lemma PlaintextIsCanonical()
    ensures NormalizeLanguage("plaintext") == "plaintext"
  {
    PlaintextIsLower();
    PlaintextIsNoAlias();
  }

  lemma PlaintextIsLower()
    ensures Lower("plaintext") == "plaintext"
  {
    assert NoUpper("plaintext");
    LowerOfNoUpper("plaintext");
  }

  lemma PlaintextIsNoAlias()
    ensures "plaintext" !in LanguageAliases
  {
  }

  lemma AliasIsCanonical(k: string)
    requires k in LanguageAliases
    ensures NormalizeLanguage(LanguageAliases[k]) == LanguageAliases[k]
  {
    var v := LanguageAliases[k];
    AliasTargetsAreCanonical(k);
    LowerOfNoUpper(v);
  }

  lemma LowerIdempotent(s: string)
    ensures Lower(Lower(s)) == Lower(s)
  {
  }
}
