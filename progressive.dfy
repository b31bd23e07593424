// The progressive-rendering test plugin (plugins/progressive-test/plugin.js):
// its own line parser, the fallback inline parser it uses when SyncHub is not
// installed, and the simulated stream that drives the renderer of module
// `Streaming` (with `LeadingFence`) through growing prefixes of a text.

module ProgressiveTest {
  import opened Common
  import Streaming
  import SyncHubMarkdown

  // ---------------------------------------------------------------------
  // Fallback inline parser

  /** The lazy `(.+?)` of `^<open>(.+?)<close>`: the first end `j > from` such that
    * `close` follows at `j` and no line terminator lies in `s[from..j]`. */
  function FindClose(s: string, from: nat, j: nat, close: string): (r: Option<nat>)
    requires from < j <= |s|
    ensures r.Some? ==> j <= r.value && r.value + |close| <= |s| && s[r.value..r.value + |close|] == close
    decreases |s| - j
  {
    if IsLineTerminator(s[j - 1]) then None
    else if j + |close| <= |s| && s[j..j + |close|] == close then Some(j)
    else if j < |s| then FindClose(s, from, j + 1, close)
    else None
  }

  /** `^<open>(.+?)<close>` at the start of `s`, giving the end of the captured text. */
  function Enclosed(s: string, open: string, close: string): (r: Option<nat>)
    ensures r.Some? ==> StartsWith(s, open) && |open| < r.value && r.value + |close| <= |s| && s[r.value..r.value + |close|] == close
  {
    if StartsWith(s, open) && |open| < |s| then FindClose(s, |open|, |open| + 1, close) else None
  }

  /** `remaining.search(/[\*`]/)`: the first star or back-tick. */
  function NextSpecial(s: string): (r: Option<nat>)
    ensures r.Some? ==> r.value < |s| && (s[r.value] == '*' || s[r.value] == '`')
    ensures r.Some? ==> forall k :: 0 <= k < r.value ==> s[k] != '*' && s[k] != '`'
    ensures r.None? ==> forall k :: 0 <= k < |s| ==> s[k] != '*' && s[k] != '`'
  {
    if s == [] then None
    else if s[0] == '*' || s[0] == '`' then Some(0)
    else var r := NextSpecial(s[1..]); if r.Some? then Some(r.value + 1) else None
  }

  /** One segment and how many characters it consumed. */
  datatype Piece = Piece(seg: Segment, len: nat)

  /** One turn of the parsing loop: bold, then italic, then inline code at the start;
    * otherwise plain text up to the next star or back-tick, or the whole rest when
    * that character is the first one or there is none. */
  function FallbackStep(r: string): (p: Piece)
    requires r != []
    ensures 1 <= p.len <= |r|
  {
    var b := Enclosed(r, "**", "**");
    var i := Enclosed(r, "*", "*");
    var c := Enclosed(r, "`", "`");
    if b.Some? then Piece(BoldSeg(r[2..b.value]), b.value + 2)
    else if i.Some? then Piece(ItalicSeg(r[1..i.value]), i.value + 1)
    else if c.Some? then Piece(CodeSeg(r[1..c.value]), c.value + 1)
    else
      var n := NextSpecial(r);
      if n.Some? && n.value > 0 then Piece(TextSeg(r[..n.value]), n.value) else Piece(TextSeg(r), |r|)
  }

  function InlineFrom(r: string): seq<Segment>
    decreases |r|
  {
    if r == [] then [] else var p := FallbackStep(r); [p.seg] + InlineFrom(r[p.len..])
  }

  /** The fallback `parseInlineFormatting`: never an empty list. */
  function Fallback(text: string): (r: seq<Segment>)
    ensures r != []
    ensures text == [] ==> r == [TextSeg(text)]
  {
    var s := InlineFrom(text);
    if s != [] then s else [TextSeg(text)]
  }

  /** The loop of the fallback parser over `remaining`. */
  method FallbackParse(text: string) returns (segments: seq<Segment>)
    ensures segments == Fallback(text)
  {
    segments := [];
    var remaining := text;
    while |remaining| > 0
      invariant segments + InlineFrom(remaining) == InlineFrom(text)
      decreases |remaining|
    {
      var p := FallbackStep(remaining);
      segments := segments + [p.seg];
      remaining := remaining[p.len..];
    }
    if segments == [] {
      segments := [TextSeg(text)];
    }
  }

  /** The markdown a segment was read from. */
  function Source(g: Segment): string {
    match g
    case TextSeg(t) => t
    case BoldSeg(t) => "**" + t + "**"
    case ItalicSeg(t) => "*" + t + "*"
    case CodeSeg(t) => "`" + t + "`"
    case RefSeg(guid) => "[[" + guid + "]]"
    case LinkSeg(t, u) => "[" + t + "](" + u + ")"
  }

  function Sources(segs: seq<Segment>): string {
    if segs == [] then "" else Source(segs[0]) + Sources(segs[1..])
  }

  lemma StepSource(r: string)
    requires r != []
    ensures Source(FallbackStep(r).seg) == r[..FallbackStep(r).len]
  {
    var b := Enclosed(r, "**", "**");
    var i := Enclosed(r, "*", "*");
    var c := Enclosed(r, "`", "`");
    if b.Some? {
      Wrapped(r, "**", "**", b.value);
    } else if i.Some? {
      Wrapped(r, "*", "*", i.value);
    } else if c.Some? {
      Wrapped(r, "`", "`", c.value);
    }
  }

  /** Text that opens with `open` and has `close` at `e` is the two around what lies between. */
  lemma Wrapped(r: string, open: string, close: string, e: nat)
    requires StartsWith(r, open) && |open| < e && e + |close| <= |r| && r[e..e + |close|] == close
    ensures open + r[|open|..e] + close == r[..e + |close|]
  {
    assert r[..|open|] == open;
    assert r[..e + |close|] == r[..|open|] + r[|open|..e] + r[e..e + |close|];
  }

  /** No character is lost or invented: the segments spell out the text they came from. */
  lemma {:induction false} InlineRoundTrip(r: string)
    ensures Sources(InlineFrom(r)) == r
    decreases |r|
  {
    if r != [] {
      var p := FallbackStep(r);
      StepSource(r);
      InlineRoundTrip(r[p.len..]);
      JoinSources(p.seg, InlineFrom(r[p.len..]), r, p.len);
    }
  }

  /** A segment spelling out a prefix, then segments spelling out the rest, spell out all. */
  lemma JoinSources(g: Segment, rest: seq<Segment>, r: string, n: nat)
    requires n <= |r| && Source(g) == r[..n] && Sources(rest) == r[n..]
    ensures Sources([g] + rest) == r
  {
    assert ([g] + rest)[1..] == rest;
    assert r == r[..n] + r[n..];
  }

  /** Text with no star or back-tick is one plain segment. */
  lemma PlainTextOneSegment(text: string)
    requires text != [] && forall k :: 0 <= k < |text| ==> text[k] != '*' && text[k] != '`'
    ensures Fallback(text) == [TextSeg(text)]
  {
    assert !StartsWith(text, "**") && !StartsWith(text, "*") && !StartsWith(text, "`") by {
      assert text[0] != '*' && text[0] != '`';
    }
    assert Enclosed(text, "**", "**").None? && Enclosed(text, "*", "*").None? && Enclosed(text, "`", "`").None?;
    assert NextSpecial(text).None?;
    assert FallbackStep(text) == Piece(TextSeg(text), |text|);
    assert text[|text|..] == [];
    assert InlineFrom(text) == [TextSeg(text)] + InlineFrom([]);
  }

  // ---------------------------------------------------------------------
  // Lines

  datatype LineKind = PHeading | PUList | POList | PQuote | PText

  datatype PLine = PLine(kind: LineKind, segments: seq<Segment>)

  /** `^[-*]\s+(.+)$`: no indentation, unlike SyncHub's bullet rule. */
  function DashItem(line: string): (r: Option<string>)
    ensures r.Some? ==> |line| > 0 && (line[0] == '-' || line[0] == '*') && r.value != []
  {
    if |line| > 0 && (line[0] == '-' || line[0] == '*') then SyncHubMarkdown.SpacedRest(line, 1) else None
  }

  /** `^\d+\.\s+(.+)$`. */
  function NumberItem(line: string): (r: Option<string>)
    ensures r.Some? ==> |line| > 0 && IsDigit(line[0]) && r.value != []
  {
    var d := SyncHubMarkdown.DigitRun(line, 0);
    if d >= 1 && d < |line| && line[d] == '.' then SyncHubMarkdown.SpacedRest(line, d + 1) else None
  }

  /** The kind of a line and the text its inline formatting is read from; the tests run in
    * order and a later match overrides an earlier one. */
  function LineText(line: string): (r: (LineKind, string))
    ensures StartsWith(line, "> ") ==> r == (PQuote, line[2..])
    ensures r.0 == PText ==> r.1 == line
  {
    var t0 := (PText, line);
    var t1 := if DashItem(line).Some? then (PUList, DashItem(line).value) else t0;
    var t2 := if NumberItem(line).Some? then (POList, NumberItem(line).value) else t1;
    if StartsWith(line, "> ") then (PQuote, line[2..]) else t2
  }

  /** The renderer's `parseLine`: a heading is one plain segment holding the text after the
    * hashes, with no inline parsing; any other line has its inline formatting parsed, by
    * SyncHub's parser when SyncHub is installed and by the fallback otherwise. */
  function ParseLine(line: string, syncHub: bool): (r: PLine)
    ensures SyncHubMarkdown.HeadingMatch(line).Some? ==>
      r == PLine(PHeading, [TextSeg(SyncHubMarkdown.HeadingMatch(line).value.1)])
    ensures SyncHubMarkdown.HeadingMatch(line).None? ==>
      var t := LineText(line);
      r.kind == t.0 && r.segments == (if syncHub then SyncHubMarkdown.ParseInline(t.1) else Fallback(t.1))
    ensures r.segments != []
  {
    match SyncHubMarkdown.HeadingMatch(line)
    case Some(h) => PLine(PHeading, [TextSeg(h.1)])
    case None =>
      var t := LineText(line);
      PLine(t.0, if syncHub then SyncHubMarkdown.ParseInline(t.1) else Fallback(t.1))
  }

  /** The three list and quote rules exclude each other: the first character decides. */
  lemma ListRulesExclusive(line: string)
    ensures !(DashItem(line).Some? && NumberItem(line).Some?)
    ensures StartsWith(line, "> ") ==> DashItem(line).None? && NumberItem(line).None?
  {
  }

  // ---------------------------------------------------------------------
  // Simulated stream

  /** The size of chunk `k`: the sizes 1, 2, 3, 5 and 8, over and over. */
  function ChunkSize(k: nat): (n: nat)
    ensures 1 <= n <= 8
  {
    var m := k % 5;
    if m == 0 then 1 else if m == 1 then 2 else if m == 2 then 3 else if m == 3 then 5 else 8
  }

  /** The characters streamed after `n` chunks, before clipping to the text. */
  function Cum(n: nat): (r: nat)
    ensures r >= n
  {
    if n == 0 then 0 else Cum(n - 1) + ChunkSize(n - 1)
  }

  /** The renderer after the updates with the prefixes of the lengths in `lens`. */
  function Feed(s: Streaming.RState, text: string, lens: seq<nat>, fence: Streaming.Fence): Streaming.RState
    requires forall k :: 0 <= k < |lens| ==> lens[k] <= |text|
  {
    if lens == [] then s
    else Streaming.Updated(Feed(s, text, lens[..|lens| - 1], fence), text[..lens[|lens| - 1]], fence)
  }

  lemma FeedSnoc(s: Streaming.RState, text: string, lens: seq<nat>, n: nat, fence: Streaming.Fence)
    requires forall k :: 0 <= k < |lens| ==> lens[k] <= |text|
    requires n <= |text|
    ensures forall k :: 0 <= k < |lens + [n]| ==> (lens + [n])[k] <= |text|
    ensures Feed(s, text, lens + [n], fence) == Streaming.Updated(Feed(s, text, lens, fence), text[..n], fence)
  {
    assert (lens + [n])[..|lens|] == lens;
  }

  /** The prefix lengths fed so far: each chunk ends at the next cumulative size, clipped
    * to the text, and every chunk started inside the text. */
  predicate LensOk(lens: seq<nat>, text: string) {
    forall k :: 0 <= k < |lens| ==> lens[k] == MinInt(Cum(k + 1), |text|) && Cum(k) < |text|
  }

  lemma LensExtend(lens: seq<nat>, text: string)
    requires LensOk(lens, text) && Cum(|lens|) < |text|
    ensures LensOk(lens + [MinInt(Cum(|lens| + 1), |text|)], text)
  {
    var l := lens + [MinInt(Cum(|lens| + 1), |text|)];
    forall k | 0 <= k < |l| ensures l[k] == MinInt(Cum(k + 1), |text|) && Cum(k) < |text| {
      if k < |lens| { assert l[k] == lens[k]; }
    }
  }

  lemma LensIncrease(lens: seq<nat>, text: string)
    requires LensOk(lens, text)
    ensures forall k :: 0 <= k < |lens| ==> lens[k] <= |text|
    ensures forall k :: 0 < k < |lens| ==> lens[k - 1] < lens[k]
  {
    forall k | 0 < k < |lens| ensures lens[k - 1] < lens[k] {
      assert Cum(k) < |text|;
      assert Cum(k + 1) == Cum(k) + ChunkSize(k);
    }
    forall k | 0 <= k < |lens| ensures lens[k] <= |text| {
      assert lens[k] == MinInt(Cum(k + 1), |text|);
    }
  }

  /** `simulateStreaming`: successively longer prefixes in chunks of 1, 2, 3, 5, 8, 1, …
    * characters until the whole text has been fed, then `finalize`. */
  method SimulateStreaming(text: string, r: Streaming.Renderer) returns (lens: seq<nat>)
    modifies r
    ensures LensOk(lens, text)
    ensures forall k :: 0 <= k < |lens| ==> lens[k] <= |text|
    ensures forall k :: 0 < k < |lens| ==> lens[k - 1] < lens[k]
    ensures text != [] ==> |lens| > 0 && lens[|lens| - 1] == |text|
    ensures text == [] ==> lens == []
    ensures r.State() == Streaming.Finalized(Feed(old(r.State()), text, lens, r.fence))
  {
    ghost var s0 := r.State();
    lens := [];
    var i := 0;
    var chunkIndex := 0;
    while i < |text|
      invariant i == Cum(chunkIndex) && |lens| == chunkIndex
      invariant LensOk(lens, text)
      invariant forall k :: 0 <= k < |lens| ==> lens[k] <= |text|
      invariant text == [] ==> lens == []
      invariant chunkIndex > 0 ==> lens[|lens| - 1] == MinInt(i, |text|)
      invariant r.State() == Feed(s0, text, lens, r.fence)
      decreases |text| - i
    {
      var size := ChunkSize(chunkIndex);
      assert Cum(chunkIndex + 1) == i + size;
      var upTo := MinInt(i + size, |text|);
      LensExtend(lens, text);
      FeedSnoc(s0, text, lens, upTo, r.fence);
      ghost var fed := Feed(s0, text, lens + [upTo], r.fence);
      r.Update(text[..upTo]);
      assert r.State() == fed;
      chunkIndex := chunkIndex + 1;
      i := i + size;
      lens := lens + [upTo];
    }
    LensIncrease(lens, text);
    r.Finalize();
  }
}
