// The character-by-character markdown renderer that AgentHub
// (agenthub/plugin.js, `createStreamingRenderer`) and the progressive-rendering
// test plugin (plugins/progressive-test/plugin.js, `createProgressiveRenderer`)
// run over a growing LLM answer. Both keep a buffer, the count of characters
// already consumed and a code-block flag; they differ only in how an opening
// fence is recognised, which is the `Fence` of a renderer here.
//
// Creating line items is the SDK's business: the renderer records each line or
// code block it hands over, in order, in `requests`.

module Streaming {
  import opened Common

  /** AgentHub accepts indented fences (`^\s*```(.*)$`); the test plugin only a line
    * that starts with the three back-ticks. */
  datatype Fence = IndentedFence | LeadingFence

  /** What the renderer hands over to be created. */
  datatype Render = RenderLine(line: string) | RenderCode(lang: string, content: string)

  /** The renderer's fields: characters consumed, buffer, code-block flag and language,
    * and everything handed over so far. */
  datatype RState = RState(processed: nat, buffer: string, inCode: bool, lang: string, out: seq<Render>)

  const Tick: string := "```"
  const CloseNl: string := "\n```\n"
  const CloseEnd: string := "\n```"

  /** The language of an opening fence line, trimmed, or None when the line is no fence.
    * `.` in the indented pattern matches no line terminator, so the rest must hold none. */
  function FenceLang(fence: Fence, line: string): (r: Option<string>)
    ensures fence == LeadingFence ==> (r.Some? <==> StartsWith(line, Tick))
    ensures fence == LeadingFence && r.Some? ==> r.value == Trim(line[3..])
    ensures fence == IndentedFence ==> (r.Some? <==> exists p :: IndentedFenceAt(line, p))
    ensures fence == IndentedFence ==> forall p :: IndentedFenceAt(line, p) ==> r == Some(Trim(line[p + 3..]))
  {
    match fence
    case LeadingFence => LeadingFenceLang(line)
    case IndentedFence => IndentedFenceLang(line)
  }

  function LeadingFenceLang(line: string): (r: Option<string>)
    ensures r.Some? <==> StartsWith(line, Tick)
    ensures r.Some? ==> r.value == Trim(line[3..])
  {
    if StartsWith(line, Tick) then Some(Trim(line[3..])) else None
  }

  /** `^(\s*)```(.*)$` matches with the fence at `p`: white space before it, and no line
    * terminator after it. */
  predicate IndentedFenceAt(line: string, p: nat) {
    p + 3 <= |line| && (forall j :: 0 <= j < p ==> IsWs(line[j])) && line[p..p + 3] == Tick
    && NoLineTerminator(line[p + 3..])
  }

  /** The indented fence pattern: the line is a fence exactly when the pattern matches it,
    * and the language is the trimmed text after the back-ticks. */
  function IndentedFenceLang(line: string): (r: Option<string>)
    ensures r.Some? <==> exists p :: IndentedFenceAt(line, p)
    ensures forall p :: IndentedFenceAt(line, p) ==> r == Some(Trim(line[p + 3..]))
  {
    var p := WsRun(line, 0);
    WsRunSpan(line, 0);
    forall q | IndentedFenceAt(line, q) ensures q == p {
      IndentedFenceUnique(line, q);
    }
    if p + 3 <= |line| && line[p..p + 3] == Tick && NoLineTerminator(line[p + 3..])
    then
      assert IndentedFenceAt(line, p);
      Some(Trim(line[p + 3..]))
    else None
  }

  /** A back-tick is no white space, so the fence can only start where the white space ends. */
  lemma IndentedFenceUnique(line: string, q: nat)
    requires IndentedFenceAt(line, q)
    ensures q == WsRun(line, 0)
  {
    WsRunSpan(line, 0);
    assert line[q] == '`' by { assert line[q] == line[q..q + 3][0]; }
    var p := WsRun(line, 0);
    if q < p { assert false; }
    if q > p { assert false; }
  }

  predicate NoLineTerminator(s: string) {
    forall i :: 0 <= i < |s| ==> !IsLineTerminator(s[i])
  }

  /** One character of `update(fullText)`, where `total` is `fullText.length`. In a code
    * block the buffer grows until it ends with the closing fence (a fence at the very end
    * of the text so far also closes); outside one, a newline completes a line, which opens
    * a block, is handed over, or is dropped when blank. */
  function Step(s: RState, c: char, total: nat, fence: Fence): (r: RState)
    ensures r.processed == s.processed + 1
    ensures s.out <= r.out && |r.out| <= |s.out| + 1
  {
    var buf := s.buffer + [c];
    var p := s.processed + 1;
    if s.inCode then
      if EndsWith(buf, CloseNl) then RState(p, "", false, "", s.out + [RenderCode(s.lang, buf[..|buf| - 5])])
      else if EndsWith(buf, CloseEnd) && total == p then RState(p, "", false, "", s.out + [RenderCode(s.lang, buf[..|buf| - 4])])
      else RState(p, buf, true, s.lang, s.out)
    else if c == '\n' then
      var line := s.buffer;
      match FenceLang(fence, line)
      case Some(l) => RState(p, "", true, l, s.out)
      case None =>
        if IsBlank(line) then RState(p, "", false, s.lang, s.out)
        else RState(p, "", false, s.lang, s.out + [RenderLine(line)])
    else RState(p, buf, false, s.lang, s.out)
  }

  /** The characters `chars` consumed one after the other. */
  function Run(s: RState, chars: string, total: nat, fence: Fence): (r: RState)
    decreases |chars|
  {
    if chars == [] then s else Step(Run(s, chars[..|chars| - 1], total, fence), chars[|chars| - 1], total, fence)
  }

  /** `update(fullText)`: only the text beyond `processedLength` is consumed. */
  function Updated(s: RState, fullText: string, fence: Fence): RState {
    if s.processed < |fullText| then Run(s, fullText[s.processed..], |fullText|, fence) else s
  }

  /** `finalize`: a non-blank leftover buffer is handed over, as code inside a block. */
  function Finalized(s: RState): (r: RState)
    ensures IsBlank(s.buffer) ==> r == s
    ensures !IsBlank(s.buffer) ==> r.out == s.out + [if s.inCode then RenderCode(s.lang, s.buffer) else RenderLine(s.buffer)]
  {
    if IsBlank(s.buffer) then s
    else s.(out := s.out + [if s.inCode then RenderCode(s.lang, s.buffer) else RenderLine(s.buffer)])
  }

  /** Consuming characters counts each one and only ever appends to what was handed over. */
  lemma {:induction false} RunAdvances(s: RState, chars: string, total: nat, fence: Fence)
    ensures Run(s, chars, total, fence).processed == s.processed + |chars|
    ensures s.out <= Run(s, chars, total, fence).out
    ensures |Run(s, chars, total, fence).out| <= |s.out| + |chars|
    decreases |chars|
  {
    if chars != [] {
      RunAdvances(s, chars[..|chars| - 1], total, fence);
    }
  }

  /** After an update every character of the text has been consumed. */
  lemma UpdateConsumesAll(s: RState, fullText: string, fence: Fence)
    requires s.processed <= |fullText|
    ensures Updated(s, fullText, fence).processed == |fullText|
  {
    if s.processed < |fullText| {
      RunAdvances(s, fullText[s.processed..], |fullText|, fence);
    }
  }

  /** Repeating the same text is a no-op: nothing is consumed or handed over twice. */
  lemma UpdateIdempotent(s: RState, fullText: string, fence: Fence)
    ensures Updated(Updated(s, fullText, fence), fullText, fence) == Updated(s, fullText, fence)
  {
    if s.processed < |fullText| {
      UpdateConsumesAll(s, fullText, fence);
    }
  }

  /** Outside a code block the buffer holds the current, unfinished line only. */
  predicate NoNewlineOutsideCode(s: RState) {
    !s.inCode ==> forall k :: 0 <= k < |s.buffer| ==> s.buffer[k] != '\n'
  }

  lemma StepKeepsLineBuffer(s: RState, c: char, total: nat, fence: Fence)
    requires NoNewlineOutsideCode(s)
    ensures NoNewlineOutsideCode(Step(s, c, total, fence))
  {
    var r := Step(s, c, total, fence);
    if !s.inCode && c != '\n' {
      assert r.buffer == s.buffer + [c];
    }
  }

  lemma {:induction false} RunKeepsLineBuffer(s: RState, chars: string, total: nat, fence: Fence)
    requires NoNewlineOutsideCode(s)
    ensures NoNewlineOutsideCode(Run(s, chars, total, fence))
    decreases |chars|
  {
    if chars != [] {
      RunKeepsLineBuffer(s, chars[..|chars| - 1], total, fence);
      StepKeepsLineBuffer(Run(s, chars[..|chars| - 1], total, fence), chars[|chars| - 1], total, fence);
    }
  }

  /** Every line handed over outside a block is a non-blank line with no newline in it. */
  predicate LinesAreSingle(out: seq<Render>) {
    forall k :: 0 <= k < |out| && out[k].RenderLine? ==>
      !IsBlank(out[k].line) && forall j :: 0 <= j < |out[k].line| ==> out[k].line[j] != '\n'
  }

  lemma {:induction false} RunHandsOverSingleLines(s: RState, chars: string, total: nat, fence: Fence)
    requires NoNewlineOutsideCode(s) && LinesAreSingle(s.out)
    ensures LinesAreSingle(Run(s, chars, total, fence).out)
    decreases |chars|
  {
    if chars != [] {
      var init := chars[..|chars| - 1];
      RunHandsOverSingleLines(s, init, total, fence);
      RunKeepsLineBuffer(s, init, total, fence);
      StepHandsOverSingleLines(Run(s, init, total, fence), chars[|chars| - 1], total, fence);
    }
  }

  lemma StepHandsOverSingleLines(s: RState, c: char, total: nat, fence: Fence)
    requires NoNewlineOutsideCode(s) && LinesAreSingle(s.out)
    ensures LinesAreSingle(Step(s, c, total, fence).out)
  {
    var r := Step(s, c, total, fence);
    if r.out != s.out {
      assert |r.out| == |s.out| + 1 && r.out[..|s.out|] == s.out;
      forall k | 0 <= k < |r.out| && r.out[k].RenderLine?
        ensures !IsBlank(r.out[k].line) && forall j :: 0 <= j < |r.out[k].line| ==> r.out[k].line[j] != '\n'
      {
        if k < |s.out| {
          assert r.out[k] == s.out[k];
        } else {
          assert r.out[k] == RenderLine(s.buffer);
        }
      }
    }
  }

  /** A block that closes with "\n```\n" hands over exactly what came before that fence. */
  lemma ClosingFenceHandsOverBody(s: RState, total: nat, fence: Fence)
    requires s.inCode && EndsWith(s.buffer + ['\n'], CloseNl)
    ensures var r := Step(s, '\n', total, fence);
      !r.inCode && r.buffer == "" && r.out == s.out + [RenderCode(s.lang, s.buffer[..|s.buffer| - 4])]
      && r.out[|s.out|].content + CloseNl == s.buffer + ['\n']
  {
    var buf := s.buffer + ['\n'];
    assert buf[..|buf| - 5] == s.buffer[..|s.buffer| - 4];
    assert buf == buf[..|buf| - 5] + buf[|buf| - 5..];
  }

  /** A blank line outside a block hands nothing over and empties the buffer. */
  lemma BlankLineRendersNothing(s: RState, total: nat, fence: Fence)
    requires !s.inCode && IsBlank(s.buffer) && FenceLang(fence, s.buffer).None?
    ensures Step(s, '\n', total, fence).out == s.out && Step(s, '\n', total, fence).buffer == ""
  {
  }

  /** A fence line opens a block with the trimmed language and is not itself handed over. */
  lemma FenceOpensBlock(s: RState, total: nat, fence: Fence)
    requires !s.inCode && FenceLang(fence, s.buffer).Some?
    ensures var r := Step(s, '\n', total, fence);
      r.inCode && r.lang == FenceLang(fence, s.buffer).value && r.buffer == "" && r.out == s.out
  {
  }

  /** The fences of the two plugins: an indented fence opens a block in AgentHub only. */
  lemma IndentedFenceOnlyInAgentHub(lang: string)
    requires NoLineTerminator(lang)
    ensures FenceLang(IndentedFence, "  " + Tick + lang) == Some(Trim(lang))
    ensures FenceLang(LeadingFence, "  " + Tick + lang) == None
  {
    var line := "  " + Tick + lang;
    assert line[0] == ' ' && line[1] == ' ' && line[2] == '`';
    assert WsRun(line, 2) == 0;
    assert WsRun(line, 1) == 1;
    assert WsRun(line, 0) == 2;
    assert line[2..5] == Tick;
    assert line[5..] == lang;
  }

  /** `normalizeLanguage` of the two renderers: the six short aliases, otherwise lower case. */
  function NormalizeLanguage(lang: string): (r: string)
    ensures lang == "" ==> r == "plaintext"
    ensures lang != "" && Lower(lang) !in ShortAliases ==> r == Lower(lang)
    ensures lang != "" && Lower(lang) in ShortAliases ==> r == ShortAliases[Lower(lang)]
  {
    if lang == "" then "plaintext"
    else if Lower(lang) in ShortAliases then ShortAliases[Lower(lang)]
    else Lower(lang)
  }

  const ShortAliases: map<string, string> := map[
    "js" := "javascript", "ts" := "typescript", "py" := "python",
    "rb" := "ruby", "sh" := "bash", "yml" := "yaml"]

  /** The renderer object with its fields. */
  class Renderer {
    const fence: Fence
    var processedLength: nat
    var buffer: string
    var inCodeBlock: bool
    var codeBlockLang: string
    var requests: seq<Render>

    function State(): RState
      reads this
    {
      RState(processedLength, buffer, inCodeBlock, codeBlockLang, requests)
    }

    constructor (f: Fence)
      ensures fence == f && State() == RState(0, "", false, "", [])
    {
      fence := f;
      processedLength := 0;
      buffer := "";
      inCodeBlock := false;
      codeBlockLang := "";
      requests := [];
    }

    method SetState(s: RState)
      modifies this
      ensures State() == s
    {
      processedLength, buffer, inCodeBlock, codeBlockLang, requests := s.processed, s.buffer, s.inCode, s.lang, s.out;
    }

    /** `update(fullText)`: the loop over the characters not yet consumed. */
    method Update(fullText: string)
      modifies this
      ensures State() == Updated(old(State()), fullText, fence)
    {
      if processedLength >= |fullText| {
        return;
      }
      ghost var s0 := State();
      var newText := fullText[processedLength..];
      var i := 0;
      while i < |newText|
        invariant 0 <= i <= |newText|
        invariant State() == Run(s0, newText[..i], |fullText|, fence)
      {
        assert newText[..i + 1][..i] == newText[..i];
        var next := Step(State(), newText[i], |fullText|, fence);
        SetState(next);
        i := i + 1;
      }
      assert newText[..|newText|] == newText;
    }

    /** `finalize`: hands over a non-blank leftover buffer. */
    method Finalize()
      modifies this
      ensures State() == Finalized(old(State()))
    {
      if !IsBlank(buffer) {
        requests := requests + [if inCodeBlock then RenderCode(codeBlockLang, buffer) else RenderLine(buffer)];
      }
    }
  }
}
