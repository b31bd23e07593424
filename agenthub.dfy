// AgentHub's chat logic (agenthub/plugin.js): reading a chat page into LLM
// messages, inlining linked records, merging streamed tool-call deltas, the
// agent's usage counters and how many items its streaming renderer creates.
//
// A page is the sequence of its line items, each with its parent's guid and its
// segments. Resolving a linked record is a lookup in `pages` (guid to the text
// the record resolves to); the LLM request and the SDK writes are left out.

module AgentHub {
  import opened Common
  import Streaming
  import SyncHubMarkdown

  /** A segment as the SDK gives it: a typed text run, or a reference whose text is an object. */
  datatype ItemSeg = Plain(kind: string, text: string) | RefTo(guid: string, title: string)

  datatype Item = Item(guid: string, parent: string, segments: seq<ItemSeg>)

  datatype Role = User | Assistant

  datatype Message = Message(role: Role, content: string)

  /** A reference is shown to the LLM as `[[GUID]]`. */
  function SegText(s: ItemSeg): string {
    match s
    case Plain(_, t) => t
    case RefTo(g, _) => "[[" + g + "]]"
  }

  /** The text of an item: its segments' texts joined. */
  function ItemText(segs: seq<ItemSeg>): string {
    if segs == [] then "" else ItemText(segs[..|segs| - 1]) + SegText(segs[|segs| - 1])
  }

  /** The text the first pass tests for a marker: `s.text || ''`, which for a
    * reference is its object, shown as "[object Object]". */
  function ScanText(segs: seq<ItemSeg>): string {
    if segs == [] then ""
    else ScanText(segs[..|segs| - 1]) + (match segs[|segs| - 1] case Plain(_, t) => t case RefTo(_, _) => "[object Object]")
  }

  predicate FirstIsBold(segs: seq<ItemSeg>) {
    |segs| > 0 && segs[0].Plain? && segs[0].kind == "bold"
  }

  const Robot: string := "🤖:"

  /** `^(.+)\s*🤖:$`: the text ends with the robot and a colon, after at least one
    * character; a line terminator (which `.` does not match) may only occur in the
    * white space directly before the robot. */
  predicate IsMarkerText(text: string) {
    && |text| >= 3 && text[|text| - 2..] == Robot
    && var p := text[..|text| - 2];
    && !IsLineTerminator(p[0])
    && forall i :: 0 <= i < |p| && IsLineTerminator(p[i]) ==> IsBlank(p[i..])
  }

  /** The guids of top-level items that mark an agent's answer (the first pass). */
  function Markers(items: seq<Item>, root: string): (m: set<string>)
    ensures forall g :: g in m ==> exists i :: 0 <= i < |items| && items[i].guid == g && items[i].parent == root
  {
    if items == [] then {}
    else
      var it := items[|items| - 1];
      var m := Markers(items[..|items| - 1], root);
      if it.parent == root && FirstIsBold(it.segments) && IsMarkerText(ScanText(it.segments)) then m + {it.guid} else m
  }

  // ---------------------------------------------------------------------
  // Messages

  /** `currentRole`, `currentContent` and the messages pushed so far. */
  datatype ChatState = ChatState(msgs: seq<Message>, role: Option<Role>, content: string)

  /** The messages with the current one pushed, when it has content. */
  function Flush(st: ChatState): (r: seq<Message>)
    ensures st.role.None? || Trim(st.content) == [] ==> r == st.msgs
    ensures st.role.Some? && Trim(st.content) != [] ==> r == st.msgs + [Message(st.role.value, Trim(st.content))]
  {
    if st.role.Some? && Trim(st.content) != [] then st.msgs + [Message(st.role.value, Trim(st.content))] else st.msgs
  }

  /** One item of the second pass. A top-level marker starts an assistant message; any
    * other non-blank top-level item starts a user message with its text; a non-blank
    * child of a marker is appended, on a new line, to the assistant message (starting
    * one if needed); items nested deeper are skipped. */
  function ChatStep(st: ChatState, item: Item, root: string, markers: set<string>): ChatState {
    var top := item.parent == root;
    var child := item.parent in markers;
    var text := ItemText(item.segments);
    if !top && !child then st
    else if top then
      if FirstIsBold(item.segments) && IsMarkerText(text) then ChatState(Flush(st), Some(Assistant), "")
      else if Trim(text) != [] then ChatState(Flush(st), Some(User), text)
      else st
    else if Trim(text) != [] then
      var st1 := if st.role != Some(Assistant) then ChatState(Flush(st), Some(Assistant), "") else st;
      st1.(content := st1.content + (if st1.content != "" then "\n" else "") + text)
    else st
  }

  function ChatFold(items: seq<Item>, root: string, markers: set<string>, st: ChatState): ChatState {
    if items == [] then st
    else ChatStep(ChatFold(items[..|items| - 1], root, markers, st), items[|items| - 1], root, markers)
  }

  /** The messages `parseChatPage` reads off a page. */
  function ChatMessages(items: seq<Item>, root: string): seq<Message> {
    Flush(ChatFold(items, root, Markers(items, root), ChatState([], None, "")))
  }

  /** A message as pushed: non-empty and trimmed at both ends. */
  predicate GoodMessage(m: Message) {
    m.content != [] && !IsWs(m.content[0]) && !IsWs(m.content[|m.content| - 1])
  }

  predicate AllGood(msgs: seq<Message>) {
    forall k :: 0 <= k < |msgs| ==> GoodMessage(msgs[k])
  }

  lemma FlushGood(st: ChatState)
    requires AllGood(st.msgs)
    ensures AllGood(Flush(st))
  {
  }

  lemma {:induction false} ChatFoldGood(items: seq<Item>, root: string, markers: set<string>, st: ChatState)
    requires AllGood(st.msgs)
    ensures AllGood(ChatFold(items, root, markers, st).msgs)
    decreases |items|
  {
    if items != [] {
      var prev := ChatFold(items[..|items| - 1], root, markers, st);
      ChatFoldGood(items[..|items| - 1], root, markers, st);
      FlushGood(prev);
    }
  }

  /** Only non-empty, trimmed user and assistant messages come out of a page. */
  lemma ChatMessagesAreTrimmed(items: seq<Item>, root: string)
    ensures AllGood(ChatMessages(items, root))
  {
    var st := ChatFold(items, root, Markers(items, root), ChatState([], None, ""));
    ChatFoldGood(items, root, Markers(items, root), ChatState([], None, ""));
    FlushGood(st);
  }

  /** An item that is neither top-level nor a child of a marker is skipped. */
  predicate Deep(item: Item, root: string, markers: set<string>) {
    item.parent != root && item.parent !in markers
  }

  lemma {:induction false} FoldSkipsDeep(a: seq<Item>, d: Item, b: seq<Item>, root: string, markers: set<string>, st: ChatState)
    requires Deep(d, root, markers)
    ensures ChatFold(a + [d] + b, root, markers, st) == ChatFold(a + b, root, markers, st)
    decreases |b|
  {
    if b == [] {
      assert (a + [d] + b)[..|a + [d] + b| - 1] == a;
      assert a + b == a;
    } else {
      var b' := b[..|b| - 1];
      FoldSkipsDeep(a, d, b', root, markers, st);
      assert (a + [d] + b)[..|a + [d] + b| - 1] == a + [d] + b';
      assert (a + b)[..|a + b| - 1] == a + b';
    }
  }

  lemma {:induction false} MarkersSkipDeep(a: seq<Item>, d: Item, b: seq<Item>, root: string)
    requires d.parent != root
    ensures Markers(a + [d] + b, root) == Markers(a + b, root)
    decreases |b|
  {
    if b == [] {
      assert (a + [d] + b)[..|a + [d] + b| - 1] == a;
      assert a + b == a;
    } else {
      var b' := b[..|b| - 1];
      MarkersSkipDeep(a, d, b', root);
      assert (a + [d] + b)[..|a + [d] + b| - 1] == a + [d] + b';
      assert (a + b)[..|a + b| - 1] == a + b';
    }
  }

  /** Removing an item nested deeper than a marker's children leaves the messages as they were. */
  lemma DeepItemIgnored(a: seq<Item>, d: Item, b: seq<Item>, root: string)
    requires Deep(d, root, Markers(a + [d] + b, root))
    ensures ChatMessages(a + [d] + b, root) == ChatMessages(a + b, root)
  {
    MarkersSkipDeep(a, d, b, root);
    FoldSkipsDeep(a, d, b, root, Markers(a + b, root), ChatState([], None, ""));
  }

  /** The texts of a run of items. */
  function Texts(items: seq<Item>): (r: seq<string>)
    ensures |r| == |items|
  {
    if items == [] then [] else Texts(items[..|items| - 1]) + [ItemText(items[|items| - 1].segments)]
  }

  lemma {:induction false} JoinSnoc(parts: seq<string>, x: string, sep: string)
    requires parts != []
    ensures Join(parts + [x], sep) == Join(parts, sep) + sep + x
    decreases |parts|
  {
    if |parts| > 1 {
      JoinSnoc(parts[1..], x, sep);
      assert (parts + [x])[1..] == parts[1..] + [x];
    }
  }

  /** The non-blank children of a marker make one assistant message: their texts, one per line. */
  lemma {:induction false} AssistantChildrenJoined(kids: seq<Item>, root: string, markers: set<string>, msgs: seq<Message>)
    requires forall k :: 0 <= k < |kids| ==> kids[k].parent != root && kids[k].parent in markers
    requires forall k :: 0 <= k < |kids| ==> Trim(ItemText(kids[k].segments)) != []
    ensures ChatFold(kids, root, markers, ChatState(msgs, Some(Assistant), "")) == ChatState(msgs, Some(Assistant), Join(Texts(kids), "\n"))
    decreases |kids|
  {
    if kids != [] {
      var init := kids[..|kids| - 1];
      var last := kids[|kids| - 1];
      AssistantChildrenJoined(init, root, markers, msgs);
      var prev := ChatFold(init, root, markers, ChatState(msgs, Some(Assistant), ""));
      var t := ItemText(last.segments);
      assert t != [];
      ChildStep(prev, last, root, markers);
      assert Texts(kids) == Texts(init) + [t];
      if init != [] {
        JoinSnoc(Texts(init), t, "\n");
        assert Join(Texts(init), "\n") != "" by { JoinNonEmpty(Texts(init), init); }
      } else {
        assert Texts(kids) == [t];
      }
    }
  }

  /** A non-blank child of a marker, while an assistant message is open, is appended to it. */
  lemma ChildStep(st: ChatState, item: Item, root: string, markers: set<string>)
    requires item.parent != root && item.parent in markers && Trim(ItemText(item.segments)) != []
    requires st.role == Some(Assistant)
    ensures ChatStep(st, item, root, markers) ==
      st.(content := st.content + (if st.content != "" then "\n" else "") + ItemText(item.segments))
  {
  }

  lemma {:induction false} JoinNonEmpty(parts: seq<string>, items: seq<Item>)
    requires parts == Texts(items) && items != []
    requires forall k :: 0 <= k < |items| ==> Trim(ItemText(items[k].segments)) != []
    ensures Join(parts, "\n") != ""
    decreases |items|
  {
    if |items| > 1 {
      var init := items[..|items| - 1];
      JoinNonEmpty(Texts(init), init);
      JoinSnoc(Texts(init), ItemText(items[|items| - 1].segments), "\n");
    }
  }

  // ---------------------------------------------------------------------
  // Linked records

  datatype Link = Link(title: string, guid: string)

  datatype Linked = Linked(guid: string, title: string, content: string)

  /** `extractLinks`: every reference with a guid, titled "Linked record" when untitled. */
  function ExtractLinks(segs: seq<ItemSeg>): (r: seq<Link>)
    ensures |r| <= |segs|
    ensures forall k :: 0 <= k < |r| ==> r[k].guid != "" && r[k].title != ""
  {
    if segs == [] then []
    else
      var s := segs[|segs| - 1];
      ExtractLinks(segs[..|segs| - 1])
      + (if s.RefTo? && s.guid != "" then [Link(if s.title != "" then s.title else "Linked record", s.guid)] else [])
  }

  predicate Known(linked: seq<Linked>, guid: string) {
    exists k :: 0 <= k < |linked| && linked[k].guid == guid
  }

  predicate DistinctGuids(linked: seq<Linked>) {
    forall i, j :: 0 <= i < j < |linked| ==> linked[i].guid != linked[j].guid
  }

  /** One link: a record seen for the first time is resolved and kept when it has text. */
  function AddLink(linked: seq<Linked>, l: Link, pages: map<string, string>): (r: seq<Linked>)
    ensures DistinctGuids(linked) ==> DistinctGuids(r)
    ensures r == linked || (l.guid in pages && r == linked + [Linked(l.guid, l.title, pages[l.guid])])
  {
    if l.guid != "" && !Known(linked, l.guid) && l.guid in pages && pages[l.guid] != ""
    then linked + [Linked(l.guid, l.title, pages[l.guid])]
    else linked
  }

  function AddLinks(linked: seq<Linked>, links: seq<Link>, pages: map<string, string>): (r: seq<Linked>)
    ensures DistinctGuids(linked) ==> DistinctGuids(r)
  {
    if links == [] then linked else AddLink(AddLinks(linked, links[..|links| - 1], pages), links[|links| - 1], pages)
  }

  /** The linked records of a page: links are collected from every item the second pass reads. */
  function LinkedOf(items: seq<Item>, root: string, markers: set<string>, pages: map<string, string>): (r: seq<Linked>)
    ensures DistinctGuids(r)
  {
    if items == [] then []
    else
      var it := items[|items| - 1];
      var prev := LinkedOf(items[..|items| - 1], root, markers, pages);
      if Deep(it, root, markers) then prev else AddLinks(prev, ExtractLinks(it.segments), pages)
  }

  /** `parseChatPage`: the two passes over the page's items. */
  method ParseChatPage(items: seq<Item>, root: string, pages: map<string, string>)
    returns (messages: seq<Message>, linked: seq<Linked>)
    ensures messages == ChatMessages(items, root)
    ensures linked == LinkedOf(items, root, Markers(items, root), pages)
    ensures AllGood(messages) && DistinctGuids(linked)
  {
    var markers := CollectMarkers(items, root);
    var st;
    st, linked := ReadItems(items, root, markers, pages);
    messages := Flush(st);
    ChatMessagesAreTrimmed(items, root);
  }

  /** The first pass: the guids of the assistant markers among the top-level items. */
  method CollectMarkers(items: seq<Item>, root: string) returns (markers: set<string>)
    ensures markers == Markers(items, root)
  {
    markers := {};
    var i := 0;
    while i < |items|
      invariant 0 <= i <= |items|
      invariant markers == Markers(items[..i], root)
    {
      assert items[..i + 1][..i] == items[..i];
      var it := items[i];
      if it.parent == root && FirstIsBold(it.segments) && IsMarkerText(ScanText(it.segments)) {
        markers := markers + {it.guid};
      }
      i := i + 1;
    }
    assert items[..|items|] == items;
  }

  /** The second pass: messages are built and links collected from every item read. */
  method ReadItems(items: seq<Item>, root: string, markers: set<string>, pages: map<string, string>)
    returns (st: ChatState, linked: seq<Linked>)
    ensures st == ChatFold(items, root, markers, ChatState([], None, ""))
    ensures linked == LinkedOf(items, root, markers, pages)
  {
    st := ChatState([], None, "");
    linked := [];
    var i := 0;
    while i < |items|
      invariant 0 <= i <= |items|
      invariant st == ChatFold(items[..i], root, markers, ChatState([], None, ""))
      invariant linked == LinkedOf(items[..i], root, markers, pages)
    {
      assert items[..i + 1][..i] == items[..i];
      st := ChatStep(st, items[i], root, markers);
      if !Deep(items[i], root, markers) {
        linked := AddLinks(linked, ExtractLinks(items[i].segments), pages);
      }
      i := i + 1;
    }
    assert items[..|items|] == items;
  }

  // ---------------------------------------------------------------------
  // buildMessages

  /**
   * `GetSubstitution` for a pattern without capture groups: the replacement for the match of
   * length `len` at `pos` in `s`, with `$$` read as '$', `$&` as the match, `` $` `` as the text
   * before it and `$'` as the text after it; every other '$' stands for itself.
   */
  function Expand(rep: string, s: string, pos: nat, len: nat): string
    requires pos + len <= |s|
    decreases |rep|
  {
    if rep == [] then []
    else if |rep| >= 2 && rep[0] == '$' && rep[1] == '$' then "$" + Expand(rep[2..], s, pos, len)
    else if |rep| >= 2 && rep[0] == '$' && rep[1] == '&' then s[pos..pos + len] + Expand(rep[2..], s, pos, len)
    else if |rep| >= 2 && rep[0] == '$' && rep[1] == '`' then s[..pos] + Expand(rep[2..], s, pos, len)
    else if |rep| >= 2 && rep[0] == '$' && rep[1] == '\'' then s[pos + len..] + Expand(rep[2..], s, pos, len)
    else [rep[0]] + Expand(rep[1..], s, pos, len)
  }

  /** A replacement without '$' is inserted as it is. */
  lemma {:induction false} ExpandPlain(rep: string, s: string, pos: nat, len: nat)
    requires pos + len <= |s| && '$' !in rep
    ensures Expand(rep, s, pos, len) == rep
    decreases |rep|
  {
    if rep != [] {
      assert '$' !in rep[1..];
      ExpandPlain(rep[1..], s, pos, len);
      assert [rep[0]] + rep[1..] == rep;
    }
  }

  /** `s.replace(/pat/g, rep)` from index `i` of `s` on: every occurrence, left to right, without overlaps. */
  function ReplaceFrom(s: string, i: nat, pat: string, rep: string): string
    requires pat != [] && i <= |s|
    decreases |s| - i
  {
    if |s| - i < |pat| then s[i..]
    else if s[i..i + |pat|] == pat then Expand(rep, s, i, |pat|) + ReplaceFrom(s, i + |pat|, pat, rep)
    else [s[i]] + ReplaceFrom(s, i + 1, pat, rep)
  }

  function ReplaceAll(s: string, pat: string, rep: string): string
    requires pat != []
  {
    ReplaceFrom(s, 0, pat, rep)
  }

  /** From an index past which the pattern does not occur, the text is left as it is. */
  lemma {:induction false} ReplaceFromWithout(s: string, i: nat, pat: string, rep: string)
    requires pat != [] && i <= |s| && !Contains(s[i..], pat)
    ensures ReplaceFrom(s, i, pat, rep) == s[i..]
    decreases |s| - i
  {
    if |s| - i >= |pat| {
      assert !(pat <= s[i..][0..]);
      assert s[i..][0..] == s[i..];
      assert s[i..i + |pat|] != pat;
      var u := s[i + 1..];
      forall j | 0 <= j <= |u| - |pat| ensures !(pat <= u[j..]) {
        assert u[j..] == s[i..][j + 1..];
      }
      ReplaceFromWithout(s, i + 1, pat, rep);
      assert [s[i]] + s[i + 1..] == s[i..];
    }
  }

  /** A text without the pattern is left as it is. */
  lemma ReplaceAllWithout(s: string, pat: string, rep: string)
    requires pat != [] && !Contains(s, pat)
    ensures ReplaceAll(s, pat, rep) == s
  {
    assert s[0..] == s;
    ReplaceFromWithout(s, 0, pat, rep);
  }

  /** Text without the character the pattern starts with is kept as it is. */
  lemma {:induction false} ReplaceFromUpTo(s: string, i: nat, j: nat, pat: string, rep: string)
    requires pat != [] && i <= j && j + |pat| <= |s|
    requires pat[0] !in s[i..j]
    ensures ReplaceFrom(s, i, pat, rep) == s[i..j] + ReplaceFrom(s, j, pat, rep)
    decreases j - i
  {
    if i < j {
      SliceParts(s, i, j, ReplaceFrom(s, j, pat, rep));
      ReplaceFromMiss(s, i, pat, rep);
      ReplaceFromUpTo(s, i + 1, j, pat, rep);
    } else {
      assert s[i..j] == [];
    }
  }

  lemma SliceParts(s: string, i: nat, j: nat, tail: string)
    requires i < j <= |s|
    ensures s[i] == s[i..j][0] && s[i + 1..j] == s[i..j][1..]
    ensures [s[i]] + (s[i + 1..j] + tail) == s[i..j] + tail
  {
    assert [s[i]] + s[i + 1..j] == s[i..j];
  }

  /** A character that does not start the pattern is kept. */
  lemma ReplaceFromMiss(s: string, i: nat, pat: string, rep: string)
    requires pat != [] && i + |pat| <= |s| && s[i] != pat[0]
    ensures ReplaceFrom(s, i, pat, rep) == [s[i]] + ReplaceFrom(s, i + 1, pat, rep)
  {
    assert s[i..i + |pat|][0] == s[i];
  }

  /** An occurrence is replaced and the search goes on after it. */
  lemma ReplaceFromHit(s: string, i: nat, pat: string, rep: string)
    requires pat != [] && i + |pat| <= |s| && s[i..i + |pat|] == pat
    ensures ReplaceFrom(s, i, pat, rep) == Expand(rep, s, i, |pat|) + ReplaceFrom(s, i + |pat|, pat, rep)
  {
  }

  /** The first occurrence, at `k` after text without the pattern's first character, is replaced. */
  lemma ReplaceAllAfterText(s: string, k: nat, pat: string, rep: string)
    requires pat != [] && k + |pat| <= |s| && s[k..k + |pat|] == pat && pat[0] !in s[..k]
    ensures ReplaceAll(s, pat, rep) == s[..k] + (Expand(rep, s, k, |pat|) + ReplaceFrom(s, k + |pat|, pat, rep))
  {
    assert s[0..k] == s[..k];
    ReplaceFromUpTo(s, 0, k, pat, rep);
    ReplaceFromHit(s, k, pat, rep);
  }

  /** A reference in a text with no other '[' and a title without '$': the reference
    * becomes the quoted title and nothing else changes. */
  lemma PlainTitleReplaces(t: string, guid: string, title: string, rest: string)
    requires '[' !in t && '$' !in title && !Contains(rest, RefPattern(guid))
    ensures ReplaceAll(t + RefPattern(guid) + rest, RefPattern(guid), Quoted(title)) == t + Quoted(title) + rest
  {
    var pat, q := RefPattern(guid), Quoted(title);
    ThreeParts(t, pat, rest);
    assert pat[0] == '[' && '$' !in q;
    ReplaceOnce(t + pat + rest, |t|, pat, q);
    assert t + q + rest == t + (q + rest);
  }

  /** A single occurrence, after text without the pattern's first character, replaced by a
    * text without '$'. */
  lemma ReplaceOnce(s: string, k: nat, pat: string, q: string)
    requires pat != [] && k + |pat| <= |s| && s[k..k + |pat|] == pat && pat[0] !in s[..k]
    requires '$' !in q && !Contains(s[k + |pat|..], pat)
    ensures ReplaceAll(s, pat, q) == s[..k] + (q + s[k + |pat|..])
  {
    ReplaceAllAfterText(s, k, pat, q);
    ExpandPlain(q, s, k, |pat|);
    ReplaceFromWithout(s, k + |pat|, pat, q);
  }

  /** The three parts of `a + b + c`, read back by slicing. */
  lemma ThreeParts(a: string, b: string, c: string)
    ensures var s := a + b + c;
      |s| == |a| + |b| + |c| && s[..|a|] == a && s[|a|..|a| + |b|] == b && s[|a| + |b|..] == c
  {
  }

  /** A title "$&" brings the reference back inside the quotes, and a title "$$" becomes "$". */
  lemma DollarTitles(guid: string)
    ensures ReplaceAll(RefPattern(guid), RefPattern(guid), Quoted("$&")) == Quoted(RefPattern(guid))
    ensures ReplaceAll(RefPattern(guid), RefPattern(guid), Quoted("$$")) == Quoted("$")
  {
    var pat := RefPattern(guid);
    assert pat[0..|pat|] == pat;
    assert pat[|pat|..] == [];
    assert Expand("\"", pat, 0, |pat|) == "\"" by { assert "\""[1..] == []; }
    assert Expand("$&\"", pat, 0, |pat|) == pat + "\"" by { assert "$&\""[2..] == "\""; }
    assert Expand("$$\"", pat, 0, |pat|) == "$\"" by { assert "$$\""[2..] == "\""; }
    assert Quoted("$&")[1..] == "$&\"" && Quoted("$$")[1..] == "$$\"";
    assert Expand(Quoted("$&"), pat, 0, |pat|) == Quoted(pat);
    assert Expand(Quoted("$$"), pat, 0, |pat|) == Quoted("$");
    ReplaceFromHit(pat, 0, pat, Quoted("$&"));
    ReplaceFromHit(pat, 0, pat, Quoted("$$"));
    assert ReplaceFrom(pat, |pat|, pat, Quoted("$&")) == [] && ReplaceFrom(pat, |pat|, pat, Quoted("$$")) == [];
  }

  /** The reference pattern of a linked record and its replacement, the quoted title. */
  function RefPattern(guid: string): (p: string)
    ensures p != []
  {
    "[[" + guid + "]]"
  }

  function Quoted(title: string): string { "\"" + title + "\"" }

  /** The content with the references of `linked[..n]` replaced, in map order. */
  function ReplaceLinks(content: string, linked: seq<Linked>): string {
    if linked == [] then content
    else
      var l := linked[|linked| - 1];
      ReplaceAll(ReplaceLinks(content, linked[..|linked| - 1]), RefPattern(l.guid), Quoted(l.title))
  }

  function ContextEntries(linked: seq<Linked>): string {
    if linked == [] then ""
    else ContextEntries(linked[..|linked| - 1]) + "\n## " + linked[|linked| - 1].title + "\n" + linked[|linked| - 1].content + "\n"
  }

  /** The Linked Context block prepended to the first user message. */
  function ContextBlock(linked: seq<Linked>): string {
    "---\nLinked Context (already resolved - no need to search):\n" + ContextEntries(linked) + "---\n\n"
  }

  /** `messages.findIndex(m => m.role === 'user')`. */
  function FirstUser(msgs: seq<Message>): (r: Option<nat>)
    ensures r.Some? ==> r.value < |msgs| && msgs[r.value].role == User
    ensures r.Some? ==> forall k :: 0 <= k < r.value ==> msgs[k].role != User
    ensures r.None? ==> forall k :: 0 <= k < |msgs| ==> msgs[k].role != User
  {
    if msgs == [] then None
    else if msgs[0].role == User then Some(0)
    else var r := FirstUser(msgs[1..]); if r.Some? then Some(r.value + 1) else None
  }

  /** `buildMessages`: the same messages with the same roles; references are replaced by
    * quoted titles, and the first user message alone gets the context block. */
  function BuildMessages(msgs: seq<Message>, linked: seq<Linked>): (r: seq<Message>)
    ensures |r| == |msgs|
    ensures forall k :: 0 <= k < |msgs| ==> r[k].role == msgs[k].role
    ensures forall k :: 0 <= k < |msgs| ==>
      r[k].content == (if linked != [] && FirstUser(msgs) == Some(k) then ContextBlock(linked) else "")
                      + ReplaceLinks(msgs[k].content, linked)
    ensures linked == [] ==> r == msgs
  {
    if linked == [] then msgs
    else
      var first := FirstUser(msgs);
      seq(|msgs|, k requires 0 <= k < |msgs| =>
        Message(msgs[k].role, (if first == Some(k) then ContextBlock(linked) else "") + ReplaceLinks(msgs[k].content, linked)))
  }

  /** The messages after the first `n` linked records have been replaced in all of them. */
  function ReplacedUpTo(msgs: seq<Message>, linked: seq<Linked>): (r: seq<Message>)
    ensures |r| == |msgs|
  {
    seq(|msgs|, k requires 0 <= k < |msgs| => msgs[k].(content := ReplaceLinks(msgs[k].content, linked)))
  }

  /** `buildMessages` on the array it rewrites in place. */
  method BuildMessagesInPlace(messages: array<Message>, linked: seq<Linked>)
    modifies messages
    ensures messages[..] == BuildMessages(old(messages[..]), linked)
  {
    ghost var orig := messages[..];
    if |linked| > 0 {
      ReplaceLinksInPlace(messages, linked);
      ghost var mid := messages[..];
      FirstUserByRoles(mid, orig);
      var idx := FindFirstUser(messages);
      if idx.Some? {
        messages[idx.value] := messages[idx.value].(content := ContextBlock(linked) + messages[idx.value].content);
      }
      forall k | 0 <= k < messages.Length ensures messages[k] == BuildMessages(orig, linked)[k] {
        assert mid[k] == orig[k].(content := ReplaceLinks(orig[k].content, linked));
      }
      assert messages[..] == BuildMessages(orig, linked);
    }
  }

  /** The loop over the linked records: each one's references replaced in every message. */
  method ReplaceLinksInPlace(messages: array<Message>, linked: seq<Linked>)
    modifies messages
    ensures messages[..] == ReplacedUpTo(old(messages[..]), linked)
  {
    ghost var orig := messages[..];
    var j := 0;
    while j < |linked|
      invariant 0 <= j <= |linked|
      invariant messages[..] == ReplacedUpTo(orig, linked[..j])
    {
      assert linked[..j + 1][..j] == linked[..j];
      ghost var before := messages[..];
      ReplaceInAll(messages, RefPattern(linked[j].guid), Quoted(linked[j].title));
      forall k | 0 <= k < messages.Length
        ensures messages[k] == orig[k].(content := ReplaceLinks(orig[k].content, linked[..j + 1]))
      {
        assert before[k] == orig[k].(content := ReplaceLinks(orig[k].content, linked[..j]));
      }
      j := j + 1;
    }
    assert linked[..|linked|] == linked;
  }

  /** One linked record: its references replaced in every message, nothing else changed. */
  method ReplaceInAll(messages: array<Message>, pat: string, rep: string)
    requires pat != []
    modifies messages
    ensures forall k :: 0 <= k < messages.Length ==>
      messages[k] == old(messages[k]).(content := ReplaceAll(old(messages[k]).content, pat, rep))
  {
    var i := 0;
    while i < messages.Length
      invariant 0 <= i <= messages.Length
      invariant forall k :: 0 <= k < i ==>
        messages[k] == old(messages[k]).(content := ReplaceAll(old(messages[k]).content, pat, rep))
      invariant forall k :: i <= k < messages.Length ==> messages[k] == old(messages[k])
    {
      messages[i] := messages[i].(content := ReplaceAll(messages[i].content, pat, rep));
      i := i + 1;
    }
  }

  /** The first user message depends on the roles only. */
  lemma {:induction false} FirstUserByRoles(a: seq<Message>, b: seq<Message>)
    requires |a| == |b| && forall k :: 0 <= k < |a| ==> a[k].role == b[k].role
    ensures FirstUser(a) == FirstUser(b)
  {
    if a != [] { FirstUserByRoles(a[1..], b[1..]); }
  }

  method FindFirstUser(messages: array<Message>) returns (r: Option<nat>)
    ensures r == FirstUser(messages[..])
  {
    var i := 0;
    while i < messages.Length
      invariant 0 <= i <= messages.Length
      invariant forall k :: 0 <= k < i ==> messages[k].role != User
    {
      if messages[i].role == User {
        FirstUserIs(messages[..], i);
        return Some(i);
      }
      i := i + 1;
    }
    FirstUserNone(messages[..]);
    return None;
  }

  lemma {:induction false} FirstUserIs(msgs: seq<Message>, i: nat)
    requires i < |msgs| && msgs[i].role == User
    requires forall k :: 0 <= k < i ==> msgs[k].role != User
    ensures FirstUser(msgs) == Some(i)
  {
    if i > 0 { FirstUserIs(msgs[1..], i - 1); }
  }

  lemma {:induction false} FirstUserNone(msgs: seq<Message>)
    requires forall k :: 0 <= k < |msgs| ==> msgs[k].role != User
    ensures FirstUser(msgs) == None
  {
    if msgs != [] { FirstUserNone(msgs[1..]); }
  }

  // ---------------------------------------------------------------------
  // Streamed tool calls (OpenAI-compatible providers)

  /** `tc.function.arguments`: absent, a string chunk, or an object sent whole (kept as
    * its `JSON.stringify` text). */
  datatype ArgsDelta = NoArgs | ArgChunk(text: string) | ArgObject(json: string)

  /** One element of `delta.tool_calls`; "" stands for an absent id or name. */
  datatype CallDelta = CallDelta(index: Option<nat>, id: string, name: string, args: ArgsDelta)

  datatype ToolCall = ToolCall(id: string, name: string, arguments: string)

  function ArgsText(a: ArgsDelta): string {
    match a
    case NoArgs => ""
    case ArgChunk(t) => t
    case ArgObject(j) => j
  }

  function Holes(n: nat): (r: seq<Option<ToolCall>>)
    ensures |r| == n && forall k :: 0 <= k < n ==> r[k].None?
  {
    if n == 0 then [] else Holes(n - 1) + [None]
  }

  /** The slot a delta merges into: its index, or a new slot at the end. */
  function SlotOf(calls: seq<Option<ToolCall>>, d: CallDelta): nat {
    if d.index.Some? then d.index.value else |calls|
  }

  /** One delta merged into the (possibly sparse) array of calls: a new slot starts with
    * the delta's id (or `call_<idx>`), a later id or name overwrites, arguments append. */
  function MergeDelta(calls: seq<Option<ToolCall>>, d: CallDelta): (r: seq<Option<ToolCall>>)
    ensures var idx := SlotOf(calls, d);
      |r| == MaxInt(|calls|, idx + 1) && r[idx].Some?
      && (forall k :: 0 <= k < |calls| && k != idx ==> r[k] == calls[k])
      && (forall k :: |calls| <= k < |r| && k != idx ==> r[k].None?)
    ensures var idx := SlotOf(calls, d);
      var old_ := if idx < |calls| then calls[idx] else None;
      r[idx].value.arguments == (if old_.Some? then old_.value.arguments else "") + ArgsText(d.args)
      && (d.id != "" ==> r[idx].value.id == d.id)
      && (d.name != "" ==> r[idx].value.name == d.name)
      && (d.id == "" && old_.Some? ==> r[idx].value.id == old_.value.id)
      && (d.name == "" && old_.Some? ==> r[idx].value.name == old_.value.name)
      && (d.id == "" && old_.None? ==> r[idx].value.id == "call_" + NatToString(idx))
    ensures d.index.None? ==> |r| == |calls| + 1 && r[..|calls|] == calls
  {
    var idx := SlotOf(calls, d);
    var existing := if idx < |calls| then calls[idx] else None;
    var base := if existing.Some? then existing.value
                else ToolCall(if d.id != "" then d.id else "call_" + NatToString(idx), d.name, "");
    var c := ToolCall(if d.id != "" then d.id else base.id, if d.name != "" then d.name else base.name,
                      base.arguments + ArgsText(d.args));
    if idx < |calls| then calls[idx := Some(c)] else calls + Holes(idx - |calls|) + [Some(c)]
  }

  function MergeAll(calls: seq<Option<ToolCall>>, ds: seq<CallDelta>): seq<Option<ToolCall>> {
    if ds == [] then calls else MergeDelta(MergeAll(calls, ds[..|ds| - 1]), ds[|ds| - 1])
  }

  function ArgsOf(ds: seq<CallDelta>): string {
    if ds == [] then "" else ArgsOf(ds[..|ds| - 1]) + ArgsText(ds[|ds| - 1].args)
  }

  /** Deltas for one index build its arguments by concatenation, in arrival order. */
  lemma {:induction false} ArgumentsConcatenate(calls: seq<Option<ToolCall>>, ds: seq<CallDelta>, idx: nat)
    requires idx < |calls| && calls[idx].Some?
    requires forall k :: 0 <= k < |ds| ==> ds[k].index == Some(idx)
    ensures |MergeAll(calls, ds)| == |calls|
    ensures MergeAll(calls, ds)[idx].Some?
    ensures MergeAll(calls, ds)[idx].value.arguments == calls[idx].value.arguments + ArgsOf(ds)
    decreases |ds|
  {
    if ds != [] {
      ArgumentsConcatenate(calls, ds[..|ds| - 1], idx);
    }
  }

  /** The loop over one chunk's `tool_calls`. */
  method MergeToolCalls(calls: seq<Option<ToolCall>>, ds: seq<CallDelta>) returns (r: seq<Option<ToolCall>>)
    ensures r == MergeAll(calls, ds)
    ensures |r| >= |calls|
  {
    r := calls;
    var i := 0;
    while i < |ds|
      invariant 0 <= i <= |ds|
      invariant r == MergeAll(calls, ds[..i]) && |r| >= |calls|
    {
      assert ds[..i + 1][..i] == ds[..i];
      r := MergeDelta(r, ds[i]);
      i := i + 1;
    }
    assert ds[..|ds|] == ds;
  }

  // ---------------------------------------------------------------------
  // Usage counters

  datatype AgentStats = AgentStats(invocations: int, inputTokens: int, outputTokens: int, generationMs: int)

  datatype Usage = Usage(inputTokens: int, outputTokens: int)

  /** `updateAgentStats`: one more invocation; token counts grow by the usage when there
    * is one; generation time grows only by a positive duration. */
  function UpdateStats(s: AgentStats, usage: Option<Usage>, generationMs: int): (r: AgentStats)
    ensures r.invocations == s.invocations + 1
    ensures usage.None? ==> r.inputTokens == s.inputTokens && r.outputTokens == s.outputTokens
    ensures usage.Some? ==> r.inputTokens == s.inputTokens + usage.value.inputTokens
    ensures usage.Some? ==> r.outputTokens == s.outputTokens + usage.value.outputTokens
    ensures r.generationMs == s.generationMs + MaxInt(0, generationMs) || (generationMs <= 0 && r.generationMs == s.generationMs)
    ensures generationMs <= 0 ==> r.generationMs == s.generationMs
  {
    AgentStats(s.invocations + 1,
               if usage.Some? then s.inputTokens + usage.value.inputTokens else s.inputTokens,
               if usage.Some? then s.outputTokens + usage.value.outputTokens else s.outputTokens,
               if generationMs > 0 then s.generationMs + generationMs else s.generationMs)
  }

  /** Counters only grow when the inputs are non-negative. */
  lemma StatsGrow(s: AgentStats, usage: Option<Usage>, generationMs: int)
    requires usage.Some? ==> usage.value.inputTokens >= 0 && usage.value.outputTokens >= 0
    ensures var r := UpdateStats(s, usage, generationMs);
      r.invocations > s.invocations && r.inputTokens >= s.inputTokens
      && r.outputTokens >= s.outputTokens && r.generationMs >= s.generationMs
  {
  }

  /** The title of the journal entry: the chat's trimmed name (or "Untitled Chat") and the agent. */
  function ChatLogTitle(chatName: string, agentName: string): (t: string)
    ensures Trim(chatName) != [] ==> t == Trim(chatName) + " (" + agentName + ")"
    ensures Trim(chatName) == [] ==> t == "Untitled Chat (" + agentName + ")"
  {
    var title := if Trim(chatName) != [] then Trim(chatName) else "Untitled Chat";
    title + " (" + agentName + ")"
  }

  // ---------------------------------------------------------------------
  // What the streaming renderer creates

  /** A handed-over line becomes an item only when SyncHub's `parseLine` gives it
    * segments; a horizontal rule has none. A code block is always created. */
  predicate Creates(r: Streaming.Render, syncHub: bool) {
    match r
    case RenderCode(_, _) => true
    case RenderLine(line) =>
      syncHub && var p := SyncHubMarkdown.ParseLine(line); p.Some? && !p.value.Rule?
  }

  /** `renderedCount`: how many of the handed-over lines and blocks became items. */
  function RenderedCount(out: seq<Streaming.Render>, syncHub: bool): (n: nat)
    ensures n <= |out|
  {
    if out == [] then 0 else RenderedCount(out[..|out| - 1], syncHub) + (if Creates(out[|out| - 1], syncHub) then 1 else 0)
  }

  /** With SyncHub there, every non-rule line the renderer hands over becomes an item. */
  lemma LineCreatedUnlessRule(line: string)
    requires !IsBlank(line) && !SyncHubMarkdown.IsRule(Trim(line))
    ensures Creates(Streaming.RenderLine(line), true)
  {
  }

  /** `finalize` of AgentHub's renderer: hands over the leftover and returns the count. */
  method FinalizeAgent(r: Streaming.Renderer, syncHub: bool) returns (rendered: nat)
    modifies r
    ensures r.State() == Streaming.Finalized(old(r.State()))
    ensures rendered == RenderedCount(r.requests, syncHub)
  {
    r.Finalize();
    rendered := RenderedCount(r.requests, syncHub);
  }
}
