// Telegram Sync (plugins/telegram/plugin.js): how a polled message is routed (photo, GitHub
// link, calendar link, web link, text), how text is classified by its lines, the segments a
// journal line gets from inline markdown, the title and body of a markdown capture, and the
// sync loop that counts routed messages and advances the update offset.

module Telegram {
  import opened Common

  // ---------------------------------------------------------------------
  // Scanning

  /** The length of the run of characters satisfying `p` in `s` from `i`: a greedy regex class. */
  function Span(s: string, i: nat, p: char -> bool): (n: nat)
    requires i <= |s|
    ensures i + n <= |s|
    ensures forall k :: i <= k < i + n ==> p(s[k])
    ensures i + n == |s| || !p(s[i + n])
    decreases |s| - i
  {
    if i < |s| && p(s[i]) then 1 + Span(s, i + 1, p) else 0
  }

  /** A run that ends where `s` stops satisfying `p` has exactly that length. */
  lemma {:induction false} SpanOf(a: string, b: string, p: char -> bool)
    requires forall k :: 0 <= k < |a| ==> p(a[k])
    requires b == [] || !p(b[0])
    ensures Span(a + b, 0, p) == |a|
  {
    SpanFrom(a + b, 0, |a|, p);
  }

  lemma {:induction false} SpanFrom(s: string, i: nat, j: nat, p: char -> bool)
    requires i <= j <= |s|
    requires forall k :: i <= k < j ==> p(s[k])
    requires j == |s| || !p(s[j])
    ensures Span(s, i, p) == j - i
    decreases j - i
  {
    if i < j {
      SpanFrom(s, i + 1, j, p);
    }
  }

  predicate NoWs(s: string) {
    forall k :: 0 <= k < |s| ==> !IsWs(s[k])
  }

  // ---------------------------------------------------------------------
  // URL predicates

  /** `/^https?:\/\/\S+$/i`: the whole text is an http or https address without white space. */
  predicate IsUrl(t: string) {
    (StartsWith(Lower(t), "http://") && |t| > 7 && NoWs(t[7..])) ||
    (StartsWith(Lower(t), "https://") && |t| > 8 && NoWs(t[8..]))
  }

  /** The groups of a GitHub issue or pull request link. */
  datatype GhMatch = GhMatch(owner: string, repo: string, kind: string, number: string)

  predicate NotSlash(c: char) { c != '/' }

  /** `[^\/]+\/`: a non-empty name and the slash after it; the rest of the text follows. */
  function NamePart(t: string): (r: Option<(string, string)>)
    ensures r.Some? ==> r.value.0 != "" && '/' !in r.value.0 && t == r.value.0 + "/" + r.value.1
  {
    var n := Span(t, 0, NotSlash);
    if n == 0 || n == |t| then None
    else
      assert t == t[..n] + "/" + t[n + 1..];
      Some((t[..n], t[n + 1..]))
  }

  /** `(issues|pull)\/`. */
  function KindPart(t: string): (r: Option<(string, string)>)
    ensures r.Some? ==> (r.value.0 == "issues" || r.value.0 == "pull") && t == r.value.0 + "/" + r.value.1
  {
    if StartsWith(t, "issues/") then
      assert t == t[..7] + t[7..];
      Some(("issues", t[7..]))
    else if StartsWith(t, "pull/") then
      assert t == t[..5] + t[5..];
      Some(("pull", t[5..]))
    else None
  }

  /**
   * `/github\.com\/([^\/]+)\/([^\/]+)\/(issues|pull)\/(\d+)/` matched at the start of `s`.
   * Each class excludes the character that ends it, so the greedy runs leave nothing to
   * backtrack into.
   */
  function GitHubAt(s: string): (r: Option<GhMatch>)
    ensures r.Some? ==> r.value.owner != "" && '/' !in r.value.owner && r.value.repo != "" && '/' !in r.value.repo
    ensures r.Some? ==> (r.value.kind == "issues" || r.value.kind == "pull") && r.value.number != "" && AllDigits(r.value.number)
  {
    if !StartsWith(s, "github.com/") then None
    else match NamePart(s[11..])
      case None => None
      case Some(p1) => match NamePart(p1.1)
        case None => None
        case Some(p2) => match KindPart(p2.1)
          case None => None
          case Some(p3) =>
            var n := Span(p3.1, 0, IsDigit);
            if n == 0 then None else Some(GhMatch(p1.0, p2.0, p3.0, p3.1[..n]))
  }

  /** The leftmost match anywhere in `s`. */
  function FindGitHub(s: string): (r: Option<GhMatch>)
    decreases |s|
  {
    if s == [] then None
    else match GitHubAt(s)
      case Some(m) => Some(m)
      case None => FindGitHub(s[1..])
  }

  predicate IsGitHubIssueUrl(url: string) {
    FindGitHub(url).Some?
  }

  lemma NamePartOf(a: string, b: string)
    requires a != "" && '/' !in a
    ensures NamePart(a + "/" + b) == Some((a, b))
  {
    var t := a + "/" + b;
    assert forall k :: 0 <= k < |a| ==> NotSlash(t[k]) by {
      forall k | 0 <= k < |a| ensures NotSlash(t[k]) { assert t[k] == a[k]; }
    }
    SpanFrom(t, 0, |a|, NotSlash);
    assert t[..|a|] == a && t[|a| + 1..] == b;
  }

  lemma KindPartOf(kind: string, b: string)
    requires kind == "issues" || kind == "pull"
    ensures KindPart(kind + "/" + b) == Some((kind, b))
  {
    var t := kind + "/" + b;
    if kind == "pull" {
      assert !StartsWith(t, "issues/") by { assert t[0] == 'p'; }
      assert t[..5] == "pull/";
    } else {
      assert t[..7] == "issues/";
    }
  }

  /** The link the regex was written for parses into exactly its parts. */
  lemma GitHubAtParses(owner: string, repo: string, kind: string, number: string)
    requires owner != "" && '/' !in owner && repo != "" && '/' !in repo
    requires kind == "issues" || kind == "pull"
    requires number != "" && AllDigits(number)
    ensures GitHubAt("github.com/" + (owner + "/" + (repo + "/" + (kind + "/" + number)))) == Some(GhMatch(owner, repo, kind, number))
  {
    var r3 := kind + "/" + number;
    var r2 := repo + "/" + r3;
    var r1 := owner + "/" + r2;
    var s := "github.com/" + r1;
    assert StartsWith(s, "github.com/") && s[11..] == r1;
    NamePartOf(owner, r2);
    NamePartOf(repo, r3);
    KindPartOf(kind, number);
    assert Span(number, 0, IsDigit) == |number| && number[..|number|] == number by {
      SpanFrom(number, 0, |number|, IsDigit);
    }
    GitHubAtFrom(s, (owner, r2), (repo, r3), (kind, number), |number|);
  }

  /** `GitHubAt` unfolded once its stages are known. */
  lemma GitHubAtFrom(s: string, p1: (string, string), p2: (string, string), p3: (string, string), n: nat)
    requires StartsWith(s, "github.com/")
    requires NamePart(s[11..]) == Some(p1) && NamePart(p1.1) == Some(p2) && KindPart(p2.1) == Some(p3)
    requires 0 < n && Span(p3.1, 0, IsDigit) == n
    ensures GitHubAt(s) == Some(GhMatch(p1.0, p2.0, p3.0, p3.1[..n]))
  {
  }

  /** Text before the host that holds no 'g' cannot start a match, so the search passes it. */
  lemma {:induction false} FindGitHubSkips(p: string, s: string)
    requires 'g' !in p
    ensures FindGitHub(p + s) == FindGitHub(s)
  {
    if p != [] {
      var t := p + s;
      assert t[0] == p[0];
      assert !StartsWith(t, "github.com/");
      assert t[1..] == p[1..] + s;
      FindGitHubSkips(p[1..], s);
    } else {
      assert p + s == s;
    }
  }

  /** A GitHub link as a user pastes it is recognised, with its owner, repository, kind and number. */
  lemma GitHubLinkRecognised(scheme: string, owner: string, repo: string, kind: string, number: string)
    requires scheme == "https://" || scheme == "http://"
    requires owner != "" && '/' !in owner && repo != "" && '/' !in repo
    requires kind == "issues" || kind == "pull"
    requires number != "" && AllDigits(number)
    ensures FindGitHub(scheme + ("github.com/" + (owner + "/" + (repo + "/" + (kind + "/" + number))))) ==
      Some(GhMatch(owner, repo, kind, number))
  {
    var s := "github.com/" + (owner + "/" + (repo + "/" + (kind + "/" + number)));
    FindGitHubSkips(scheme, s);
    assert FindGitHub(s) == Some(GhMatch(owner, repo, kind, number)) by {
      GitHubAtParses(owner, repo, kind, number);
      assert s != [];
    }
  }

  /** `/\.ics(\?|$)/i.test(url) || /webcal:\/\//i.test(url)`. */
  predicate IsICalUrl(url: string) {
    Contains(Lower(url), ".ics?") || EndsWith(Lower(url), ".ics") || Contains(Lower(url), "webcal://")
  }

  // ---------------------------------------------------------------------
  // Routing

  datatype Message = Message(text: Option<string>, caption: Option<string>, photo: bool)

  /** `message.text || message.caption || ''`. */
  function MessageText(m: Message): string {
    OrText(m.text, OrEmpty(m.caption))
  }

  datatype Route =
    | PhotoRoute
    | GitHubRoute(url: string, link: GhMatch)
    | ICalRoute(url: string)
    | WebRoute(url: string)
    | TextRoute(text: string)

  /**
   * `routeMessage`: a photo first; then a text that is a URL as a whole (after trimming) goes
   * to the GitHub, calendar or web handler in that order; anything else is text.
   */
  function RouteOf(m: Message): (r: Route)
    ensures r.PhotoRoute? <==> m.photo
    ensures r.GitHubRoute? <==> (!m.photo && IsUrl(Trim(MessageText(m))) && IsGitHubIssueUrl(Trim(MessageText(m))))
    ensures r.ICalRoute? <==> (!m.photo && IsUrl(Trim(MessageText(m))) && !IsGitHubIssueUrl(Trim(MessageText(m))) &&
      IsICalUrl(Trim(MessageText(m))))
    ensures r.WebRoute? <==> (!m.photo && IsUrl(Trim(MessageText(m))) && !IsGitHubIssueUrl(Trim(MessageText(m))) &&
      !IsICalUrl(Trim(MessageText(m))))
    ensures (r.GitHubRoute? || r.ICalRoute? || r.WebRoute?) ==> r.url == Trim(MessageText(m))
    ensures r.GitHubRoute? ==> Some(r.link) == FindGitHub(r.url)
    ensures r.TextRoute? ==> r.text == MessageText(m)
  {
    var text := MessageText(m);
    if m.photo then PhotoRoute
    else if Trim(text) != "" && IsUrl(Trim(text)) then
      var url := Trim(text);
      match FindGitHub(url)
      case Some(link) => GitHubRoute(url, link)
      case None => if IsICalUrl(url) then ICalRoute(url) else WebRoute(url)
    else TextRoute(text)
  }

  // ---------------------------------------------------------------------
  // Inline markdown of a journal line

  datatype Link = Link(text: string, url: string, len: nat)

  predicate NotCloseBracket(c: char) { c != ']' }
  predicate NotCloseParen(c: char) { c != ')' }

  /** The text of a link as markdown writes it. */
  function LinkText(text: string, url: string): string {
    "[" + text + "](" + url + ")"
  }

  /**
   * `/\[([^\]]+)\]\(([^)]+)\)/` matched at the start of `s`: the link text, the URL and the
   * length of the match. As with the GitHub pattern, each greedy class excludes the character
   * that closes it.
   */
  function LinkAt(s: string): (r: Option<Link>)
    ensures r.Some? ==> (r.value.len <= |s| && s[..r.value.len] == LinkText(r.value.text, r.value.url))
    ensures r.Some? ==> r.value.text != "" && ']' !in r.value.text && r.value.url != "" && ')' !in r.value.url
  {
    if s == [] || s[0] != '[' then None
    else
      var t := Span(s, 1, NotCloseBracket);
      if t == 0 || 2 + t >= |s| || s[2 + t] != '(' then None
      else
        var u := Span(s, 3 + t, NotCloseParen);
        if u == 0 || 3 + t + u == |s| then None
        else
          LinkParts(s, t, u);
          Some(Link(s[1..1 + t], s[3 + t..3 + t + u], 4 + t + u))
  }

  /** The two runs of a matched link, with the brackets around them. */
  lemma LinkParts(s: string, t: nat, u: nat)
    requires 3 + t + u < |s| && s[0] == '[' && s[1 + t] == ']' && s[2 + t] == '(' && s[3 + t + u] == ')'
    requires forall k :: 1 <= k < 1 + t ==> NotCloseBracket(s[k])
    requires forall k :: 3 + t <= k < 3 + t + u ==> NotCloseParen(s[k])
    ensures s[..4 + t + u] == LinkText(s[1..1 + t], s[3 + t..3 + t + u])
    ensures ']' !in s[1..1 + t] && ')' !in s[3 + t..3 + t + u]
  {
    assert s[..4 + t + u] == [s[0]] + s[1..1 + t] + s[1 + t..3 + t] + s[3 + t..3 + t + u] + [s[3 + t + u]];
  }

  /** A markdown link at the start of a text is matched with exactly its parts. */
  lemma LinkAtOf(text: string, url: string, rest: string)
    requires text != "" && ']' !in text && url != "" && ')' !in url
    ensures LinkAt(LinkText(text, url) + rest) == Some(Link(text, url, |LinkText(text, url)|))
  {
    var s := LinkText(text, url) + rest;
    var t := |text|;
    var u := |url|;
    assert s == "[" + text + "](" + url + ")" + rest;
    assert s[1..1 + t] == text && s[3 + t..3 + t + u] == url;
    assert s[1 + t] == ']' && s[2 + t] == '(' && s[3 + t + u] == ')';
    forall k | 1 <= k < 1 + t ensures NotCloseBracket(s[k]) { assert s[k] == s[1..1 + t][k - 1]; }
    forall k | 3 + t <= k < 3 + t + u ensures NotCloseParen(s[k]) { assert s[k] == s[3 + t..3 + t + u][k - 3 - t]; }
    SpanFrom(s, 1, 1 + t, NotCloseBracket);
    SpanFrom(s, 3 + t, 3 + t + u, NotCloseParen);
    LinkAtFrom(s, t, u);
  }

  /** `LinkAt` unfolded once its two runs are known. */
  lemma LinkAtFrom(s: string, t: nat, u: nat)
    requires 0 < t && 3 + t + u < |s| && 0 < u
    requires s[0] == '[' && s[2 + t] == '('
    requires Span(s, 1, NotCloseBracket) == t && Span(s, 3 + t, NotCloseParen) == u
    ensures LinkAt(s) == Some(Link(s[1..1 + t], s[3 + t..3 + t + u], 4 + t + u))
  {
  }

  /** The leftmost match at or after `i`, with its position. */
  function FindLink(s: string, i: nat): (r: Option<(nat, Link)>)
    requires i <= |s|
    ensures r.Some? ==> i <= r.value.0 < |s| && LinkAt(s[r.value.0..]) == Some(r.value.1)
    ensures forall j :: i <= j < (if r.Some? then r.value.0 else |s|) ==> LinkAt(s[j..]).None?
    decreases |s| - i
  {
    if i == |s| then None
    else match LinkAt(s[i..])
      case Some(l) => Some((i, l))
      case None => FindLink(s, i + 1)
  }

  lemma {:induction false} FindLinkAt(s: string, i: nat, p: nat)
    requires i <= p < |s| && LinkAt(s[p..]).Some?
    requires forall j :: i <= j < p ==> LinkAt(s[j..]).None?
    ensures FindLink(s, i) == Some((p, LinkAt(s[p..]).value))
    decreases p - i
  {
    if i < p {
      FindLinkAt(s, i + 1, p);
    }
  }

  /** A text segment kept only when non-empty (`if (before) segments.push(...)`). */
  function TextIf(t: string): (r: seq<Segment>)
    ensures t == "" ==> r == []
    ensures t != "" ==> r == [TextSeg(t)]
  {
    if t != "" then [TextSeg(t)] else []
  }

  /** The segments after the time stamp when a link was found. */
  function AroundLink(before: string, l: Link, after: string): seq<Segment> {
    [TextSeg(" ")] + TextIf(before) + [LinkSeg(l.text, l.url)] + TextIf(after)
  }

  /**
   * `parseInlineMarkdown`: a bold time stamp, a space, then the text; the first markdown link
   * becomes a link segment, with the text before and after it kept only when non-empty.
   */
  function ParseInline(time: string, text: string): (r: seq<Segment>)
    ensures |r| >= 2 && r[0] == BoldSeg(time)
    ensures FindLink(text, 0).None? ==> r == [BoldSeg(time), TextSeg(" " + text)]
  {
    match FindLink(text, 0)
    case None => [BoldSeg(time), TextSeg(" " + text)]
    case Some(found) =>
      var i := found.0;
      var l := found.1;
      [BoldSeg(time)] + AroundLink(text[..i], l, text[i + l.len..])
  }

  /** Segments written back as markdown text. */
  function Render(segs: seq<Segment>): string {
    if segs == [] then "" else SegText(segs[0]) + Render(segs[1..])
  }

  function SegText(s: Segment): string {
    match s
    case TextSeg(t) => t
    case LinkSeg(t, u) => LinkText(t, u)
    case _ => ""
  }

  lemma {:induction false} RenderAppend(a: seq<Segment>, b: seq<Segment>)
    ensures Render(a + b) == Render(a) + Render(b)
  {
    if a != [] {
      assert (a + b)[0] == a[0];
      assert (a + b)[1..] == a[1..] + b;
      RenderAppend(a[1..], b);
    } else {
      assert a + b == b;
    }
  }

  lemma RenderOne(s: Segment)
    ensures Render([s]) == SegText(s)
  {
    assert [s][1..] == [];
  }

  lemma RenderTextIf(t: string)
    ensures Render(TextIf(t)) == t
  {
    if t != "" {
      RenderOne(TextSeg(t));
    }
  }

  lemma RenderAroundLink(before: string, l: Link, after: string)
    ensures Render(AroundLink(before, l, after)) == " " + before + LinkText(l.text, l.url) + after
  {
    var a := [TextSeg(" ")];
    var b := TextIf(before);
    var c := [LinkSeg(l.text, l.url)];
    var d := TextIf(after);
    RenderAppend(a + b + c, d);
    RenderAppend(a + b, c);
    RenderAppend(a, b);
    RenderOne(TextSeg(" "));
    RenderOne(LinkSeg(l.text, l.url));
    RenderTextIf(before);
    RenderTextIf(after);
  }

  /** After the time stamp, the segments spell out the text again: nothing is lost or moved. */
  lemma ParseInlineRoundTrip(time: string, text: string)
    ensures Render(ParseInline(time, text)[1..]) == " " + text
  {
    var found := FindLink(text, 0);
    if found.None? {
      assert ParseInline(time, text)[1..] == [TextSeg(" " + text)];
      RenderOne(TextSeg(" " + text));
    } else {
      RoundTripFound(time, text, found.value.0, found.value.1);
    }
  }

  lemma RoundTripFound(time: string, text: string, i: nat, l: Link)
    requires FindLink(text, 0) == Some((i, l))
    ensures Render(ParseInline(time, text)[1..]) == " " + text
  {
    var before, after := text[..i], text[i + l.len..];
    var lt := LinkText(l.text, l.url);
    ParseInlineFound(time, text, i, l);
    var segs := ParseInline(time, text)[1..];
    assert segs == AroundLink(before, l, after);
    assert Render(segs) == " " + before + lt + after by {
      RenderAroundLink(before, l, after);
    }
    assert " " + before + lt + after == " " + text by {
      LinkInText(text, i, l);
      Assoc4(" ", before, lt, after);
    }
  }

  lemma Assoc4(a: string, b: string, c: string, d: string)
    ensures a + b + c + d == a + (b + c + d)
  {
  }

  /** The segments of a text in which the search found a link. */
  lemma ParseInlineFound(time: string, text: string, i: nat, l: Link)
    requires FindLink(text, 0) == Some((i, l))
    ensures i + l.len <= |text|
    ensures ParseInline(time, text) == [BoldSeg(time)] + AroundLink(text[..i], l, text[i + l.len..])
  {
    LinkInText(text, i, l);
  }

  /** A text is what comes before a link found in it, the link, and what comes after. */
  lemma LinkInText(text: string, i: nat, l: Link)
    requires i <= |text| && LinkAt(text[i..]) == Some(l)
    ensures i + l.len <= |text| && text == text[..i] + LinkText(l.text, l.url) + text[i + l.len..]
  {
    var rest := text[i..];
    assert rest[..l.len] == LinkText(l.text, l.url);
    assert text == text[..i] + rest[..l.len] + rest[l.len..];
  }

  /** The number of link segments. */
  function LinkCount(segs: seq<Segment>): nat {
    if segs == [] then 0 else (if segs[0].LinkSeg? then 1 else 0) + LinkCount(segs[1..])
  }

  lemma {:induction false} LinkCountAppend(a: seq<Segment>, b: seq<Segment>)
    ensures LinkCount(a + b) == LinkCount(a) + LinkCount(b)
  {
    if a != [] {
      assert (a + b)[0] == a[0];
      assert (a + b)[1..] == a[1..] + b;
      LinkCountAppend(a[1..], b);
    } else {
      assert a + b == b;
    }
  }

  lemma LinkCountOne(s: Segment)
    ensures LinkCount([s]) == if s.LinkSeg? then 1 else 0
  {
    assert [s][1..] == [];
  }

  /** Only the first link of a line becomes a link segment; a line without one gets none. */
  lemma AtMostOneLink(time: string, text: string)
    ensures LinkCount(ParseInline(time, text)) == (if FindLink(text, 0).Some? then 1 else 0)
  {
    match FindLink(text, 0)
    case None =>
      LinkCountAppend([BoldSeg(time)], [TextSeg(" " + text)]);
      assert [BoldSeg(time), TextSeg(" " + text)] == [BoldSeg(time)] + [TextSeg(" " + text)];
      LinkCountOne(BoldSeg(time));
      LinkCountOne(TextSeg(" " + text));
    case Some(found) =>
      var i := found.0;
      var l := found.1;
      var a := [TextSeg(" ")];
      var b := TextIf(text[..i]);
      var c := [LinkSeg(l.text, l.url)];
      var d := TextIf(text[i + l.len..]);
      LinkCountAppend([BoldSeg(time)], a + b + c + d);
      LinkCountAppend(a + b + c, d);
      LinkCountAppend(a + b, c);
      LinkCountAppend(a, b);
      LinkCountOne(BoldSeg(time));
      LinkCountOne(TextSeg(" "));
      LinkCountOne(LinkSeg(l.text, l.url));
      if text[..i] != "" { LinkCountOne(TextSeg(text[..i])); }
      if text[i + l.len..] != "" { LinkCountOne(TextSeg(text[i + l.len..])); }
  }

  // ---------------------------------------------------------------------
  // Text classification

  /** `lines.filter(l => l.trim() !== '')`. */
  function NonBlankLines(ls: seq<string>): (r: seq<string>)
    ensures |r| <= |ls|
    ensures forall i :: 0 <= i < |r| ==> Visible(r[i])
    ensures ls != [] && Visible(ls[0]) ==> r != [] && r[0] == ls[0]
  {
    if ls == [] then []
    else
      var rest := NonBlankLines(ls[1..]);
      if Visible(ls[0]) then [ls[0]] + rest else rest
  }

  /** `line.trim() !== ''`: by `Trim`'s contract, the line is not all white space. */
  predicate Visible(line: string) {
    !IsBlank(line)
  }

  datatype TextKind = Blank | OneLiner | ShortNote | MarkdownDoc | LongText

  function Lines(content: string): seq<string> {
    NonBlankLines(Split(content, '\n'))
  }

  /** The first raw line of a text that starts with a visible character holds that character. */
  lemma FirstLineVisible(content: string)
    requires content != [] && !IsWs(content[0])
    ensures Split(content, '\n')[0] != [] && Split(content, '\n')[0][0] == content[0]
    ensures Visible(Split(content, '\n')[0])
    ensures Lines(content) != [] && Lines(content)[0] == Split(content, '\n')[0]
  {
    var first := Split(content, '\n')[0];
    assert !IsBlank(first) by {
      assert !IsWs(first[0]);
    }
  }

  /**
   * `handleText`'s classification of the trimmed text by its non-blank lines: one line is a
   * one-liner (even a heading); two to five without a leading "# " a short note; a leading
   * "# " a capture; anything else long text.
   */
  function Classify(text: string): (k: TextKind)
    ensures k == Blank <==> Trim(text) == ""
    ensures k == OneLiner <==> (Trim(text) != "" && |Lines(Trim(text))| == 1)
    ensures k == ShortNote <==> (Trim(text) != "" && 2 <= |Lines(Trim(text))| <= 5 && !StartsWith(Trim(text), "# "))
    ensures k == MarkdownDoc <==> (Trim(text) != "" && |Lines(Trim(text))| >= 2 && StartsWith(Trim(text), "# "))
    ensures k == LongText ==> |Lines(Trim(text))| > 5 && !StartsWith(Trim(text), "# ")
  {
    var content := Trim(text);
    if content == "" then Blank
    else
      var lines := Lines(content);
      FirstLineVisible(content);
      if |lines| == 1 then OneLiner
      else if 2 <= |lines| <= 5 && !StartsWith(content, "# ") then ShortNote
      else if StartsWith(content, "# ") then MarkdownDoc
      else LongText
  }

  // ---------------------------------------------------------------------
  // Markdown captures

  /**
   * `/^#\s+(.+)$/m` at the start of a trimmed text opening with "# ", then `.trim()`: the
   * white space after '#' (newlines included) is skipped and the rest of that line is the
   * title. `replace(/^#\s+.+\n?/, '').trim()` drops the same match and trims the rest into the
   * body. `createCapture` is reached only with such a text.
   */
  function HeadingLine(content: string): (r: (nat, nat))
    requires StartsWith(content, "# ") && !IsWs(content[|content| - 1])
    ensures 1 < r.0 < r.1 <= |content|
    ensures !IsWs(content[r.0])
    ensures forall k :: r.0 <= k < r.1 ==> !IsLineTerminator(content[k])
  {
    var w := Span(content, 1, IsWs);
    var start := 1 + w;
    assert start < |content|;
    var run := Span(content, start, NotLineTerminator);
    assert run > 0;
    (start, start + run)
  }

  predicate NotLineTerminator(c: char) { !IsLineTerminator(c) }

  /** The title `createCapture` gives a markdown document. */
  function CaptureTitle(content: string): (title: string)
    requires StartsWith(content, "# ") && !IsWs(content[|content| - 1])
    ensures title != "" && forall k :: 0 <= k < |title| ==> !IsLineTerminator(title[k])
  {
    var (start, end) := HeadingLine(content);
    var line := content[start..end];
    assert line[0] == content[start] && !IsWs(line[0]);
    assert !IsBlank(line);
    Trim(line)
  }

  /** The body `createCapture` inserts into the new record. */
  function CaptureBody(content: string): string
    requires StartsWith(content, "# ") && !IsWs(content[|content| - 1])
  {
    Trim(content[HeadingLine(content).1..])
  }

  lemma TrimClean(t: string)
    requires t != [] && !IsWs(t[0]) && !IsWs(t[|t| - 1])
    ensures Trim(t) == t
  {
    assert TrimStart(t) == t;
    assert TrimEnd(t) == t;
  }

  /** A heading line followed by a body: the heading is the title and the trimmed rest the body. */
  lemma HeadingAndBody(title: string, body: string)
    requires title != [] && !IsWs(title[0]) && !IsWs(title[|title| - 1])
    requires forall k :: 0 <= k < |title| ==> !IsLineTerminator(title[k])
    requires body != [] && !IsWs(body[|body| - 1])
    ensures var content := "# " + title + "\n" + body;
      StartsWith(content, "# ") && !IsWs(content[|content| - 1]) &&
      CaptureTitle(content) == title && CaptureBody(content) == Trim(body)
  {
    var content := "# " + title + "\n" + body;
    HeadingLineOf(title, body);
    assert content[2..2 + |title|] == title && content[2 + |title|..] == "\n" + body;
    TrimClean(title);
    TrimLeadingNewline(body);
  }

  lemma HeadingLineOf(title: string, body: string)
    requires title != [] && !IsWs(title[0])
    requires forall k :: 0 <= k < |title| ==> !IsLineTerminator(title[k])
    requires body != [] && !IsWs(body[|body| - 1])
    ensures var content := "# " + title + "\n" + body;
      StartsWith(content, "# ") && !IsWs(content[|content| - 1]) &&
      HeadingLine(content) == (2, 2 + |title|)
  {
    var content := "# " + title + "\n" + body;
    var t := |title|;
    assert content[..2] == "# " && content[|content| - 1] == body[|body| - 1];
    assert content[2..2 + t] == title;
    assert Span(content, 1, IsWs) == 1 by {
      assert content[1] == ' ' && content[2] == title[0];
      SpanFrom(content, 1, 2, IsWs);
    }
    assert Span(content, 2, NotLineTerminator) == t by {
      forall k | 2 <= k < 2 + t ensures NotLineTerminator(content[k]) { assert content[k] == content[2..2 + t][k - 2]; }
      assert content[2 + t] == '\n';
      SpanFrom(content, 2, 2 + t, NotLineTerminator);
    }
  }

  lemma TrimLeadingNewline(b: string)
    ensures Trim("\n" + b) == Trim(b)
  {
    assert TrimStart("\n" + b) == TrimStart(b) by {
      assert ("\n" + b)[1..] == b;
    }
  }

  // ---------------------------------------------------------------------
  // Handlers

  /** A change as the handlers report it; `guid` is None where the source reports `journal?.guid` of no journal. */
  datatype Change = Change(verb: string, title: string, guid: Option<string>, major: bool)

  /** What a handler adds to today's journal. */
  datatype JournalWrite =
    | NoWrite
    | LineWrite(segments: seq<Segment>)
    | NoteWrite(parent: seq<Segment>, children: seq<string>)
    | MarkdownWrite(markdown: string)

  datatype Handled = Handled(change: Option<Change>, write: JournalWrite)

  /**
   * What the handlers find around them: today's journal guid, whether a Captures (or Inbox)
   * collection exists, the guid `createRecord` yields, whether the Sync Hub markdown insert
   * exists, and the formatted time.
   */
  datatype Ctx = Ctx(journal: Option<string>, captures: bool, newGuid: Option<string>, canInsertMarkdown: bool, time: string)

  /** `appendOneLiner`. */
  function OneLine(ctx: Ctx, text: string): JournalWrite {
    LineWrite(ParseInline(ctx.time, text))
  }

  /** `addRefToJournal`. */
  function RefLine(ctx: Ctx, action: string, guid: string): JournalWrite {
    LineWrite([BoldSeg(ctx.time), TextSeg(" " + action + " "), RefSeg(guid)])
  }

  /** `insertMarkdownToJournal`: the markdown itself, or its first line as a one-liner. */
  function InsertMarkdown(ctx: Ctx, content: string): JournalWrite {
    if ctx.canInsertMarkdown then MarkdownWrite(content) else OneLine(ctx, Split(content, '\n')[0])
  }

  function GitHubTitle(m: GhMatch): string {
    m.owner + "/" + m.repo + "#" + m.number
  }

  function GitHubPrefix(m: GhMatch): string {
    if m.kind == "pull" then "PR: " else "Issue: "
  }

  /** The journal text of a GitHub link: "PR: " or "Issue: ", then a markdown link to it. */
  function GitHubLine(m: GhMatch, url: string): string {
    GitHubPrefix(m) + LinkText(GitHubTitle(m), url)
  }

  /** The journal line of a GitHub link carries one link, titled "owner/repo#N", to the URL. */
  lemma GitHubLineLinks(m: GhMatch, url: string, time: string)
    requires ']' !in GitHubTitle(m) && url != "" && ')' !in url
    ensures ParseInline(time, GitHubLine(m, url)) ==
      [BoldSeg(time), TextSeg(" "), TextSeg(GitHubPrefix(m)), LinkSeg(GitHubTitle(m), url)]
  {
    var title := GitHubTitle(m);
    assert title != "" by { assert title[|m.owner|] == '/'; }
    PrefixAndLink(GitHubPrefix(m), title, url, time);
  }

  /** A line made of a prefix without '[' and one link gets the prefix, then the link. */
  lemma PrefixAndLink(prefix: string, text: string, url: string, time: string)
    requires prefix != "" && '[' !in prefix && text != "" && ']' !in text && url != "" && ')' !in url
    ensures ParseInline(time, prefix + LinkText(text, url)) ==
      [BoldSeg(time), TextSeg(" "), TextSeg(prefix), LinkSeg(text, url)]
  {
    var line := prefix + LinkText(text, url);
    var l := Link(text, url, |LinkText(text, url)|);
    LinkAfterPrefix(prefix, text, url);
    ParseInlineFound(time, line, |prefix|, l);
    assert line[..|prefix|] == prefix && line[|prefix| + l.len..] == "";
    LinkAlone(time, prefix, l);
  }

  /** In a text made of a prefix without '[' and a link, the search finds that link. */
  lemma LinkAfterPrefix(prefix: string, text: string, url: string)
    requires '[' !in prefix && text != "" && ']' !in text && url != "" && ')' !in url
    ensures FindLink(prefix + LinkText(text, url), 0) == Some((|prefix| as nat, Link(text, url, |LinkText(text, url)|)))
  {
    LinkAtOf(text, url, "");
    FirstLinkAfter(prefix, LinkText(text, url), Link(text, url, |LinkText(text, url)|));
  }

  /** A match at the start of `rest`, after a prefix without '[', is the leftmost one. */
  lemma FirstLinkAfter(prefix: string, rest: string, l: Link)
    requires '[' !in prefix && rest != [] && LinkAt(rest + "") == Some(l)
    ensures FindLink(prefix + rest, 0) == Some((|prefix| as nat, l))
  {
    var line := prefix + rest;
    assert line[|prefix|..] == rest + "";
    NoLinkInPrefix(prefix, rest);
    FindLinkAt(line, 0, |prefix|);
  }

  /** No match starts inside a prefix without '['. */
  lemma NoLinkInPrefix(prefix: string, rest: string)
    requires '[' !in prefix
    ensures forall j :: 0 <= j < |prefix| ==> LinkAt((prefix + rest)[j..]).None?
  {
    forall j | 0 <= j < |prefix|
      ensures LinkAt((prefix + rest)[j..]).None?
    {
      assert (prefix + rest)[j..][0] == prefix[j];
    }
  }

  /** The segments of a line that is a prefix followed by one link. */
  lemma LinkAlone(time: string, prefix: string, l: Link)
    requires prefix != ""
    ensures [BoldSeg(time)] + AroundLink(prefix, l, "") == [BoldSeg(time), TextSeg(" "), TextSeg(prefix), LinkSeg(l.text, l.url)]
  {
  }

  /** The handler of a whole-text URL or a photo; `caption` is the photo's caption. */
  function HandleLinkOrPhoto(route: Route, caption: Option<string>, ctx: Ctx): (h: Handled)
    requires !route.TextRoute?
    ensures route.GitHubRoute? || route.ICalRoute? ==> (h.change.Some? <==> ctx.journal.Some?)
    ensures route.PhotoRoute? ==> h.change == Some(Change("captured", OrText(caption, "Photo"), ctx.journal, false))
    ensures route.WebRoute? && !ctx.captures ==> h.change == Some(Change("captured", route.url, ctx.journal, false))
    ensures route.WebRoute? && ctx.captures ==> ((h.change.Some? <==> ctx.newGuid.Some?) &&
      (h.change.Some? ==> h.change.value == Change("captured", route.url, ctx.newGuid, true)))
    ensures h.change.Some? && h.change.value.major ==> route.WebRoute? && ctx.captures
    ensures route.GitHubRoute? && h.change.Some? ==> h.change.value.title == GitHubTitle(route.link)
    ensures h.change.Some? ==> h.change.value.verb == "captured"
  {
    match route
    case PhotoRoute =>
      var c := OrText(caption, "Photo");
      Handled(Some(Change("captured", c, ctx.journal, false)),
        if ctx.journal.Some? then OneLine(ctx, "[Photo] " + c) else NoWrite)
    case GitHubRoute(url, m) =>
      if ctx.journal.None? then Handled(None, NoWrite)
      else Handled(Some(Change("captured", GitHubTitle(m), ctx.journal, false)), OneLine(ctx, GitHubLine(m, url)))
    case ICalRoute(url) =>
      if ctx.journal.None? then Handled(None, NoWrite)
      else Handled(Some(Change("captured", "Calendar link", ctx.journal, false)), OneLine(ctx, "Calendar: " + url))
    case WebRoute(url) =>
      if !ctx.captures then
        Handled(Some(Change("captured", url, ctx.journal, false)),
          if ctx.journal.Some? then OneLine(ctx, "Link: " + url) else NoWrite)
      else if ctx.newGuid.None? then Handled(None, NoWrite)
      else Handled(Some(Change("captured", url, ctx.newGuid, true)),
        if ctx.journal.Some? then RefLine(ctx, "captured", ctx.newGuid.value) else NoWrite)
  }

  /** `handleText`. `ctx.newGuid` is what `createCapture` yields for a markdown document. */
  function HandleText(text: string, ctx: Ctx): (h: Handled)
    ensures Classify(text) == Blank || ctx.journal.None? ==> h == Handled(None, NoWrite)
    ensures h.change.Some? ==> h.change.value.guid.Some?
    ensures h.change.Some? && h.change.value.major <==> (Classify(text) == MarkdownDoc && ctx.journal.Some? && ctx.captures && ctx.newGuid.Some?)
    ensures h.change.Some? && !h.change.value.major ==> h.change.value.verb == "noted" && |h.change.value.title| <= 50
    ensures h.change.Some? && h.change.value.major ==> h.change.value.verb == "added"
    ensures Classify(text) == OneLiner && ctx.journal.Some? ==> h.write == OneLine(ctx, Trim(text))
  {
    var kind := Classify(text);
    if kind == Blank || ctx.journal.None? then Handled(None, NoWrite)
    else HandleContent(text, ctx)
  }

  /** `handleText` once the text is known to have visible content and a journal is open. */
  function HandleContent(text: string, ctx: Ctx): (h: Handled)
    requires Classify(text) != Blank && ctx.journal.Some?
    ensures h.change.Some? && h.change.value.guid.Some?
    ensures h.change.value.major <==> (Classify(text) == MarkdownDoc && ctx.captures && ctx.newGuid.Some?)
    ensures !h.change.value.major ==> h.change.value.verb == "noted" && |h.change.value.title| <= 50
    ensures h.change.value.major ==> h.change.value.verb == "added"
    ensures Classify(text) == OneLiner ==> h.write == OneLine(ctx, Trim(text))
  {
    var kind := Classify(text);
    var content := Trim(text);
    var lines := Lines(content);
    FirstLineVisible(content);
    var noted := Change("noted", Take(lines[0], 50), ctx.journal, false);
    match kind
    case OneLiner =>
      Handled(Some(Change("noted", Take(content, 50), ctx.journal, false)), OneLine(ctx, content))
    case ShortNote =>
      Handled(Some(noted), NoteWrite([BoldSeg(ctx.time), TextSeg(" " + lines[0])], lines[1..]))
    case MarkdownDoc =>
      if ctx.captures && ctx.newGuid.Some? then
        Handled(Some(Change("added", CaptureTitle(content), ctx.newGuid, true)), RefLine(ctx, "added", ctx.newGuid.value))
      else Handled(Some(noted), InsertMarkdown(ctx, content))
    case LongText =>
      Handled(Some(noted), InsertMarkdown(ctx, LongTextMarkdown(content, ctx.time)))
  }

  /** `routeMessage`: the route picks the handler. */
  function Handle(m: Message, ctx: Ctx): (h: Handled)
    ensures h.change.Some? ==> h.change.value.verb in {"captured", "noted", "added"}
    ensures m.photo ==> h.change.Some?
    ensures ctx.journal.None? && h.change.Some? ==> m.photo || RouteOf(m).WebRoute?
  {
    var route := RouteOf(m);
    if route.TextRoute? then
      HandleText(route.text, ctx)
    else HandleLinkOrPhoto(route, m.caption, ctx)
  }

  /** The long-text markdown: the first line after a bold time, then the remaining lines. */
  function LongTextMarkdown(content: string, time: string): string
    requires content != [] && !IsWs(content[0])
  {
    FirstLineVisible(content);
    "**" + time + "** " + Lines(content)[0] + "\n" + Join(Split(content, '\n')[1..], "\n")
  }

  /** Long text is written whole: only the bold time is put in front of it. */
  lemma LongTextWhole(text: string, time: string)
    requires Classify(text) == LongText
    ensures Trim(text) != [] && LongTextMarkdown(Trim(text), time) == "**" + time + "** " + Trim(text)
  {
    var content := Trim(text);
    FirstLineVisible(content);
    assert |Split(content, '\n')| > 1 by {
      assert |Lines(content)| > 5;
    }
    LongTextJoined(content, time);
  }

  lemma LongTextJoined(content: string, time: string)
    requires content != [] && !IsWs(content[0]) && |Split(content, '\n')| > 1
    ensures LongTextMarkdown(content, time) == "**" + time + "** " + content
  {
    FirstLineVisible(content);
    var parts := Split(content, '\n');
    SplitJoin(content, '\n');
    assert Join(parts, "\n") == parts[0] + "\n" + Join(parts[1..], "\n");
  }

  // ---------------------------------------------------------------------
  // The polling loop

  datatype Update = Update(updateId: int, message: Option<Message>)

  /** `config.last_offset || 0`. */
  function LastOffset(lastOffset: Option<int>): (r: int)
    ensures lastOffset.Some? && lastOffset.value != 0 ==> r == lastOffset.value
    ensures lastOffset.None? || lastOffset.value == 0 ==> r == 0
  {
    if lastOffset.Some? then lastOffset.value else 0
  }

  /** The offset written back after a non-empty batch: one past the last update's id. */
  function NextOffset(updates: seq<Update>): (r: int)
    requires updates != []
    ensures r == updates[|updates| - 1].updateId + 1
  {
    updates[|updates| - 1].updateId + 1
  }

  predicate Ascending(updates: seq<Update>) {
    forall i, j :: 0 <= i < j < |updates| ==> updates[i].updateId < updates[j].updateId
  }

  /** With ids ascending, as Telegram sends them, the next poll asks only for newer updates. */
  lemma NextOffsetPassesBatch(updates: seq<Update>)
    requires updates != [] && Ascending(updates)
    ensures forall i :: 0 <= i < |updates| ==> updates[i].updateId < NextOffset(updates)
  {
  }

  /**
   * The routing results of the loop: `outcomes[i]` is what routing update i yields (None for
   * null or a thrown error); updates without a message are passed over.
   */
  function Routed(updates: seq<Update>, outcomes: seq<Option<Change>>): (r: seq<Change>)
    requires |outcomes| == |updates|
    ensures |r| <= |updates|
  {
    if updates == [] then []
    else
      var n := |updates| - 1;
      var prev := Routed(updates[..n], outcomes[..n]);
      if updates[n].message.Some? && outcomes[n].Some? then prev + [outcomes[n].value] else prev
  }

  /** Only messages produce changes: a batch without messages routes nothing. */
  lemma {:induction false} NoMessagesNoChanges(updates: seq<Update>, outcomes: seq<Option<Change>>)
    requires |outcomes| == |updates|
    requires forall i :: 0 <= i < |updates| ==> updates[i].message.None?
    ensures Routed(updates, outcomes) == []
  {
    if updates != [] {
      var n := |updates| - 1;
      NoMessagesNoChanges(updates[..n], outcomes[..n]);
    }
  }

  /** The loop of `sync`: `created` counts the changes it collects. */
  method RouteUpdates(updates: seq<Update>, outcomes: seq<Option<Change>>) returns (created: nat, changes: seq<Change>)
    requires |outcomes| == |updates|
    ensures changes == Routed(updates, outcomes) && created == |changes|
  {
    created, changes := 0, [];
    var i := 0;
    while i < |updates|
      invariant 0 <= i <= |updates|
      invariant changes == Routed(updates[..i], outcomes[..i]) && created == |changes|
    {
      if updates[i].message.Some? {
        var result := outcomes[i];
        if result.Some? {
          created := created + 1;
          changes := changes + [result.value];
        }
      }
      assert updates[..i + 1][..i] == updates[..i];
      assert outcomes[..i + 1][..i] == outcomes[..i];
      i := i + 1;
    }
    assert updates[..i] == updates;
    assert outcomes[..i] == outcomes;
  }

  datatype Fetch = FetchError(message: string) | ApiError(description: string) | Updates(updates: seq<Update>)

  datatype Outcome = Outcome(summary: string, created: nat, changes: seq<Change>, newOffset: Option<int>)

  /**
   * `sync`: the early exits, then the loop; the offset is written back only after a non-empty
   * batch.
   */
  function Sync(syncHubCollection: bool, hubRecord: bool, botToken: string, fetch: Fetch, outcomes: seq<Option<Change>>): (o: Outcome)
    requires fetch.Updates? ==> |outcomes| == |fetch.updates|
    ensures o.newOffset.Some? <==> (syncHubCollection && hubRecord && botToken != "" && fetch.Updates? && fetch.updates != [])
    ensures o.newOffset.Some? ==> (o.newOffset.value == NextOffset(fetch.updates) &&
      o.changes == Routed(fetch.updates, outcomes) && o.created == |o.changes| &&
      o.summary == NatToString(o.created) + " message(s) routed")
    ensures o.newOffset.None? ==> o.created == 0 && o.changes == []
  {
    if !syncHubCollection then Outcome("Sync Hub not found", 0, [], None)
    else if !hubRecord then Outcome("Not configured", 0, [], None)
    else if botToken == "" then Outcome("Not configured - add bot token", 0, [], None)
    else match fetch
      case ApiError(d) => Outcome("API error: " + d, 0, [], None)
      case FetchError(m) => Outcome("Fetch error: " + m, 0, [], None)
      case Updates(updates) =>
        if updates == [] then Outcome("No new messages", 0, [], None)
        else
          var changes := Routed(updates, outcomes);
          Outcome(NatToString(|changes|) + " message(s) routed", |changes|, changes, Some(NextOffset(updates)))
  }
}
