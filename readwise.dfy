// Readwise Sync (plugins/readwise/plugin.js): which runs are incremental, how the items of the
// Reader API split into documents and highlights, how highlights are grouped under their
// document, how documents are merged into the Captures collection with the changes a run
// logs, and the markdown written into each record.

module Readwise {
  import opened Common

  // ---------------------------------------------------------------------
  // The incremental cut-off

  /**
   * The `updatedAfter` cut-off: the last run's time (as ISO text), unless the run is forced,
   * there was no last run, or the Captures collection is empty; None means a full sync.
   */
  function Since(lastRun: Option<string>, forceFullSync: bool, collectionEmpty: bool): (r: Option<string>)
    ensures r.Some? <==> lastRun.Some? && !forceFullSync && !collectionEmpty
    ensures r.Some? ==> r == lastRun
  {
    if lastRun.Some? && !forceFullSync && !collectionEmpty then lastRun else None
  }

  // ---------------------------------------------------------------------
  // Items of the Reader API

  /** An item of a results page: a document, or a highlight when `parentId` is given. */
  datatype Item = Item(
    id: string, parentId: Option<string>, category: Option<string>, title: Option<string>,
    author: Option<string>, sourceUrl: Option<string>, createdAt: Option<string>,
    summary: Option<string>, content: Option<string>, note: Option<string>)

  predicate IsHighlight(x: Item) {
    Given(x.parentId)
  }

  datatype Fetched = Fetched(documents: seq<Item>, highlights: seq<Item>)

  /**
   * The separation `fetchFromReadwise` makes over the results of the pages that arrived, in
   * order: every item lands in exactly one of the two lists, order kept.
   */
  function Separate(items: seq<Item>): (f: Fetched)
    ensures forall x :: x in f.documents ==> !IsHighlight(x)
    ensures forall x :: x in f.highlights ==> IsHighlight(x)
    ensures multiset(f.documents) + multiset(f.highlights) == multiset(items)
  {
    if items == [] then Fetched([], [])
    else
      var n := |items| - 1;
      assert items == items[..n] + [items[n]];
      Push(Separate(items[..n]), items[n])
  }

  /** One more item joins the list it belongs to. */
  function Push(f: Fetched, x: Item): Fetched {
    if IsHighlight(x) then Fetched(f.documents, f.highlights + [x]) else Fetched(f.documents + [x], f.highlights)
  }

  /** Both lists of `f` followed by those of `g`. */
  function Cat(f: Fetched, g: Fetched): Fetched {
    Fetched(f.documents + g.documents, f.highlights + g.highlights)
  }

  lemma SeparateSnoc(a: seq<Item>, x: Item)
    ensures Separate(a + [x]) == Push(Separate(a), x)
  {
    assert (a + [x])[..|a|] == a;
  }

  lemma PushCat(f: Fetched, g: Fetched, x: Item)
    ensures Push(Cat(f, g), x) == Cat(f, Push(g, x))
  {
    assert f.documents + g.documents + [x] == f.documents + (g.documents + [x]);
    assert f.highlights + g.highlights + [x] == f.highlights + (g.highlights + [x]);
  }

  /** Pages accumulate: separating two runs of results is separating each and appending. */
  lemma {:induction false} SeparateAppend(a: seq<Item>, b: seq<Item>)
    ensures Separate(a + b) ==
      Fetched(Separate(a).documents + Separate(b).documents, Separate(a).highlights + Separate(b).highlights)
  {
    if b == [] {
      assert a + b == a;
    } else {
      var n := |b| - 1;
      var b', x := b[..n], b[n];
      assert b == b' + [x];
      assert a + b == (a + b') + [x];
      SeparateAppend(a, b');
      SeparateSnoc(a + b', x);
      SeparateSnoc(b', x);
      PushCat(Separate(a), Separate(b'), x);
    }
  }

  // ---------------------------------------------------------------------
  // Highlights grouped by document

  /** The highlights of the document `id`, in order. */
  function HighlightsOf(hs: seq<Item>, id: string): (r: seq<Item>)
    ensures |r| <= |hs|
    ensures forall x :: x in r <==> x in hs && IsHighlight(x) && x.parentId.value == id
  {
    if hs == [] then []
    else
      var n := |hs| - 1;
      var prev := HighlightsOf(hs[..n], id);
      assert hs == hs[..n] + [hs[n]];
      if IsHighlight(hs[n]) && hs[n].parentId.value == id then prev + [hs[n]] else prev
  }

  /** `highlightsByDoc.get(id) || []`. */
  function Lookup(m: map<string, seq<Item>>, id: string): seq<Item> {
    if id in m then m[id] else []
  }

  /** The map the grouping loop builds, one highlight at a time. */
  function ByParent(hs: seq<Item>): (m: map<string, seq<Item>>)
  {
    if hs == [] then map[]
    else
      var n := |hs| - 1;
      var m := ByParent(hs[..n]);
      var h := hs[n];
      if IsHighlight(h) then m[h.parentId.value := Lookup(m, h.parentId.value) + [h]] else m
  }

  /** Each entry of the map is exactly the highlights of that document, and no other key appears. */
  lemma {:induction false} ByParentIsHighlightsOf(hs: seq<Item>, id: string)
    ensures Lookup(ByParent(hs), id) == HighlightsOf(hs, id)
    ensures id in ByParent(hs) <==> HighlightsOf(hs, id) != []
  {
    if hs != [] {
      var n := |hs| - 1;
      ByParentIsHighlightsOf(hs[..n], id);
    }
  }

  /** The grouping loop of `sync`, proved to build `ByParent`. */
  method GroupHighlights(hs: seq<Item>) returns (m: map<string, seq<Item>>)
    ensures m == ByParent(hs)
    ensures forall id :: Lookup(m, id) == HighlightsOf(hs, id)
  {
    m := map[];
    var i := 0;
    while i < |hs|
      invariant 0 <= i <= |hs|
      invariant m == ByParent(hs[..i])
    {
      var h := hs[i];
      if Given(h.parentId) {
        if h.parentId.value !in m {
          m := m[h.parentId.value := []];
        }
        m := m[h.parentId.value := m[h.parentId.value] + [h]];
      }
      assert hs[..i + 1][..i] == hs[..i];
      i := i + 1;
    }
    assert hs[..i] == hs;
    forall id
      ensures Lookup(m, id) == HighlightsOf(hs, id)
    {
      ByParentIsHighlightsOf(hs, id);
    }
  }

  // ---------------------------------------------------------------------
  // Markdown of a document's highlights

  /** `content.split('\n').map(line => '> ' + line)`. */
  function QuoteLines(content: string): (r: seq<string>)
    ensures |r| == |Split(content, '\n')|
    ensures forall i :: 0 <= i < |r| ==> r[i] == "> " + Split(content, '\n')[i]
  {
    var lines := Split(content, '\n');
    seq(|lines|, i requires 0 <= i < |lines| => "> " + lines[i])
  }

  /** Every line of the quote starts with "> "; dropping those marks gives back the content. */
  lemma QuoteRoundTrip(content: string)
    ensures forall i :: 0 <= i < |QuoteLines(content)| ==> StartsWith(QuoteLines(content)[i], "> ")
    ensures var q := QuoteLines(content);
      Join(seq(|q|, i requires 0 <= i < |q| => q[i][2..]), "\n") == content
  {
    var q := QuoteLines(content);
    var lines := Split(content, '\n');
    assert seq(|q|, i requires 0 <= i < |q| => q[i][2..]) == lines;
    SplitJoin(content, '\n');
  }

  /** The blockquote of a highlight's text; "" for a highlight without text. */
  function Quote(h: Item): (r: string)
    ensures Given(h.content) ==> StartsWith(r, "> ")
    ensures !Given(h.content) ==> r == ""
  {
    if Given(h.content) then
      var q := QuoteLines(h.content.value);
      JoinHead(q, "\n");
      Join(q, "\n")
    else ""
  }

  /** The parts one highlight contributes: its quote, the note when there is one, a blank line. */
  function HighlightParts(h: Item): (r: seq<string>)
    ensures |r| >= 2 && r[0] == Quote(h) && r[|r| - 1] == ""
    ensures Given(h.note) ==> |r| == 4 && r[2] == "**Note:** " + h.note.value
    ensures !Given(h.note) ==> |r| == 2
  {
    [Quote(h)] + (if Given(h.note) then ["", "**Note:** " + h.note.value] else []) + [""]
  }

  /** The parts of all highlights, in order. */
  function AllHighlightParts(hs: seq<Item>): seq<string> {
    if hs == [] then [] else AllHighlightParts(hs[..|hs| - 1]) + HighlightParts(hs[|hs| - 1])
  }

  /** The parts `buildHighlightsMarkdown` joins with newlines. */
  function MarkdownParts(doc: Item, hs: seq<Item>): seq<string> {
    (if Given(doc.summary) then ["## Summary\n", doc.summary.value, ""] else []) +
    (if hs != [] then ["## Highlights\n"] + AllHighlightParts(hs) else [])
  }

  /** No part a highlight contributes is a section heading. */
  lemma {:induction false} HighlightPartsNoHeading(hs: seq<Item>)
    ensures "## Summary\n" !in AllHighlightParts(hs)
  {
    if hs != [] {
      HighlightPartsNoHeading(hs[..|hs| - 1]);
      var h := hs[|hs| - 1];
      var p := HighlightParts(h);
      forall i | 0 <= i < |p|
        ensures p[i] != "## Summary\n"
      {
        if i == 0 && Given(h.content) {
          assert p[i][0] == '>';
        } else if i == 2 && Given(h.note) {
          assert p[i][0] == '*';
        }
      }
    }
  }

  /** The summary section appears exactly when the document has a summary. */
  lemma SummarySectionIffSummary(doc: Item, hs: seq<Item>)
    ensures "## Summary\n" in MarkdownParts(doc, hs) <==> Given(doc.summary)
  {
    HighlightPartsNoHeading(hs);
    if !Given(doc.summary) && hs != [] {
      assert MarkdownParts(doc, hs) == ["## Highlights\n"] + AllHighlightParts(hs);
    }
  }

  /** A note line appears for each highlight with a note: one per highlight that has one. */
  function NoteCount(hs: seq<Item>): nat {
    if hs == [] then 0 else NoteCount(hs[..|hs| - 1]) + (if Given(hs[|hs| - 1].note) then 1 else 0)
  }

  /** The highlights' parts have two lines per highlight and two more per note. */
  lemma {:induction false} HighlightPartsLength(hs: seq<Item>)
    ensures |AllHighlightParts(hs)| == 2 * |hs| + 2 * NoteCount(hs)
  {
    if hs != [] {
      HighlightPartsLength(hs[..|hs| - 1]);
    }
  }

  /** `buildHighlightsMarkdown`, pushing onto `parts` as the source does. */
  method BuildHighlightsMarkdown(doc: Item, hs: seq<Item>) returns (markdown: string)
    ensures markdown == Join(MarkdownParts(doc, hs), "\n")
  {
    var parts: seq<string> := [];
    if Given(doc.summary) {
      parts := parts + ["## Summary\n"];
      parts := parts + [doc.summary.value];
      parts := parts + [""];
    }
    if |hs| > 0 {
      parts := PushHighlights(parts + ["## Highlights\n"], hs);
    }
    assert parts == MarkdownParts(doc, hs);
    markdown := Join(parts, "\n");
  }

  /** The loop over the highlights. */
  method PushHighlights(parts0: seq<string>, hs: seq<Item>) returns (parts: seq<string>)
    ensures parts == parts0 + AllHighlightParts(hs)
  {
    parts := parts0;
    var i := 0;
    while i < |hs|
      invariant 0 <= i <= |hs|
      invariant parts == parts0 + AllHighlightParts(hs[..i])
    {
      ghost var before := parts;
      parts := PushHighlight(parts, hs[i]);
      assert AllHighlightParts(hs[..i + 1]) == AllHighlightParts(hs[..i]) + HighlightParts(hs[i]) by {
        assert hs[..i + 1][..i] == hs[..i];
      }
      assert parts == parts0 + (AllHighlightParts(hs[..i]) + HighlightParts(hs[i]));
      i := i + 1;
    }
    assert hs[..i] == hs;
  }

  /** The pushes of the loop body for one highlight. */
  method PushHighlight(parts0: seq<string>, h: Item) returns (parts: seq<string>)
    ensures parts == parts0 + HighlightParts(h)
  {
    var quoted := if Given(h.content) then Join(QuoteLines(h.content.value), "\n") else "";
    parts := parts0 + [quoted];
    if Given(h.note) {
      parts := parts + [""];
      parts := parts + ["**Note:** " + h.note.value];
    }
    parts := parts + [""];
  }

  /** `capitalizeCategory`: "" for a missing or empty category, else the first character upper-cased. */
  function CapitalizeCategory(category: Option<string>): (r: string)
    ensures !Given(category) ==> r == ""
    ensures Given(category) ==> (|r| == |category.value| && r[0] == UpperChar(category.value[0]) &&
      r[1..] == category.value[1..])
  {
    if !Given(category) then "" else Capitalize(category.value)
  }

  // ---------------------------------------------------------------------
  // Captures records

  /** A Captures record; `body` stands for the record's contents. */
  datatype Capture = Capture(
    guid: string, title: string, externalId: string, source: string, sourceTitle: string,
    sourceAuthor: string, sourceUrl: string, highlightCount: nat, capturedAt: Option<string>, body: string)

  datatype DocData = DocData(
    externalId: string, title: string, author: string, url: string, highlightCount: nat, capturedAt: Option<string>)

  function ExternalId(doc: Item): (r: string)
    ensures |r| == 9 + |doc.id| && r[9..] == doc.id
  {
    "readwise_" + doc.id
  }

  lemma ExternalIdInjective(a: Item, b: Item)
    requires ExternalId(a) == ExternalId(b)
    ensures a.id == b.id
  {
    assert a.id == ExternalId(a)[9..];
  }

  function DocDataOf(doc: Item, hs: seq<Item>): (d: DocData)
    ensures d.externalId == ExternalId(doc) && d.highlightCount == |hs|
    ensures d.title == OrText(doc.title, "Untitled") && d.title != ""
  {
    DocData(ExternalId(doc), OrText(doc.title, "Untitled"), OrEmpty(doc.author), OrEmpty(doc.sourceUrl),
      |hs|, doc.createdAt)
  }

  /** `setRecordFields`: the captured time only when the document has one; the title is never rewritten. */
  function SetFields(c: Capture, d: DocData): (c': Capture)
    ensures c'.guid == c.guid && c'.title == c.title && c'.body == c.body
    ensures c'.externalId == d.externalId && c'.highlightCount == d.highlightCount && c'.sourceTitle == d.title
    ensures c'.capturedAt == (if Given(d.capturedAt) then d.capturedAt else c.capturedAt)
  {
    c.(externalId := d.externalId, source := "Readwise", sourceTitle := d.title, sourceAuthor := d.author,
       sourceUrl := d.url, highlightCount := d.highlightCount,
       capturedAt := if Given(d.capturedAt) then d.capturedAt else c.capturedAt)
  }

  // ---------------------------------------------------------------------
  // The document loop of `sync`

  /** A logged change, with up to five highlight texts as children. */
  datatype Change = Change(verb: string, title: string, guid: string, major: bool, children: seq<string>)

  /** `h.content?.trim()` for every highlight, the empty ones dropped, the first five kept. */
  function NonEmptyTexts(hs: seq<Item>): (r: seq<string>)
    ensures |r| <= |hs|
    ensures forall i :: 0 <= i < |r| ==> r[i] != ""
  {
    if hs == [] then []
    else
      var rest := NonEmptyTexts(hs[1..]);
      var t := if hs[0].content.Some? then Trim(hs[0].content.value) else "";
      if t != "" then [t] + rest else rest
  }

  function HighlightTexts(hs: seq<Item>): (r: seq<string>)
    ensures |r| <= 5 && forall i :: 0 <= i < |r| ==> r[i] != ""
  {
    Take(NonEmptyTexts(hs), 5)
  }

  function FindCapture(records: seq<Capture>, e: string): (r: Option<nat>)
    ensures r.Some? ==> r.value < |records| && records[r.value].externalId == e
    ensures r.Some? ==> forall j :: 0 <= j < r.value ==> records[j].externalId != e
    ensures r.None? ==> forall j :: 0 <= j < |records| ==> records[j].externalId != e
  {
    if records == [] then None
    else if records[0].externalId == e then Some(0)
    else match FindCapture(records[1..], e)
      case None => None
      case Some(k) => Some(k + 1)
  }

  lemma FindCaptureIs(records: seq<Capture>, e: string, p: nat)
    requires p < |records| && records[p].externalId == e
    requires forall j :: 0 <= j < p ==> records[j].externalId != e
    ensures FindCapture(records, e) == Some(p)
  {
  }

  predicate SameIds(a: seq<Capture>, b: seq<Capture>) {
    |a| == |b| && forall k :: 0 <= k < |a| ==> a[k].externalId == b[k].externalId
  }

  /** Records with the same external ids in the same places are searched alike. */
  lemma {:induction false} FindCaptureSameIds(a: seq<Capture>, b: seq<Capture>, e: string)
    requires SameIds(a, b)
    ensures FindCapture(a, e) == FindCapture(b, e)
  {
    if a != [] {
      assert SameIds(a[1..], b[1..]);
      FindCaptureSameIds(a[1..], b[1..], e);
    }
  }

  /** RSS documents and documents without highlights are passed over. */
  predicate Skipped(doc: Item, groups: map<string, seq<Item>>) {
    doc.category == Some("rss") || Lookup(groups, doc.id) == []
  }

  datatype PState = PState(snapshot: seq<Capture>, added: seq<Capture>, created: nat, updated: nat, changes: seq<Change>)

  function Init(store: seq<Capture>): PState {
    PState(store, [], 0, 0, [])
  }

  /**
   * One document of the loop. An existing record is always rewritten and counted, but logs a
   * minor change only when its highlight count grew; a new record is counted and logs a major
   * change only when `createRecord` yields it (`newGuid` Some). Lookups see only the records
   * read before the loop.
   */
  function Step(st: PState, doc: Item, groups: map<string, seq<Item>>, newGuid: Option<string>): (r: PState)
    ensures Skipped(doc, groups) ==> r == st
    ensures SameIds(r.snapshot, st.snapshot)
    ensures st.created <= r.created && st.updated <= r.updated && r.created + r.updated <= st.created + st.updated + 1
    ensures |r.added| == |st.added| + (r.created - st.created)
    ensures |st.changes| <= |r.changes| <= |st.changes| + 1 && r.changes[..|st.changes|] == st.changes
    ensures |r.changes| > |st.changes| ==> var c := r.changes[|st.changes|];
      c.verb == "highlighted" && |c.children| <= 5 && (c.major <==> r.created > st.created)
    ensures r.created > st.created ==> |r.changes| > |st.changes|
    ensures !Skipped(doc, groups) && FindCapture(st.snapshot, ExternalId(doc)).Some? ==>
      r.updated == st.updated + 1 && r.created == st.created && r.added == st.added
    ensures !Skipped(doc, groups) && FindCapture(st.snapshot, ExternalId(doc)).None? ==>
      r.updated == st.updated && r.created == st.created + (if newGuid.Some? then 1 else 0)
  {
    if Skipped(doc, groups) then st
    else
      var hs := Lookup(groups, doc.id);
      var d := DocDataOf(doc, hs);
      match FindCapture(st.snapshot, d.externalId)
      case Some(k) => UpdateStep(st, k, doc, hs, d)
      case None => CreateStep(st, doc, hs, d, newGuid)
  }

  /** The document's record `k` exists: rewritten and counted; logged when it has more highlights. */
  function UpdateStep(st: PState, k: nat, doc: Item, hs: seq<Item>, d: DocData): PState
    requires k < |st.snapshot|
  {
    var prev := st.snapshot[k];
    var rec := SetFields(prev, d).(body := Join(MarkdownParts(doc, hs), "\n"));
    var st' := st.(snapshot := st.snapshot[k := rec], updated := st.updated + 1);
    if |hs| > prev.highlightCount then
      st'.(changes := st.changes + [Change("highlighted", d.title, prev.guid, false, HighlightTexts(hs))])
    else st'
  }

  /** No record yet: one is added, counted and logged when the collection gives it a guid. */
  function CreateStep(st: PState, doc: Item, hs: seq<Item>, d: DocData, newGuid: Option<string>): PState {
    match newGuid
    case None => st
    case Some(g) =>
      var rec := SetFields(Capture(g, d.title, "", "", "", "", "", 0, None, ""), d).(body := Join(MarkdownParts(doc, hs), "\n"));
      st.(added := st.added + [rec], created := st.created + 1,
          changes := st.changes + [Change("highlighted", d.title, g, true, HighlightTexts(hs))])
  }

  /** The document loop over a fetched list. */
  function Process(store: seq<Capture>, docs: seq<Item>, groups: map<string, seq<Item>>, newGuids: seq<Option<string>>): (r: PState)
    requires |newGuids| == |docs|
    ensures r.created + r.updated <= |docs| && |r.added| == r.created
    ensures r.created <= |r.changes| <= r.created + r.updated
    ensures SameIds(r.snapshot, store)
    ensures forall k :: 0 <= k < |r.changes| ==> r.changes[k].verb == "highlighted" && |r.changes[k].children| <= 5
  {
    if docs == [] then Init(store)
    else
      var n := |docs| - 1;
      var prev := Process(store, docs[..n], groups, newGuids[..n]);
      var r := Step(prev, docs[n], groups, newGuids[n]);
      assert forall k :: 0 <= k < |prev.changes| ==> r.changes[k] == prev.changes[k];
      r
  }

  lemma ProcessSnoc(store: seq<Capture>, docs: seq<Item>, groups: map<string, seq<Item>>, newGuids: seq<Option<string>>, i: nat)
    requires |newGuids| == |docs| && i < |docs|
    ensures Process(store, docs[..i + 1], groups, newGuids[..i + 1]) ==
      Step(Process(store, docs[..i], groups, newGuids[..i]), docs[i], groups, newGuids[i])
  {
    assert docs[..i + 1][..i] == docs[..i];
    assert newGuids[..i + 1][..i] == newGuids[..i];
  }

  /** The loop of `sync` over the documents, proved to compute `Process`. */
  method ProcessDocuments(store: seq<Capture>, docs: seq<Item>, groups: map<string, seq<Item>>, newGuids: seq<Option<string>>)
    returns (created: nat, updated: nat, changes: seq<Change>, snapshot: seq<Capture>, added: seq<Capture>)
    requires |newGuids| == |docs|
    ensures PState(snapshot, added, created, updated, changes) == Process(store, docs, groups, newGuids)
  {
    created, updated, changes, snapshot, added := 0, 0, [], store, [];
    var i := 0;
    while i < |docs|
      invariant 0 <= i <= |docs|
      invariant PState(snapshot, added, created, updated, changes) == Process(store, docs[..i], groups, newGuids[..i])
    {
      created, updated, changes, snapshot, added := ProcessDocument(created, updated, changes, snapshot, added, docs[i], groups, newGuids[i]);
      ProcessSnoc(store, docs, groups, newGuids, i);
      i := i + 1;
    }
    assert docs[..i] == docs;
    assert newGuids[..i] == newGuids;
  }

  /** The body of the loop for one document. */
  method ProcessDocument(created0: nat, updated0: nat, changes0: seq<Change>, snapshot0: seq<Capture>, added0: seq<Capture>,
                         doc: Item, groups: map<string, seq<Item>>, newGuid: Option<string>)
    returns (created: nat, updated: nat, changes: seq<Change>, snapshot: seq<Capture>, added: seq<Capture>)
    ensures PState(snapshot, added, created, updated, changes) ==
      Step(PState(snapshot0, added0, created0, updated0, changes0), doc, groups, newGuid)
  {
    created, updated, changes, snapshot, added := created0, updated0, changes0, snapshot0, added0;
    if doc.category == Some("rss") {
      return;
    }
    var docHighlights := Lookup(groups, doc.id);
    if |docHighlights| == 0 {
      return;
    }
    var docData := DocDataOf(doc, docHighlights);
    var existing := FindCapture(snapshot, docData.externalId);
    if existing.Some? {
      created, updated, changes, snapshot, added :=
        UpdateDocument(created0, updated0, changes0, snapshot0, added0, existing.value, doc, docHighlights, docData);
    } else {
      created, updated, changes, snapshot, added :=
        CreateDocument(created0, updated0, changes0, snapshot0, added0, doc, docHighlights, docData, newGuid);
    }
  }

  /** A document whose record `k` already exists. */
  method UpdateDocument(created0: nat, updated0: nat, changes0: seq<Change>, snapshot0: seq<Capture>, added0: seq<Capture>,
                        k: nat, doc: Item, docHighlights: seq<Item>, docData: DocData)
    returns (created: nat, updated: nat, changes: seq<Change>, snapshot: seq<Capture>, added: seq<Capture>)
    requires k < |snapshot0|
    ensures PState(snapshot, added, created, updated, changes) ==
      UpdateStep(PState(snapshot0, added0, created0, updated0, changes0), k, doc, docHighlights, docData)
  {
    created, updated, changes, snapshot, added := created0, updated0, changes0, snapshot0, added0;
    var markdown := BuildHighlightsMarkdown(doc, docHighlights);
    var oldCount := snapshot[k].highlightCount;
    var hasNewHighlights := |docHighlights| > oldCount;
    snapshot := snapshot[k := SetFields(snapshot[k], docData).(body := markdown)];
    updated := updated + 1;
    if hasNewHighlights {
      changes := changes + [Change("highlighted", docData.title, snapshot[k].guid, false, HighlightTexts(docHighlights))];
    }
  }

  /** A document without a record: `createRecord`, which may yield none. */
  method CreateDocument(created0: nat, updated0: nat, changes0: seq<Change>, snapshot0: seq<Capture>, added0: seq<Capture>,
                        doc: Item, docHighlights: seq<Item>, docData: DocData, newGuid: Option<string>)
    returns (created: nat, updated: nat, changes: seq<Change>, snapshot: seq<Capture>, added: seq<Capture>)
    ensures PState(snapshot, added, created, updated, changes) ==
      CreateStep(PState(snapshot0, added0, created0, updated0, changes0), doc, docHighlights, docData, newGuid)
  {
    created, updated, changes, snapshot, added := created0, updated0, changes0, snapshot0, added0;
    if newGuid.Some? {
      var markdown := BuildHighlightsMarkdown(doc, docHighlights);
      var record := SetFields(Capture(newGuid.value, docData.title, "", "", "", "", "", 0, None, ""), docData).(body := markdown);
      added := added + [record];
      created := created + 1;
      changes := changes + [Change("highlighted", docData.title, newGuid.value, true, HighlightTexts(docHighlights))];
    }
  }

  // ---------------------------------------------------------------------
  // A second run over the same documents logs nothing

  /** Passed over, or its record already counts at least the document's highlights. */
  predicate Settled(records: seq<Capture>, doc: Item, groups: map<string, seq<Item>>) {
    Skipped(doc, groups) ||
    var k := FindCapture(records, ExternalId(doc));
    k.Some? && records[k.value].highlightCount >= |Lookup(groups, doc.id)|
  }

  /**
   * A step over a settled document creates nothing, logs nothing, and keeps every settled
   * document settled (its rewrite stores the same count).
   */
  lemma StepOnSettled(st: PState, doc: Item, groups: map<string, seq<Item>>, g: Option<string>, docs: seq<Item>)
    requires Settled(st.snapshot, doc, groups)
    requires forall i :: 0 <= i < |docs| ==> Settled(st.snapshot, docs[i], groups)
    ensures var r := Step(st, doc, groups, g);
      r.added == st.added && r.created == st.created && r.changes == st.changes &&
      forall i :: 0 <= i < |docs| ==> Settled(r.snapshot, docs[i], groups)
  {
    var r := Step(st, doc, groups, g);
    if !Skipped(doc, groups) {
      var k := FindCapture(st.snapshot, ExternalId(doc)).value;
      forall i | 0 <= i < |docs| && !Skipped(docs[i], groups)
        ensures Settled(r.snapshot, docs[i], groups)
      {
        var e := ExternalId(docs[i]);
        FindCaptureSameIds(r.snapshot, st.snapshot, e);
        var p := FindCapture(st.snapshot, e).value;
        if p == k {
          ExternalIdInjective(docs[i], doc);
        }
      }
    }
  }

  lemma {:induction false} SettledIsSilent(store: seq<Capture>, docs: seq<Item>, groups: map<string, seq<Item>>, newGuids: seq<Option<string>>, all: seq<Item>)
    requires |newGuids| == |docs|
    requires forall i :: 0 <= i < |docs| ==> docs[i] in all
    requires forall i :: 0 <= i < |all| ==> Settled(store, all[i], groups)
    ensures var r := Process(store, docs, groups, newGuids);
      r.added == [] && r.created == 0 && r.changes == [] &&
      forall i :: 0 <= i < |all| ==> Settled(r.snapshot, all[i], groups)
  {
    if docs != [] {
      var n := |docs| - 1;
      SettledIsSilent(store, docs[..n], groups, newGuids[..n], all);
      var prev := Process(store, docs[..n], groups, newGuids[..n]);
      var i :| 0 <= i < |all| && all[i] == docs[n];
      StepOnSettled(prev, docs[n], groups, newGuids[n], all);
    }
  }

  /** What the first run establishes after a prefix of documents with distinct ids. */
  predicate Inv(store: seq<Capture>, st: PState, prefix: seq<Item>, groups: map<string, seq<Item>>) {
    SameIds(st.snapshot, store) &&
    (forall j :: 0 <= j < |st.added| ==> st.added[j].externalId in ExtIds(prefix)) &&
    (forall i :: 0 <= i < |prefix| ==> Settled(st.snapshot + st.added, prefix[i], groups))
  }

  function ExtIds(docs: seq<Item>): (r: seq<string>)
    ensures |r| == |docs| && forall i :: 0 <= i < |docs| ==> r[i] == ExternalId(docs[i])
  {
    seq(|docs|, i requires 0 <= i < |docs| => ExternalId(docs[i]))
  }

  /** What one step does to the records: it touches the document's record and nothing else. */
  lemma StepEffect(st: PState, doc: Item, groups: map<string, seq<Item>>, g: string)
    requires !Skipped(doc, groups)
    ensures var r := Step(st, doc, groups, Some(g));
      match FindCapture(st.snapshot, ExternalId(doc))
      case Some(k) =>
        r.added == st.added && SameIds(r.snapshot, st.snapshot) &&
        r.updated == st.updated + 1 && r.created == st.created &&
        r.snapshot[k].highlightCount == |Lookup(groups, doc.id)| &&
        forall j :: 0 <= j < |st.snapshot| && j != k ==> r.snapshot[j] == st.snapshot[j]
      case None =>
        r.snapshot == st.snapshot && |r.added| == |st.added| + 1 && r.added[..|st.added|] == st.added &&
        r.created == st.created + 1 && r.updated == st.updated &&
        r.added[|st.added|].externalId == ExternalId(doc) && r.added[|st.added|].highlightCount == |Lookup(groups, doc.id)|
  {
  }

  lemma SettledAfterUpdate(st: PState, st': PState, prefix: seq<Item>, doc: Item, groups: map<string, seq<Item>>)
    requires !Skipped(doc, groups)
    requires FindCapture(st.snapshot, ExternalId(doc)).Some?
    requires var k := FindCapture(st.snapshot, ExternalId(doc)).value;
      st'.added == st.added && SameIds(st'.snapshot, st.snapshot) &&
      st'.snapshot[k].highlightCount == |Lookup(groups, doc.id)| &&
      forall j :: 0 <= j < |st.snapshot| && j != k ==> st'.snapshot[j] == st.snapshot[j]
    requires ExternalId(doc) !in ExtIds(prefix)
    requires forall i :: 0 <= i < |prefix| ==> Settled(st.snapshot + st.added, prefix[i], groups)
    ensures forall i :: 0 <= i < |prefix| ==> Settled(st'.snapshot + st'.added, prefix[i], groups)
    ensures Settled(st'.snapshot + st'.added, doc, groups)
  {
    var e := ExternalId(doc);
    var k := FindCapture(st.snapshot, e).value;
    var before := st.snapshot + st.added;
    var after := st'.snapshot + st'.added;
    assert SameIds(after, before);
    forall i | 0 <= i < |prefix| && !Skipped(prefix[i], groups)
      ensures Settled(after, prefix[i], groups)
    {
      var ei := ExternalId(prefix[i]);
      assert ei != e by { assert ExtIds(prefix)[i] == ei; }
      var p := FindCapture(before, ei).value;
      FindCaptureIs(after, ei, p);
      assert after[p] == before[p];
    }
    FindCaptureIs(after, e, k);
  }

  lemma SettledAfterCreate(st: PState, st': PState, prefix: seq<Item>, doc: Item, groups: map<string, seq<Item>>)
    requires !Skipped(doc, groups)
    requires FindCapture(st.snapshot, ExternalId(doc)).None?
    requires st'.snapshot == st.snapshot && |st'.added| == |st.added| + 1 && st'.added[..|st.added|] == st.added
    requires st'.added[|st.added|].externalId == ExternalId(doc)
    requires st'.added[|st.added|].highlightCount == |Lookup(groups, doc.id)|
    requires ExternalId(doc) !in ExtIds(prefix)
    requires forall j :: 0 <= j < |st.added| ==> st.added[j].externalId in ExtIds(prefix)
    requires forall i :: 0 <= i < |prefix| ==> Settled(st.snapshot + st.added, prefix[i], groups)
    ensures forall i :: 0 <= i < |prefix| ==> Settled(st'.snapshot + st'.added, prefix[i], groups)
    ensures Settled(st'.snapshot + st'.added, doc, groups)
  {
    var e := ExternalId(doc);
    var before := st.snapshot + st.added;
    var after := st'.snapshot + st'.added;
    assert after[..|before|] == before;
    forall i | 0 <= i < |prefix| && !Skipped(prefix[i], groups)
      ensures Settled(after, prefix[i], groups)
    {
      var ei := ExternalId(prefix[i]);
      var p := FindCapture(before, ei).value;
      assert forall j :: 0 <= j <= p ==> after[j] == before[j];
      FindCaptureIs(after, ei, p);
    }
    forall j | 0 <= j < |before|
      ensures after[j].externalId != e
    {
      assert after[j] == before[j];
      if j >= |st.snapshot| {
        assert before[j] == st.added[j - |st.snapshot|];
      }
    }
    FindCaptureIs(after, e, |before|);
  }

  lemma StepKeepsInv(store: seq<Capture>, st: PState, prefix: seq<Item>, doc: Item, groups: map<string, seq<Item>>, g: string)
    requires Inv(store, st, prefix, groups)
    requires ExternalId(doc) !in ExtIds(prefix)
    ensures Inv(store, Step(st, doc, groups, Some(g)), prefix + [doc], groups)
  {
    var st' := Step(st, doc, groups, Some(g));
    if Skipped(doc, groups) {
      assert st' == st;
    } else {
      StepEffect(st, doc, groups, g);
      if FindCapture(st.snapshot, ExternalId(doc)).Some? {
        SettledAfterUpdate(st, st', prefix, doc, groups);
      } else {
        SettledAfterCreate(st, st', prefix, doc, groups);
      }
    }
    InvSnoc(store, st, st', prefix, doc, groups);
  }

  /** The invariant grows by one document once that document and the earlier ones are settled. */
  lemma InvSnoc(store: seq<Capture>, st: PState, st': PState, prefix: seq<Item>, doc: Item, groups: map<string, seq<Item>>)
    requires SameIds(st'.snapshot, store)
    requires st'.added == st.added || (|st'.added| == |st.added| + 1 && st'.added[..|st.added|] == st.added &&
                                       st'.added[|st.added|].externalId == ExternalId(doc))
    requires forall j :: 0 <= j < |st.added| ==> st.added[j].externalId in ExtIds(prefix)
    requires forall i :: 0 <= i < |prefix| ==> Settled(st'.snapshot + st'.added, prefix[i], groups)
    requires Settled(st'.snapshot + st'.added, doc, groups)
    ensures Inv(store, st', prefix + [doc], groups)
  {
    var prefix' := prefix + [doc];
    assert ExtIds(prefix') == ExtIds(prefix) + [ExternalId(doc)];
    assert forall i :: 0 <= i < |prefix| ==> prefix'[i] == prefix[i];
    assert prefix'[|prefix|] == doc;
    forall j | 0 <= j < |st'.added|
      ensures st'.added[j].externalId in ExtIds(prefix')
    {
      if j < |st.added| {
        assert st'.added[j] == st.added[j];
      }
    }
  }

  predicate DistinctIds(docs: seq<Item>) {
    forall i, j :: 0 <= i < j < |docs| ==> docs[i].id != docs[j].id
  }

  lemma LastIdIsNew(docs: seq<Item>)
    requires docs != [] && DistinctIds(docs)
    ensures ExternalId(docs[|docs| - 1]) !in ExtIds(docs[..|docs| - 1])
  {
    var n := |docs| - 1;
    forall i | 0 <= i < n
      ensures ExtIds(docs[..n])[i] != ExternalId(docs[n])
    {
      if ExtIds(docs[..n])[i] == ExternalId(docs[n]) {
        ExternalIdInjective(docs[i], docs[n]);
      }
    }
  }

  lemma {:induction false} FirstRunSettles(store: seq<Capture>, docs: seq<Item>, groups: map<string, seq<Item>>, newGuids: seq<Option<string>>)
    requires |newGuids| == |docs| && forall k :: 0 <= k < |newGuids| ==> newGuids[k].Some?
    requires DistinctIds(docs)
    ensures Inv(store, Process(store, docs, groups, newGuids), docs, groups)
  {
    if docs != [] {
      var n := |docs| - 1;
      var prefix := docs[..n];
      assert prefix + [docs[n]] == docs;
      FirstRunSettles(store, prefix, groups, newGuids[..n]);
      var prev := Process(store, prefix, groups, newGuids[..n]);
      LastIdIsNew(docs);
      StepKeepsInv(store, prev, prefix, docs[n], groups, newGuids[n].value);
      assert Some(newGuids[n].value) == newGuids[n];
    }
  }

  /**
   * Running the same documents and highlights a second time, against the records the first
   * run left, creates nothing and logs no change (the existing records are still rewritten).
   */
  lemma ReprocessLogsNothing(store: seq<Capture>, docs: seq<Item>, groups: map<string, seq<Item>>,
                             newGuids: seq<Option<string>>, again: seq<Option<string>>)
    requires |newGuids| == |docs| && forall k :: 0 <= k < |newGuids| ==> newGuids[k].Some?
    requires |again| == |docs|
    requires DistinctIds(docs)
    ensures var st := Process(store, docs, groups, newGuids);
      var r := Process(st.snapshot + st.added, docs, groups, again);
      r.created == 0 && r.added == [] && r.changes == []
  {
    FirstRunSettles(store, docs, groups, newGuids);
    var st := Process(store, docs, groups, newGuids);
    SettledIsSilent(st.snapshot + st.added, docs, groups, again, docs);
  }

  /** A record whose count grew logs exactly one minor change, carrying the first texts. */
  lemma MoreHighlightsLogMinor(st: PState, doc: Item, groups: map<string, seq<Item>>, g: Option<string>)
    requires !Skipped(doc, groups)
    requires var k := FindCapture(st.snapshot, ExternalId(doc));
      k.Some? && st.snapshot[k.value].highlightCount < |Lookup(groups, doc.id)|
    ensures var r := Step(st, doc, groups, g);
      r.changes == st.changes + [Change("highlighted", OrText(doc.title, "Untitled"),
        st.snapshot[FindCapture(st.snapshot, ExternalId(doc)).value].guid, false, HighlightTexts(Lookup(groups, doc.id)))]
  {
  }

  // ---------------------------------------------------------------------
  // The sync entry point

  datatype Outcome = Outcome(summary: string, created: nat, updated: nat, changes: seq<Change>)

  /**
   * The early exits of `sync`, in order, or Ok with the token when it goes on to fetch.
   */
  function SyncGate(syncHubCollection: bool, hubRecord: bool, token: string, capturesCollection: bool): (r: Result<string>)
    ensures r.Ok? <==> syncHubCollection && hubRecord && token != "" && capturesCollection
    ensures r.Ok? ==> r.value == token
  {
    if !syncHubCollection then Err("Sync Hub not found")
    else if !hubRecord then Err("Not configured")
    else if token == "" then Err("No token")
    else if !capturesCollection then Err("Captures collection not found")
    else Ok(token)
  }

  /**
   * `sync` after the gate, over the items of the pages that arrived: no documents means "No
   * changes"; otherwise the highlights are grouped and the documents processed.
   */
  function Sync(gate: Result<string>, items: seq<Item>, store: seq<Capture>, newGuids: seq<Option<string>>): (o: Outcome)
    requires |newGuids| == |Separate(items).documents|
    ensures gate.Err? ==> o == Outcome(gate.error, 0, 0, [])
    ensures gate.Ok? && Separate(items).documents == [] ==> o == Outcome("No changes", 0, 0, [])
    ensures gate.Ok? ==>
      var st := Process(store, Separate(items).documents, ByParent(Separate(items).highlights), newGuids);
      o.created == st.created && o.updated == st.updated && o.changes == st.changes &&
      (o.summary == "No changes" <==> st.created == 0 && st.updated == 0)
  {
    if gate.Err? then Outcome(gate.error, 0, 0, [])
    else
      var f := Separate(items);
      if f.documents == [] then Outcome("No changes", 0, 0, [])
      else
        var st := Process(store, f.documents, ByParent(f.highlights), newGuids);
        var summary := if st.created > 0 || st.updated > 0
          then NatToString(st.created) + " new, " + NatToString(st.updated) + " updated"
          else "No changes";
        Outcome(summary, st.created, st.updated, st.changes)
  }
}
