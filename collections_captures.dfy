// Captures collection (collections/captures/plugin.js): the Source choice labels, and the
// agent tools that find, search, list and group highlights and notes by book.

module CapturesCollection {
  import opened Common

  /** `SOURCE_LABEL_TO_ID`. */
  const Sources: LabelMap := [("Readwise", "readwise"), ("Kindle", "kindle"), ("Web", "web"), ("Manual", "manual")]

  lemma SourcesWellFormed()
    ensures WellFormedLabels(Sources)
  {
    SourceIdsLowerCase();
    SourcesDistinct();
    SourceIdsAreNotLabels();
  }

  lemma SourceIdsLowerCase()
    ensures LowerCaseIds(Sources)
  {
    assert LowerCase("readwise") && LowerCase("kindle") && LowerCase("web") && LowerCase("manual");
  }

  lemma SourcesDistinct()
    ensures DistinctEntries(Sources)
  {
  }

  lemma SourceIdsAreNotLabels()
    ensures IdsAreNotLabels(Sources)
  {
    assert forall i, j :: 0 <= i < |Sources| && 0 <= j < |Sources| ==> Sources[i].1[0] != Sources[j].0[0];
  }

  /** Each source label maps to its id and back. */
  lemma SourceRoundTrip(k: nat)
    requires k < |Sources|
    ensures IdToLabel(Sources, Some(LabelToId(Sources, Sources[k].0))) == Some(Sources[k].0)
  {
    SourcesWellFormed();
    LabelRoundTrip(Sources, k);
  }

  /**
   * A Captures record. `source` is the stored choice id; `capturedAt` is the captured_at date
   * in milliseconds since the epoch.
   */
  datatype Capture = Capture(
    guid: string, title: Option<string>, content: Option<string>, source: Option<string>,
    sourceTitle: Option<string>, sourceAuthor: Option<string>, capturedAt: Option<int>)

  /** `sourceMatches`: the record's source against a label or id, ignoring case. */
  predicate SourceMatches(c: Capture, target: string) {
    ChoiceMatches(Sources, c.source, target)
  }

  /** A filter by source accepts a capture stored under that source's id in any case. */
  lemma SourceLabelFindsId(c: Capture, k: nat)
    requires k < |Sources| && c.source.Some? && Lower(c.source.value) == Sources[k].1
    ensures SourceMatches(c, Sources[k].0) && SourceMatches(c, Sources[k].1)
  {
    SourcesWellFormed();
    LabelRoundTrip(Sources, k);
    LabelOrIdMatches(Sources, k, c.source);
  }

  /** The record as a tool shows it: content cut to its first `n` characters. */
  function Clip(c: Capture, n: nat): (r: Capture)
    ensures r.(content := c.content) == c
    ensures r.content.Some? <==> c.content.Some?
    ensures r.content.Some? ==> |r.content.value| == MinInt(|c.content.value|, n) && StartsWith(c.content.value, r.content.value)
  {
    c.(content := if c.content.Some? then Some(Take(c.content.value, n)) else None)
  }

  function ClipAll(s: seq<Capture>, n: nat): (r: seq<Capture>)
    ensures |r| == |s| && forall i :: 0 <= i < |s| ==> r[i] == Clip(s[i], n)
  {
    seq(|s|, i requires 0 <= i < |s| => Clip(s[i], n))
  }

  lemma ClipAllAppend(a: seq<Capture>, b: seq<Capture>, n: nat)
    ensures ClipAll(a + b, n) == ClipAll(a, n) + ClipAll(b, n)
  {
  }

  // ---------------------------------------------------------------------
  // find

  /** `toolFind`'s filters: source by label or id, author and book title by case-insensitive part. */
  predicate FindMatches(c: Capture, source: Option<string>, author: Option<string>, sourceTitle: Option<string>) {
    (!Given(source) || SourceMatches(c, source.value)) &&
    (!Given(author) || HasText(c.sourceAuthor, author.value)) &&
    (!Given(sourceTitle) || HasText(c.sourceTitle, sourceTitle.value))
  }

  function FindMatching(caps: seq<Capture>, source: Option<string>, author: Option<string>, sourceTitle: Option<string>): (r: seq<Capture>)
    ensures multiset(r) <= multiset(caps)
    ensures forall c :: c in r <==> c in caps && FindMatches(c, source, author, sourceTitle)
  {
    Filter(caps, c => FindMatches(c, source, author, sourceTitle))
  }

  /**
   * `toolFind`: the first `limit` matching captures (20 when the limit is absent or zero), in
   * collection order. `caps` is None without a Captures collection.
   */
  function Find(caps: Option<seq<Capture>>, source: Option<string>, author: Option<string>, sourceTitle: Option<string>,
                limit: Option<int>): (r: Result<seq<Capture>>)
    ensures caps.None? ==> r == Err("Captures collection not found")
    ensures r.Ok? <==> caps.Some?
    ensures r.Ok? ==> forall c :: c in r.value ==> c in caps.value && FindMatches(c, source, author, sourceTitle)
    ensures r.Ok? ==> var all := FindMatching(caps.value, source, author, sourceTitle);
      |r.value| <= |all| && r.value == all[..|r.value|] && (LimitOr(limit, 20) >= 0 ==> |r.value| == MinInt(|all|, LimitOr(limit, 20)))
  {
    if caps.None? then Err("Captures collection not found")
    else Ok(SliceTo(FindMatching(caps.value, source, author, sourceTitle), LimitOr(limit, 20)))
  }

  // ---------------------------------------------------------------------
  // search

  /** The query in the title, the content or the book title, ignoring case. */
  predicate SearchMatches(c: Capture, query: string) {
    ContainsCi(OrEmpty(c.title), query) || ContainsCi(OrEmpty(c.content), query) || ContainsCi(OrEmpty(c.sourceTitle), query)
  }

  function SearchMatching(caps: seq<Capture>, query: string): (r: seq<Capture>)
    ensures forall c :: c in r <==> c in caps && SearchMatches(c, query)
  {
    Filter(caps, c => SearchMatches(c, query))
  }

  /** The captures `toolSearch` shows: the first `limit` matches (10 by default). */
  function SearchFound(caps: seq<Capture>, query: string, limit: Option<int>): (r: seq<Capture>)
    ensures forall c :: c in r ==> c in caps && SearchMatches(c, query)
    ensures |r| <= |SearchMatching(caps, query)| && r == SearchMatching(caps, query)[..|r|]
    ensures LimitOr(limit, 10) >= 0 ==> |r| == MinInt(|SearchMatching(caps, query)|, LimitOr(limit, 10))
  {
    SliceTo(SearchMatching(caps, query), LimitOr(limit, 10))
  }

  /** `toolSearch`: a query is required; the matches it shows, content cut to 200 characters. */
  function Search(caps: Option<seq<Capture>>, query: Option<string>, limit: Option<int>): (r: Result<seq<Capture>>)
    ensures !Given(query) ==> r == Err("Query required")
    ensures Given(query) && caps.None? ==> r == Err("Captures collection not found")
    ensures r.Ok? <==> Given(query) && caps.Some?
    ensures r.Ok? ==> var found := SearchFound(caps.value, query.value, limit);
      |r.value| == |found| && forall i :: 0 <= i < |found| ==> r.value[i] == Clip(found[i], 200)
    ensures r.Ok? ==> forall i :: 0 <= i < |r.value| && r.value[i].content.Some? ==> |r.value[i].content.value| <= 200
  {
    if !Given(query) then Err("Query required")
    else if caps.None? then Err("Captures collection not found")
    else Ok(ClipAll(SearchFound(caps.value, query.value, limit), 200))
  }

  // ---------------------------------------------------------------------
  // recent

  /** The captured_at time a sort compares: `new Date(0)` when there is none. */
  function CapturedMillis(c: Capture): (t: int)
    ensures c.capturedAt.Some? ==> t == c.capturedAt.value
    ensures c.capturedAt.None? ==> t == 0
  {
    if c.capturedAt.Some? then c.capturedAt.value else 0
  }

  /** `dateB - dateA <= 0`: newer captures first. */
  function NewestFirst(a: Capture, b: Capture): bool {
    CapturedMillis(b) <= CapturedMillis(a)
  }

  lemma NewestFirstOrders()
    ensures Total(NewestFirst) && Transitive(NewestFirst)
  {
  }

  function SourceMatching(caps: seq<Capture>, source: Option<string>): (r: seq<Capture>)
    ensures multiset(r) <= multiset(caps)
    ensures forall c :: c in r <==> c in caps && (!Given(source) || SourceMatches(c, source.value))
  {
    Filter(caps, c => !Given(source) || SourceMatches(c, source.value))
  }

  /** The captures `toolRecent` shows: of the given source (all when none), newest first, the first `limit` (10 by default). */
  function RecentFound(caps: seq<Capture>, source: Option<string>, limit: Option<int>): (r: seq<Capture>)
    ensures SortedBy(r, NewestFirst) && multiset(r) <= multiset(caps)
    ensures var found := SourceMatching(caps, source);
      Total(NewestFirst) && |r| <= |found| && r == SortBy(found, NewestFirst)[..|r|]
    ensures forall c :: c in r ==> (!Given(source) || SourceMatches(c, source.value))
    ensures LimitOr(limit, 10) >= 0 ==> |r| == MinInt(|SourceMatching(caps, source)|, LimitOr(limit, 10))
  {
    NewestFirstOrders();
    var found := SourceMatching(caps, source);
    var r := SortedSlice(found, NewestFirst, LimitOr(limit, 10));
    assert forall c :: c in r ==> c in found by {
      forall c | c in r ensures c in found {
        assert c in multiset(r);
      }
    }
    r
  }

  /** `toolRecent`: the captures it shows, content cut to 200 characters, still newest first. */
  function Recent(caps: Option<seq<Capture>>, source: Option<string>, limit: Option<int>): (r: Result<seq<Capture>>)
    ensures caps.None? ==> r == Err("Captures collection not found")
    ensures r.Ok? <==> caps.Some?
    ensures r.Ok? ==> SortedBy(r.value, NewestFirst)
    ensures r.Ok? ==> var found := RecentFound(caps.value, source, limit);
      |r.value| == |found| && forall i :: 0 <= i < |found| ==> r.value[i] == Clip(found[i], 200)
  {
    if caps.None? then Err("Captures collection not found")
    else
      var found := RecentFound(caps.value, source, limit);
      var shown := ClipAll(found, 200);
      assert forall i :: 0 <= i < |shown| ==> CapturedMillis(shown[i]) == CapturedMillis(found[i]);
      Ok(shown)
  }

  /** In `recent`'s answer a capture with a date after the epoch comes before every undated one. */
  lemma UndatedLast(caps: Option<seq<Capture>>, source: Option<string>, limit: Option<int>, i: nat, j: nat)
    requires Recent(caps, source, limit).Ok?
    requires var r := Recent(caps, source, limit).value;
      i < |r| && j < |r| && r[i].capturedAt.Some? && r[i].capturedAt.value > 0 && r[j].capturedAt.None?
    ensures i < j
  {
    var r := Recent(caps, source, limit).value;
    NewestFirstOrders();
    if j < i {
      SortedPairs(r, NewestFirst, j, i);
    }
  }

  // ---------------------------------------------------------------------
  // by_book

  datatype Book = Book(book: string, count: nat, captures: seq<Capture>)

  /** `r.text('source_title')?.toLowerCase().includes(titleLower)`, as a filter. */
  function InBook(title: string): Capture -> bool {
    (c: Capture) => HasText(c.sourceTitle, title)
  }

  function BookMatching(caps: seq<Capture>, title: string): (r: seq<Capture>)
    ensures forall c :: c in r <==> c in caps && HasText(c.sourceTitle, title)
  {
    Filter(caps, InBook(title))
  }

  /**
   * `toolByBook`: a title is required; every capture whose book title contains it, in
   * collection order, content cut to 300, with their number.
   */
  function ByBook(caps: Option<seq<Capture>>, title: Option<string>): (r: Result<Book>)
    ensures !Given(title) ==> r == Err("Title required")
    ensures Given(title) && caps.None? ==> r == Err("Captures collection not found")
    ensures r.Ok? <==> Given(title) && caps.Some?
    ensures r.Ok? ==> r.value.book == title.value && r.value.count == |r.value.captures|
    ensures r.Ok? ==> var all := BookMatching(caps.value, title.value);
      |r.value.captures| == |all| && forall i :: 0 <= i < |all| ==> r.value.captures[i] == Clip(all[i], 300)
  {
    if !Given(title) then Err("Title required")
    else if caps.None? then Err("Captures collection not found")
    else
      var found := BookMatching(caps.value, title.value);
      Ok(Book(title.value, |found|, ClipAll(found, 300)))
  }

  /** Splitting the collection in two splits the book's captures the same way, in order. */
  lemma ByBookKeepsOrder(a: seq<Capture>, b: seq<Capture>, title: string)
    requires title != ""
    ensures ByBook(Some(a + b), Some(title)).value.count == ByBook(Some(a), Some(title)).value.count + ByBook(Some(b), Some(title)).value.count
    ensures ByBook(Some(a + b), Some(title)).value.captures == ByBook(Some(a), Some(title)).value.captures + ByBook(Some(b), Some(title)).value.captures
  {
    FilterAppend(a, b, InBook(title));
    var all, left, right := BookMatching(a + b, title), BookMatching(a, title), BookMatching(b, title);
    assert all == left + right;
    ClipAllAppend(left, right, 300);
  }
}
