// Issues collection (collections/issues/plugin.js): the agent tools that find, fetch and
// search issues, and the summary of open issues grouped by state.

module IssuesCollection {
  import opened Common

  /** An Issues record; `state`, `kind` (the type field) and `project` hold choice ids. */
  datatype Issue = Issue(
    guid: string, title: Option<string>, state: Option<string>, kind: Option<string>,
    repo: Option<string>, number: Option<int>, assignee: Option<string>, url: Option<string>,
    project: Option<string>)

  // ---------------------------------------------------------------------
  // find

  /** State and type compare exactly; repo and assignee are case-insensitive parts. */
  predicate FindMatches(i: Issue, state: Option<string>, kind: Option<string>, repo: Option<string>, assignee: Option<string>) {
    (!Given(state) || i.state == state) &&
    (!Given(kind) || i.kind == kind) &&
    (!Given(repo) || HasText(i.repo, repo.value)) &&
    (!Given(assignee) || HasText(i.assignee, assignee.value))
  }

  function FindMatching(issues: seq<Issue>, state: Option<string>, kind: Option<string>, repo: Option<string>,
                        assignee: Option<string>): (r: seq<Issue>)
    ensures multiset(r) <= multiset(issues)
    ensures forall i :: i in r <==> i in issues && FindMatches(i, state, kind, repo, assignee)
  {
    Filter(issues, i => FindMatches(i, state, kind, repo, assignee))
  }

  /**
   * `toolFind`: the first `limit` matching issues (20 when the limit is absent or zero), in
   * collection order. `issues` is None without an Issues collection.
   */
  function Find(issues: Option<seq<Issue>>, state: Option<string>, kind: Option<string>, repo: Option<string>,
                assignee: Option<string>, limit: Option<int>): (r: Result<seq<Issue>>)
    ensures issues.None? ==> r == Err("Issues collection not found")
    ensures r.Ok? <==> issues.Some?
    ensures r.Ok? ==> forall i :: i in r.value ==> i in issues.value && FindMatches(i, state, kind, repo, assignee)
    ensures r.Ok? ==> var all := FindMatching(issues.value, state, kind, repo, assignee);
      |r.value| <= |all| && r.value == all[..|r.value|] &&
      (LimitOr(limit, 20) >= 0 ==> |r.value| == MinInt(|all|, LimitOr(limit, 20)))
  {
    if issues.None? then Err("Issues collection not found")
    else Ok(SliceTo(FindMatching(issues.value, state, kind, repo, assignee), LimitOr(limit, 20)))
  }

  /** A state filter is exact: an issue stored as "open" is not found under "Open". */
  lemma StateFilterIsExact(i: Issue)
    requires i.state == Some("open")
    ensures !FindMatches(i, Some("Open"), None, None, None)
  {
  }

  // ---------------------------------------------------------------------
  // get

  /** The digits `/^#?(\d+)$/` captures, when the query matches it. */
  function NumberDigits(q: string): (r: Option<string>)
    ensures r.Some? ==> r.value != "" && AllDigits(r.value)
    ensures r.Some? ==> q == r.value || q == "#" + r.value
  {
    var digits := if q != "" && q[0] == '#' then q[1..] else q;
    if digits != "" && AllDigits(digits) then Some(digits) else None
  }

  /** The issue number a query names: `parseInt` of the captured digits. */
  function NumberQuery(q: string): (r: Option<nat>)
    ensures r.Some? <==> NumberDigits(q).Some?
  {
    match NumberDigits(q)
    case Some(digits) => Some(ParseNat(digits))
    case None => None
  }

  /** "N" and "#N" both name issue N. */
  lemma NumberQueryReads(n: nat)
    ensures NumberQuery(NatToString(n)) == Some(n)
    ensures NumberQuery("#" + NatToString(n)) == Some(n)
  {
    var s := NatToString(n);
    ParseNatOfNatToString(n);
    assert s[0] != '#';
    assert ("#" + s)[1..] == s;
  }

  /** Text with a character other than a digit anywhere but in a leading '#' names no number. */
  lemma WordIsNoNumber(q: string, k: nat)
    requires k < |q| && !IsDigit(q[k]) && (k > 0 || q[0] != '#')
    ensures NumberQuery(q) == None
  {
    var digits := if q != "" && q[0] == '#' then q[1..] else q;
    if q[0] == '#' {
      assert digits[k - 1] == q[k];
    } else {
      assert digits[k] == q[k];
    }
  }

  function HasNumber(n: nat): Issue -> bool {
    (i: Issue) => i.number == Some(n)
  }

  /** `r.getName()?.toLowerCase().includes(query)` with the query already lower-cased. */
  function TitleHas(q: string): Issue -> bool {
    (i: Issue) => i.title.Some? && Contains(Lower(i.title.value), q)
  }

  /**
   * `toolGet`: a query is required; a query "N" or "#N" returns the first issue numbered N
   * when there is one; otherwise the first issue whose title contains the query, ignoring
   * case; otherwise "Issue not found".
   */
  function Get(issues: Option<seq<Issue>>, query: Option<string>): (r: Result<Issue>)
    ensures !Given(query) ==> r == Err("Query required")
    ensures Given(query) && issues.None? ==> r == Err("Issues collection not found")
    ensures r.Ok? ==> r.value in issues.value
    ensures Given(query) && issues.Some? ==>
      var q := Lower(query.value);
      var byNumber := if NumberQuery(q).Some? then FirstWhere(issues.value, HasNumber(NumberQuery(q).value)) else None;
      var byTitle := FirstWhere(issues.value, TitleHas(q));
      (byNumber.Some? ==> r == Ok(issues.value[byNumber.value])) &&
      (byNumber.None? && byTitle.Some? ==> r == Ok(issues.value[byTitle.value])) &&
      (byNumber.None? && byTitle.None? ==> r == Err("Issue not found"))
  {
    if !Given(query) then Err("Query required")
    else if issues.None? then Err("Issues collection not found")
    else
      var q := Lower(query.value);
      var byNumber := if NumberQuery(q).Some? then FirstWhere(issues.value, HasNumber(NumberQuery(q).value)) else None;
      if byNumber.Some? then Ok(issues.value[byNumber.value])
      else match FirstWhere(issues.value, TitleHas(q))
        case Some(k) => Ok(issues.value[k])
        case None => Err("Issue not found")
  }

  /** "#N" finds issue N even when an earlier issue's title contains "#N". */
  lemma NumberBeatsTitle(issues: seq<Issue>, n: nat, k: nat)
    requires k < |issues| && issues[k].number == Some(n)
    requires forall j :: 0 <= j < k ==> issues[j].number != Some(n)
    ensures Get(Some(issues), Some("#" + NatToString(n))) == Ok(issues[k])
  {
    var q := "#" + NatToString(n);
    NumberQueryReads(n);
    assert Lower(q) == q by {
      LowerOfLowerCase(q);
    }
    FirstWhereIs(issues, HasNumber(n), k);
  }

  lemma {:induction false} FirstWhereIs(s: seq<Issue>, p: Issue -> bool, k: nat)
    requires k < |s| && p(s[k])
    requires forall j :: 0 <= j < k ==> !p(s[j])
    ensures FirstWhere(s, p) == Some(k)
  {
    if k > 0 {
      FirstWhereIs(s[1..], p, k - 1);
    }
  }

  // ---------------------------------------------------------------------
  // search

  /** The query in the title or the repo, ignoring case. */
  predicate SearchMatches(i: Issue, query: string) {
    ContainsCi(OrEmpty(i.title), query) || ContainsCi(OrEmpty(i.repo), query)
  }

  function SearchMatching(issues: seq<Issue>, query: string): (r: seq<Issue>)
    ensures forall i :: i in r <==> i in issues && SearchMatches(i, query)
  {
    Filter(issues, i => SearchMatches(i, query))
  }

  /** `toolSearch`: a query is required; the first `limit` matches (10 by default), in collection order. */
  function Search(issues: Option<seq<Issue>>, query: Option<string>, limit: Option<int>): (r: Result<seq<Issue>>)
    ensures !Given(query) ==> r == Err("Query required")
    ensures Given(query) && issues.None? ==> r == Err("Issues collection not found")
    ensures r.Ok? <==> Given(query) && issues.Some?
    ensures r.Ok? ==> forall i :: i in r.value ==> i in issues.value && SearchMatches(i, query.value)
    ensures r.Ok? ==> var all := SearchMatching(issues.value, query.value);
      |r.value| <= |all| && r.value == all[..|r.value|] &&
      (LimitOr(limit, 10) >= 0 ==> |r.value| == MinInt(|all|, LimitOr(limit, 10)))
  {
    if !Given(query) then Err("Query required")
    else if issues.None? then Err("Issues collection not found")
    else Ok(SliceTo(SearchMatching(issues.value, query.value), LimitOr(limit, 10)))
  }

  // ---------------------------------------------------------------------
  // summarize_open

  const OpenStates: seq<string> := ["Open", "Next", "In Progress"]

  predicate IsOpen(i: Issue) {
    i.state.Some? && i.state.value in OpenStates
  }

  /** The issues `toolSummarizeOpen` counts: open, in the repo and project asked for. */
  predicate SummaryMatches(i: Issue, repo: Option<string>, project: Option<string>) {
    IsOpen(i) && (!Given(repo) || HasText(i.repo, repo.value)) && (!Given(project) || i.project == project)
  }

  function OpenMatching(issues: seq<Issue>, repo: Option<string>, project: Option<string>): (r: seq<Issue>)
    ensures multiset(r) <= multiset(issues)
    ensures forall i :: i in r <==> i in issues && SummaryMatches(i, repo, project)
  {
    Filter(issues, i => SummaryMatches(i, repo, project))
  }

  /** The entry of a group. */
  datatype Brief = Brief(guid: string, title: Option<string>, repo: Option<string>, kind: Option<string>)

  function BriefOf(i: Issue): Brief {
    Brief(i.guid, i.title, i.repo, i.kind)
  }

  function BriefsOf(s: seq<Issue>): (r: seq<Brief>)
    ensures |r| == |s| && forall k :: 0 <= k < |s| ==> r[k] == BriefOf(s[k])
  {
    seq(|s|, k requires 0 <= k < |s| => BriefOf(s[k]))
  }

  /** The group an issue goes into: `state || 'Unknown'`. */
  function StateKey(i: Issue): string {
    OrText(i.state, "Unknown")
  }

  function InState(key: string): Issue -> bool {
    (i: Issue) => StateKey(i) == key
  }

  /** `byState` after the loop has taken the issues of `s` in order. */
  function Group(s: seq<Issue>): map<string, seq<Brief>> {
    if s == [] then map[]
    else
      var n := |s| - 1;
      var m := Group(s[..n]);
      var key := StateKey(s[n]);
      m[key := GroupOf(m, key) + [BriefOf(s[n])]]
  }

  /** A group, empty when the state has none. */
  function GroupOf(m: map<string, seq<Brief>>, key: string): seq<Brief> {
    if key in m then m[key] else []
  }

  /** Taking one more issue appends it to its state's group. */
  lemma GroupStep(s: seq<Issue>, x: Issue)
    ensures Group(s + [x]) == Group(s)[StateKey(x) := GroupOf(Group(s), StateKey(x)) + [BriefOf(x)]]
  {
    assert (s + [x])[..|s|] == s;
  }

  /** Each group lists the issues of its state, in collection order. */
  lemma {:induction false} GroupHolds(s: seq<Issue>, key: string)
    ensures GroupOf(Group(s), key) == BriefsOf(Filter(s, InState(key)))
  {
    if s != [] {
      var n := |s| - 1;
      assert s == s[..n] + [s[n]];
      GroupHolds(s[..n], key);
      GroupOneMore(s[..n], s[n], key);
      BriefsOneMore(s[..n], s[n], key);
    }
  }

  lemma GroupOneMore(a: seq<Issue>, x: Issue, key: string)
    ensures GroupOf(Group(a + [x]), key) == GroupOf(Group(a), key) + (if StateKey(x) == key then [BriefOf(x)] else [])
  {
    GroupStep(a, x);
    GroupOfStep(Group(a), key, StateKey(x), BriefOf(x));
  }

  lemma BriefsOneMore(a: seq<Issue>, x: Issue, key: string)
    ensures BriefsOf(Filter(a + [x], InState(key))) ==
      BriefsOf(Filter(a, InState(key))) + (if StateKey(x) == key then [BriefOf(x)] else [])
  {
    var p := InState(key);
    FilterAppend(a, [x], p);
    FilterOne(x, p);
    BriefsAppend(Filter(a, p), Filter([x], p));
    assert BriefsOf(Filter([x], p)) == if StateKey(x) == key then [BriefOf(x)] else [];
  }

  /** Appending to one group leaves the others as they were. */
  lemma GroupOfStep(m: map<string, seq<Brief>>, key: string, k: string, b: Brief)
    ensures GroupOf(m[k := GroupOf(m, k) + [b]], key) == GroupOf(m, key) + (if k == key then [b] else [])
  {
  }

  lemma FilterOne(x: Issue, p: Issue -> bool)
    ensures Filter([x], p) == if p(x) then [x] else []
  {
    assert [x][1..] == [];
  }

  lemma BriefsAppend(a: seq<Issue>, b: seq<Issue>)
    ensures BriefsOf(a + b) == BriefsOf(a) + BriefsOf(b)
  {
  }

  /** No group is empty: a state has a group only once an issue of that state was taken. */
  lemma {:induction false} GroupsNonEmpty(s: seq<Issue>, key: string)
    requires key in Group(s)
    ensures Group(s)[key] != []
  {
    if s != [] {
      var n := |s| - 1;
      assert s == s[..n] + [s[n]];
      GroupStep(s[..n], s[n]);
      if key != StateKey(s[n]) {
        GroupsNonEmpty(s[..n], key);
      }
    }
  }

  /** With every issue open, the groups are open states and their sizes add up to the total. */
  lemma {:induction false} GroupTotal(s: seq<Issue>)
    requires forall i :: i in s ==> IsOpen(i)
    ensures forall key :: key in Group(s) ==> key in OpenStates
    ensures |s| == |GroupOf(Group(s), "Open")| + |GroupOf(Group(s), "Next")| + |GroupOf(Group(s), "In Progress")|
  {
    if s != [] {
      var n := |s| - 1;
      var a, x := s[..n], s[n];
      assert s == a + [x];
      assert forall i :: i in a ==> i in s;
      GroupTotal(a);
      assert x in s;
      assert StateKey(x) == x.state.value && StateKey(x) in OpenStates;
      GroupKeys(a, x);
      GroupOneMore(a, x, "Open");
      GroupOneMore(a, x, "Next");
      GroupOneMore(a, x, "In Progress");
    }
  }

  lemma GroupKeys(a: seq<Issue>, x: Issue)
    ensures Group(a + [x]).Keys == Group(a).Keys + {StateKey(x)}
  {
    GroupStep(a, x);
  }

  /** One turn of the grouping loop: the issue's brief joins its state's group, created if missing. */
  method AddToGroup(byState: map<string, seq<Brief>>, r: Issue) returns (m: map<string, seq<Brief>>)
    ensures m == byState[StateKey(r) := GroupOf(byState, StateKey(r)) + [BriefOf(r)]]
  {
    var state := OrText(r.state, "Unknown");
    m := byState;
    if state !in m {
      m := m[state := []];
    }
    m := m[state := m[state] + [Brief(r.guid, r.title, r.repo, r.kind)]];
  }

  datatype Summary = Summary(total: nat, byState: map<string, seq<Brief>>)

  /**
   * `toolSummarizeOpen`: the open issues of the repo and project asked for, counted and
   * grouped by state in one pass.
   */
  method SummarizeOpen(issues: Option<seq<Issue>>, repo: Option<string>, project: Option<string>) returns (r: Result<Summary>)
    ensures issues.None? ==> r == Err("Issues collection not found")
    ensures r.Ok? <==> issues.Some?
    ensures r.Ok? ==> var open := OpenMatching(issues.value, repo, project);
      r.value.total == |open| && r.value.byState == Group(open)
  {
    if issues.None? {
      return Err("Issues collection not found");
    }
    var results := OpenMatching(issues.value, repo, project);
    var byState: map<string, seq<Brief>> := map[];
    var k := 0;
    while k < |results|
      invariant 0 <= k <= |results|
      invariant byState == Group(results[..k])
    {
      byState := AddToGroup(byState, results[k]);
      assert results[..k + 1] == results[..k] + [results[k]];
      GroupStep(results[..k], results[k]);
      k := k + 1;
    }
    assert results[..k] == results;
    return Ok(Summary(|results|, byState));
  }

  /** The summary's total is the sum of its group sizes, and only open states have groups. */
  lemma SummaryAddsUp(issues: seq<Issue>, repo: Option<string>, project: Option<string>)
    ensures var open := OpenMatching(issues, repo, project); var m := Group(open);
      (forall key :: key in m ==> key in OpenStates) &&
      |open| == |GroupOf(m, "Open")| + |GroupOf(m, "Next")| + |GroupOf(m, "In Progress")|
  {
    GroupTotal(OpenMatching(issues, repo, project));
  }
}
