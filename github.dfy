// GitHub Sync (plugins/github/plugin.js): how fetched issues and pull requests are merged
// into the Issues collection (external ids, repository and project derivation, the state
// merge that keeps the user's workflow states, change verbs), the incremental query, and the
// agent tools that find, show, re-state and summarise issues.

module GitHub {
  import opened Common

  // ---------------------------------------------------------------------
  // Issues as GitHub sends them, records as the collection holds them

  datatype PullRequest = PullRequest(mergedAt: Option<string>)

  datatype Issue = Issue(
    id: nat, title: string, htmlUrl: string, number: int,
    pullRequest: Option<PullRequest>, state: string,
    user: Option<string>, assignee: Option<string>,
    createdAt: string, updatedAt: string, body: Option<string>)

  /** A direct or nested line item of a record, as `getLineItems` lists it. */
  datatype LineItem = LineItem(parentGuid: string, texts: seq<string>)

  /** An Issues record: the fields the plugin writes and reads. */
  datatype Record = Record(
    guid: string, name: string, externalId: string,
    source: Option<string>, repo: Option<string>, project: Option<string>,
    number: Option<int>, kind: Option<string>, state: Option<string>,
    author: Option<string>, assignee: Option<string>, url: Option<string>,
    createdAt: string, updatedAt: string, lineItems: seq<LineItem>, body: string)

  /** The field values `processIssues` computes for one issue. */
  datatype IssueData = IssueData(
    externalId: string, repo: string, project: Option<string>, number: int,
    kind: string, state: Option<string>, author: string, assignee: string,
    url: string, createdAt: string, updatedAt: string, body: string)

  datatype Change = Change(verb: string, title: string, guid: string, major: bool)

  /** `github_<id>`: distinct GitHub ids give distinct external ids. */
  function ExternalId(issue: Issue): (e: string)
    ensures |e| > 7 && e[..7] == "github_"
  {
    "github_" + NatToString(issue.id)
  }

  lemma ExternalIdInjective(a: Issue, b: Issue)
    requires a.id != b.id
    ensures ExternalId(a) != ExternalId(b)
  {
    if ExternalId(a) == ExternalId(b) {
      assert ExternalId(a)[7..] == NatToString(a.id);
      assert ExternalId(b)[7..] == NatToString(b.id);
      NatToStringInjective(a.id, b.id);
    }
  }

  // ---------------------------------------------------------------------
  // Repository and project

  /** `parts.indexOf(x)`: -1 when absent. */
  function IndexOfPart(parts: seq<string>, x: string): (i: int)
    ensures -1 <= i < |parts|
    ensures i >= 0 ==> parts[i] == x && forall j :: 0 <= j < i ==> parts[j] != x
    ensures i == -1 ==> x !in parts
  {
    if parts == [] then -1
    else if parts[0] == x then 0
    else var j := IndexOfPart(parts[1..], x); if j == -1 then -1 else j + 1
  }

  /** `parts[i]` inside a template string: "undefined" past either end. */
  function PartAt(parts: seq<string>, i: int): string {
    if 0 <= i < |parts| then parts[i] else "undefined"
  }

  /** The two path parts after `github.com` in the issue's html_url. */
  function RepoOf(url: string): string {
    var parts := Split(url, '/');
    var i := IndexOfPart(parts, "github.com") + 1;
    PartAt(parts, i) + "/" + PartAt(parts, i + 1)
  }

  /** An issue or pull-request page of owner/name yields "owner/name". */
  lemma RepoOfIssueUrl(owner: string, name: string, rest: string)
    requires '/' !in owner && '/' !in name
    ensures RepoOf("https://github.com/" + owner + "/" + name + "/" + rest) == owner + "/" + name
  {
    var parts := Split("https://github.com/" + owner + "/" + name + "/" + rest, '/');
    IssueUrlParts(owner, name, rest);
    assert parts[0] == "https:" && parts[1] == "" && parts[2] == "github.com";
    assert "https:" != "github.com" && "" != "github.com";
    assert IndexOfPart(parts, "github.com") == 2;
  }

  /** The path parts of an issue page of owner/name. */
  lemma IssueUrlParts(owner: string, name: string, rest: string)
    requires '/' !in owner && '/' !in name
    ensures Split("https://github.com/" + owner + "/" + name + "/" + rest, '/') ==
      ["https:", "", "github.com", owner, name] + Split(rest, '/')
  {
    var t3 := name + ['/'] + rest;
    var t2 := owner + ['/'] + t3;
    var t1 := "github.com" + ['/'] + t2;
    var t0 := "" + ['/'] + t1;
    assert "https://github.com/" + owner + "/" + name + "/" + rest == "https:" + ['/'] + t0 by {
      assert "https://github.com/" == "https:" + ['/'] + ['/'] + "github.com" + ['/'];
    }
    SplitFirst("https:", '/', t0);
    SplitFirst("", '/', t1);
    SplitFirst("github.com", '/', t2);
    SplitFirst(owner, '/', t3);
    SplitFirst(name, '/', rest);
    calc {
      Split("https:" + ['/'] + t0, '/');
      ["https:"] + ([""] + (["github.com"] + ([owner] + ([name] + Split(rest, '/')))));
      { ConsFive("https:", "", "github.com", owner, name, Split(rest, '/')); }
      ["https:", "", "github.com", owner, name] + Split(rest, '/');
    }
  }

  lemma ConsFive<T>(a: T, b: T, c: T, d: T, e: T, s: seq<T>)
    ensures [a] + ([b] + ([c] + ([d] + ([e] + s)))) == [a, b, c, d, e] + s
  {
    assert [a] + ([b] + ([c] + ([d] + ([e] + s)))) == [a, b, c, d, e] + s;
  }

  /** A part without the separator, followed by the separator, is the first part. */
  lemma SplitFirst(a: string, sep: char, b: string)
    requires sep !in a
    ensures Split(a + [sep] + b, sep) == [a] + Split(b, sep)
  {
    SplitConcat(a, sep, b);
    SplitWithout(a, sep);
  }

  /** The value stored under a key of the projects mapping: `JSON.parse` keeps the last of duplicate keys. */
  function Lookup(mapping: seq<(string, string)>, key: string): (r: Option<string>)
    ensures r.Some? <==> exists k :: 0 <= k < |mapping| && mapping[k].0 == key
    ensures r.Some? ==> exists k :: 0 <= k < |mapping| && mapping[k] == (key, r.value)
                                      && forall j :: k < j < |mapping| ==> mapping[j].0 != key
  {
    LookupUpTo(mapping, |mapping|, key)
  }

  /** `Lookup` over the first `n` entries, searched from the back. */
  function LookupUpTo(mapping: seq<(string, string)>, n: nat, key: string): (r: Option<string>)
    requires n <= |mapping|
    ensures r.Some? <==> exists k :: 0 <= k < n && mapping[k].0 == key
    ensures r.Some? ==> exists k :: 0 <= k < n && mapping[k] == (key, r.value)
                                      && forall j :: k < j < n ==> mapping[j].0 != key
  {
    if n == 0 then None
    else if mapping[n - 1].0 == key then Some(mapping[n - 1].1)
    else LookupUpTo(mapping, n - 1, key)
  }

  /** `projectsMapping[repo] || projectsMapping[repo.split('/')[1]] || null`. */
  function ProjectOf(mapping: seq<(string, string)>, repo: string): (r: Option<string>)
    ensures r.Some? ==> r.value != ""
    ensures Lookup(mapping, repo).Some? && Lookup(mapping, repo).value != "" ==> r == Lookup(mapping, repo)
    ensures r.None? ==> (Lookup(mapping, repo).None? || Lookup(mapping, repo).value == "")
  {
    var full := Lookup(mapping, repo);
    if full.Some? && full.value != "" then full
    else
      var short := Lookup(mapping, PartAt(Split(repo, '/'), 1));
      if short.Some? && short.value != "" then short else None
  }

  /** Without an entry for the full path, the repository name alone selects the project. */
  lemma ProjectByRepoName(mapping: seq<(string, string)>, owner: string, name: string, project: string)
    requires '/' !in owner && '/' !in name
    requires Lookup(mapping, owner + "/" + name).None?
    requires Lookup(mapping, name) == Some(project) && project != ""
    ensures ProjectOf(mapping, owner + "/" + name) == Some(project)
  {
    SplitFirst(owner, '/', name);
    SplitWithout(name, '/');
    assert owner + "/" + name == owner + ['/'] + name;
  }

  // ---------------------------------------------------------------------
  // State merge and change verbs

  predicate IsClosedState(s: Option<string>) {
    s == Some("Closed") || s == Some("Cancelled")
  }

  /**
   * The new workflow state of an existing record, when it changes. A closed issue closes
   * the record unless it is Closed or Cancelled already; an open issue reopens a closed or
   * cancelled record and otherwise leaves the user's state (Open, Next, In Progress) alone.
   */
  function MergeState(oldState: Option<string>, githubState: string): (r: Option<string>)
    ensures githubState == "closed" ==> (r.Some? <==> !IsClosedState(oldState))
    ensures githubState != "closed" ==> (r.Some? <==> IsClosedState(oldState))
    ensures r.Some? ==> r.value == (if githubState == "closed" then "Closed" else "Open")
  {
    if githubState == "closed" then
      if IsClosedState(oldState) then None else Some("Closed")
    else
      if IsClosedState(oldState) then Some("Open") else None
  }

  /** Once merged, a second sync with the same GitHub state changes the state no more. */
  lemma MergeStateSettles(oldState: Option<string>, githubState: string)
    ensures var r := MergeState(oldState, githubState);
      MergeState(if r.Some? then r else oldState, githubState).None?
  {
  }

  /** `stateToVerb`: a merged pull request beats every state. */
  function StateToVerb(state: string, merged: bool): (v: string)
    ensures merged ==> v == "merged"
    ensures !merged ==> v == (if state == "Open" then "opened" else if state == "Closed" then "closed" else "updated")
    ensures v != "edited"
  {
    if merged then "merged"
    else if state == "Open" then "opened"
    else if state == "Closed" then "closed"
    else "updated"
  }

  predicate IsMerged(issue: Issue) {
    issue.pullRequest.Some? && issue.pullRequest.value.mergedAt.Some? && issue.pullRequest.value.mergedAt.value != ""
  }

  /** `user?.login || ''`. */
  function LoginOr(login: Option<string>): string {
    if login.Some? then login.value else ""
  }

  function DataOf(issue: Issue, mapping: seq<(string, string)>): (d: IssueData)
    ensures d.externalId == ExternalId(issue) && d.updatedAt == issue.updatedAt && d.state.None?
    ensures d.kind == (if issue.pullRequest.Some? then "PR" else "Issue")
    ensures d.body == OrEmpty(issue.body)
  {
    var repo := RepoOf(issue.htmlUrl);
    IssueData(ExternalId(issue), repo, ProjectOf(mapping, repo), issue.number,
      if issue.pullRequest.Some? then "PR" else "Issue", None,
      LoginOr(issue.user), LoginOr(issue.assignee), issue.htmlUrl, issue.createdAt, issue.updatedAt,
      OrEmpty(issue.body))
  }

  /** `setRecordFields`: every field but the title; project and state only when given. */
  function SetFields(r: Record, d: IssueData): (r': Record)
    ensures r'.guid == r.guid && r'.name == r.name && r'.lineItems == r.lineItems && r'.body == r.body
    ensures r'.externalId == d.externalId && r'.updatedAt == d.updatedAt
    ensures r'.state == (if d.state.Some? then d.state else r.state)
    ensures r'.project == (if d.project.Some? then d.project else r.project)
  {
    r.(externalId := d.externalId, source := Some("GitHub"), repo := Some(d.repo),
       project := if d.project.Some? then d.project else r.project,
       number := Some(d.number), kind := Some(d.kind),
       state := if d.state.Some? then d.state else r.state,
       author := Some(d.author), assignee := Some(d.assignee), url := Some(d.url),
       createdAt := d.createdAt, updatedAt := d.updatedAt)
  }

  /** The markdown contents after the body is written: `insertMarkdown`/`replaceContents`
   *  run only for a non-empty body, and replace what the record held. */
  function WriteBody(r: Record, body: string): (r': Record)
    ensures body != "" ==> r' == r.(body := body)
    ensures body == "" ==> r' == r
  {
    if body != "" then r.(body := body) else r
  }

  /** A record freshly created under the issue title, then given its fields and the issue
   *  body as its contents. */
  function Created(guid: string, title: string, d: IssueData): (r: Record)
    ensures r.guid == guid && r.name == title && r.externalId == d.externalId && r.updatedAt == d.updatedAt
    ensures r.state == d.state && r.body == d.body && r.lineItems == []
  {
    WriteBody(SetFields(Record(guid, title, "", None, None, None, None, None, None, None, None, None, "", "", [], ""), d), d.body)
  }

  // ---------------------------------------------------------------------
  // processIssues

  /** The first record with an external id (`existingRecords.find`). */
  function FindRecord(recs: seq<Record>, e: string): (r: Option<nat>)
    ensures r.Some? ==> r.value < |recs| && recs[r.value].externalId == e
    ensures r.Some? ==> forall j :: 0 <= j < r.value ==> recs[j].externalId != e
    ensures r.None? ==> forall j :: 0 <= j < |recs| ==> recs[j].externalId != e
  {
    if recs == [] then None
    else if recs[0].externalId == e then Some(0)
    else match FindRecord(recs[1..], e)
      case None => None
      case Some(k) => Some(k + 1)
  }

  lemma FindRecordIs(recs: seq<Record>, e: string, p: nat)
    requires p < |recs| && recs[p].externalId == e
    requires forall j :: 0 <= j < p ==> recs[j].externalId != e
    ensures FindRecord(recs, e) == Some(p)
  {
  }

  /**
   * The state of one `processIssues` run: the records read before the loop (updated in
   * place, since they are live objects), the records created during it (which later issues
   * of the same payload do not see), the counters and the change list.
   */
  datatype PState = PState(snapshot: seq<Record>, added: seq<Record>, created: nat, updated: nat, changes: seq<Change>)

  function Init(store: seq<Record>): PState {
    PState(store, [], 0, 0, [])
  }

  /** One issue: update an existing record when `updated_at` differs, or create one. */
  function Step(st: PState, issue: Issue, newGuid: Option<string>, mapping: seq<(string, string)>): (r: PState)
    ensures SameIds(r.snapshot, st.snapshot)
    ensures st.created <= r.created && st.updated <= r.updated && r.created + r.updated <= st.created + st.updated + 1
    ensures |st.changes| <= |r.changes| <= |st.changes| + (r.created + r.updated - st.created - st.updated)
    ensures |st.added| <= |r.added| <= |st.added| + (r.created - st.created)
    ensures r.changes[..|st.changes|] == st.changes
    ensures forall k :: |st.changes| <= k < |r.changes| ==> (r.changes[k].major <==> r.changes[k].verb != "edited")
  {
    var d := DataOf(issue, mapping);
    match FindRecord(st.snapshot, d.externalId)
    case Some(k) => UpdateStep(st, k, issue, d)
    case None => CreateStep(st, issue, d, newGuid)
  }

  /** The issue's record `k` exists: rewritten, counted and logged unless `updated_at` is
   *  unchanged. A state change is logged as major with the verb of the new state; any other
   *  edit as a minor "edited". */
  function UpdateStep(st: PState, k: nat, issue: Issue, d: IssueData): (r: PState)
    requires k < |st.snapshot|
    ensures st.snapshot[k].updatedAt == issue.updatedAt ==> r == st
    ensures st.snapshot[k].updatedAt != issue.updatedAt ==>
      var prior := st.snapshot[k];
      var ns := MergeState(prior.state, issue.state);
      && r.created == st.created && r.updated == st.updated + 1 && r.added == st.added
      && |r.snapshot| == |st.snapshot|
      && (forall j :: 0 <= j < |st.snapshot| && j != k ==> r.snapshot[j] == st.snapshot[j])
      && r.snapshot[k].guid == prior.guid && r.snapshot[k].updatedAt == d.updatedAt
      && r.snapshot[k].state == (if ns.Some? then ns else prior.state)
      && r.snapshot[k].body == (if d.body != "" then d.body else prior.body)
      && r.changes == st.changes + [Change(if ns.Some? then StateToVerb(ns.value, IsMerged(issue)) else "edited",
                                           issue.title, prior.guid, ns.Some?)]
  {
    if st.snapshot[k].updatedAt == issue.updatedAt then st
    else
      var ns := MergeState(st.snapshot[k].state, issue.state);
      var change := if ns.Some? then Change(StateToVerb(ns.value, IsMerged(issue)), issue.title, st.snapshot[k].guid, true)
                    else Change("edited", issue.title, st.snapshot[k].guid, false);
      st.(snapshot := st.snapshot[k := WriteBody(SetFields(st.snapshot[k], d.(state := ns)), d.body)],
          updated := st.updated + 1, changes := st.changes + [change])
  }

  /** No record yet: one is counted, and added and logged when the collection gives it a guid.
   *  The new record starts Open or Closed as GitHub says, and its change is always major. */
  function CreateStep(st: PState, issue: Issue, d: IssueData, newGuid: Option<string>): (r: PState)
    ensures r.created == st.created + 1 && r.updated == st.updated && r.snapshot == st.snapshot
    ensures newGuid.None? ==> r.added == st.added && r.changes == st.changes
    ensures newGuid.Some? ==>
      var init := if issue.state == "open" then "Open" else "Closed";
      && r.added == st.added + [Created(newGuid.value, issue.title, d.(state := Some(init)))]
      && r.changes == st.changes + [Change(StateToVerb(init, IsMerged(issue)), issue.title, newGuid.value, true)]
  {
    var init := if issue.state == "open" then "Open" else "Closed";
    match newGuid
    case None => st.(created := st.created + 1)
    case Some(g) =>
      st.(added := st.added + [Created(g, issue.title, d.(state := Some(init)))],
          created := st.created + 1,
          changes := st.changes + [Change(StateToVerb(init, IsMerged(issue)), issue.title, g, true)])
  }

  /**
   * `processIssues` over a payload. `newGuids[k]` is the guid the collection gives the record
   * created for issue k, or None when `createRecord` yields no record; the counter is raised
   * either way, but only a record that exists gets a change entry.
   */
  function Process(store: seq<Record>, issues: seq<Issue>, newGuids: seq<Option<string>>, mapping: seq<(string, string)>): (r: PState)
    requires |newGuids| == |issues|
    ensures r.created + r.updated <= |issues| && |r.changes| <= r.created + r.updated
    ensures |r.added| <= r.created && SameIds(r.snapshot, store)
    ensures forall k :: 0 <= k < |r.changes| ==> (r.changes[k].major <==> r.changes[k].verb != "edited")
  {
    if issues == [] then Init(store)
    else
      var n := |issues| - 1;
      var prev := Process(store, issues[..n], newGuids[..n], mapping);
      var r := Step(prev, issues[n], newGuids[n], mapping);
      assert forall k :: 0 <= k < |prev.changes| ==> r.changes[k] == prev.changes[k];
      r
  }

  /** The loop of `processIssues`, proved to compute `Process`. */
  method ProcessIssues(store: seq<Record>, issues: seq<Issue>, newGuids: seq<Option<string>>, mapping: seq<(string, string)>)
    returns (created: nat, updated: nat, changes: seq<Change>, snapshot: seq<Record>, added: seq<Record>)
    requires |newGuids| == |issues|
    ensures PState(snapshot, added, created, updated, changes) == Process(store, issues, newGuids, mapping)
  {
    created, updated, changes, snapshot, added := 0, 0, [], store, [];
    var i := 0;
    while i < |issues|
      invariant 0 <= i <= |issues|
      invariant PState(snapshot, added, created, updated, changes) == Process(store, issues[..i], newGuids[..i], mapping)
    {
      created, updated, changes, snapshot, added := ProcessIssue(created, updated, changes, snapshot, added, issues[i], newGuids[i], mapping);
      ProcessSnoc(store, issues, newGuids, mapping, i);
      i := i + 1;
    }
    assert issues[..i] == issues;
    assert newGuids[..i] == newGuids;
  }

  /** Processing one more issue of the payload is one more `Step`. */
  lemma ProcessSnoc(store: seq<Record>, issues: seq<Issue>, newGuids: seq<Option<string>>, mapping: seq<(string, string)>, i: nat)
    requires |newGuids| == |issues| && i < |issues|
    ensures Process(store, issues[..i + 1], newGuids[..i + 1], mapping) ==
      Step(Process(store, issues[..i], newGuids[..i], mapping), issues[i], newGuids[i], mapping)
  {
    assert issues[..i + 1][..i] == issues[..i];
    assert newGuids[..i + 1][..i] == newGuids[..i];
  }

  /** The body of the loop for one issue. */
  method ProcessIssue(created0: nat, updated0: nat, changes0: seq<Change>, snapshot0: seq<Record>, added0: seq<Record>,
                      issue: Issue, newGuid: Option<string>, mapping: seq<(string, string)>)
    returns (created: nat, updated: nat, changes: seq<Change>, snapshot: seq<Record>, added: seq<Record>)
    ensures PState(snapshot, added, created, updated, changes) ==
      Step(PState(snapshot0, added0, created0, updated0, changes0), issue, newGuid, mapping)
  {
    var data := DataOf(issue, mapping);
    var existing := FindRecord(snapshot0, data.externalId);
    if existing.Some? {
      created, updated, changes, snapshot, added :=
        UpdateIssue(created0, updated0, changes0, snapshot0, added0, existing.value, issue, data);
    } else {
      created, updated, changes, snapshot, added :=
        CreateIssue(created0, updated0, changes0, snapshot0, added0, issue, data, newGuid);
    }
  }

  /** An issue whose record `k` already exists. */
  method UpdateIssue(created0: nat, updated0: nat, changes0: seq<Change>, snapshot0: seq<Record>, added0: seq<Record>,
                     k: nat, issue: Issue, data: IssueData)
    returns (created: nat, updated: nat, changes: seq<Change>, snapshot: seq<Record>, added: seq<Record>)
    requires k < |snapshot0|
    ensures PState(snapshot, added, created, updated, changes) ==
      UpdateStep(PState(snapshot0, added0, created0, updated0, changes0), k, issue, data)
  {
    created, updated, changes, snapshot, added := created0, updated0, changes0, snapshot0, added0;
    if snapshot[k].updatedAt != issue.updatedAt {
      var newState := MergeState(snapshot[k].state, issue.state);
      var verb, major;
      if newState.Some? {
        verb, major := StateToVerb(newState.value, IsMerged(issue)), true;
      } else {
        verb, major := "edited", false;
      }
      snapshot := snapshot[k := WriteBody(SetFields(snapshot[k], data.(state := newState)), data.body)];
      updated := updated + 1;
      changes := changes + [Change(verb, issue.title, snapshot[k].guid, major)];
    }
  }

  /** An issue without a record: `createRecord`, which may yield none. */
  method CreateIssue(created0: nat, updated0: nat, changes0: seq<Change>, snapshot0: seq<Record>, added0: seq<Record>,
                     issue: Issue, data: IssueData, newGuid: Option<string>)
    returns (created: nat, updated: nat, changes: seq<Change>, snapshot: seq<Record>, added: seq<Record>)
    ensures PState(snapshot, added, created, updated, changes) ==
      CreateStep(PState(snapshot0, added0, created0, updated0, changes0), issue, data, newGuid)
  {
    created, updated, changes, snapshot, added := created0, updated0, changes0, snapshot0, added0;
    var initial := if issue.state == "open" then "Open" else "Closed";
    created := created + 1;
    if newGuid.Some? {
      var g := newGuid.value;
      added := added + [Created(g, issue.title, data.(state := Some(initial)))];
      changes := changes + [Change(StateToVerb(initial, IsMerged(issue)), issue.title, g, true)];
    }
  }

  // ---------------------------------------------------------------------
  // Re-running a sync on the same payload

  /** The record an issue maps to exists and carries the issue's `updated_at`. */
  predicate Settled(store: seq<Record>, issue: Issue) {
    var k := FindRecord(store, ExternalId(issue));
    k.Some? && store[k.value].updatedAt == issue.updatedAt
  }

  /** When every issue is settled, processing changes, counts and creates nothing. */
  lemma {:induction false} SettledIsQuiet(store: seq<Record>, issues: seq<Issue>, newGuids: seq<Option<string>>, mapping: seq<(string, string)>)
    requires |newGuids| == |issues|
    requires forall i :: 0 <= i < |issues| ==> Settled(store, issues[i])
    ensures Process(store, issues, newGuids, mapping) == Init(store)
  {
    if issues != [] {
      var n := |issues| - 1;
      SettledIsQuiet(store, issues[..n], newGuids[..n], mapping);
      assert Settled(store, issues[n]);
    }
  }

  function ExtIds(issues: seq<Issue>): (r: seq<string>)
    ensures |r| == |issues| && forall i :: 0 <= i < |issues| ==> r[i] == ExternalId(issues[i])
  {
    seq(|issues|, i requires 0 <= i < |issues| => ExternalId(issues[i]))
  }

  predicate SameIds(a: seq<Record>, b: seq<Record>) {
    |a| == |b| && forall k :: 0 <= k < |a| ==> a[k].externalId == b[k].externalId
  }

  /** What a run has established after a prefix of a payload with distinct ids. */
  predicate Inv(store: seq<Record>, st: PState, prefix: seq<Issue>) {
    SameIds(st.snapshot, store) &&
    (forall j :: 0 <= j < |st.added| ==> st.added[j].externalId in ExtIds(prefix)) &&
    (forall i :: 0 <= i < |prefix| ==> Settled(st.snapshot + st.added, prefix[i]))
  }

  /** What one step does to the records: it touches the issue's record and nothing else. */
  lemma StepEffect(st: PState, issue: Issue, g: string, mapping: seq<(string, string)>)
    ensures var r := Step(st, issue, Some(g), mapping);
      match FindRecord(st.snapshot, ExternalId(issue))
      case Some(k) =>
        r.added == st.added && r.snapshot[k].updatedAt == issue.updatedAt &&
        forall j :: 0 <= j < |st.snapshot| && j != k ==> r.snapshot[j] == st.snapshot[j]
      case None =>
        r.snapshot == st.snapshot && |r.added| == |st.added| + 1 && r.added[..|st.added|] == st.added &&
        r.added[|st.added|].externalId == ExternalId(issue) && r.added[|st.added|].updatedAt == issue.updatedAt
  {
  }

  lemma StepKeepsInv(store: seq<Record>, st: PState, prefix: seq<Issue>, issue: Issue, g: string, mapping: seq<(string, string)>)
    requires Inv(store, st, prefix)
    requires ExternalId(issue) !in ExtIds(prefix)
    ensures Inv(store, Step(st, issue, Some(g), mapping), prefix + [issue])
  {
    var st' := Step(st, issue, Some(g), mapping);
    StepEffect(st, issue, g, mapping);
    if FindRecord(st.snapshot, ExternalId(issue)).Some? {
      SettledAfterUpdate(st, st', prefix, issue);
    } else {
      SettledAfterCreate(st, st', prefix, issue);
    }
    InvSnoc(store, st, st', prefix, issue);
  }

  /** The invariant grows by one issue once that issue and the earlier ones are settled. */
  lemma InvSnoc(store: seq<Record>, st: PState, st': PState, prefix: seq<Issue>, issue: Issue)
    requires SameIds(st'.snapshot, store)
    requires st'.added == st.added || (|st'.added| == |st.added| + 1 && st'.added[..|st.added|] == st.added &&
                                       st'.added[|st.added|].externalId == ExternalId(issue))
    requires forall j :: 0 <= j < |st.added| ==> st.added[j].externalId in ExtIds(prefix)
    requires forall i :: 0 <= i < |prefix| ==> Settled(st'.snapshot + st'.added, prefix[i])
    requires Settled(st'.snapshot + st'.added, issue)
    ensures Inv(store, st', prefix + [issue])
  {
    var prefix' := prefix + [issue];
    assert ExtIds(prefix') == ExtIds(prefix) + [ExternalId(issue)];
    assert forall i :: 0 <= i < |prefix| ==> prefix'[i] == prefix[i];
    assert prefix'[|prefix|] == issue;
    forall j | 0 <= j < |st'.added|
      ensures st'.added[j].externalId in ExtIds(prefix')
    {
      if j < |st.added| {
        assert st'.added[j] == st.added[j];
      }
    }
  }

  lemma SettledAfterUpdate(st: PState, st': PState, prefix: seq<Issue>, issue: Issue)
    requires FindRecord(st.snapshot, ExternalId(issue)).Some?
    requires var k := FindRecord(st.snapshot, ExternalId(issue)).value;
      st'.added == st.added && SameIds(st'.snapshot, st.snapshot) && st'.snapshot[k].updatedAt == issue.updatedAt &&
      forall j :: 0 <= j < |st.snapshot| && j != k ==> st'.snapshot[j] == st.snapshot[j]
    requires ExternalId(issue) !in ExtIds(prefix)
    requires forall i :: 0 <= i < |prefix| ==> Settled(st.snapshot + st.added, prefix[i])
    ensures forall i :: 0 <= i < |prefix| ==> Settled(st'.snapshot + st'.added, prefix[i])
    ensures Settled(st'.snapshot + st'.added, issue)
  {
    var e := ExternalId(issue);
    var k := FindRecord(st.snapshot, e).value;
    var before := st.snapshot + st.added;
    var after := st'.snapshot + st'.added;
    assert SameIds(after, before);
    forall i | 0 <= i < |prefix|
      ensures Settled(after, prefix[i])
    {
      var ei := ExternalId(prefix[i]);
      assert ei != e by { assert ExtIds(prefix)[i] == ei; }
      var p := FindRecord(before, ei).value;
      FindRecordIs(after, ei, p);
      assert after[p] == before[p];
    }
    FindRecordIs(after, e, k);
  }

  lemma SettledAfterCreate(st: PState, st': PState, prefix: seq<Issue>, issue: Issue)
    requires FindRecord(st.snapshot, ExternalId(issue)).None?
    requires st'.snapshot == st.snapshot && |st'.added| == |st.added| + 1 && st'.added[..|st.added|] == st.added
    requires st'.added[|st.added|].externalId == ExternalId(issue) && st'.added[|st.added|].updatedAt == issue.updatedAt
    requires ExternalId(issue) !in ExtIds(prefix)
    requires forall j :: 0 <= j < |st.added| ==> st.added[j].externalId in ExtIds(prefix)
    requires forall i :: 0 <= i < |prefix| ==> Settled(st.snapshot + st.added, prefix[i])
    ensures forall i :: 0 <= i < |prefix| ==> Settled(st'.snapshot + st'.added, prefix[i])
    ensures Settled(st'.snapshot + st'.added, issue)
  {
    var e := ExternalId(issue);
    var before := st.snapshot + st.added;
    var after := st'.snapshot + st'.added;
    assert after[..|before|] == before;
    forall i | 0 <= i < |prefix|
      ensures Settled(after, prefix[i])
    {
      var ei := ExternalId(prefix[i]);
      var p := FindRecord(before, ei).value;
      assert forall j :: 0 <= j <= p ==> after[j] == before[j];
      FindRecordIs(after, ei, p);
    }
    forall j | 0 <= j < |before|
      ensures after[j].externalId != e
    {
      assert after[j] == before[j];
      if j >= |st.snapshot| {
        assert before[j] == st.added[j - |st.snapshot|];
      }
    }
    FindRecordIs(after, e, |before|);
  }

  predicate DistinctIssueIds(issues: seq<Issue>) {
    forall i, j :: 0 <= i < j < |issues| ==> issues[i].id != issues[j].id
  }

  /**
   * After a run over a payload with distinct ids in which every creation succeeds, each
   * issue's record exists and carries the issue's `updated_at`.
   */
  lemma {:induction false} FirstRunSettles(store: seq<Record>, issues: seq<Issue>, newGuids: seq<Option<string>>, mapping: seq<(string, string)>)
    requires |newGuids| == |issues| && forall k :: 0 <= k < |newGuids| ==> newGuids[k].Some?
    requires DistinctIssueIds(issues)
    ensures Inv(store, Process(store, issues, newGuids, mapping), issues)
  {
    if issues != [] {
      var n := |issues| - 1;
      var prefix := issues[..n];
      assert prefix + [issues[n]] == issues;
      FirstRunSettles(store, prefix, newGuids[..n], mapping);
      var prev := Process(store, prefix, newGuids[..n], mapping);
      LastIdIsNew(issues);
      StepKeepsInv(store, prev, prefix, issues[n], newGuids[n].value, mapping);
      assert Some(newGuids[n].value) == newGuids[n];
      ProcessUnfold(store, issues, newGuids, mapping);
    }
  }

  lemma ProcessUnfold(store: seq<Record>, issues: seq<Issue>, newGuids: seq<Option<string>>, mapping: seq<(string, string)>)
    requires |newGuids| == |issues| && issues != []
    ensures var n := |issues| - 1;
      Process(store, issues, newGuids, mapping) == Step(Process(store, issues[..n], newGuids[..n], mapping), issues[n], newGuids[n], mapping)
  {
  }

  lemma LastIdIsNew(issues: seq<Issue>)
    requires issues != [] && DistinctIssueIds(issues)
    ensures ExternalId(issues[|issues| - 1]) !in ExtIds(issues[..|issues| - 1])
  {
    var n := |issues| - 1;
    forall i | 0 <= i < n
      ensures ExtIds(issues[..n])[i] != ExternalId(issues[n])
    {
      ExternalIdInjective(issues[i], issues[n]);
    }
  }

  /**
   * Processing the same payload a second time, against the records the first run left,
   * updates nothing, creates nothing and reports no change.
   */
  lemma ReprocessIsQuiet(store: seq<Record>, issues: seq<Issue>, newGuids: seq<Option<string>>, again: seq<Option<string>>, mapping: seq<(string, string)>)
    requires |newGuids| == |issues| && forall k :: 0 <= k < |newGuids| ==> newGuids[k].Some?
    requires |again| == |issues|
    requires DistinctIssueIds(issues)
    ensures var st := Process(store, issues, newGuids, mapping);
      Process(st.snapshot + st.added, issues, again, mapping) == Init(st.snapshot + st.added)
  {
    FirstRunSettles(store, issues, newGuids, mapping);
    var st := Process(store, issues, newGuids, mapping);
    SettledIsQuiet(st.snapshot + st.added, issues, again, mapping);
  }

  // ---------------------------------------------------------------------
  // The sync entry point

  /** The parsed `config` text: projects mapping (keys in order), repos list and query. */
  datatype Config = Config(projects: seq<(string, string)>, repos: seq<string>, query: string)

  /** Mapping keys take over from the older `repos` list whenever there is at least one. */
  function ReposToSync(cfg: Config): (r: seq<string>)
    ensures |cfg.projects| > 0 ==> |r| == |cfg.projects| && forall k :: 0 <= k < |r| ==> r[k] == cfg.projects[k].0
    ensures |cfg.projects| == 0 ==> r == cfg.repos
  {
    if |cfg.projects| > 0 then seq(|cfg.projects|, k requires 0 <= k < |cfg.projects| => cfg.projects[k].0)
    else cfg.repos
  }

  /** `since`: the last run, unless a full sync was asked for. */
  function Since(lastRun: Option<string>, forceFullSync: bool): (r: Option<string>)
    ensures r.Some? <==> lastRun.Some? && lastRun.value != "" && !forceFullSync
    ensures r.Some? ==> r == lastRun
  {
    if lastRun.Some? && lastRun.value != "" && !forceFullSync then lastRun else None
  }

  /** The search query, narrowed to issues updated on or after the day of `since`. */
  function EffectiveQuery(query: string, since: Option<string>): string {
    if since.Some? then query + " updated:>=" + Split(since.value, 'T')[0] else query
  }

  /** For an ISO timestamp the narrowing keeps exactly the date part. */
  lemma IncrementalQueryUsesDate(query: string, date: string, time: string)
    requires 'T' !in date
    ensures EffectiveQuery(query, Some(date + "T" + time)) == query + " updated:>=" + date
  {
    SplitConcat(date, 'T', time);
    SplitWithout(date, 'T');
    assert date + "T" + time == date + ['T'] + time;
  }

  lemma FullSyncQueryUnchanged(query: string, lastRun: Option<string>)
    ensures EffectiveQuery(query, Since(lastRun, true)) == query
  {
  }

  datatype SyncSettings = SyncSettings(token: string, config: Option<Config>, lastRun: Option<string>)

  /** What a sync run fetches: the query (if any) and then each repository. */
  datatype Plan = Plan(query: string, since: Option<string>, repos: seq<string>)

  /**
   * The early exits of `sync` and the plan otherwise. `settings` is None without a Sync Hub
   * record for the plugin; an unparsable config reads as the empty one.
   */
  function SyncPlan(statusKnown: bool, syncHubCollection: bool, settings: Option<SyncSettings>,
                    issuesCollection: bool, forceFullSync: bool): (r: Result<Plan>)
    ensures r.Ok? ==> (statusKnown && syncHubCollection && settings.Some? && settings.value.token != "" &&
                       issuesCollection && (|r.value.repos| > 0 || r.value.query != ""))
    ensures (statusKnown && syncHubCollection && settings.Some? && settings.value.token != "" && issuesCollection &&
             settings.value.config.Some? &&
             (|ReposToSync(settings.value.config.value)| > 0 || settings.value.config.value.query != "")) ==> r.Ok?
    ensures r.Ok? ==> r.value.since == Since(settings.value.lastRun, forceFullSync)
    ensures r.Ok? && settings.value.config.Some? ==> r.value.repos == ReposToSync(settings.value.config.value)
  {
    if !statusKnown then Err("Not configured")
    else if !syncHubCollection then Err("Sync Hub not found")
    else if settings.None? then Err("Not configured")
    else if settings.value.token == "" then Err("No token")
    else
      var cfg := if settings.value.config.Some? then settings.value.config.value else Config([], [], "");
      var repos := ReposToSync(cfg);
      if |repos| == 0 && cfg.query == "" then Err("No repos configured")
      else if !issuesCollection then Err("Issues collection not found")
      else Ok(Plan(cfg.query, Since(settings.value.lastRun, forceFullSync), repos))
  }

  /** The counters and changes one fetch (search or repository) reports. */
  datatype Outcome = Outcome(created: nat, updated: nat, changes: seq<Change>)

  /** Two outcomes together: counts added, changes of the first before those of the second. */
  function AddOutcome(a: Outcome, b: Outcome): Outcome {
    Outcome(a.created + b.created, a.updated + b.updated, a.changes + b.changes)
  }

  /** `totalCreated += ...; totalUpdated += ...; allChanges = allChanges.concat(...)` over the
   *  search result and then each repository, in order. */
  function Totals(parts: seq<Outcome>): (r: Outcome)
    ensures |r.changes| == SumChanges(parts)
    ensures forall i :: 0 <= i < |parts| ==> parts[i].created <= r.created && parts[i].updated <= r.updated
  {
    if parts == [] then Outcome(0, 0, [])
    else
      var t := Totals(parts[..|parts| - 1]);
      var p := parts[|parts| - 1];
      Outcome(t.created + p.created, t.updated + p.updated, t.changes + p.changes)
  }

  function SumChanges(parts: seq<Outcome>): nat {
    if parts == [] then 0 else SumChanges(parts[..|parts| - 1]) + |parts[|parts| - 1].changes|
  }

  /** `N new, M updated`, or `No changes` when nothing was created or updated. */
  function SyncSummary(t: Outcome): (s: string)
    ensures s == "No changes" <==> t.created == 0 && t.updated == 0
  {
    if t.created > 0 || t.updated > 0 then NatToString(t.created) + " new, " + NatToString(t.updated) + " updated"
    else "No changes"
  }

  /** One fetch alone gives its own counts and changes. */
  lemma TotalsOne(p: Outcome)
    ensures Totals([p]) == p
  {
    assert [p][..0] == [];
  }

  /** Totals over two runs of fetches are the two totals added, the first run's changes
   *  first: the counts are sums and the change list is the in-order concatenation. */
  lemma {:induction false} TotalsAppend(a: seq<Outcome>, b: seq<Outcome>)
    ensures Totals(a + b) == AddOutcome(Totals(a), Totals(b))
    decreases |b|
  {
    if b == [] {
      assert a + b == a;
    } else {
      var n := |b| - 1;
      assert (a + b)[..|a + b| - 1] == a + b[..n];
      TotalsAppend(a, b[..n]);
      assert (Totals(a).changes + Totals(b[..n]).changes) + b[n].changes
          == Totals(a).changes + (Totals(b[..n]).changes + b[n].changes);
    }
  }

  /** A failed fetch reports no counts, so it leaves the totals as they were. */
  lemma {:induction false} FailedFetchAddsNothing(parts: seq<Outcome>)
    ensures Totals(parts + [Outcome(0, 0, [])]) == Totals(parts)
  {
    assert (parts + [Outcome(0, 0, [])])[..|parts|] == parts;
    assert Totals(parts).changes + [] == Totals(parts).changes;
  }

  // ---------------------------------------------------------------------
  // Agent tools

  /** An optional text filter of `toolFindIssues`: a missing or empty filter keeps everything. */
  predicate FilterKeeps(field: Option<string>, filter: Option<string>) {
    filter.None? || filter.value == "" || (field.Some? && ContainsCi(field.value, filter.value))
  }

  predicate Matches(r: Record, state: Option<string>, repo: Option<string>, assignee: Option<string>) {
    FilterKeeps(r.state, state) && FilterKeeps(r.repo, repo) && FilterKeeps(r.assignee, assignee)
  }

  function Filtered(records: seq<Record>, state: Option<string>, repo: Option<string>, assignee: Option<string>): (r: seq<Record>)
    ensures |r| <= |records|
    ensures forall x :: x in r <==> x in records && Matches(x, state, repo, assignee)
  {
    if records == [] then []
    else
      var rest := Filtered(records[1..], state, repo, assignee);
      assert forall x :: x in records <==> x == records[0] || x in records[1..];
      if Matches(records[0], state, repo, assignee) then [records[0]] + rest else rest
  }

  datatype IssueSummary = IssueSummary(guid: string, title: string, state: Option<string>, repo: Option<string>,
                                       number: Option<int>, assignee: Option<string>)

  function SummaryOf(r: Record): IssueSummary {
    IssueSummary(r.guid, r.name, r.state, r.repo, r.number, r.assignee)
  }

  datatype FindResult = FindResult(count: nat, issues: seq<IssueSummary>)

  /**
   * `toolFindIssues`: the count is every matching record, the list at most `limit` of them
   * (10 when the argument is absent). `records` is None without an Issues collection.
   */
  function FindIssues(records: Option<seq<Record>>, state: Option<string>, repo: Option<string>,
                      assignee: Option<string>, limit: Option<int>): (r: Result<FindResult>)
    ensures records.None? <==> r.Err?
    ensures r.Ok? ==> r.value.count == |Filtered(records.value, state, repo, assignee)|
    ensures r.Ok? ==> |r.value.issues| <= r.value.count
    ensures r.Ok? && limit.None? ==> |r.value.issues| == MinInt(r.value.count, 10)
    ensures r.Ok? && limit.Some? && limit.value >= 0 ==> |r.value.issues| == MinInt(r.value.count, limit.value)
    ensures r.Ok? ==> forall k :: 0 <= k < |r.value.issues| ==>
      r.value.issues[k] == SummaryOf(Filtered(records.value, state, repo, assignee)[k])
  {
    if records.None? then Err("Issues collection not found")
    else
      var found := Filtered(records.value, state, repo, assignee);
      var shown := SliceTo(found, if limit.Some? then limit.value else 10);
      Ok(FindResult(|found|, seq(|shown|, k requires 0 <= k < |shown| => SummaryOf(shown[k]))))
  }

  /** `num && num.toString() === query`. */
  predicate NumberIs(r: Record, query: string) {
    r.number.Some? && r.number.value != 0 && IntToString(r.number.value) == query
  }

  predicate NameHas(r: Record, query: string) {
    ContainsCi(r.name, query)
  }

  function FirstWhereNumber(records: seq<Record>, query: string): (r: Option<nat>)
    ensures r.Some? ==> r.value < |records| && NumberIs(records[r.value], query)
    ensures r.Some? ==> forall j :: 0 <= j < r.value ==> !NumberIs(records[j], query)
    ensures r.None? ==> forall j :: 0 <= j < |records| ==> !NumberIs(records[j], query)
  {
    if records == [] then None
    else if NumberIs(records[0], query) then Some(0)
    else match FirstWhereNumber(records[1..], query)
      case None => None
      case Some(k) => Some(k + 1)
  }

  function FirstWhereName(records: seq<Record>, query: string): (r: Option<nat>)
    ensures r.Some? ==> r.value < |records| && NameHas(records[r.value], query)
    ensures r.Some? ==> forall j :: 0 <= j < r.value ==> !NameHas(records[j], query)
    ensures r.None? ==> forall j :: 0 <= j < |records| ==> !NameHas(records[j], query)
  {
    if records == [] then None
    else if NameHas(records[0], query) then Some(0)
    else match FirstWhereName(records[1..], query)
      case None => None
      case Some(k) => Some(k + 1)
  }

  /** The issue a query names: the first by number, else the first whose title contains it. */
  function PickIssue(records: seq<Record>, query: string): (r: Option<nat>)
    ensures r.Some? ==> r.value < |records|
    ensures (exists j :: 0 <= j < |records| && NumberIs(records[j], query)) ==>
      r.Some? && NumberIs(records[r.value], query) && forall j :: 0 <= j < r.value ==> !NumberIs(records[j], query)
    ensures (forall j :: 0 <= j < |records| ==> !NumberIs(records[j], query)) ==>
      r == FirstWhereName(records, query)
    ensures r.None? <==> forall j :: 0 <= j < |records| ==> !NumberIs(records[j], query) && !NameHas(records[j], query)
  {
    match FirstWhereNumber(records, query)
    case Some(k) => Some(k)
    case None => FirstWhereName(records, query)
  }

  datatype IssueDetails = IssueDetails(guid: string, title: string, state: Option<string>, kind: Option<string>,
                                       repo: Option<string>, number: Option<int>, author: Option<string>,
                                       assignee: Option<string>, url: Option<string>, body: string)

  function Concat(texts: seq<string>): string {
    if texts == [] then "" else texts[0] + Concat(texts[1..])
  }

  /** The texts of the record's direct children, one line each. */
  function ChildLines(items: seq<LineItem>, guid: string): (r: seq<string>)
    ensures |r| <= |items|
    ensures forall s :: s in r <==> exists i :: 0 <= i < |items| && items[i].parentGuid == guid && s == Concat(items[i].texts)
  {
    if items == [] then []
    else
      var rest := ChildLines(items[1..], guid);
      if items[0].parentGuid == guid then [Concat(items[0].texts)] + rest else rest
  }

  /** The lines of two runs of items are those of the first run followed by those of the
   *  second: the children are listed in the order of the items. */
  lemma {:induction false} ChildLinesAppend(a: seq<LineItem>, b: seq<LineItem>, guid: string)
    ensures ChildLines(a + b, guid) == ChildLines(a, guid) + ChildLines(b, guid)
  {
    if a != [] {
      assert (a + b)[1..] == a[1..] + b;
      ChildLinesAppend(a[1..], b, guid);
    } else {
      assert a + b == b;
    }
  }

  /** `toolGetIssue`: the picked record's fields, and its body or "(empty)". */
  function GetIssue(records: Option<seq<Record>>, query: string): (r: Result<IssueDetails>)
    ensures records.None? ==> r == Err("Issues collection not found")
    ensures records.Some? ==> (r.Ok? <==> PickIssue(records.value, query).Some?)
    ensures records.Some? && r.Err? ==> r.error == "Issue not found: " + query
    ensures r.Ok? ==> r.value.guid == records.value[PickIssue(records.value, query).value].guid
    ensures r.Ok? ==> r.value.body != ""
    ensures r.Ok? ==>
      var rec := records.value[PickIssue(records.value, query).value];
      var lines := Join(ChildLines(rec.lineItems, rec.guid), "\n");
      r.value == IssueDetails(rec.guid, rec.name, rec.state, rec.kind, rec.repo, rec.number, rec.author,
                              rec.assignee, rec.url, if lines == "" then "(empty)" else lines)
  {
    if records.None? then Err("Issues collection not found")
    else match PickIssue(records.value, query)
      case None => Err("Issue not found: " + query)
      case Some(k) =>
        var rec := records.value[k];
        var body := Join(ChildLines(rec.lineItems, rec.guid), "\n");
        Ok(IssueDetails(rec.guid, rec.name, rec.state, rec.kind, rec.repo, rec.number, rec.author,
                        rec.assignee, rec.url, if body == "" then "(empty)" else body))
  }

  /** The choice label `toolSetIssueState` ends up selecting, if any. */
  function ResolveChoice(state: string, choices: seq<string>): (r: Option<string>)
    ensures state in choices ==> r == Some(state)
    ensures r.Some? ==> r.value in choices && Lower(r.value) == Lower(state)
  {
    if state in choices then Some(state)
    else if Lower("Open") == Lower(state) && "Open" in choices then Some("Open")
    else if Lower("In Progress") == Lower(state) && "In Progress" in choices then Some("In Progress")
    else if Lower("Closed") == Lower(state) && "Closed" in choices then Some("Closed")
    else None
  }

  /** A differently cased "In Progress" reaches its label when no label matches exactly. */
  lemma InProgressAnyCase(state: string, choices: seq<string>)
    requires state !in choices && "In Progress" in choices
    requires Lower(state) == Lower("In Progress")
    ensures ResolveChoice(state, choices) == Some("In Progress")
  {
    assert |Lower("Open")| == 4 && |Lower(state)| == 11;
  }

  /**
   * `toolSetIssueState`: the picked record takes the resolved label; the reply reports
   * success, the record's name and the requested state even when no label matched.
   * `hasStateField` says whether the collection's records have a `state` property.
   */
  function SetIssueState(records: Option<seq<Record>>, issue: string, state: string, choices: seq<string>,
                         hasStateField: bool): (r: Result<(seq<Record>, string, string)>)
    ensures records.None? ==> r == Err("Issues collection not found")
    ensures records.Some? && PickIssue(records.value, issue).None? ==> r == Err("Issue not found: " + issue)
    ensures records.Some? && PickIssue(records.value, issue).Some? && !hasStateField ==> r == Err("State field not found")
    ensures r.Ok? <==> records.Some? && PickIssue(records.value, issue).Some? && hasStateField
    ensures r.Ok? ==> var k := PickIssue(records.value, issue).value;
      |r.value.0| == |records.value| && r.value.1 == records.value[k].name && r.value.2 == state &&
      (forall j :: 0 <= j < |records.value| && j != k ==> r.value.0[j] == records.value[j]) &&
      r.value.0[k] == records.value[k].(state := if ResolveChoice(state, choices).Some? then ResolveChoice(state, choices) else records.value[k].state)
  {
    if records.None? then Err("Issues collection not found")
    else match PickIssue(records.value, issue)
      case None => Err("Issue not found: " + issue)
      case Some(k) =>
        if !hasStateField then Err("State field not found")
        else
          var choice := ResolveChoice(state, choices);
          var rec := records.value[k];
          var recs := if choice.Some? then records.value[k := rec.(state := choice)] else records.value;
          Ok((recs, rec.name, state))
  }

  /** `issue.repo || 'Unknown'`. */
  function RepoKey(i: IssueSummary): string {
    if i.repo.Some? && i.repo.value != "" then i.repo.value else "Unknown"
  }

  datatype Group = Group(repo: string, titles: seq<string>)

  function GroupIndex(gs: seq<Group>, key: string): (r: Option<nat>)
    ensures r.Some? ==> r.value < |gs| && gs[r.value].repo == key
    ensures r.None? ==> forall j :: 0 <= j < |gs| ==> gs[j].repo != key
  {
    if gs == [] then None
    else if gs[0].repo == key then Some(0)
    else match GroupIndex(gs[1..], key)
      case None => None
      case Some(k) => Some(k + 1)
  }

  function AddToGroups(gs: seq<Group>, key: string, title: string): (r: seq<Group>)
    ensures |gs| <= |r| <= |gs| + 1
    ensures forall j :: 0 <= j < |gs| ==> r[j].repo == gs[j].repo
    ensures |r| == |gs| + 1 <==> GroupIndex(gs, key).None?
    ensures |r| == |gs| + 1 ==> r[|gs|] == Group(key, [title])
    ensures GroupIndex(r, key).Some?
  {
    match GroupIndex(gs, key)
    case Some(k) => gs[k := Group(key, gs[k].titles + [title])]
    case None => gs + [Group(key, [title])]
  }

  /** The groups of `toolSummarizeOpen`, in order of first appearance. */
  function GroupByRepo(issues: seq<IssueSummary>): seq<Group> {
    if issues == [] then []
    else
      var n := |issues| - 1;
      AddToGroups(GroupByRepo(issues[..n]), RepoKey(issues[n]), issues[n].title)
  }

  function TotalTitles(gs: seq<Group>): nat {
    if gs == [] then 0 else TotalTitles(gs[..|gs| - 1]) + |gs[|gs| - 1].titles|
  }

  predicate DistinctRepos(gs: seq<Group>) {
    forall i, j :: 0 <= i < j < |gs| ==> gs[i].repo != gs[j].repo
  }

  lemma {:induction false} TotalAppend(gs: seq<Group>, g: Group)
    ensures TotalTitles(gs + [g]) == TotalTitles(gs) + |g.titles|
  {
    assert (gs + [g])[..|gs|] == gs;
  }

  lemma {:induction false} TotalUpdate(gs: seq<Group>, k: nat, g: Group)
    requires k < |gs|
    ensures TotalTitles(gs[k := g]) == TotalTitles(gs) - |gs[k].titles| + |g.titles|
    decreases |gs|
  {
    var n := |gs| - 1;
    if k == n {
      assert gs[k := g][..n] == gs[..n];
    } else {
      TotalUpdate(gs[..n], k, g);
      assert gs[k := g][..n] == gs[..n][k := g];
      assert gs[..n][k] == gs[k];
    }
  }

  /** Every issue lands in exactly one group, and each repository has one group. */
  lemma GroupsPartition(issues: seq<IssueSummary>)
    ensures TotalTitles(GroupByRepo(issues)) == |issues|
    ensures DistinctRepos(GroupByRepo(issues))
    ensures forall i :: 0 <= i < |issues| ==> GroupIndex(GroupByRepo(issues), RepoKey(issues[i])).Some?
  {
    GroupsCount(issues);
    GroupsDistinct(issues);
    GroupsCover(issues);
  }

  lemma {:induction false} GroupsCount(issues: seq<IssueSummary>)
    ensures TotalTitles(GroupByRepo(issues)) == |issues|
  {
    if issues != [] {
      var n := |issues| - 1;
      GroupsCount(issues[..n]);
      var gs := GroupByRepo(issues[..n]);
      var key := RepoKey(issues[n]);
      match GroupIndex(gs, key)
      case Some(k) =>
        TotalUpdate(gs, k, Group(key, gs[k].titles + [issues[n].title]));
      case None =>
        TotalAppend(gs, Group(key, [issues[n].title]));
    }
  }

  lemma {:induction false} GroupsDistinct(issues: seq<IssueSummary>)
    ensures DistinctRepos(GroupByRepo(issues))
  {
    if issues != [] {
      var n := |issues| - 1;
      GroupsDistinct(issues[..n]);
      var gs := GroupByRepo(issues[..n]);
      var gs' := GroupByRepo(issues);
      assert gs' == AddToGroups(gs, RepoKey(issues[n]), issues[n].title);
      forall i, j | 0 <= i < j < |gs'|
        ensures gs'[i].repo != gs'[j].repo
      {
        if j < |gs| {
          assert gs'[i].repo == gs[i].repo && gs'[j].repo == gs[j].repo;
        } else {
          assert gs'[i].repo == gs[i].repo;
        }
      }
    }
  }

  lemma {:induction false} GroupsCover(issues: seq<IssueSummary>)
    ensures forall i :: 0 <= i < |issues| ==> GroupIndex(GroupByRepo(issues), RepoKey(issues[i])).Some?
  {
    if issues != [] {
      var n := |issues| - 1;
      GroupsCover(issues[..n]);
      var gs := GroupByRepo(issues[..n]);
      var gs' := GroupByRepo(issues);
      assert gs' == AddToGroups(gs, RepoKey(issues[n]), issues[n].title);
      forall i | 0 <= i < n
        ensures GroupIndex(gs', RepoKey(issues[i])).Some?
      {
        assert issues[..n][i] == issues[i];
        var p := GroupIndex(gs, RepoKey(issues[i])).value;
        assert gs'[p].repo == RepoKey(issues[i]);
      }
    }
  }

  datatype RepoSummary = RepoSummary(repo: string, count: nat, issues: seq<string>)
  datatype OpenSummary = OpenSummary(totalOpen: nat, byRepo: seq<RepoSummary>)

  /**
   * `toolSummarizeOpen`: the open issues (at most 50 of them) grouped by repository, each
   * group with its size and at most five titles; the total counts every open issue.
   */
  function SummarizeOpen(records: Option<seq<Record>>, repo: Option<string>): (r: Result<OpenSummary>)
    ensures r.Ok? <==> records.Some?
    ensures r.Ok? ==> r.value.totalOpen == |Filtered(records.value, Some("Open"), repo, None)|
    ensures r.Ok? ==> forall k :: 0 <= k < |r.value.byRepo| ==>
      |r.value.byRepo[k].issues| == MinInt(r.value.byRepo[k].count, 5)
  {
    match FindIssues(records, Some("Open"), repo, None, Some(50))
    case Err(e) => Err(e)
    case Ok(found) =>
      var gs := GroupByRepo(found.issues);
      Ok(OpenSummary(found.count, seq(|gs|, k requires 0 <= k < |gs| =>
        RepoSummary(gs[k].repo, |gs[k].titles|, Take(gs[k].titles, 5)))))
  }

  function SumCounts(rs: seq<RepoSummary>): nat {
    if rs == [] then 0 else SumCounts(rs[..|rs| - 1]) + rs[|rs| - 1].count
  }

  /** The group sizes add up to the issues listed: every open issue up to the first 50. */
  lemma SummaryCoversListed(records: seq<Record>, repo: Option<string>)
    ensures var r := SummarizeOpen(Some(records), repo);
      SumCounts(r.value.byRepo) == MinInt(r.value.totalOpen, 50)
  {
    var found := FindIssues(Some(records), Some("Open"), repo, None, Some(50)).value;
    var gs := GroupByRepo(found.issues);
    GroupsPartition(found.issues);
    var rs := SummarizeOpen(Some(records), repo).value.byRepo;
    SumCountsIsTotal(gs, rs);
  }

  lemma {:induction false} SumCountsIsTotal(gs: seq<Group>, rs: seq<RepoSummary>)
    requires |rs| == |gs| && forall k :: 0 <= k < |gs| ==> rs[k].count == |gs[k].titles|
    ensures SumCounts(rs) == TotalTitles(gs)
  {
    if gs != [] {
      var n := |gs| - 1;
      SumCountsIsTotal(gs[..n], rs[..n]);
    }
  }
}
