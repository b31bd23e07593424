// People collection (collections/people/plugin.js): the Keep In Touch choice labels, and the
// agent tools that find and search people, list who is overdue for contact, who works at an
// organization, and who was contacted recently.

module PeopleCollection {
  import opened Common

  /** `KEEP_IN_TOUCH_LABEL_TO_ID`. */
  const KeepInTouch: LabelMap :=
    [("Weekly", "weekly"), ("Monthly", "monthly"), ("Quarterly", "quarterly"), ("Yearly", "yearly"), ("Never", "never")]

  lemma KeepInTouchWellFormed()
    ensures WellFormedLabels(KeepInTouch)
  {
    KeepInTouchIdsLowerCase();
    KeepInTouchDistinct();
    KeepInTouchIdsAreNotLabels();
  }

  lemma KeepInTouchIdsLowerCase()
    ensures LowerCaseIds(KeepInTouch)
  {
    assert LowerCase("weekly") && LowerCase("monthly") && LowerCase("quarterly") && LowerCase("yearly") && LowerCase("never");
  }

  lemma KeepInTouchDistinct()
    ensures DistinctEntries(KeepInTouch)
  {
  }

  lemma KeepInTouchIdsAreNotLabels()
    ensures IdsAreNotLabels(KeepInTouch)
  {
    assert forall i, j :: 0 <= i < |KeepInTouch| && 0 <= j < |KeepInTouch| ==> KeepInTouch[i].1[0] != KeepInTouch[j].0[0];
  }

  /** Each keep-in-touch label maps to its id and back. */
  lemma KeepInTouchRoundTrip(k: nat)
    requires k < |KeepInTouch|
    ensures IdToLabel(KeepInTouch, Some(LabelToId(KeepInTouch, KeepInTouch[k].0))) == Some(KeepInTouch[k].0)
  {
    KeepInTouchWellFormed();
    LabelRoundTrip(KeepInTouch, k);
  }

  /**
   * A People record. `keepInTouch` is the stored choice id; `lastContact` is the last_contact
   * date in milliseconds since the epoch.
   */
  datatype Person = Person(
    guid: string, name: Option<string>, email: Option<string>, organization: Option<string>,
    jobTitle: Option<string>, notes: Option<string>, keepInTouch: Option<string>, lastContact: Option<int>)

  /** `keepInTouchMatches`: the stored choice against a label or id, ignoring case. */
  predicate KeepInTouchMatches(p: Person, target: string) {
    ChoiceMatches(KeepInTouch, p.keepInTouch, target)
  }

  /** A filter by cadence accepts a person stored under that cadence's id in any case. */
  lemma CadenceFindsId(p: Person, k: nat)
    requires k < |KeepInTouch| && p.keepInTouch.Some? && Lower(p.keepInTouch.value) == KeepInTouch[k].1
    ensures KeepInTouchMatches(p, KeepInTouch[k].0) && KeepInTouchMatches(p, KeepInTouch[k].1)
  {
    KeepInTouchWellFormed();
    LabelRoundTrip(KeepInTouch, k);
    LabelOrIdMatches(KeepInTouch, k, p.keepInTouch);
  }

  /** `(a.getName() || '').localeCompare(b.getName() || '') <= 0`. */
  function ByName(a: Person, b: Person): bool {
    StrLe(OrEmpty(a.name), OrEmpty(b.name))
  }

  lemma ByNameTotal()
    ensures Total(ByName)
  {
    StrLeAllTotal();
  }

  // ---------------------------------------------------------------------
  // find

  predicate FindMatches(p: Person, organization: Option<string>, keepInTouch: Option<string>) {
    (!Given(organization) || HasText(p.organization, organization.value)) &&
    (!Given(keepInTouch) || KeepInTouchMatches(p, keepInTouch.value))
  }

  function FindMatching(people: seq<Person>, organization: Option<string>, keepInTouch: Option<string>): (r: seq<Person>)
    ensures multiset(r) <= multiset(people)
    ensures forall p :: p in r <==> p in people && FindMatches(p, organization, keepInTouch)
  {
    Filter(people, p => FindMatches(p, organization, keepInTouch))
  }

  /**
   * `toolFind`: the matching people in name order, the first `limit` of them (20 when the
   * limit is absent or zero). `people` is None without a People collection.
   */
  function Find(people: Option<seq<Person>>, organization: Option<string>, keepInTouch: Option<string>,
                limit: Option<int>): (r: Result<seq<Person>>)
    ensures people.None? ==> r == Err("People collection not found")
    ensures r.Ok? <==> people.Some?
    ensures r.Ok? ==> SortedBy(r.value, ByName)
    ensures r.Ok? ==> var found := FindMatching(people.value, organization, keepInTouch);
      Total(ByName) && |r.value| <= |found| && r.value == SortBy(found, ByName)[..|r.value|]
    ensures r.Ok? ==> multiset(r.value) <= multiset(people.value)
    ensures r.Ok? ==> forall p :: p in r.value ==> FindMatches(p, organization, keepInTouch)
    ensures r.Ok? && LimitOr(limit, 20) >= 0 ==>
      |r.value| == MinInt(|FindMatching(people.value, organization, keepInTouch)|, LimitOr(limit, 20))
  {
    if people.None? then Err("People collection not found")
    else
      ByNameTotal();
      var found := FindMatching(people.value, organization, keepInTouch);
      var shown := SortedSlice(found, ByName, LimitOr(limit, 20));
      assert forall p :: p in shown ==> p in found by {
        forall p | p in shown ensures p in found {
          assert p in multiset(shown);
        }
      }
      Ok(shown)
  }

  // ---------------------------------------------------------------------
  // search

  /** The query in the name, email, organization or notes, ignoring case. */
  predicate SearchMatches(p: Person, query: string) {
    ContainsCi(OrEmpty(p.name), query) || ContainsCi(OrEmpty(p.email), query) ||
    ContainsCi(OrEmpty(p.organization), query) || ContainsCi(OrEmpty(p.notes), query)
  }

  function SearchMatching(people: seq<Person>, query: string): (r: seq<Person>)
    ensures forall p :: p in r <==> p in people && SearchMatches(p, query)
  {
    Filter(people, p => SearchMatches(p, query))
  }

  /** `toolSearch`: a query is required; the first `limit` matches (10 by default), in collection order. */
  function Search(people: Option<seq<Person>>, query: Option<string>, limit: Option<int>): (r: Result<seq<Person>>)
    ensures !Given(query) ==> r == Err("Query required")
    ensures Given(query) && people.None? ==> r == Err("People collection not found")
    ensures r.Ok? <==> Given(query) && people.Some?
    ensures r.Ok? ==> forall p :: p in r.value ==> p in people.value && SearchMatches(p, query.value)
    ensures r.Ok? ==> var all := SearchMatching(people.value, query.value);
      |r.value| <= |all| && r.value == all[..|r.value|] &&
      (LimitOr(limit, 10) >= 0 ==> |r.value| == MinInt(|all|, LimitOr(limit, 10)))
  {
    if !Given(query) then Err("Query required")
    else if people.None? then Err("People collection not found")
    else Ok(SliceTo(SearchMatching(people.value, query.value), LimitOr(limit, 10)))
  }

  // ---------------------------------------------------------------------
  // needs_contact

  /** Milliseconds in a day. */
  const DayMs: int := 86400000

  /** The days a cadence allows between contacts; None for a cadence without a threshold. */
  function AllowedDays(cadence: string): (d: Option<nat>)
    ensures d.Some? <==> cadence in {"Weekly", "Monthly", "Quarterly", "Yearly"}
  {
    if cadence == "Weekly" then Some(7)
    else if cadence == "Monthly" then Some(30)
    else if cadence == "Quarterly" then Some(90)
    else if cadence == "Yearly" then Some(365)
    else None
  }

  /**
   * The filter of `toolNeedsContact` at time `now`: a cadence other than Never, and either
   * no recorded contact or more whole-and-fractional days since it than the cadence allows.
   * `(now - last) / day > n` is `now - last > n * day` over the reals.
   */
  predicate Overdue(p: Person, now: int) {
    var cadence := IdToLabel(KeepInTouch, p.keepInTouch);
    cadence.Some? && cadence.value != "Never" &&
    (p.lastContact.None? ||
     (AllowedDays(cadence.value).Some? && now - p.lastContact.value > AllowedDays(cadence.value).value * DayMs))
  }

  /** Whoever is overdue stays overdue as time passes. */
  lemma OverdueStays(p: Person, now: int, later: int)
    requires Overdue(p, now) && now <= later
    ensures Overdue(p, later)
  {
  }

  /** A weekly contact is overdue exactly when more than seven days have passed. */
  lemma WeeklyThreshold(p: Person, now: int, id: string)
    requires p.keepInTouch == Some(id) && Lower(id) == "weekly" && p.lastContact.Some?
    ensures Overdue(p, now) <==> now - p.lastContact.value > 7 * DayMs
  {
    KeepInTouchWellFormed();
    IdToLabelIgnoresCase(KeepInTouch, 0, id);
  }

  /** Never, an empty or unknown cadence: never overdue once a contact is recorded. */
  lemma NoCadenceNoReminder(p: Person, now: int)
    requires p.lastContact.Some?
    requires var c := IdToLabel(KeepInTouch, p.keepInTouch); c.None? || c.value !in {"Weekly", "Monthly", "Quarterly", "Yearly"}
    ensures !Overdue(p, now)
  {
  }

  /** People with a cadence other than Never and no recorded contact are always overdue. */
  lemma NeverContactedIsOverdue(p: Person, now: int)
    requires p.lastContact.None? && Given(p.keepInTouch) && Lower(p.keepInTouch.value) != "never"
    ensures Overdue(p, now)
  {
    KeepInTouchWellFormed();
  }

  /** The last contact a sort compares: `new Date(0)` when there is none. */
  function ContactMillis(p: Person): (t: int)
    ensures p.lastContact.Some? ==> t == p.lastContact.value
    ensures p.lastContact.None? ==> t == 0
  {
    if p.lastContact.Some? then p.lastContact.value else 0
  }

  /** `dateA - dateB <= 0`: the longest-neglected first. */
  function OldestFirst(a: Person, b: Person): bool {
    ContactMillis(a) <= ContactMillis(b)
  }

  /** `dateB - dateA <= 0`: the most recent first. */
  function NewestFirst(a: Person, b: Person): bool {
    ContactMillis(b) <= ContactMillis(a)
  }

  lemma ContactOrders()
    ensures Total(OldestFirst) && Transitive(OldestFirst)
    ensures Total(NewestFirst) && Transitive(NewestFirst)
  {
  }

  function OverdueAt(people: seq<Person>, now: int): (r: seq<Person>)
    ensures multiset(r) <= multiset(people)
    ensures forall p :: p in r <==> p in people && Overdue(p, now)
  {
    Filter(people, p => Overdue(p, now))
  }

  /**
   * `toolNeedsContact`: the overdue people at `now`, longest-neglected first (never contacted
   * counts as the epoch), the first `limit` (10 by default).
   */
  function NeedsContact(people: Option<seq<Person>>, now: int, limit: Option<int>): (r: Result<seq<Person>>)
    ensures people.None? ==> r == Err("People collection not found")
    ensures r.Ok? <==> people.Some?
    ensures r.Ok? ==> SortedBy(r.value, OldestFirst) && multiset(r.value) <= multiset(people.value)
    ensures r.Ok? ==> var found := OverdueAt(people.value, now);
      Total(OldestFirst) && |r.value| <= |found| && r.value == SortBy(found, OldestFirst)[..|r.value|]
    ensures r.Ok? ==> forall p :: p in r.value ==> Overdue(p, now)
    ensures r.Ok? && LimitOr(limit, 10) >= 0 ==> |r.value| == MinInt(|OverdueAt(people.value, now)|, LimitOr(limit, 10))
  {
    if people.None? then Err("People collection not found")
    else
      ContactOrders();
      var found := OverdueAt(people.value, now);
      var shown := SortedSlice(found, OldestFirst, LimitOr(limit, 10));
      assert forall p :: p in shown ==> p in found by {
        forall p | p in shown ensures p in found {
          assert p in multiset(shown);
        }
      }
      Ok(shown)
  }

  /** In `needs_contact`'s answer the never-contacted come before anyone contacted after the epoch. */
  lemma NeverContactedFirst(people: Option<seq<Person>>, now: int, limit: Option<int>, i: nat, j: nat)
    requires NeedsContact(people, now, limit).Ok?
    requires var r := NeedsContact(people, now, limit).value;
      i < |r| && j < |r| && r[i].lastContact.None? && r[j].lastContact.Some? && r[j].lastContact.value > 0
    ensures i < j
  {
    var r := NeedsContact(people, now, limit).value;
    ContactOrders();
    if j < i {
      SortedPairs(r, OldestFirst, j, i);
    }
  }

  // ---------------------------------------------------------------------
  // at_organization

  datatype Colleagues = Colleagues(organization: string, count: nat, people: seq<Person>)

  function AtOrganizationMatching(people: seq<Person>, organization: string): (r: seq<Person>)
    ensures multiset(r) <= multiset(people)
    ensures forall p :: p in r <==> p in people && HasText(p.organization, organization)
  {
    Filter(people, (p: Person) => HasText(p.organization, organization))
  }

  /**
   * `toolAtOrganization`: an organization is required; everyone whose organization contains
   * it, in name order and without a limit, with their number.
   */
  function AtOrganization(people: Option<seq<Person>>, organization: Option<string>): (r: Result<Colleagues>)
    ensures !Given(organization) ==> r == Err("Organization required")
    ensures Given(organization) && people.None? ==> r == Err("People collection not found")
    ensures r.Ok? <==> Given(organization) && people.Some?
    ensures r.Ok? ==> r.value.organization == organization.value && r.value.count == |r.value.people|
    ensures r.Ok? ==> SortedBy(r.value.people, ByName)
    ensures r.Ok? ==> multiset(r.value.people) == multiset(AtOrganizationMatching(people.value, organization.value))
  {
    if !Given(organization) then Err("Organization required")
    else if people.None? then Err("People collection not found")
    else
      ByNameTotal();
      var found := SortBy(AtOrganizationMatching(people.value, organization.value), ByName);
      Ok(Colleagues(organization.value, |found|, found))
  }

  // ---------------------------------------------------------------------
  // recent_contacts

  /** `cutoff.setDate(cutoff.getDate() - days)`, counted as whole days of `DayMs`. */
  function Cutoff(now: int, days: Option<int>): (c: int)
    ensures days.None? || days.value == 0 ==> c == now - 30 * DayMs
    ensures days.Some? && days.value != 0 ==> c == now - days.value * DayMs
  {
    now - LimitOr(days, 30) * DayMs
  }

  predicate ContactedSince(p: Person, cutoff: int) {
    p.lastContact.Some? && p.lastContact.value >= cutoff
  }

  function ContactedSinceAll(people: seq<Person>, cutoff: int): (r: seq<Person>)
    ensures multiset(r) <= multiset(people)
    ensures forall p :: p in r <==> p in people && ContactedSince(p, cutoff)
  {
    Filter(people, p => ContactedSince(p, cutoff))
  }

  /**
   * `toolRecentContacts`: people contacted on or after `days` days before `now` (30 by
   * default), most recent first, the first `limit` (10 by default).
   */
  function RecentContacts(people: Option<seq<Person>>, now: int, days: Option<int>, limit: Option<int>): (r: Result<seq<Person>>)
    ensures people.None? ==> r == Err("People collection not found")
    ensures r.Ok? <==> people.Some?
    ensures r.Ok? ==> SortedBy(r.value, NewestFirst) && multiset(r.value) <= multiset(people.value)
    ensures r.Ok? ==> var found := ContactedSinceAll(people.value, Cutoff(now, days));
      Total(NewestFirst) && |r.value| <= |found| && r.value == SortBy(found, NewestFirst)[..|r.value|]
    ensures r.Ok? ==> forall p :: p in r.value ==> p.lastContact.Some? && p.lastContact.value >= Cutoff(now, days)
    ensures r.Ok? && LimitOr(limit, 10) >= 0 ==>
      |r.value| == MinInt(|ContactedSinceAll(people.value, Cutoff(now, days))|, LimitOr(limit, 10))
  {
    if people.None? then Err("People collection not found")
    else
      ContactOrders();
      var found := ContactedSinceAll(people.value, Cutoff(now, days));
      var shown := SortedSlice(found, NewestFirst, LimitOr(limit, 10));
      assert forall p :: p in shown ==> p in found by {
        forall p | p in shown ensures p in found {
          assert p in multiset(shown);
        }
      }
      Ok(shown)
  }

  /** Someone overdue on a weekly cadence was not contacted within the last week. */
  lemma WeeklyOverdueNotRecent(p: Person, now: int, id: string)
    requires p.keepInTouch == Some(id) && Lower(id) == "weekly" && Overdue(p, now)
    ensures !ContactedSince(p, Cutoff(now, Some(7)))
  {
    if p.lastContact.Some? {
      WeeklyThreshold(p, now, id);
    }
  }
}
