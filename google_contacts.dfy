// Google Contacts Sync (plugins/google-contacts/plugin.js): how a Google People API contact
// becomes the field values of a People record, how a fetched list is merged into the
// collection, which fields a sync may overwrite, the agent tools over People, and the
// validation of the OAuth message that delivers the refresh token.

module GoogleContacts {
  import opened Common

  // ---------------------------------------------------------------------
  // Contacts as the People API returns them

  datatype Name = Name(displayName: Option<string>, givenName: Option<string>, familyName: Option<string>)
  datatype Entry = Entry(value: Option<string>, primary: bool)
  datatype Org = Org(name: Option<string>, title: Option<string>)
  /** A Google date; a zero part stands for a part Google leaves out. */
  datatype DateParts = DateParts(year: nat, month: nat, day: nat)
  datatype Event = Event(kind: string, date: Option<DateParts>)

  datatype Contact = Contact(
    resourceName: Option<string>, names: seq<Name>, emails: seq<Entry>, phones: seq<Entry>,
    organizations: seq<Org>, events: seq<Event>, biographies: seq<Option<string>>,
    updateTime: Option<string>)

  /** The display name, else the given and family names joined by a space, else "". */
  function DisplayName(names: seq<Name>): (r: string)
    ensures r != "" <==> names != [] && (Given(names[0].displayName) || Given(names[0].givenName) || Given(names[0].familyName))
    ensures names != [] && Given(names[0].displayName) ==> r == names[0].displayName.value
  {
    if names == [] then ""
    else
      var n := names[0];
      if Given(n.displayName) then n.displayName.value
      else
        var parts := (if Given(n.givenName) then [n.givenName.value] else []) +
                     (if Given(n.familyName) then [n.familyName.value] else []);
        Join(parts, " ")
  }

  /** Both name parts present: they are joined with one space. */
  lemma FullNameJoined(given: string, family: string)
    requires given != "" && family != ""
    ensures DisplayName([Name(None, Some(given), Some(family))]) == given + " " + family
  {
    assert ([given] + [family])[1..] == [family];
  }

  /** The first entry marked primary, else the first entry. */
  function PrimaryIndex(entries: seq<Entry>): (r: Option<nat>)
    ensures r.Some? <==> entries != []
    ensures r.Some? ==> r.value < |entries|
    ensures (exists k :: 0 <= k < |entries| && entries[k].primary) ==>
      r.Some? && entries[r.value].primary && forall j :: 0 <= j < r.value ==> !entries[j].primary
    ensures (forall k :: 0 <= k < |entries| ==> !entries[k].primary) && entries != [] ==> r == Some(0)
  {
    if entries == [] then None
    else match FirstPrimary(entries)
      case Some(k) => Some(k)
      case None => Some(0)
  }

  function FirstPrimary(entries: seq<Entry>): (r: Option<nat>)
    ensures r.Some? ==> r.value < |entries| && entries[r.value].primary
    ensures r.Some? ==> forall j :: 0 <= j < r.value ==> !entries[j].primary
    ensures r.None? ==> forall j :: 0 <= j < |entries| ==> !entries[j].primary
  {
    if entries == [] then None
    else if entries[0].primary then Some(0)
    else match FirstPrimary(entries[1..])
      case None => None
      case Some(k) => Some(k + 1)
  }

  function PrimaryValue(entries: seq<Entry>): string {
    match PrimaryIndex(entries)
    case None => ""
    case Some(k) => OrEmpty(entries[k].value)
  }

  function FirstAnniversary(events: seq<Event>): (r: Option<nat>)
    ensures r.Some? ==> r.value < |events| && events[r.value].kind == "anniversary"
    ensures r.Some? ==> forall j :: 0 <= j < r.value ==> events[j].kind != "anniversary"
    ensures r.None? ==> forall j :: 0 <= j < |events| ==> events[j].kind != "anniversary"
  {
    if events == [] then None
    else if events[0].kind == "anniversary" then Some(0)
    else match FirstAnniversary(events[1..])
      case None => None
      case Some(k) => Some(k + 1)
  }

  /** `YYYY-MM-DD` of the first anniversary event, when its date has all three parts. */
  function Anniversary(events: seq<Event>): (r: Option<string>)
    ensures r.Some? <==> (FirstAnniversary(events).Some? && events[FirstAnniversary(events).value].date.Some? &&
      var d := events[FirstAnniversary(events).value].date.value; d.year != 0 && d.month != 0 && d.day != 0)
  {
    match FirstAnniversary(events)
    case None => None
    case Some(k) =>
      match events[k].date
      case None => None
      case Some(d) =>
        if d.year != 0 && d.month != 0 && d.day != 0 then
          Some(NatToString(d.year) + "-" + Pad2(d.month) + "-" + Pad2(d.day))
        else None
  }

  /** The written date splits at the dashes into the year, month and day it came from. */
  lemma AnniversaryRoundTrip(events: seq<Event>)
    requires Anniversary(events).Some?
    requires var d := events[FirstAnniversary(events).value].date.value; d.month < 100 && d.day < 100
    ensures var d := events[FirstAnniversary(events).value].date.value;
      var parts := Split(Anniversary(events).value, '-');
      |parts| == 3 && AllDigits(parts[0]) && AllDigits(parts[1]) && AllDigits(parts[2]) &&
      ParseNat(parts[0]) == d.year && |parts[1]| == 2 && ParseNat(parts[1]) == d.month &&
      |parts[2]| == 2 && ParseNat(parts[2]) == d.day
  {
    var d := events[FirstAnniversary(events).value].date.value;
    var y, m, dd := NatToString(d.year), Pad2(d.month), Pad2(d.day);
    assert Anniversary(events).value == y + ['-'] + (m + ['-'] + dd);
    NoDash(y);
    NoDash(m);
    NoDash(dd);
    SplitConcat(y, '-', m + ['-'] + dd);
    SplitConcat(m, '-', dd);
    SplitWithout(y, '-');
    SplitWithout(m, '-');
    SplitWithout(dd, '-');
    ParseNatOfNatToString(d.year);
    Pad2RoundTrip(d.month);
    Pad2RoundTrip(d.day);
  }

  lemma NoDash(s: string)
    requires AllDigits(s)
    ensures '-' !in s
  {
  }

  /** The field values `mapContactToRecord` derives. */
  datatype ContactData = ContactData(
    externalId: string, title: string, email: string, phone: string, organization: string,
    jobTitle: string, notes: string, anniversary: Option<string>, updatedAt: string)

  function ExternalId(resourceName: string): string {
    "gcontacts_" + resourceName
  }

  function UpdatedAt(c: Contact): string {
    OrEmpty(c.updateTime)
  }

  /** `mapContactToRecord`. */
  function MapContact(c: Contact, externalId: string): (d: ContactData)
    ensures d.externalId == externalId && d.title == DisplayName(c.names) && d.updatedAt == UpdatedAt(c)
    ensures d.notes != "" <==> c.biographies != [] && Given(c.biographies[0])
    ensures d.anniversary == Anniversary(c.events)
  {
    var org := if c.organizations == [] then Org(None, None) else c.organizations[0];
    ContactData(externalId, DisplayName(c.names), PrimaryValue(c.emails), PrimaryValue(c.phones),
      OrEmpty(org.name), OrEmpty(org.title),
      if c.biographies == [] then "" else OrEmpty(c.biographies[0]),
      Anniversary(c.events), UpdatedAt(c))
  }

  /** A primary email wins over an earlier non-primary one. */
  lemma PrimaryEmailWins(c: Contact, k: nat)
    requires k < |c.emails| && c.emails[k].primary && forall j :: 0 <= j < k ==> !c.emails[j].primary
    ensures MapContact(c, "").email == OrEmpty(c.emails[k].value)
  {
  }

  // ---------------------------------------------------------------------
  // People records

  /** A People record: the fields the sync writes and the tools read. */
  datatype Person = Person(
    guid: string, name: string, externalId: string, source: Option<string>,
    email: string, phone: string, organization: string, jobTitle: string, notes: string,
    anniversary: Option<string>, updatedAt: string, createdAt: Option<string>,
    keepInTouch: Option<string>, lastContact: Option<int>)

  /**
   * `setRecordFields`: notes are written only when non-empty, the anniversary only when
   * known, and created_at only when the record has none. `now` is the sync's clock.
   */
  function SetFields(p: Person, d: ContactData, now: string): (p': Person)
    ensures p'.guid == p.guid && p'.name == p.name && p'.keepInTouch == p.keepInTouch && p'.lastContact == p.lastContact
    ensures p'.externalId == d.externalId && p'.updatedAt == d.updatedAt && p'.email == d.email
    ensures p'.notes == (if d.notes != "" then d.notes else p.notes)
    ensures p'.anniversary == (if d.anniversary.Some? then d.anniversary else p.anniversary)
    ensures p'.createdAt == (if p.createdAt.Some? then p.createdAt else Some(now))
  {
    p.(externalId := d.externalId, source := Some("Google"), email := d.email, phone := d.phone,
       organization := d.organization, jobTitle := d.jobTitle, updatedAt := d.updatedAt,
       notes := if d.notes != "" then d.notes else p.notes,
       anniversary := if d.anniversary.Some? then d.anniversary else p.anniversary,
       createdAt := if p.createdAt.Some? then p.createdAt else Some(now))
  }

  /** A sync never clears notes the user wrote, and created_at is set once. */
  lemma UserFieldsSurvive(p: Person, d: ContactData, now: string)
    requires p.notes != "" && p.createdAt.Some?
    ensures SetFields(p, d, now).notes != ""
    ensures SetFields(p, d, now).createdAt == p.createdAt
  {
  }

  function Created(guid: string, d: ContactData, now: string): (p: Person)
    ensures p.guid == guid && p.name == d.title && p.externalId == d.externalId && p.updatedAt == d.updatedAt
  {
    SetFields(Person(guid, d.title, "", None, "", "", "", "", "", None, "", None, None, None), d, now)
  }

  // ---------------------------------------------------------------------
  // processContacts

  datatype Change = Change(verb: string, title: Option<string>, guid: string, major: bool)

  function FindPerson(people: seq<Person>, e: string): (r: Option<nat>)
    ensures r.Some? ==> r.value < |people| && people[r.value].externalId == e
    ensures r.Some? ==> forall j :: 0 <= j < r.value ==> people[j].externalId != e
    ensures r.None? ==> forall j :: 0 <= j < |people| ==> people[j].externalId != e
  {
    if people == [] then None
    else if people[0].externalId == e then Some(0)
    else match FindPerson(people[1..], e)
      case None => None
      case Some(k) => Some(k + 1)
  }

  lemma FindPersonIs(people: seq<Person>, e: string, p: nat)
    requires p < |people| && people[p].externalId == e
    requires forall j :: 0 <= j < p ==> people[j].externalId != e
    ensures FindPerson(people, e) == Some(p)
  {
  }

  /** A run's state: records read before the loop, records created in it, counters, changes. */
  datatype PState = PState(snapshot: seq<Person>, added: seq<Person>, created: nat, updated: nat, changes: seq<Change>)

  function Init(store: seq<Person>): PState {
    PState(store, [], 0, 0, [])
  }

  /** A contact the loop passes over: no resource name, or no name to title the record. */
  predicate Skipped(c: Contact) {
    !Given(c.resourceName) || DisplayName(c.names) == ""
  }

  /** One contact of the loop; `newGuid` is None when `createRecord` yields no record. */
  function Step(st: PState, c: Contact, newGuid: Option<string>, now: string): (r: PState)
    ensures Skipped(c) ==> r == st
    ensures SameIds(r.snapshot, st.snapshot)
    ensures st.created <= r.created && st.updated <= r.updated && r.created + r.updated <= st.created + st.updated + 1
    ensures |r.changes| == |st.changes| + (r.created - st.created) + (r.updated - st.updated)
    ensures |st.added| <= |r.added| == |st.added| + (r.created - st.created)
    ensures r.changes[..|st.changes|] == st.changes
    ensures forall k :: |st.changes| <= k < |r.changes| ==> (r.changes[k].major <==> r.changes[k].verb == "created")
  {
    if !Given(c.resourceName) then st
    else
      var e := ExternalId(c.resourceName.value);
      var d := MapContact(c, e);
      if d.title == "" then st
      else match FindPerson(st.snapshot, e)
        case Some(k) =>
          if st.snapshot[k].updatedAt != d.updatedAt then
            st.(snapshot := st.snapshot[k := SetFields(st.snapshot[k], d, now)], updated := st.updated + 1,
                changes := st.changes + [Change("updated", None, st.snapshot[k].guid, false)])
          else st
        case None =>
          match newGuid
          case None => st
          case Some(g) =>
            st.(added := st.added + [Created(g, d, now)], created := st.created + 1,
                changes := st.changes + [Change("created", None, g, true)])
  }

  predicate SameIds(a: seq<Person>, b: seq<Person>) {
    |a| == |b| && forall k :: 0 <= k < |a| ==> a[k].externalId == b[k].externalId
  }

  /**
   * `processContacts` over a fetched list: every change is one counted update (minor) or
   * one counted creation (major).
   */
  function Process(store: seq<Person>, contacts: seq<Contact>, newGuids: seq<Option<string>>, now: string): (r: PState)
    requires |newGuids| == |contacts|
    ensures r.created + r.updated <= |contacts| && |r.changes| == r.created + r.updated
    ensures |r.added| == r.created && SameIds(r.snapshot, store)
    ensures forall k :: 0 <= k < |r.changes| ==> (r.changes[k].major <==> r.changes[k].verb == "created")
  {
    if contacts == [] then Init(store)
    else
      var n := |contacts| - 1;
      var prev := Process(store, contacts[..n], newGuids[..n], now);
      var r := Step(prev, contacts[n], newGuids[n], now);
      assert forall k :: 0 <= k < |prev.changes| ==> r.changes[k] == prev.changes[k];
      r
  }

  /** The loop of `processContacts`, proved to compute `Process`. */
  method ProcessContacts(store: seq<Person>, contacts: seq<Contact>, newGuids: seq<Option<string>>, now: string)
    returns (created: nat, updated: nat, changes: seq<Change>, snapshot: seq<Person>, added: seq<Person>)
    requires |newGuids| == |contacts|
    ensures PState(snapshot, added, created, updated, changes) == Process(store, contacts, newGuids, now)
  {
    created, updated, changes, snapshot, added := 0, 0, [], store, [];
    var i := 0;
    while i < |contacts|
      invariant 0 <= i <= |contacts|
      invariant PState(snapshot, added, created, updated, changes) == Process(store, contacts[..i], newGuids[..i], now)
    {
      created, updated, changes, snapshot, added := ProcessContact(created, updated, changes, snapshot, added, contacts[i], newGuids[i], now);
      ProcessSnoc(store, contacts, newGuids, now, i);
      i := i + 1;
    }
    assert contacts[..i] == contacts;
    assert newGuids[..i] == newGuids;
  }

  /** Processing one more contact is one more `Step`. */
  lemma ProcessSnoc(store: seq<Person>, contacts: seq<Contact>, newGuids: seq<Option<string>>, now: string, i: nat)
    requires |newGuids| == |contacts| && i < |contacts|
    ensures Process(store, contacts[..i + 1], newGuids[..i + 1], now) ==
      Step(Process(store, contacts[..i], newGuids[..i], now), contacts[i], newGuids[i], now)
  {
    assert contacts[..i + 1][..i] == contacts[..i];
    assert newGuids[..i + 1][..i] == newGuids[..i];
  }

  /** The body of the loop for one contact. */
  method ProcessContact(created0: nat, updated0: nat, changes0: seq<Change>, snapshot0: seq<Person>, added0: seq<Person>,
                        contact: Contact, newGuid: Option<string>, now: string)
    returns (created: nat, updated: nat, changes: seq<Change>, snapshot: seq<Person>, added: seq<Person>)
    ensures PState(snapshot, added, created, updated, changes) ==
      Step(PState(snapshot0, added0, created0, updated0, changes0), contact, newGuid, now)
  {
    created, updated, changes, snapshot, added := created0, updated0, changes0, snapshot0, added0;
    if !Given(contact.resourceName) {
      return;
    }
    var externalId := ExternalId(contact.resourceName.value);
    var existing := FindPerson(snapshot, externalId);
    var data := MapContact(contact, externalId);
    if data.title == "" {
      return;
    }
    if existing.Some? {
      var k := existing.value;
      if snapshot[k].updatedAt != UpdatedAt(contact) {
        snapshot := snapshot[k := SetFields(snapshot[k], data, now)];
        updated := updated + 1;
        changes := changes + [Change("updated", None, snapshot[k].guid, false)];
      }
    } else if newGuid.Some? {
      added := added + [Created(newGuid.value, data, now)];
      created := created + 1;
      changes := changes + [Change("created", None, newGuid.value, true)];
    }
  }

  // ---------------------------------------------------------------------
  // Re-running a sync on the same contacts

  /** Either the loop passes the contact over, or its record carries the contact's update time. */
  predicate Settled(store: seq<Person>, c: Contact) {
    Skipped(c) ||
    var k := FindPerson(store, ExternalId(c.resourceName.value));
    k.Some? && store[k.value].updatedAt == UpdatedAt(c)
  }

  lemma {:induction false} SettledIsQuiet(store: seq<Person>, contacts: seq<Contact>, newGuids: seq<Option<string>>, now: string)
    requires |newGuids| == |contacts|
    requires forall i :: 0 <= i < |contacts| ==> Settled(store, contacts[i])
    ensures Process(store, contacts, newGuids, now) == Init(store)
  {
    if contacts != [] {
      var n := |contacts| - 1;
      SettledIsQuiet(store, contacts[..n], newGuids[..n], now);
      assert Settled(store, contacts[n]);
    }
  }

  /** The external id a contact's record carries; "" for a contact without a resource name. */
  function Key(c: Contact): (e: string)
    ensures Given(c.resourceName) ==> e == ExternalId(c.resourceName.value)
  {
    if Given(c.resourceName) then ExternalId(c.resourceName.value) else ""
  }

  /** The external ids of the contacts of a list, in order. */
  function SeenIds(contacts: seq<Contact>): (r: seq<string>)
    ensures |r| == |contacts| && forall i :: 0 <= i < |contacts| ==> r[i] == Key(contacts[i])
  {
    seq(|contacts|, i requires 0 <= i < |contacts| => Key(contacts[i]))
  }

  predicate Inv(store: seq<Person>, st: PState, prefix: seq<Contact>) {
    SameIds(st.snapshot, store) &&
    (forall j :: 0 <= j < |st.added| ==> st.added[j].externalId in SeenIds(prefix)) &&
    (forall i :: 0 <= i < |prefix| ==> Settled(st.snapshot + st.added, prefix[i]))
  }

  lemma StepEffect(st: PState, c: Contact, g: string, now: string)
    requires !Skipped(c)
    ensures var r := Step(st, c, Some(g), now);
      match FindPerson(st.snapshot, ExternalId(c.resourceName.value))
      case Some(k) =>
        r.added == st.added && r.snapshot[k].updatedAt == UpdatedAt(c) &&
        forall j :: 0 <= j < |st.snapshot| && j != k ==> r.snapshot[j] == st.snapshot[j]
      case None =>
        r.snapshot == st.snapshot && |r.added| == |st.added| + 1 && r.added[..|st.added|] == st.added &&
        r.added[|st.added|].externalId == ExternalId(c.resourceName.value) && r.added[|st.added|].updatedAt == UpdatedAt(c)
  {
  }

  lemma SettledAfterUpdate(st: PState, st': PState, prefix: seq<Contact>, c: Contact)
    requires !Skipped(c)
    requires FindPerson(st.snapshot, ExternalId(c.resourceName.value)).Some?
    requires var k := FindPerson(st.snapshot, ExternalId(c.resourceName.value)).value;
      st'.added == st.added && SameIds(st'.snapshot, st.snapshot) && st'.snapshot[k].updatedAt == UpdatedAt(c) &&
      forall j :: 0 <= j < |st.snapshot| && j != k ==> st'.snapshot[j] == st.snapshot[j]
    requires ExternalId(c.resourceName.value) !in SeenIds(prefix)
    requires forall i :: 0 <= i < |prefix| ==> Settled(st.snapshot + st.added, prefix[i])
    ensures forall i :: 0 <= i < |prefix| ==> Settled(st'.snapshot + st'.added, prefix[i])
    ensures Settled(st'.snapshot + st'.added, c)
  {
    var e := ExternalId(c.resourceName.value);
    var k := FindPerson(st.snapshot, e).value;
    var before := st.snapshot + st.added;
    var after := st'.snapshot + st'.added;
    assert SameIds(after, before);
    forall i | 0 <= i < |prefix| && !Skipped(prefix[i])
      ensures Settled(after, prefix[i])
    {
      var ei := ExternalId(prefix[i].resourceName.value);
      assert ei != e by { assert SeenIds(prefix)[i] == ei; }
      var p := FindPerson(before, ei).value;
      assert p != k by { assert before[k].externalId == e; }
      OtherRecordKept(st, st', k, p);
      FindPersonIs(after, ei, p);
    }
    FindPersonIs(after, e, k);
  }

  /** Rewriting record `k` leaves every other record of snapshot and additions as it was. */
  lemma OtherRecordKept(st: PState, st': PState, k: nat, p: nat)
    requires st'.added == st.added && |st'.snapshot| == |st.snapshot| && k < |st.snapshot|
    requires forall j :: 0 <= j < |st.snapshot| && j != k ==> st'.snapshot[j] == st.snapshot[j]
    requires p < |st.snapshot| + |st.added| && p != k
    ensures (st'.snapshot + st'.added)[p] == (st.snapshot + st.added)[p]
  {
    if p < |st.snapshot| {
      assert st'.snapshot[p] == st.snapshot[p];
    }
  }

  lemma SettledAfterCreate(st: PState, st': PState, prefix: seq<Contact>, c: Contact)
    requires !Skipped(c)
    requires FindPerson(st.snapshot, ExternalId(c.resourceName.value)).None?
    requires st'.snapshot == st.snapshot && |st'.added| == |st.added| + 1 && st'.added[..|st.added|] == st.added
    requires st'.added[|st.added|].externalId == ExternalId(c.resourceName.value) && st'.added[|st.added|].updatedAt == UpdatedAt(c)
    requires ExternalId(c.resourceName.value) !in SeenIds(prefix)
    requires forall j :: 0 <= j < |st.added| ==> st.added[j].externalId in SeenIds(prefix)
    requires forall i :: 0 <= i < |prefix| ==> Settled(st.snapshot + st.added, prefix[i])
    ensures forall i :: 0 <= i < |prefix| ==> Settled(st'.snapshot + st'.added, prefix[i])
    ensures Settled(st'.snapshot + st'.added, c)
  {
    var e := ExternalId(c.resourceName.value);
    var before := st.snapshot + st.added;
    var after := st'.snapshot + st'.added;
    assert after[..|before|] == before;
    forall i | 0 <= i < |prefix| && !Skipped(prefix[i])
      ensures Settled(after, prefix[i])
    {
      var ei := ExternalId(prefix[i].resourceName.value);
      var p := FindPerson(before, ei).value;
      assert forall j :: 0 <= j <= p ==> after[j] == before[j];
      FindPersonIs(after, ei, p);
    }
    forall j | 0 <= j < |before|
      ensures after[j].externalId != e
    {
      assert after[j] == before[j];
      if j >= |st.snapshot| {
        assert before[j] == st.added[j - |st.snapshot|];
      }
    }
    FindPersonIs(after, e, |before|);
  }

  lemma StepKeepsInv(store: seq<Person>, st: PState, prefix: seq<Contact>, c: Contact, g: string, now: string)
    requires Inv(store, st, prefix)
    requires !Skipped(c) ==> Key(c) !in SeenIds(prefix)
    ensures Inv(store, Step(st, c, Some(g), now), prefix + [c])
  {
    var st' := Step(st, c, Some(g), now);
    if Skipped(c) {
      assert st' == st;
    } else {
      StepEffect(st, c, g, now);
      if FindPerson(st.snapshot, ExternalId(c.resourceName.value)).Some? {
        SettledAfterUpdate(st, st', prefix, c);
      } else {
        SettledAfterCreate(st, st', prefix, c);
      }
    }
    InvSnoc(store, st, st', prefix, c);
  }

  /** The invariant grows by one contact once that contact and the earlier ones are settled. */
  lemma InvSnoc(store: seq<Person>, st: PState, st': PState, prefix: seq<Contact>, c: Contact)
    requires SameIds(st'.snapshot, store)
    requires st'.added == st.added || (|st'.added| == |st.added| + 1 && st'.added[..|st.added|] == st.added &&
                                       st'.added[|st.added|].externalId == Key(c))
    requires forall j :: 0 <= j < |st.added| ==> st.added[j].externalId in SeenIds(prefix)
    requires forall i :: 0 <= i < |prefix| ==> Settled(st'.snapshot + st'.added, prefix[i])
    requires Settled(st'.snapshot + st'.added, c)
    ensures Inv(store, st', prefix + [c])
  {
    var prefix' := prefix + [c];
    assert SeenIds(prefix') == SeenIds(prefix) + [Key(c)];
    assert forall i :: 0 <= i < |prefix| ==> prefix'[i] == prefix[i];
    assert prefix'[|prefix|] == c;
    forall j | 0 <= j < |st'.added|
      ensures st'.added[j].externalId in SeenIds(prefix')
    {
      if j < |st.added| {
        assert st'.added[j] == st.added[j];
      }
    }
  }

  /** No two contacts of the list share a resource name. */
  predicate DistinctResources(contacts: seq<Contact>) {
    forall i, j :: 0 <= i < j < |contacts| && Given(contacts[i].resourceName) ==>
      contacts[i].resourceName != contacts[j].resourceName
  }

  lemma LastIdIsNew(contacts: seq<Contact>)
    requires contacts != [] && DistinctResources(contacts)
    ensures var n := |contacts| - 1;
      !Skipped(contacts[n]) ==> Key(contacts[n]) !in SeenIds(contacts[..n])
  {
    var n := |contacts| - 1;
    var c := contacts[n];
    if !Skipped(c) {
      forall i | 0 <= i < n
        ensures SeenIds(contacts[..n])[i] != Key(c)
      {
        if Given(contacts[i].resourceName) {
          var a, b := c.resourceName.value, contacts[i].resourceName.value;
          assert ExternalId(a)[10..] == a && ExternalId(b)[10..] == b;
        }
      }
    }
  }

  lemma {:induction false} FirstRunSettles(store: seq<Person>, contacts: seq<Contact>, newGuids: seq<Option<string>>, now: string)
    requires |newGuids| == |contacts| && forall k :: 0 <= k < |newGuids| ==> newGuids[k].Some?
    requires DistinctResources(contacts)
    ensures Inv(store, Process(store, contacts, newGuids, now), contacts)
  {
    if contacts != [] {
      var n := |contacts| - 1;
      var prefix := contacts[..n];
      assert prefix + [contacts[n]] == contacts;
      FirstRunSettles(store, prefix, newGuids[..n], now);
      var prev := Process(store, prefix, newGuids[..n], now);
      LastIdIsNew(contacts);
      StepKeepsInv(store, prev, prefix, contacts[n], newGuids[n].value, now);
      assert Some(newGuids[n].value) == newGuids[n];
    }
  }

  /**
   * Processing the same contacts a second time, against the records the first run left,
   * updates nothing, creates nothing and reports no change.
   */
  lemma ReprocessIsQuiet(store: seq<Person>, contacts: seq<Contact>, newGuids: seq<Option<string>>, again: seq<Option<string>>, now: string, later: string)
    requires |newGuids| == |contacts| && forall k :: 0 <= k < |newGuids| ==> newGuids[k].Some?
    requires |again| == |contacts|
    requires DistinctResources(contacts)
    ensures var st := Process(store, contacts, newGuids, now);
      Process(st.snapshot + st.added, contacts, again, later) == Init(st.snapshot + st.added)
  {
    FirstRunSettles(store, contacts, newGuids, now);
    var st := Process(store, contacts, newGuids, now);
    SettledIsQuiet(st.snapshot + st.added, contacts, again, later);
  }

  // ---------------------------------------------------------------------
  // The sync entry point

  /** The text fields of the plugin's Sync Hub record; `token` None when the JSON does not parse. */
  datatype HubRecord = HubRecord(tokenText: string, token: Option<TokenData>, enabled: bool)

  /**
   * The early exits of `sync`: the summary it returns without fetching, or Ok when it goes
   * on to fetch. `accessToken` is the refresh's outcome, None when the refresh fails.
   */
  function SyncGate(syncHubCollection: bool, hub: Option<HubRecord>, accessToken: Option<string>, peopleCollection: bool): (r: Result<string>)
    ensures r.Ok? <==> (syncHubCollection && hub.Some? && hub.value.tokenText != "" && hub.value.token.Some? &&
      ValidToken(hub.value.token.value) && accessToken.Some? && peopleCollection)
    ensures r.Ok? ==> r.value == accessToken.value
  {
    if !syncHubCollection then Err("Sync Hub not found")
    else if hub.None? then Err("Not configured")
    else if hub.value.tokenText == "" then Err("Not connected")
    else if hub.value.token.None? || !ValidToken(hub.value.token.value) then Err("Invalid token")
    else if accessToken.None? then Err("Auth failed")
    else if !peopleCollection then Err("People collection not found")
    else Ok(accessToken.value)
  }

  /** `N new, M updated`, or `No changes`. */
  function SyncSummary(created: nat, updated: nat): (s: string)
    ensures s == "No changes" <==> created == 0 && updated == 0
  {
    if created > 0 || updated > 0 then NatToString(created) + " new, " + NatToString(updated) + " updated"
    else "No changes"
  }

  // ---------------------------------------------------------------------
  // The OAuth callback

  datatype AuthMessage = AuthMessage(kind: Option<string>, service: Option<string>, config: Option<TokenData>)

  datatype AuthOutcome = Ignored | Rejected | Saved(token: TokenData)

  /**
   * `handleAuthMessage`: messages of another type or service are ignored; a config without
   * refresh token or token endpoint is rejected; anything else is saved.
   */
  function HandleAuthMessage(data: Option<AuthMessage>): (r: AuthOutcome)
    ensures r.Saved? <==> (data.Some? && data.value.kind == Some("thymer-auth") && data.value.service == Some("contacts") &&
      data.value.config.Some? && ValidToken(data.value.config.value))
    ensures r.Saved? ==> r.token == data.value.config.value
    ensures r.Rejected? <==> (data.Some? && data.value.kind == Some("thymer-auth") && data.value.service == Some("contacts") &&
      (data.value.config.None? || !ValidToken(data.value.config.value)))
  {
    if data.None? || data.value.kind != Some("thymer-auth") then Ignored
    else if data.value.service != Some("contacts") then Ignored
    else if data.value.config.None? || !ValidToken(data.value.config.value) then Rejected
    else Saved(data.value.config.value)
  }

  /** `saveToken`: the token text is the saved config and the plugin is enabled. */
  function SaveToken(hub: HubRecord, t: TokenData, serialized: string): (h: HubRecord)
    ensures h.token == Some(t) && h.enabled && h.tokenText == serialized
  {
    HubRecord(serialized, Some(t), true)
  }

  /** A token saved from an accepted message passes the sync's token checks. */
  lemma AcceptedTokenPassesSync(data: Option<AuthMessage>, hub: HubRecord, serialized: string, accessToken: string)
    requires HandleAuthMessage(data).Saved? && serialized != ""
    ensures SyncGate(true, Some(SaveToken(hub, HandleAuthMessage(data).token, serialized)), Some(accessToken), true) == Ok(accessToken)
  {
  }

  // ---------------------------------------------------------------------
  // Agent tools over People

  /** `find`: case-insensitive name and organization parts, exact keep-in-touch label. */
  predicate FindMatches(p: Person, name: Option<string>, organization: Option<string>, keepInTouch: Option<string>) {
    (!Given(name) || ContainsCi(p.name, name.value)) &&
    (!Given(organization) || ContainsCi(p.organization, organization.value)) &&
    (!Given(keepInTouch) || p.keepInTouch == keepInTouch)
  }

  function FilterPeople(people: seq<Person>, name: Option<string>, organization: Option<string>, keepInTouch: Option<string>): (r: seq<Person>)
    ensures multiset(r) <= multiset(people)
    ensures forall x :: x in r <==> x in people && FindMatches(x, name, organization, keepInTouch)
  {
    if people == [] then []
    else
      var rest := FilterPeople(people[1..], name, organization, keepInTouch);
      assert people == [people[0]] + people[1..];
      if FindMatches(people[0], name, organization, keepInTouch) then [people[0]] + rest else rest
  }

  /** Alphabetical by name. */
  function ByName(a: Person, b: Person): bool {
    StrLe(a.name, b.name)
  }

  /**
   * `toolFindPeople`: the matching people in name order, at most `limit` of them (20 when the
   * limit is absent or zero). `people` is None without a People collection.
   */
  function FindPeople(people: Option<seq<Person>>, name: Option<string>, organization: Option<string>,
                      keepInTouch: Option<string>, limit: Option<int>): (r: Result<seq<Person>>)
    ensures r.Ok? <==> people.Some?
    ensures r.Ok? ==> SortedBy(r.value, ByName)
    ensures r.Ok? ==> var found := FilterPeople(people.value, name, organization, keepInTouch);
      Total(ByName) && |r.value| <= |found| && r.value == SortBy(found, ByName)[..|r.value|]
    ensures r.Ok? ==> forall x :: x in r.value ==> x in people.value && FindMatches(x, name, organization, keepInTouch)
    ensures r.Ok? && LimitOr(limit, 20) >= 0 ==>
      |r.value| == MinInt(|FilterPeople(people.value, name, organization, keepInTouch)|, LimitOr(limit, 20))
  {
    if people.None? then Err("People collection not found")
    else
      StrLeAllTotal();
      var found := FilterPeople(people.value, name, organization, keepInTouch);
      var shown := SortedSlice(found, ByName, LimitOr(limit, 20));
      assert forall x :: x in shown ==> x in found by {
        forall x | x in shown ensures x in found {
          assert x in multiset(shown);
        }
      }
      Ok(shown)
  }

  /** `search`: the query in the name, email, organization or notes, ignoring case. */
  predicate SearchMatches(p: Person, query: string) {
    ContainsCi(p.name, query) || ContainsCi(p.email, query) || ContainsCi(p.organization, query) || ContainsCi(p.notes, query)
  }

  function SearchFilter(people: seq<Person>, query: string): (r: seq<Person>)
    ensures forall x :: x in r <==> x in people && SearchMatches(x, query)
  {
    if people == [] then []
    else
      var rest := SearchFilter(people[1..], query);
      assert people == [people[0]] + people[1..];
      if SearchMatches(people[0], query) then [people[0]] + rest else rest
  }

  /** `toolSearchPeople`: a query is required; the first `limit` matches (10 by default). */
  function SearchPeople(people: Option<seq<Person>>, query: Option<string>, limit: Option<int>): (r: Result<seq<Person>>)
    ensures !Given(query) ==> r == Err("Query required")
    ensures Given(query) && people.None? ==> r == Err("People collection not found")
    ensures r.Ok? <==> Given(query) && people.Some?
    ensures r.Ok? ==> var found := SearchFilter(people.value, query.value);
      |r.value| <= |found| && r.value == found[..|r.value|]
    ensures r.Ok? && LimitOr(limit, 10) >= 0 ==> |r.value| == MinInt(|SearchFilter(people.value, query.value)|, LimitOr(limit, 10))
    ensures r.Ok? ==> forall x :: x in r.value ==> x in people.value && SearchMatches(x, query.value)
    ensures r.Ok? && LimitOr(limit, 10) >= 0 ==> |r.value| <= LimitOr(limit, 10)
  {
    if !Given(query) then Err("Query required")
    else if people.None? then Err("People collection not found")
    else
      var found := SearchFilter(people.value, query.value);
      var shown := SliceTo(found, LimitOr(limit, 10));
      assert forall x :: x in shown ==> x in found;
      Ok(shown)
  }

  const DayMs: int := 1000 * 60 * 60 * 24

  /** The keep-in-touch interval in days; None for Never and for unknown labels. */
  function IntervalDays(frequency: string): (r: Option<nat>)
    ensures r.Some? <==> frequency in ["Weekly", "Monthly", "Quarterly", "Yearly"]
  {
    if frequency == "Weekly" then Some(7)
    else if frequency == "Monthly" then Some(30)
    else if frequency == "Quarterly" then Some(90)
    else if frequency == "Yearly" then Some(365)
    else None
  }

  /**
   * Due for contact: a keep-in-touch frequency other than Never, and either no last contact
   * or more days since it than the frequency allows.
   */
  predicate Due(p: Person, now: int) {
    Given(p.keepInTouch) && p.keepInTouch.value != "Never" &&
    (p.lastContact.None? ||
     (IntervalDays(p.keepInTouch.value).Some? && now - p.lastContact.value > IntervalDays(p.keepInTouch.value).value * DayMs))
  }

  function DueFilter(people: seq<Person>, now: int): (r: seq<Person>)
    ensures multiset(r) <= multiset(people)
    ensures forall x :: x in r <==> x in people && Due(x, now)
  {
    if people == [] then []
    else
      var rest := DueFilter(people[1..], now);
      assert people == [people[0]] + people[1..];
      if Due(people[0], now) then [people[0]] + rest else rest
  }

  /** The last contact in milliseconds, the epoch when there is none. */
  function ContactTime(p: Person): int {
    if p.lastContact.Some? then p.lastContact.value else 0
  }

  function OldestFirst(a: Person, b: Person): bool {
    ContactTime(a) <= ContactTime(b)
  }

  /** `toolNeedsContact`: every person due for contact, the longest uncontacted first. */
  function NeedsContact(people: Option<seq<Person>>, now: int): (r: Result<seq<Person>>)
    ensures r.Ok? <==> people.Some?
    ensures r.Ok? ==> multiset(r.value) == multiset(DueFilter(people.value, now))
    ensures r.Ok? ==> forall x :: x in r.value <==> x in people.value && Due(x, now)
    ensures r.Ok? ==> forall i :: 0 < i < |r.value| ==> ContactTime(r.value[i - 1]) <= ContactTime(r.value[i])
  {
    if people.None? then Err("People collection not found")
    else
      var due := DueFilter(people.value, now);
      var sorted := SortBy(due, OldestFirst);
      assert forall x :: x in sorted <==> x in due by {
        forall x ensures x in sorted <==> x in due {
          assert x in sorted <==> x in multiset(sorted);
        }
      }
      Ok(sorted)
  }

  /** A weekly contact eight days ago is due; one six days ago is not. */
  lemma WeeklyBoundary(p: Person, now: int)
    requires p.keepInTouch == Some("Weekly") && p.lastContact.Some?
    ensures now - p.lastContact.value == 8 * DayMs ==> Due(p, now)
    ensures now - p.lastContact.value == 6 * DayMs ==> !Due(p, now)
  {
  }

  /** People never contacted are due whatever their (non-Never) frequency. */
  lemma NeverContactedIsDue(p: Person, now: int)
    requires Given(p.keepInTouch) && p.keepInTouch.value != "Never" && p.lastContact.None?
    ensures Due(p, now)
  {
  }
}
