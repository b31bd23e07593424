// Google Calendar Sync (plugins/google-calendar/plugin.js): the time window a run fetches,
// how a Calendar API event becomes the field values of an Events record, and how a fetched
// list is merged into the collection.

module GoogleCalendar {
  import opened Common

  // ---------------------------------------------------------------------
  // The sync window

  const DayMs: int := 24 * 60 * 60 * 1000

  datatype Window = Window(timeMin: int, timeMax: int)

  /** An incremental run: the record has a last run and no full sync was forced. */
  predicate Incremental(lastRun: Option<int>, forceFullSync: bool) {
    lastRun.Some? && !forceFullSync
  }

  /**
   * The window of event times a run fetches, in milliseconds: a week back and thirty days
   * ahead for an incremental run, thirty days back and ninety ahead otherwise.
   */
  function SyncWindow(now: int, lastRun: Option<int>, forceFullSync: bool): (w: Window)
    ensures w.timeMin < now < w.timeMax
    ensures Incremental(lastRun, forceFullSync) ==> now - w.timeMin == 7 * DayMs && w.timeMax - now == 30 * DayMs
    ensures !Incremental(lastRun, forceFullSync) ==> now - w.timeMin == 30 * DayMs && w.timeMax - now == 90 * DayMs
  {
    if Incremental(lastRun, forceFullSync) then Window(now - 7 * DayMs, now + 30 * DayMs)
    else Window(now - 30 * DayMs, now + 90 * DayMs)
  }

  /** The incremental window lies inside the full one: a full run fetches everything an incremental one would. */
  lemma IncrementalWithinFull(now: int, lastRun: int)
    ensures var inc := SyncWindow(now, Some(lastRun), false);
      var full := SyncWindow(now, None, false);
      full.timeMin < inc.timeMin && inc.timeMax < full.timeMax
  {
  }

  /** A forced run fetches the full window whatever the last run was. */
  lemma ForcedRunIsFull(now: int, lastRun: Option<int>)
    ensures SyncWindow(now, lastRun, true) == SyncWindow(now, None, false)
  {
  }

  // ---------------------------------------------------------------------
  // Events as the Calendar API returns them

  /** `date` for all-day events, `dateTime` for timed ones, as the API's text. */
  datatype EventTime = EventTime(date: Option<string>, dateTime: Option<string>)

  datatype Attendee = Attendee(self: bool, displayName: Option<string>, email: Option<string>)

  datatype CalEvent = CalEvent(
    id: string, status: Option<string>, summary: Option<string>, start: EventTime, end: Option<EventTime>,
    attendees: seq<Attendee>, location: Option<string>, htmlLink: Option<string>, updated: Option<string>)

  predicate Cancelled(e: CalEvent) {
    e.status == Some("cancelled")
  }

  function ExternalId(e: CalEvent): (r: string)
    ensures |r| == 5 + |e.id| && r[5..] == e.id
  {
    "gcal_" + e.id
  }

  lemma ExternalIdInjective(a: CalEvent, b: CalEvent)
    requires ExternalId(a) == ExternalId(b)
    ensures a.id == b.id
  {
    assert a.id == ExternalId(a)[5..];
  }

  /** All-day exactly when the start carries a non-empty `date`. */
  predicate IsAllDay(e: CalEvent) {
    Given(e.start.date)
  }

  /** The start as the API wrote it: the date of an all-day event, else the date-time. */
  function StartText(e: CalEvent): (r: Option<string>)
    ensures IsAllDay(e) ==> r == e.start.date
    ensures !IsAllDay(e) ==> r == e.start.dateTime
  {
    if IsAllDay(e) then e.start.date else e.start.dateTime
  }

  /** The end, of the same kind as the start, falling back to the start when the event has none. */
  function EndText(e: CalEvent): (r: Option<string>)
    ensures IsAllDay(e) ==> r == (if e.end.Some? && Given(e.end.value.date) then e.end.value.date else StartText(e))
    ensures !IsAllDay(e) ==> r == (if e.end.Some? && Given(e.end.value.dateTime) then e.end.value.dateTime else StartText(e))
  {
    if IsAllDay(e) then
      if e.end.Some? && Given(e.end.value.date) then e.end.value.date else StartText(e)
    else
      if e.end.Some? && Given(e.end.value.dateTime) then e.end.value.dateTime else StartText(e)
  }

  /** An event without an end lasts no time: it ends where it starts. */
  lemma MissingEndIsStart(e: CalEvent)
    requires e.end.None?
    ensures EndText(e) == StartText(e)
  {
  }

  /** `a.displayName || a.email`, which an array join renders as "" when both are missing. */
  function AttendeeLabel(a: Attendee): (r: string)
    ensures Given(a.displayName) ==> r == a.displayName.value
    ensures !Given(a.displayName) ==> r == OrEmpty(a.email)
  {
    OrText(a.displayName, OrEmpty(a.email))
  }

  /** The attendees other than the calendar's owner, in order. */
  function Others(attendees: seq<Attendee>): (r: seq<Attendee>)
    ensures |r| <= |attendees|
    ensures forall a :: a in r <==> a in attendees && !a.self
  {
    if attendees == [] then []
    else
      var rest := Others(attendees[1..]);
      assert attendees == [attendees[0]] + attendees[1..];
      if attendees[0].self then rest else [attendees[0]] + rest
  }

  /** The labels of the first five attendees other than the owner. */
  function AttendeeNames(attendees: seq<Attendee>): (r: seq<string>)
    ensures |r| == MinInt(|Others(attendees)|, 5)
    ensures forall i :: 0 <= i < |r| ==> r[i] == AttendeeLabel(Others(attendees)[i])
  {
    var others := Take(Others(attendees), 5);
    seq(|others|, i requires 0 <= i < |others| => AttendeeLabel(others[i]))
  }

  /** The attendees field: the names joined with ", ". */
  function AttendeesText(attendees: seq<Attendee>): string {
    Join(AttendeeNames(attendees), ", ")
  }

  /** Only the owner attends, or nobody: the field is empty. */
  lemma NoOthersNoAttendees(attendees: seq<Attendee>)
    requires forall i :: 0 <= i < |attendees| ==> attendees[i].self
    ensures AttendeesText(attendees) == ""
  {
  }

  /** The field values `processEvents` derives for one event. */
  datatype EventData = EventData(
    externalId: string, title: string, timePeriod: Option<string>, location: string,
    attendees: string, url: string, allDay: bool, updatedAt: Option<string>)

  /** The record data of an event. */
  function MapEvent(e: CalEvent): (d: EventData)
    ensures d.externalId == ExternalId(e) && d.updatedAt == e.updated
    ensures d.title != "" && (Given(e.summary) ==> d.title == e.summary.value)
    ensures !Given(e.summary) ==> d.title == "Untitled Event"
    ensures d.allDay <==> Given(e.start.date)
    ensures d.timePeriod == StartText(e)
    ensures d.location == OrEmpty(e.location) && d.url == OrEmpty(e.htmlLink)
  {
    EventData(ExternalId(e), OrText(e.summary, "Untitled Event"), StartText(e), OrEmpty(e.location),
      AttendeesText(e.attendees), OrEmpty(e.htmlLink), IsAllDay(e), e.updated)
  }

  // ---------------------------------------------------------------------
  // Events records

  /**
   * An Events record. `updatedAt` is the text of the field: writing an absent stamp leaves
   * it empty.
   */
  datatype EventRecord = EventRecord(
    guid: string, title: string, externalId: string, source: string, timePeriod: Option<string>,
    location: string, attendees: string, url: string, allDay: bool, updatedAt: string)

  /** `setRecordFields`: every derived field except the title, with "Google" as the source. */
  function SetFields(r: EventRecord, d: EventData): (r': EventRecord)
    ensures r'.guid == r.guid && r'.title == r.title
    ensures r'.externalId == d.externalId && r'.source == "Google" && r'.updatedAt == OrEmpty(d.updatedAt)
  {
    r.(externalId := d.externalId, source := "Google", timePeriod := d.timePeriod, location := d.location,
       attendees := d.attendees, url := d.url, allDay := d.allDay, updatedAt := OrEmpty(d.updatedAt))
  }

  /** Writing the same data twice leaves the record as writing it once. */
  lemma SetFieldsIdempotent(r: EventRecord, d: EventData)
    ensures SetFields(SetFields(r, d), d) == SetFields(r, d)
  {
  }

  /** `createRecord`: a record titled after the event, then its fields written. */
  function Created(guid: string, d: EventData): (r: EventRecord)
    ensures r.guid == guid && r.title == d.title && r.externalId == d.externalId && r.updatedAt == OrEmpty(d.updatedAt)
  {
    SetFields(EventRecord(guid, d.title, "", "", None, "", "", "", false, ""), d)
  }

  // ---------------------------------------------------------------------
  // processEvents

  datatype Change = Change(verb: string, title: string, guid: string, major: bool)

  function FindRecord(records: seq<EventRecord>, e: string): (r: Option<nat>)
    ensures r.Some? ==> r.value < |records| && records[r.value].externalId == e
    ensures r.Some? ==> forall j :: 0 <= j < r.value ==> records[j].externalId != e
    ensures r.None? ==> forall j :: 0 <= j < |records| ==> records[j].externalId != e
  {
    if records == [] then None
    else if records[0].externalId == e then Some(0)
    else match FindRecord(records[1..], e)
      case None => None
      case Some(k) => Some(k + 1)
  }

  lemma FindRecordIs(records: seq<EventRecord>, e: string, p: nat)
    requires p < |records| && records[p].externalId == e
    requires forall j :: 0 <= j < p ==> records[j].externalId != e
    ensures FindRecord(records, e) == Some(p)
  {
  }

  /** The record's stamp differs from the event's; an event without a stamp always differs. */
  predicate Stale(r: EventRecord, e: CalEvent) {
    e.updated.None? || r.updatedAt != e.updated.value
  }

  /**
   * A run's state: the records read before the loop (`snapshot`, with the updates applied),
   * the records created in it, the counters and the changes.
   */
  datatype PState = PState(snapshot: seq<EventRecord>, added: seq<EventRecord>, created: nat, updated: nat, changes: seq<Change>)

  function Init(store: seq<EventRecord>): PState {
    PState(store, [], 0, 0, [])
  }

  predicate SameIds(a: seq<EventRecord>, b: seq<EventRecord>) {
    |a| == |b| && forall k :: 0 <= k < |a| ==> a[k].externalId == b[k].externalId
  }

  /**
   * One event of the loop. Lookups see only the records read before the loop. `newGuid` is
   * None when `createRecord` yields no record: the creation is still counted, but no change
   * is logged.
   */
  function Step(st: PState, e: CalEvent, newGuid: Option<string>): (r: PState)
    ensures Cancelled(e) ==> r == st
    ensures SameIds(r.snapshot, st.snapshot)
    ensures st.created <= r.created && st.updated <= r.updated && r.created + r.updated <= st.created + st.updated + 1
    ensures |st.added| <= |r.added| <= |st.added| + (r.created - st.created)
    ensures |r.changes| == |st.changes| + (r.updated - st.updated) + (|r.added| - |st.added|)
    ensures r.changes[..|st.changes|] == st.changes
    ensures r.created > st.created ==> (newGuid.Some? <==> |r.added| > |st.added|)
    ensures forall k :: |st.changes| <= k < |r.changes| ==>
      (r.changes[k].major <==> r.changes[k].verb == "added") && r.changes[k].title == MapEvent(e).title
  {
    if Cancelled(e) then st
    else
      var d := MapEvent(e);
      match FindRecord(st.snapshot, d.externalId)
      case Some(k) =>
        if Stale(st.snapshot[k], e) then
          st.(snapshot := st.snapshot[k := SetFields(st.snapshot[k], d)], updated := st.updated + 1,
              changes := st.changes + [Change("updated", d.title, st.snapshot[k].guid, false)])
        else st
      case None =>
        match newGuid
        case None => st.(created := st.created + 1)
        case Some(g) =>
          st.(added := st.added + [Created(g, d)], created := st.created + 1,
              changes := st.changes + [Change("added", d.title, g, true)])
  }

  /**
   * `processEvents` over a fetched list: every logged change is one update (minor) or one
   * creation that produced a record (major); creations are counted even without a record.
   */
  function Process(store: seq<EventRecord>, events: seq<CalEvent>, newGuids: seq<Option<string>>): (r: PState)
    requires |newGuids| == |events|
    ensures r.created + r.updated <= |events|
    ensures |r.changes| == r.updated + |r.added| && |r.added| <= r.created
    ensures SameIds(r.snapshot, store)
    ensures forall k :: 0 <= k < |r.changes| ==> (r.changes[k].major <==> r.changes[k].verb == "added")
  {
    if events == [] then Init(store)
    else
      var n := |events| - 1;
      var prev := Process(store, events[..n], newGuids[..n]);
      var r := Step(prev, events[n], newGuids[n]);
      assert forall k :: 0 <= k < |prev.changes| ==> r.changes[k] == prev.changes[k];
      r
  }

  /** With every creation yielding a record, each creation logs exactly one change. */
  lemma {:induction false} AllCreatedLogged(store: seq<EventRecord>, events: seq<CalEvent>, newGuids: seq<Option<string>>)
    requires |newGuids| == |events| && forall k :: 0 <= k < |newGuids| ==> newGuids[k].Some?
    ensures var r := Process(store, events, newGuids); |r.added| == r.created && |r.changes| == r.created + r.updated
  {
    if events != [] {
      var n := |events| - 1;
      AllCreatedLogged(store, events[..n], newGuids[..n]);
    }
  }

  /** The loop of `processEvents`, proved to compute `Process`. */
  method ProcessEvents(store: seq<EventRecord>, events: seq<CalEvent>, newGuids: seq<Option<string>>)
    returns (created: nat, updated: nat, changes: seq<Change>, snapshot: seq<EventRecord>, added: seq<EventRecord>)
    requires |newGuids| == |events|
    ensures PState(snapshot, added, created, updated, changes) == Process(store, events, newGuids)
  {
    created, updated, changes, snapshot, added := 0, 0, [], store, [];
    var i := 0;
    while i < |events|
      invariant 0 <= i <= |events|
      invariant PState(snapshot, added, created, updated, changes) == Process(store, events[..i], newGuids[..i])
    {
      created, updated, changes, snapshot, added := ProcessEvent(created, updated, changes, snapshot, added, events[i], newGuids[i]);
      ProcessSnoc(store, events, newGuids, i);
      i := i + 1;
    }
    assert events[..i] == events;
    assert newGuids[..i] == newGuids;
  }

  /** Processing one more event is one more `Step`. */
  lemma ProcessSnoc(store: seq<EventRecord>, events: seq<CalEvent>, newGuids: seq<Option<string>>, i: nat)
    requires |newGuids| == |events| && i < |events|
    ensures Process(store, events[..i + 1], newGuids[..i + 1]) ==
      Step(Process(store, events[..i], newGuids[..i]), events[i], newGuids[i])
  {
    assert events[..i + 1][..i] == events[..i];
    assert newGuids[..i + 1][..i] == newGuids[..i];
  }

  /** The body of the loop for one event. */
  method ProcessEvent(created0: nat, updated0: nat, changes0: seq<Change>, snapshot0: seq<EventRecord>, added0: seq<EventRecord>,
                      event: CalEvent, newGuid: Option<string>)
    returns (created: nat, updated: nat, changes: seq<Change>, snapshot: seq<EventRecord>, added: seq<EventRecord>)
    ensures PState(snapshot, added, created, updated, changes) ==
      Step(PState(snapshot0, added0, created0, updated0, changes0), event, newGuid)
  {
    created, updated, changes, snapshot, added := created0, updated0, changes0, snapshot0, added0;
    if event.status == Some("cancelled") {
      return;
    }
    var externalId := ExternalId(event);
    var existing := FindRecord(snapshot, externalId);
    var eventData := MapEvent(event);
    if existing.Some? {
      var k := existing.value;
      if event.updated.None? || snapshot[k].updatedAt != event.updated.value {
        snapshot := snapshot[k := SetFields(snapshot[k], eventData)];
        updated := updated + 1;
        changes := changes + [Change("updated", eventData.title, snapshot[k].guid, false)];
      }
    } else {
      created := created + 1;
      if newGuid.Some? {
        added := added + [Created(newGuid.value, eventData)];
        changes := changes + [Change("added", eventData.title, newGuid.value, true)];
      }
    }
  }

  // ---------------------------------------------------------------------
  // Re-running a sync on the same events

  /** Either the loop passes the event over, or its record carries the event's stamp. */
  predicate Settled(store: seq<EventRecord>, e: CalEvent) {
    Cancelled(e) ||
    var k := FindRecord(store, ExternalId(e));
    k.Some? && !Stale(store[k.value], e)
  }

  lemma {:induction false} SettledIsQuiet(store: seq<EventRecord>, events: seq<CalEvent>, newGuids: seq<Option<string>>)
    requires |newGuids| == |events|
    requires forall i :: 0 <= i < |events| ==> Settled(store, events[i])
    ensures Process(store, events, newGuids) == Init(store)
  {
    if events != [] {
      var n := |events| - 1;
      SettledIsQuiet(store, events[..n], newGuids[..n]);
      assert Settled(store, events[n]);
    }
  }

  function ExtIds(events: seq<CalEvent>): (r: seq<string>)
    ensures |r| == |events| && forall i :: 0 <= i < |events| ==> r[i] == ExternalId(events[i])
  {
    seq(|events|, i requires 0 <= i < |events| => ExternalId(events[i]))
  }

  /** What a run has established after a prefix of a list with distinct, stamped events. */
  predicate Inv(store: seq<EventRecord>, st: PState, prefix: seq<CalEvent>) {
    SameIds(st.snapshot, store) &&
    (forall j :: 0 <= j < |st.added| ==> st.added[j].externalId in ExtIds(prefix)) &&
    (forall i :: 0 <= i < |prefix| ==> Settled(st.snapshot + st.added, prefix[i]))
  }

  /** What one step does to the records: it touches the event's record and nothing else. */
  lemma StepEffect(st: PState, e: CalEvent, g: string)
    requires !Cancelled(e) && e.updated.Some?
    ensures var r := Step(st, e, Some(g));
      match FindRecord(st.snapshot, ExternalId(e))
      case Some(k) =>
        r.added == st.added && r.snapshot[k].updatedAt == e.updated.value &&
        forall j :: 0 <= j < |st.snapshot| && j != k ==> r.snapshot[j] == st.snapshot[j]
      case None =>
        r.snapshot == st.snapshot && |r.added| == |st.added| + 1 && r.added[..|st.added|] == st.added &&
        r.added[|st.added|].externalId == ExternalId(e) && r.added[|st.added|].updatedAt == e.updated.value
  {
  }

  lemma SettledAfterUpdate(st: PState, st': PState, prefix: seq<CalEvent>, e: CalEvent)
    requires !Cancelled(e) && e.updated.Some?
    requires FindRecord(st.snapshot, ExternalId(e)).Some?
    requires var k := FindRecord(st.snapshot, ExternalId(e)).value;
      st'.added == st.added && SameIds(st'.snapshot, st.snapshot) && st'.snapshot[k].updatedAt == e.updated.value &&
      forall j :: 0 <= j < |st.snapshot| && j != k ==> st'.snapshot[j] == st.snapshot[j]
    requires ExternalId(e) !in ExtIds(prefix)
    requires forall i :: 0 <= i < |prefix| ==> Settled(st.snapshot + st.added, prefix[i])
    ensures forall i :: 0 <= i < |prefix| ==> Settled(st'.snapshot + st'.added, prefix[i])
    ensures Settled(st'.snapshot + st'.added, e)
  {
    var x := ExternalId(e);
    var k := FindRecord(st.snapshot, x).value;
    var before := st.snapshot + st.added;
    var after := st'.snapshot + st'.added;
    assert SameIds(after, before);
    forall i | 0 <= i < |prefix| && !Cancelled(prefix[i])
      ensures Settled(after, prefix[i])
    {
      var xi := ExternalId(prefix[i]);
      assert xi != x by { assert ExtIds(prefix)[i] == xi; }
      var p := FindRecord(before, xi).value;
      FindRecordIs(after, xi, p);
      assert after[p] == before[p];
    }
    FindRecordIs(after, x, k);
  }

  lemma SettledAfterCreate(st: PState, st': PState, prefix: seq<CalEvent>, e: CalEvent)
    requires !Cancelled(e) && e.updated.Some?
    requires FindRecord(st.snapshot, ExternalId(e)).None?
    requires st'.snapshot == st.snapshot && |st'.added| == |st.added| + 1 && st'.added[..|st.added|] == st.added
    requires st'.added[|st.added|].externalId == ExternalId(e) && st'.added[|st.added|].updatedAt == e.updated.value
    requires ExternalId(e) !in ExtIds(prefix)
    requires forall j :: 0 <= j < |st.added| ==> st.added[j].externalId in ExtIds(prefix)
    requires forall i :: 0 <= i < |prefix| ==> Settled(st.snapshot + st.added, prefix[i])
    ensures forall i :: 0 <= i < |prefix| ==> Settled(st'.snapshot + st'.added, prefix[i])
    ensures Settled(st'.snapshot + st'.added, e)
  {
    var x := ExternalId(e);
    var before := st.snapshot + st.added;
    var after := st'.snapshot + st'.added;
    assert after[..|before|] == before;
    forall i | 0 <= i < |prefix| && !Cancelled(prefix[i])
      ensures Settled(after, prefix[i])
    {
      var xi := ExternalId(prefix[i]);
      var p := FindRecord(before, xi).value;
      assert forall j :: 0 <= j <= p ==> after[j] == before[j];
      FindRecordIs(after, xi, p);
    }
    forall j | 0 <= j < |before|
      ensures after[j].externalId != x
    {
      assert after[j] == before[j];
      if j >= |st.snapshot| {
        assert before[j] == st.added[j - |st.snapshot|];
      }
    }
    FindRecordIs(after, x, |before|);
  }

  lemma StepKeepsInv(store: seq<EventRecord>, st: PState, prefix: seq<CalEvent>, e: CalEvent, g: string)
    requires Inv(store, st, prefix) && e.updated.Some?
    requires ExternalId(e) !in ExtIds(prefix)
    ensures Inv(store, Step(st, e, Some(g)), prefix + [e])
  {
    var st' := Step(st, e, Some(g));
    if Cancelled(e) {
      assert st' == st;
    } else {
      StepEffect(st, e, g);
      if FindRecord(st.snapshot, ExternalId(e)).Some? {
        SettledAfterUpdate(st, st', prefix, e);
      } else {
        SettledAfterCreate(st, st', prefix, e);
      }
    }
    InvSnoc(store, st, st', prefix, e);
  }

  /** The invariant grows by one event once that event and the earlier ones are settled. */
  lemma InvSnoc(store: seq<EventRecord>, st: PState, st': PState, prefix: seq<CalEvent>, e: CalEvent)
    requires SameIds(st'.snapshot, store)
    requires st'.added == st.added || (|st'.added| == |st.added| + 1 && st'.added[..|st.added|] == st.added &&
                                       st'.added[|st.added|].externalId == ExternalId(e))
    requires forall j :: 0 <= j < |st.added| ==> st.added[j].externalId in ExtIds(prefix)
    requires forall i :: 0 <= i < |prefix| ==> Settled(st'.snapshot + st'.added, prefix[i])
    requires Settled(st'.snapshot + st'.added, e)
    ensures Inv(store, st', prefix + [e])
  {
    var prefix' := prefix + [e];
    assert ExtIds(prefix') == ExtIds(prefix) + [ExternalId(e)];
    assert forall i :: 0 <= i < |prefix| ==> prefix'[i] == prefix[i];
    assert prefix'[|prefix|] == e;
    forall j | 0 <= j < |st'.added|
      ensures st'.added[j].externalId in ExtIds(prefix')
    {
      if j < |st.added| {
        assert st'.added[j] == st.added[j];
      }
    }
  }

  /** No two events of the list share an id, and every event carries its `updated` stamp. */
  predicate DistinctStamped(events: seq<CalEvent>) {
    (forall i, j :: 0 <= i < j < |events| ==> events[i].id != events[j].id) &&
    forall i :: 0 <= i < |events| ==> events[i].updated.Some?
  }

  lemma LastIdIsNew(events: seq<CalEvent>)
    requires events != [] && DistinctStamped(events)
    ensures ExternalId(events[|events| - 1]) !in ExtIds(events[..|events| - 1])
  {
    var n := |events| - 1;
    forall i | 0 <= i < n
      ensures ExtIds(events[..n])[i] != ExternalId(events[n])
    {
      if ExtIds(events[..n])[i] == ExternalId(events[n]) {
        ExternalIdInjective(events[i], events[n]);
      }
    }
  }

  lemma {:induction false} FirstRunSettles(store: seq<EventRecord>, events: seq<CalEvent>, newGuids: seq<Option<string>>)
    requires |newGuids| == |events| && forall k :: 0 <= k < |newGuids| ==> newGuids[k].Some?
    requires DistinctStamped(events)
    ensures Inv(store, Process(store, events, newGuids), events)
  {
    if events != [] {
      var n := |events| - 1;
      var prefix := events[..n];
      assert prefix + [events[n]] == events;
      FirstRunSettles(store, prefix, newGuids[..n]);
      var prev := Process(store, prefix, newGuids[..n]);
      LastIdIsNew(events);
      StepKeepsInv(store, prev, prefix, events[n], newGuids[n].value);
      assert Some(newGuids[n].value) == newGuids[n];
    }
  }

  /**
   * Processing the same events a second time, against the records the first run left,
   * updates nothing, creates nothing and logs no change — provided each event carries its
   * `updated` stamp and ids are distinct.
   */
  lemma ReprocessIsQuiet(store: seq<EventRecord>, events: seq<CalEvent>, newGuids: seq<Option<string>>, again: seq<Option<string>>)
    requires |newGuids| == |events| && forall k :: 0 <= k < |newGuids| ==> newGuids[k].Some?
    requires |again| == |events|
    requires DistinctStamped(events)
    ensures var st := Process(store, events, newGuids);
      Process(st.snapshot + st.added, events, again) == Init(st.snapshot + st.added)
  {
    FirstRunSettles(store, events, newGuids);
    var st := Process(store, events, newGuids);
    SettledIsQuiet(st.snapshot + st.added, events, again);
  }

  /** An event without a stamp is rewritten on every run that finds its record. */
  lemma UnstampedAlwaysUpdates(st: PState, e: CalEvent, g: Option<string>)
    requires !Cancelled(e) && e.updated.None? && FindRecord(st.snapshot, ExternalId(e)).Some?
    ensures Step(st, e, g).updated == st.updated + 1
  {
  }

  // ---------------------------------------------------------------------
  // The sync entry point

  /** The plugin's Sync Hub record: `configText` as stored, `config` None when it does not parse. */
  datatype HubRecord = HubRecord(configText: string, config: Option<TokenData>, lastRun: Option<int>)

  /**
   * The early exits of `sync`, in order, or Ok with the access token when it goes on to
   * fetch. `accessToken` is the refresh's outcome, None when the refresh fails.
   */
  function SyncGate(syncHubCollection: bool, hub: Option<HubRecord>, accessToken: Option<string>, eventsCollection: bool): (r: Result<string>)
    ensures r.Ok? <==> (syncHubCollection && hub.Some? && hub.value.configText != "" && hub.value.config.Some? &&
      ValidToken(hub.value.config.value) && accessToken.Some? && eventsCollection)
    ensures r.Ok? ==> r.value == accessToken.value
    ensures r.Err? && syncHubCollection && hub.Some? && hub.value.configText != "" ==>
      r.error in {"Invalid config", "Auth failed", "Events collection not found"}
  {
    if !syncHubCollection then Err("Sync Hub not found")
    else if hub.None? then Err("Not configured")
    else if hub.value.configText == "" then Err("Not configured")
    else if hub.value.config.None? then Err("Invalid config")
    else if !ValidToken(hub.value.config.value) then Err("Invalid config")
    else if accessToken.None? then Err("Auth failed")
    else if !eventsCollection then Err("Events collection not found")
    else Ok(accessToken.value)
  }

  datatype Outcome = Outcome(summary: string, created: nat, updated: nat, changes: seq<Change>)

  /**
   * `sync` after the gate: `fetched` is None when fetching fails. A run that stops early
   * reports its reason and no counts.
   */
  function Sync(gate: Result<string>, fetched: Option<seq<CalEvent>>, store: seq<EventRecord>, newGuids: seq<Option<string>>): (o: Outcome)
    requires fetched.Some? ==> |newGuids| == |fetched.value|
    ensures gate.Err? ==> o == Outcome(gate.error, 0, 0, [])
    ensures gate.Ok? && fetched.None? ==> o == Outcome("Fetch failed", 0, 0, [])
    ensures gate.Ok? && fetched.Some? ==>
      var st := Process(store, fetched.value, newGuids);
      o.created == st.created && o.updated == st.updated && o.changes == st.changes &&
      (o.summary == "No changes" <==> st.created == 0 && st.updated == 0)
  {
    if gate.Err? then Outcome(gate.error, 0, 0, [])
    else if fetched.None? then Outcome("Fetch failed", 0, 0, [])
    else
      var st := Process(store, fetched.value, newGuids);
      var summary := if st.created > 0 || st.updated > 0
        then NatToString(st.created) + " new, " + NatToString(st.updated) + " updated"
        else "No changes";
      Outcome(summary, st.created, st.updated, st.changes)
  }
}
