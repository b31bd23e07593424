// Calendar collection (collections/calendar/plugin.js): the choice labels of its four choice
// fields, how a Thymer date-time value is shown and matched against a day, and the agent
// tools that find events, list today's and upcoming events, those needing follow-up, and
// search them.

module CalendarCollection {
  import opened Common

  // ---------------------------------------------------------------------
  // Choice labels

  const Calendars: LabelMap := [("Primary", "primary"), ("Work", "work"), ("Personal", "personal"), ("Family", "family")]
  const Statuses: LabelMap := [("Confirmed", "confirmed"), ("Tentative", "tentative"), ("Cancelled", "cancelled")]
  const Energies: LabelMap := [("High", "high"), ("Medium", "medium"), ("Low", "low")]
  const Outcomes: LabelMap := [("Productive", "productive"), ("Neutral", "neutral"), ("Waste", "waste")]

  /** The table a field name selects; `maps[type] || {}`. */
  function MapFor(kind: string): (m: LabelMap)
    ensures kind !in {"calendar", "status", "energy", "outcome"} ==> m == []
  {
    if kind == "calendar" then Calendars
    else if kind == "status" then Statuses
    else if kind == "energy" then Energies
    else if kind == "outcome" then Outcomes
    else []
  }

  lemma CalendarsWellFormed()
    ensures WellFormedLabels(Calendars)
  {
    CalendarsLowerCase();
    CalendarsDistinct();
    CalendarsIdsAreNotLabels();
  }

  lemma CalendarsLowerCase()
    ensures LowerCaseIds(Calendars)
  {
    assert LowerCase("primary") && LowerCase("work") && LowerCase("personal") && LowerCase("family");
  }

  lemma CalendarsDistinct()
    ensures DistinctEntries(Calendars)
  {
  }

  lemma CalendarsIdsAreNotLabels()
    ensures IdsAreNotLabels(Calendars)
  {
    assert forall i, j :: 0 <= i < |Calendars| && 0 <= j < |Calendars| ==> Calendars[i].1[0] != Calendars[j].0[0];
  }

  lemma StatusesWellFormed()
    ensures WellFormedLabels(Statuses)
  {
    StatusesLowerCase();
    StatusesDistinct();
    StatusesIdsAreNotLabels();
  }

  lemma StatusesLowerCase()
    ensures LowerCaseIds(Statuses)
  {
    assert LowerCase("confirmed") && LowerCase("tentative") && LowerCase("cancelled");
  }

  lemma StatusesDistinct()
    ensures DistinctEntries(Statuses)
  {
  }

  lemma StatusesIdsAreNotLabels()
    ensures IdsAreNotLabels(Statuses)
  {
    assert forall i, j :: 0 <= i < |Statuses| && 0 <= j < |Statuses| ==> Statuses[i].1[0] != Statuses[j].0[0];
  }

  lemma EnergiesWellFormed()
    ensures WellFormedLabels(Energies)
  {
    EnergiesLowerCase();
    EnergiesDistinct();
    EnergiesIdsAreNotLabels();
  }

  lemma EnergiesLowerCase()
    ensures LowerCaseIds(Energies)
  {
    assert LowerCase("high") && LowerCase("medium") && LowerCase("low");
  }

  lemma EnergiesDistinct()
    ensures DistinctEntries(Energies)
  {
  }

  lemma EnergiesIdsAreNotLabels()
    ensures IdsAreNotLabels(Energies)
  {
    assert forall i, j :: 0 <= i < |Energies| && 0 <= j < |Energies| ==> Energies[i].1[0] != Energies[j].0[0];
  }

  lemma OutcomesWellFormed()
    ensures WellFormedLabels(Outcomes)
  {
    OutcomesLowerCase();
    OutcomesDistinct();
    OutcomesIdsAreNotLabels();
  }

  lemma OutcomesLowerCase()
    ensures LowerCaseIds(Outcomes)
  {
    assert LowerCase("productive") && LowerCase("neutral") && LowerCase("waste");
  }

  lemma OutcomesDistinct()
    ensures DistinctEntries(Outcomes)
  {
  }

  lemma OutcomesIdsAreNotLabels()
    ensures IdsAreNotLabels(Outcomes)
  {
    assert forall i, j :: 0 <= i < |Outcomes| && 0 <= j < |Outcomes| ==> Outcomes[i].1[0] != Outcomes[j].0[0];
  }

  /** For each of the four fields, every label maps to its id and back. */
  lemma ChoiceRoundTrip(kind: string, k: nat)
    requires kind in {"calendar", "status", "energy", "outcome"} && k < |MapFor(kind)|
    ensures var m := MapFor(kind); IdToLabel(m, Some(LabelToId(m, m[k].0))) == Some(m[k].0)
  {
    if kind == "calendar" {
      CalendarsWellFormed();
    } else if kind == "status" {
      StatusesWellFormed();
    } else if kind == "energy" {
      EnergiesWellFormed();
    } else {
      OutcomesWellFormed();
    }
    LabelRoundTrip(MapFor(kind), k);
  }

  /** A field without a table lower-cases labels and capitalises ids. */
  lemma UnknownFieldFallsBack(kind: string, name: string, id: string)
    requires kind !in {"calendar", "status", "energy", "outcome"} && id != ""
    ensures LabelToId(MapFor(kind), name) == Lower(name)
    ensures IdToLabel(MapFor(kind), Some(id)) == Some(Capitalize(id))
  {
  }

  // ---------------------------------------------------------------------
  // Date-time values

  /** The end of a range: `r.d` (`YYYYMMDD`) and `r.t.t` (`HHMM`) when `r.t` is present. */
  datatype RangeEnd = RangeEnd(d: string, t: Option<string>)

  /**
   * `dt.value()`: `d` is `YYYYMMDD` ("" when missing); `t` is Some(`t.t`) when the value has a
   * time object (its `t` text "" when missing); `r` the range end when there is one.
   */
  datatype DateValue = DateValue(d: string, t: Option<string>, r: Option<RangeEnd>)

  /**
   * A Calendar record. `value` is the time_period value (None without one); `instant` the
   * time it denotes (`date()`), in milliseconds; choice fields hold their stored ids.
   */
  datatype Event = Event(
    guid: string, title: Option<string>, value: Option<DateValue>, instant: Option<int>,
    calendar: Option<string>, status: Option<string>, outcome: Option<string>,
    prep: Option<string>, followup: Option<string>,
    location: Option<string>, attendees: Option<string>, meetLink: Option<string>)

  /** `d.slice(0, 4) + '-' + d.slice(4, 6) + '-' + d.slice(6, 8)`. */
  function DashDate(d: string): (r: string)
    ensures |d| == 8 ==> |r| == 10 && r[4] == '-' && r[7] == '-'
  {
    Slice(d, 0, 4) + "-" + Slice(d, 4, 6) + "-" + Slice(d, 6, 8)
  }

  /** `t.slice(0, 2) + ':' + t.slice(2, 4)`. */
  function ColonTime(t: string): (r: string)
    ensures |t| == 4 ==> |r| == 5 && r[2] == ':'
  {
    Slice(t, 0, 2) + ":" + Slice(t, 2, 4)
  }

  /** Dropping the dashes gives the stored date back. */
  lemma DashDateUndashes(d: string)
    requires |d| == 8
    ensures var r := DashDate(d); r[..4] + r[5..7] + r[8..] == d
  {
    var r := DashDate(d);
    assert r == d[..4] + "-" + d[4..6] + "-" + d[6..];
    assert r[..4] == d[..4] && r[5..7] == d[4..6] && r[8..] == d[6..];
    assert d == d[..4] + d[4..6] + d[6..];
  }

  /** Dropping the colon gives the stored time back. */
  lemma ColonTimeUncolons(t: string)
    requires |t| == 4
    ensures var r := ColonTime(t); r[..2] + r[3..] == t
  {
    var r := ColonTime(t);
    assert r == t[..2] + ":" + t[2..];
    assert r[..2] == t[..2] && r[3..] == t[2..];
    assert t == t[..2] + t[2..];
  }

  lemma DashDateInjective(a: string, b: string)
    requires |a| == 8 && |b| == 8 && DashDate(a) == DashDate(b)
    ensures a == b
  {
    DashDateUndashes(a);
    DashDateUndashes(b);
  }

  /** The order of two `YYYYMMDD` texts, decided by year, then month, then day. */
  predicate DateLe(a: string, b: string)
    requires |a| == 8 && |b| == 8
  {
    if a[..4] != b[..4] then StrLe(a[..4], b[..4])
    else if a[4..6] != b[4..6] then StrLe(a[4..6], b[4..6])
    else StrLe(a[6..], b[6..])
  }

  lemma StoredDateOrder(a: string, b: string)
    requires |a| == 8 && |b| == 8
    ensures StrLe(a, b) <==> DateLe(a, b)
  {
    var a1, a2, a3 := a[..4], a[4..6], a[6..];
    var b1, b2, b3 := b[..4], b[4..6], b[6..];
    assert a == a1 + (a2 + a3) && b == b1 + (b2 + b3);
    StrLeConcat(a1, a2 + a3, b1, b2 + b3);
    StrLeConcat(a2, a3, b2, b3);
  }

  lemma DashedDateOrder(a: string, b: string)
    requires |a| == 8 && |b| == 8
    ensures StrLe(DashDate(a), DashDate(b)) <==> DateLe(a, b)
  {
    var a1, a2, a3 := a[..4], a[4..6], a[6..];
    var b1, b2, b3 := b[..4], b[4..6], b[6..];
    var ta, tb := "-" + a3, "-" + b3;
    var ma, mb := a2 + ta, b2 + tb;
    assert DashDate(a) == a1 + ("-" + ma);
    assert DashDate(b) == b1 + ("-" + mb);
    StrLeConcat(a1, "-" + ma, b1, "-" + mb);
    StrLeConcat("-", ma, "-", mb);
    StrLeConcat(a2, ta, b2, tb);
    StrLeConcat("-", a3, "-", b3);
  }

  /** Dashed dates compare as strings exactly as the stored dates do. */
  lemma DashDateOrder(a: string, b: string)
    requires |a| == 8 && |b| == 8
    ensures StrLe(DashDate(a), DashDate(b)) <==> StrLe(a, b)
  {
    StoredDateOrder(a, b);
    DashedDateOrder(a, b);
  }

  /** The structure `formatDateTime` returns, without the locale-formatted `local` text. */
  datatype When = When(date: string, allDay: bool, time: Option<string>, endDate: Option<string>, endTime: Option<string>)

  /** `formatDateTime`: None without a date; times only when given; end fields only for ranges. */
  function FormatDateTime(e: Event): (r: Option<When>)
    ensures r.Some? <==> e.value.Some? && e.value.value.d != ""
    ensures r.Some? ==> var v := e.value.value;
      r.value.date == DashDate(v.d) && (r.value.allDay <==> v.t.None?) &&
      (r.value.time.Some? <==> Given(v.t)) &&
      (r.value.endDate.Some? <==> v.r.Some? && v.r.value.d != "") &&
      (r.value.endTime.Some? ==> r.value.endDate.Some?)
  {
    if e.value.None? || e.value.value.d == "" then None
    else
      var v := e.value.value;
      var time := if Given(v.t) then Some(ColonTime(v.t.value)) else None;
      var hasEnd := v.r.Some? && v.r.value.d != "";
      var endDate := if hasEnd then Some(DashDate(v.r.value.d)) else None;
      var endTime := if hasEnd && Given(v.r.value.t) then Some(ColonTime(v.r.value.t.value)) else None;
      Some(When(DashDate(v.d), v.t.None?, time, endDate, endTime))
  }

  /** A stored `YYYYMMDD` and `HHMM` are recovered from the shown date and time. */
  lemma FormatDateTimeRoundTrip(e: Event)
    requires e.value.Some? && |e.value.value.d| == 8
    requires e.value.value.t.Some? ==> |e.value.value.t.value| == 4
    ensures var w := FormatDateTime(e).value; var v := e.value.value;
      w.date[..4] + w.date[5..7] + w.date[8..] == v.d &&
      (v.t.Some? ==> w.time.Some? && w.time.value[..2] + w.time.value[3..] == v.t.value)
  {
    var v := e.value.value;
    DashDateUndashes(v.d);
    if v.t.Some? {
      ColonTimeUncolons(v.t.value);
    }
  }

  /** `getLocalDateString`: `YYYY-MM-DD` from a year, a month (1-12) and a day. */
  function LocalDateString(year: nat, month: nat, day: nat): string {
    NatToString(year) + "-" + Pad2(month) + "-" + Pad2(day)
  }

  lemma FourDigits(year: nat)
    requires 1000 <= year <= 9999
    ensures |NatToString(year)| == 4
  {
    assert |NatToString(year / 1000)| == 1;
    assert |NatToString(year / 100)| == |NatToString(year / 1000)| + 1;
    assert |NatToString(year / 10)| == |NatToString(year / 100)| + 1;
  }

  /** The local date of a four-digit year is the dashed form of the stored `YYYYMMDD` of that day. */
  lemma LocalDateIsDashed(year: nat, month: nat, day: nat)
    requires 1000 <= year <= 9999 && month < 100 && day < 100
    ensures LocalDateString(year, month, day) == DashDate(NatToString(year) + Pad2(month) + Pad2(day))
  {
    FourDigits(year);
    Pad2RoundTrip(month);
    Pad2RoundTrip(day);
    var y, m, d := NatToString(year), Pad2(month), Pad2(day);
    var s := y + m + d;
    assert s[..4] == y && s[4..6] == m && s[6..8] == d;
  }

  /** `isOnDate`: a single day equals the target; a range contains it, comparing dashed dates as strings. */
  predicate IsOnDate(e: Event, target: string) {
    e.value.Some? && e.value.value.d != "" &&
    var v := e.value.value;
    if v.r.Some? && v.r.value.d != "" then
      StrLe(DashDate(v.d), target) && StrLe(target, DashDate(v.r.value.d))
    else DashDate(v.d) == target
  }

  /** On well-formed dates, `isOnDate` is equality with the stored date, or its range containing the day. */
  lemma IsOnDateStored(e: Event, day: string)
    requires e.value.Some? && |e.value.value.d| == 8 && |day| == 8
    requires e.value.value.r.Some? ==> |e.value.value.r.value.d| == 8
    ensures IsOnDate(e, DashDate(day)) <==>
      var v := e.value.value;
      if v.r.Some? then StrLe(v.d, day) && StrLe(day, v.r.value.d) else v.d == day
  {
    var v := e.value.value;
    DashDateOrder(v.d, day);
    if v.r.Some? {
      DashDateOrder(day, v.r.value.d);
    } else if DashDate(v.d) == DashDate(day) {
      DashDateInjective(v.d, day);
    }
  }

  // ---------------------------------------------------------------------
  // find

  predicate CalendarIs(e: Event, calendar: Option<string>) {
    !Given(calendar) || ChoiceMatches(MapFor("calendar"), e.calendar, calendar.value)
  }

  predicate FindMatches(e: Event, calendar: Option<string>, status: Option<string>) {
    CalendarIs(e, calendar) && (!Given(status) || ChoiceMatches(MapFor("status"), e.status, status.value))
  }

  function FindMatching(events: seq<Event>, calendar: Option<string>, status: Option<string>): (r: seq<Event>)
    ensures multiset(r) <= multiset(events)
    ensures forall e :: e in r <==> e in events && FindMatches(e, calendar, status)
  {
    Filter(events, e => FindMatches(e, calendar, status))
  }

  /** The instant a sort compares: `new Date(0)` without one. */
  function InstantOr0(e: Event): (t: int)
    ensures e.instant.Some? ==> t == e.instant.value
    ensures e.instant.None? ==> t == 0
  {
    if e.instant.Some? then e.instant.value else 0
  }

  /** `dateA - dateB <= 0`: earliest first. */
  function EarliestFirst(a: Event, b: Event): bool {
    InstantOr0(a) <= InstantOr0(b)
  }

  lemma EarliestFirstOrders()
    ensures Total(EarliestFirst) && Transitive(EarliestFirst)
  {
  }

  /**
   * `toolFind`: events of the calendar and status asked for, earliest first, the first `limit`
   * (20 by default). `events` is None without a Calendar collection.
   */
  function Find(events: Option<seq<Event>>, calendar: Option<string>, status: Option<string>, limit: Option<int>): (r: Result<seq<Event>>)
    ensures events.None? ==> r == Err("Calendar collection not found")
    ensures r.Ok? <==> events.Some?
    ensures r.Ok? ==> SortedBy(r.value, EarliestFirst) && multiset(r.value) <= multiset(events.value)
    ensures r.Ok? ==> var found := FindMatching(events.value, calendar, status);
      Total(EarliestFirst) && |r.value| <= |found| && r.value == SortBy(found, EarliestFirst)[..|r.value|]
    ensures r.Ok? ==> forall e :: e in r.value ==> FindMatches(e, calendar, status)
    ensures r.Ok? && LimitOr(limit, 20) >= 0 ==>
      |r.value| == MinInt(|FindMatching(events.value, calendar, status)|, LimitOr(limit, 20))
  {
    if events.None? then Err("Calendar collection not found")
    else
      EarliestFirstOrders();
      var found := FindMatching(events.value, calendar, status);
      var shown := SortedSlice(found, EarliestFirst, LimitOr(limit, 20));
      assert forall e :: e in shown ==> e in found by {
        forall e | e in shown ensures e in found {
          assert e in multiset(shown);
        }
      }
      Ok(shown)
  }

  // ---------------------------------------------------------------------
  // today and upcoming

  /** `dt?.value()?.t`: the event's time object, as its `t` text. */
  function TimeOf(e: Event): (t: Option<string>)
    ensures t.Some? <==> e.value.Some? && e.value.value.t.Some?
  {
    if e.value.Some? then e.value.value.t else None
  }

  /** `dt?.value()?.d`. */
  function DayOf(e: Event): (d: Option<string>)
    ensures d.Some? <==> e.value.Some?
  {
    if e.value.Some? then Some(e.value.value.d) else None
  }

  /**
   * The comparison of `toolToday` is not positive: an event without a time object goes
   * before any other; two times are compared as strings when both are given; else a tie.
   */
  function AllDayThenTime(a: Event, b: Event): bool {
    TimeOf(a).None? ||
    (TimeOf(b).Some? && (!Given(TimeOf(a)) || !Given(TimeOf(b)) || StrLe(TimeOf(a).value, TimeOf(b).value)))
  }

  lemma AllDayThenTimeTotal()
    ensures Total(AllDayThenTime)
  {
    StrLeAllTotal();
  }

  /** All-day events come first: a timed event never precedes an all-day neighbour. */
  lemma AllDayFirst(a: Event, b: Event)
    requires TimeOf(a).Some? && TimeOf(b).None?
    ensures !AllDayThenTime(a, b) && AllDayThenTime(b, a)
  {
  }

  datatype Day = Day(date: string, count: nat, events: seq<Event>)

  predicate TodayMatches(e: Event, today: string, calendar: Option<string>) {
    IsOnDate(e, today) && CalendarIs(e, calendar)
  }

  function TodayMatching(events: seq<Event>, today: string, calendar: Option<string>): (r: seq<Event>)
    ensures multiset(r) <= multiset(events)
    ensures forall e :: e in r <==> e in events && TodayMatches(e, today, calendar)
  {
    Filter(events, e => TodayMatches(e, today, calendar))
  }

  /**
   * `toolToday`: every event on `today` (the local `YYYY-MM-DD`) of the calendar asked for,
   * all-day first then by time, without a limit, with their number.
   */
  function Today(events: Option<seq<Event>>, today: string, calendar: Option<string>): (r: Result<Day>)
    ensures events.None? ==> r == Err("Calendar collection not found")
    ensures r.Ok? <==> events.Some?
    ensures r.Ok? ==> r.value.date == today && r.value.count == |r.value.events|
    ensures r.Ok? ==> SortedBy(r.value.events, AllDayThenTime)
    ensures r.Ok? ==> multiset(r.value.events) == multiset(TodayMatching(events.value, today, calendar))
  {
    if events.None? then Err("Calendar collection not found")
    else
      AllDayThenTimeTotal();
      var found := SortBy(TodayMatching(events.value, today, calendar), AllDayThenTime);
      Ok(Day(today, |found|, found))
  }

  /** `toolUpcoming`'s range test: the dashed date lies between today and the end, as strings. */
  predicate InWindow(e: Event, today: string, end: string) {
    e.value.Some? && e.value.value.d != "" &&
    StrLe(today, DashDate(e.value.value.d)) && StrLe(DashDate(e.value.value.d), end)
  }

  predicate UpcomingMatches(e: Event, today: string, end: string, calendar: Option<string>) {
    InWindow(e, today, end) && CalendarIs(e, calendar)
  }

  function UpcomingMatching(events: seq<Event>, today: string, end: string, calendar: Option<string>): (r: seq<Event>)
    ensures multiset(r) <= multiset(events)
    ensures forall e :: e in r <==> e in events && UpcomingMatches(e, today, end, calendar)
  {
    Filter(events, e => UpcomingMatches(e, today, end, calendar))
  }

  /**
   * The comparison of `toolUpcoming` is not positive: different dates compare as strings;
   * on one date an event without a time object goes first; else the times compare as strings.
   */
  function DateThenTime(a: Event, b: Event): bool {
    if DayOf(a) != DayOf(b) then StrLe(OrEmpty(DayOf(a)), OrEmpty(DayOf(b)))
    else if TimeOf(a).None? && TimeOf(b).Some? then true
    else if TimeOf(a).Some? && TimeOf(b).None? then false
    else StrLe(OrEmpty(TimeOf(a)), OrEmpty(TimeOf(b)))
  }

  lemma DateThenTimeTotal()
    ensures Total(DateThenTime)
  {
    StrLeAllTotal();
  }

  /** Two neighbours in `upcoming`'s answer: an earlier stored date comes first. */
  lemma EarlierDateFirst(a: Event, b: Event)
    requires a.value.Some? && b.value.Some? && |a.value.value.d| == 8 && |b.value.value.d| == 8
    requires DateThenTime(a, b) && a.value.value.d != b.value.value.d
    ensures StrLe(DashDate(a.value.value.d), DashDate(b.value.value.d))
  {
    DashDateOrder(a.value.value.d, b.value.value.d);
  }

  datatype Agenda = Agenda(period: string, count: nat, events: seq<Event>)

  /**
   * `toolUpcoming`: events dated from `today` to `end` inclusive (the local dates of today and
   * of `days` days later, 7 by default), of the calendar asked for, by date then all-day
   * first then time, the first `limit` (20 by default).
   */
  function Upcoming(events: Option<seq<Event>>, today: string, end: string, calendar: Option<string>, limit: Option<int>): (r: Result<Agenda>)
    ensures events.None? ==> r == Err("Calendar collection not found")
    ensures r.Ok? <==> events.Some?
    ensures r.Ok? ==> r.value.period == today + " to " + end && r.value.count == |r.value.events|
    ensures r.Ok? ==> SortedBy(r.value.events, DateThenTime) && multiset(r.value.events) <= multiset(events.value)
    ensures r.Ok? ==> var found := UpcomingMatching(events.value, today, end, calendar);
      Total(DateThenTime) && |r.value.events| <= |found| && r.value.events == SortBy(found, DateThenTime)[..|r.value.events|]
    ensures r.Ok? ==> forall e :: e in r.value.events ==> UpcomingMatches(e, today, end, calendar)
    ensures r.Ok? && LimitOr(limit, 20) >= 0 ==>
      r.value.count == MinInt(|UpcomingMatching(events.value, today, end, calendar)|, LimitOr(limit, 20))
  {
    if events.None? then Err("Calendar collection not found")
    else
      DateThenTimeTotal();
      var found := UpcomingMatching(events.value, today, end, calendar);
      var shown := SortedSlice(found, DateThenTime, LimitOr(limit, 20));
      assert forall e :: e in shown ==> e in found by {
        forall e | e in shown ensures e in found {
          assert e in multiset(shown);
        }
      }
      Ok(Agenda(today + " to " + end, |shown|, shown))
  }

  /** The number of days `toolUpcoming` looks ahead: `args.days || 7`. */
  function LookAhead(days: Option<int>): (n: int)
    ensures days.None? || days.value == 0 ==> n == 7
  {
    LimitOr(days, 7)
  }

  /** With well-formed dates the window is `today <= date <= end` on the stored dates. */
  lemma InWindowStored(e: Event, today: string, end: string)
    requires e.value.Some? && |e.value.value.d| == 8 && |today| == 8 && |end| == 8
    ensures InWindow(e, DashDate(today), DashDate(end)) <==> StrLe(today, e.value.value.d) && StrLe(e.value.value.d, end)
  {
    DashDateOrder(today, e.value.value.d);
    DashDateOrder(e.value.value.d, end);
  }

  // ---------------------------------------------------------------------
  // needs_followup

  predicate NeedsFollowupMark(e: Event) {
    e.followup == Some("yes")
  }

  function FollowupMatching(events: seq<Event>): (r: seq<Event>)
    ensures multiset(r) <= multiset(events)
    ensures forall e :: e in r <==> e in events && NeedsFollowupMark(e)
  {
    Filter(events, NeedsFollowupMark)
  }

  /** `(dtB?.d || '').localeCompare(dtA?.d || '') <= 0`: latest date first. */
  function LatestFirst(a: Event, b: Event): bool {
    StrLe(OrEmpty(DayOf(b)), OrEmpty(DayOf(a)))
  }

  lemma LatestFirstTotal()
    ensures Total(LatestFirst)
  {
    StrLeAllTotal();
  }

  /** `toolNeedsFollowup`: events marked for follow-up, latest first, the first `limit` (10 by default). */
  function NeedsFollowup(events: Option<seq<Event>>, limit: Option<int>): (r: Result<seq<Event>>)
    ensures events.None? ==> r == Err("Calendar collection not found")
    ensures r.Ok? <==> events.Some?
    ensures r.Ok? ==> SortedBy(r.value, LatestFirst) && multiset(r.value) <= multiset(events.value)
    ensures r.Ok? ==> var found := FollowupMatching(events.value);
      Total(LatestFirst) && |r.value| <= |found| && r.value == SortBy(found, LatestFirst)[..|r.value|]
    ensures r.Ok? ==> forall e :: e in r.value ==> e.followup == Some("yes")
    ensures r.Ok? && LimitOr(limit, 10) >= 0 ==> |r.value| == MinInt(|FollowupMatching(events.value)|, LimitOr(limit, 10))
  {
    if events.None? then Err("Calendar collection not found")
    else
      LatestFirstTotal();
      var found := FollowupMatching(events.value);
      var shown := SortedSlice(found, LatestFirst, LimitOr(limit, 10));
      assert forall e :: e in shown ==> e in found by {
        forall e | e in shown ensures e in found {
          assert e in multiset(shown);
        }
      }
      Ok(shown)
  }

  // ---------------------------------------------------------------------
  // search

  /** The query in the title, location or attendees, ignoring case. */
  predicate SearchMatches(e: Event, query: string) {
    ContainsCi(OrEmpty(e.title), query) || ContainsCi(OrEmpty(e.location), query) || ContainsCi(OrEmpty(e.attendees), query)
  }

  function SearchMatching(events: seq<Event>, query: string): (r: seq<Event>)
    ensures forall e :: e in r <==> e in events && SearchMatches(e, query)
  {
    Filter(events, e => SearchMatches(e, query))
  }

  /** `toolSearch`: a query is required; the first `limit` matches (10 by default), in collection order. */
  function Search(events: Option<seq<Event>>, query: Option<string>, limit: Option<int>): (r: Result<seq<Event>>)
    ensures !Given(query) ==> r == Err("Query required")
    ensures Given(query) && events.None? ==> r == Err("Calendar collection not found")
    ensures r.Ok? <==> Given(query) && events.Some?
    ensures r.Ok? ==> forall e :: e in r.value ==> e in events.value && SearchMatches(e, query.value)
    ensures r.Ok? ==> var all := SearchMatching(events.value, query.value);
      |r.value| <= |all| && r.value == all[..|r.value|] &&
      (LimitOr(limit, 10) >= 0 ==> |r.value| == MinInt(|all|, LimitOr(limit, 10)))
  {
    if !Given(query) then Err("Query required")
    else if events.None? then Err("Calendar collection not found")
    else Ok(SliceTo(SearchMatching(events.value, query.value), LimitOr(limit, 10)))
  }
}
