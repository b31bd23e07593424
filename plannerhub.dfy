// The day planner of PlannerHub (plannerhub/plugin.js): task listings read from a journal,
// raw done values and their meaning, reordering the planner section by swapping item
// contents, the time child "Wed Jan 7 15:00 — Wed Jan 7 16:00" of a scheduled task, the
// timeline that fills the gaps of the workday with unscheduled tasks, and the YYYYMMDD
// date headings of the monthly record.

module PlannerHub {
  import opened Common

  // ---------------------------------------------------------------------
  // Task status

  datatype TaskStatus = Todo | InProgress | Done

  /** The raw `done` values the planner writes. */
  const DoneValue: int := 8
  const InProgressValue: int := 1

  /** `getTaskStatus`: only the numbers 8 and 1 mean something; everything else is to do. */
  function GetTaskStatus(raw: Option<Json>): (s: TaskStatus)
    ensures s == Done <==> raw == Some(JNum(DoneValue))
    ensures s == InProgress <==> raw == Some(JNum(InProgressValue))
  {
    if raw == Some(JNum(8)) then Done
    else if raw == Some(JNum(1)) then InProgress
    else Todo
  }

  /** A line item of a journal, as far as the planner looks at it. */
  datatype Item = Item(guid: string, itemType: string, segments: seq<Segment>, done: Option<Json>)

  /** `setTaskStatus`: the first item with the guid gets the raw value; false without one. */
  function SetTaskStatus(items: seq<Item>, guid: string, status: int, canSetProps: bool): (r: Option<seq<Item>>)
    ensures r.Some? <==> canSetProps && exists k :: 0 <= k < |items| && items[k].guid == guid
    ensures r.Some? ==> |r.value| == |items|
    ensures r.Some? ==> exists k :: (0 <= k < |items| && items[k].guid == guid &&
      r.value == items[k := items[k].(done := Some(JNum(status)))])
  {
    match FindItem(items, guid)
    case None => None
    case Some(k) => if canSetProps then Some(items[k := items[k].(done := Some(JNum(status)))]) else None
  }

  /** The first position of an item with the guid (`items.find`). */
  function FindItem(items: seq<Item>, guid: string): (r: Option<nat>)
    ensures r.Some? ==> r.value < |items| && items[r.value].guid == guid
    ensures r.Some? ==> forall j :: 0 <= j < r.value ==> items[j].guid != guid
    ensures r.None? ==> forall j :: 0 <= j < |items| ==> items[j].guid != guid
  {
    if items == [] then None
    else if items[0].guid == guid then Some(0)
    else match FindItem(items[1..], guid)
      case None => None
      case Some(k) => Some(k + 1)
  }

  /** `markDone` and `markInProgress` write the values that read back as done and in progress. */
  lemma MarksReadBack(items: seq<Item>, guid: string, canSetProps: bool, k: nat)
    requires k < |items| && items[k].guid == guid && canSetProps
    requires forall j :: 0 <= j < k ==> items[j].guid != guid
    ensures SetTaskStatus(items, guid, DoneValue, canSetProps).Some?
    ensures GetTaskStatus(SetTaskStatus(items, guid, DoneValue, canSetProps).value[k].done) == Done
    ensures GetTaskStatus(SetTaskStatus(items, guid, InProgressValue, canSetProps).value[k].done) == InProgress
  {
    assert FindItem(items, guid) == Some(k);
  }

  // ---------------------------------------------------------------------
  // Task listings

  /** A listed task: its trimmed text, its status and the last linked record, if any. */
  datatype Task = Task(guid: string, text: string, status: TaskStatus, linked: Option<string>)

  /** The concatenated plain-text segments of an item. */
  function TextOf(segs: seq<Segment>): (r: string)
    ensures segs == [] ==> r == ""
  {
    if segs == [] then ""
    else TextOf(segs[..|segs| - 1]) + (if segs[|segs| - 1].TextSeg? then segs[|segs| - 1].text else "")
  }

  /** Items with no plain-text segment have no text. */
  lemma {:induction false} TextOfNoText(segs: seq<Segment>)
    requires forall k :: 0 <= k < |segs| ==> !segs[k].TextSeg?
    ensures TextOf(segs) == ""
  {
    if segs != [] {
      TextOfNoText(segs[..|segs| - 1]);
    }
  }

  /** The guid of the last reference segment with a non-empty guid. */
  function LastRef(segs: seq<Segment>): (r: Option<string>)
    ensures r.Some? ==> r.value != "" && exists k :: 0 <= k < |segs| && segs[k] == RefSeg(r.value)
    ensures r.None? ==> forall k :: 0 <= k < |segs| ==> !segs[k].RefSeg? || segs[k].guid == ""
  {
    if segs == [] then None
    else if segs[|segs| - 1].RefSeg? && segs[|segs| - 1].guid != "" then Some(segs[|segs| - 1].guid)
    else LastRef(segs[..|segs| - 1])
  }

  /** What the loop has after some items: the tasks so far and the guids seen. */
  datatype Listing = Listing(tasks: seq<Task>, seen: set<string>)

  /** One item of the loop: non-tasks are skipped; a guid counts as seen before its text is read. */
  function ListStep(l: Listing, item: Item): (r: Listing)
    ensures r.seen == l.seen + (if item.itemType == "task" then {item.guid} else {})
  {
    if item.itemType != "task" || item.guid in l.seen then l
    else
      var seen := l.seen + {item.guid};
      var text := Trim(TextOf(item.segments));
      var linked := LastRef(item.segments);
      if text == "" && linked.None? then Listing(l.tasks, seen)
      else Listing(l.tasks + [Task(item.guid, text, GetTaskStatus(item.done), linked)], seen)
  }

  function ListUpTo(items: seq<Item>, n: nat): (r: Listing)
    requires n <= |items|
    ensures |r.tasks| <= n
  {
    if n == 0 then Listing([], {}) else ListStep(ListUpTo(items, n - 1), items[n - 1])
  }

  /** The task listing of a journal's items (`getJournalTasks`, `getTodayTasks`). */
  method ListTasks(items: seq<Item>) returns (tasks: seq<Task>)
    ensures tasks == ListUpTo(items, |items|).tasks
  {
    tasks := [];
    var seen: set<string> := {};
    var i := 0;
    while i < |items|
      invariant i <= |items|
      invariant tasks == ListUpTo(items, i).tasks && seen == ListUpTo(items, i).seen
    {
      var item := items[i];
      assert ListUpTo(items, i + 1) == ListStep(ListUpTo(items, i), item);
      if item.itemType == "task" && item.guid !in seen {
        seen := seen + {item.guid};
        var text := Trim(TextOf(item.segments));
        var linked := LastRef(item.segments);
        if text != "" || linked.Some? {
          tasks := tasks + [Task(item.guid, text, GetTaskStatus(item.done), linked)];
        }
      }
      i := i + 1;
    }
  }

  /** The guids seen are exactly those of the task items read so far. */
  lemma {:induction false} SeenAreTasks(items: seq<Item>, n: nat, g: string)
    requires n <= |items|
    ensures g in ListUpTo(items, n).seen <==>
      exists k :: 0 <= k < n && items[k].itemType == "task" && items[k].guid == g
  {
    if n > 0 {
      SeenAreTasks(items, n - 1, g);
      if g in ListUpTo(items, n).seen && g !in ListUpTo(items, n - 1).seen {
        assert items[n - 1].guid == g;
      }
    }
  }

  /** A step only appends to the tasks listed so far. */
  lemma ListStepExtends(items: seq<Item>, n: nat)
    requires 0 < n <= |items|
    ensures ListUpTo(items, n - 1).tasks <= ListUpTo(items, n).tasks
    ensures |ListUpTo(items, n).tasks| <= |ListUpTo(items, n - 1).tasks| + 1
  {
  }

  /** A listed task comes from a task item with its guid, was seen, and has text or a link. */
  lemma {:induction false} ListedIsTask(items: seq<Item>, n: nat, i: nat)
    requires n <= |items| && i < |ListUpTo(items, n).tasks|
    ensures var t := ListUpTo(items, n).tasks[i];
      (t.text != "" || t.linked.Some?) && t.guid in ListUpTo(items, n).seen &&
      exists k :: 0 <= k < n && items[k].itemType == "task" && items[k].guid == t.guid
  {
    ListStepExtends(items, n);
    var l := ListUpTo(items, n - 1);
    assert ListUpTo(items, n) == ListStep(l, items[n - 1]);
    if i < |l.tasks| {
      ListedIsTask(items, n - 1, i);
      assert ListUpTo(items, n).tasks[i] == l.tasks[i];
    } else {
      AppendedTask(l, items[n - 1]);
    }
  }

  /** A task appended by a step comes from that task item, whose guid was not seen before,
    * and has text or a link. */
  lemma AppendedTask(l: Listing, item: Item)
    requires |ListStep(l, item).tasks| > |l.tasks|
    ensures var t := ListStep(l, item).tasks[|l.tasks|];
      item.itemType == "task" && item.guid !in l.seen && t.guid == item.guid &&
      (t.text != "" || t.linked.Some?) && t.guid in ListStep(l, item).seen
  {
  }

  /** Listings never hold the same guid twice. */
  lemma {:induction false} ListedDistinct(items: seq<Item>, n: nat, i: nat, j: nat)
    requires n <= |items| && i < j < |ListUpTo(items, n).tasks|
    ensures ListUpTo(items, n).tasks[i].guid != ListUpTo(items, n).tasks[j].guid
  {
    ListStepExtends(items, n);
    var l := ListUpTo(items, n - 1);
    assert ListUpTo(items, n) == ListStep(l, items[n - 1]);
    var t := ListUpTo(items, n).tasks;
    assert t[i] == l.tasks[i];
    if j < |l.tasks| {
      ListedDistinct(items, n - 1, i, j);
      assert t[j] == l.tasks[j];
    } else {
      ListedIsTask(items, n - 1, i);
      AppendedTask(l, items[n - 1]);
    }
  }

  /** A task item whose guid appears first there, with text or a link, is listed at its step. */
  lemma ListedAtItsStep(items: seq<Item>, k: nat)
    requires k < |items|
    requires items[k].itemType == "task" && items[k].guid !in ListUpTo(items, k).seen
    requires Trim(TextOf(items[k].segments)) != "" || LastRef(items[k].segments).Some?
    ensures |ListUpTo(items, k + 1).tasks| == |ListUpTo(items, k).tasks| + 1
    ensures ListUpTo(items, k + 1).tasks[|ListUpTo(items, k).tasks|].guid == items[k].guid
  {
  }

  /** A task item whose guid appears first there, with text or a link, is listed. */
  lemma {:induction false} ListingComplete(items: seq<Item>, n: nat, k: nat)
    requires k < n <= |items|
    requires items[k].itemType == "task"
    requires forall j :: 0 <= j < k ==> items[j].itemType != "task" || items[j].guid != items[k].guid
    requires !IsBlank(TextOf(items[k].segments)) || LastRef(items[k].segments).Some?
    ensures exists i :: 0 <= i < |ListUpTo(items, n).tasks| && ListUpTo(items, n).tasks[i].guid == items[k].guid
  {
    var cur := ListUpTo(items, n).tasks;
    if n == k + 1 {
      SeenAreTasks(items, k, items[k].guid);
      ListedAtItsStep(items, k);
      var i := |ListUpTo(items, k).tasks|;
      assert 0 <= i < |cur| && cur[i].guid == items[k].guid;
    } else {
      ListingComplete(items, n - 1, k);
      ListStepExtends(items, n);
      var prev := ListUpTo(items, n - 1).tasks;
      var i :| 0 <= i < |prev| && prev[i].guid == items[k].guid;
      assert cur[i] == prev[i];
      assert 0 <= i < |cur| && cur[i].guid == items[k].guid;
    }
  }

  // ---------------------------------------------------------------------
  // Reordering the planner section

  /** The first position of a guid in the section (`findIndex`). */
  function IndexOf(guids: seq<string>, g: string): (r: Option<nat>)
    ensures r.Some? ==> r.value < |guids| && guids[r.value] == g
    ensures r.Some? ==> forall j :: 0 <= j < r.value ==> guids[j] != g
    ensures r.None? <==> g !in guids
  {
    if guids == [] then None
    else if guids[0] == g then Some(0)
    else match IndexOf(guids[1..], g)
      case None => None
      case Some(k) => Some(k + 1)
  }

  /** `s` with the elements at `i` and `j` exchanged. */
  function Swapped<T>(s: seq<T>, i: nat, j: nat): (r: seq<T>)
    requires i < |s| && j < |s|
    ensures |r| == |s| && r[i] == s[j] && r[j] == s[i]
    ensures forall k :: 0 <= k < |s| && k != i && k != j ==> r[k] == s[k]
  {
    s[i := s[j]][j := s[i]]
  }

  /**
   * `swapPlanTasksByGuid`: the two items keep their guids and exchange their contents
   * (segments and props); false when either guid is missing.
   */
  method SwapPlanTasks<T>(guids: seq<string>, contents: array<T>, guidA: string, guidB: string) returns (ok: bool)
    requires contents.Length == |guids|
    modifies contents
    ensures ok <==> guidA in guids && guidB in guids
    ensures ok ==> contents[..] == Swapped(old(contents[..]), IndexOf(guids, guidA).value, IndexOf(guids, guidB).value)
    ensures !ok ==> contents[..] == old(contents[..])
  {
    var ia := IndexOf(guids, guidA);
    var ib := IndexOf(guids, guidB);
    if ia.None? || ib.None? {
      return false;
    }
    contents[ia.value], contents[ib.value] := contents[ib.value], contents[ia.value];
    return true;
  }

  /** The element at `from` taken out and put back at `to`, the others keeping their order. */
  function Moved<T>(s: seq<T>, from: nat, to: nat): (r: seq<T>)
    requires from < |s| && to < |s|
    ensures |r| == |s| && r[to] == s[from]
    ensures forall k :: 0 <= k < |s| && k < MinInt(from, to) ==> r[k] == s[k]
    ensures forall k :: MaxInt(from, to) < k < |s| ==> r[k] == s[k]
  {
    seq(|s|, k requires 0 <= k < |s| =>
      if k == to then s[from]
      else if from < to && from <= k < to then s[k + 1]
      else if to < from && to < k <= from then s[k - 1]
      else s[k])
  }

  /** `s` without its element at `i`. */
  function Remove<T>(s: seq<T>, i: nat): (r: seq<T>)
    requires i < |s|
    ensures |r| == |s| - 1
    ensures forall k :: 0 <= k < i ==> r[k] == s[k]
    ensures forall k :: i <= k < |r| ==> r[k] == s[k + 1]
  {
    s[..i] + s[i + 1..]
  }

  /** Moving keeps the others' relative order: without the moved element both are the same. */
  lemma MovedKeepsOthers<T>(s: seq<T>, from: nat, to: nat)
    requires from < |s| && to < |s|
    ensures Moved(s, from, to)[to] == s[from]
    ensures Remove(Moved(s, from, to), to) == Remove(s, from)
  {
    var r := Moved(s, from, to);
    var a := Remove(r, to);
    var b := Remove(s, from);
    forall k | 0 <= k < |a|
      ensures a[k] == b[k]
    {
      if k < to { assert a[k] == r[k]; } else { assert a[k] == r[k + 1]; }
    }
  }

  lemma MovedNowhere<T>(s: seq<T>, i: nat)
    requires i < |s|
    ensures Moved(s, i, i) == s
  {
  }

  /** One swap of the moving element with its upper neighbour moves it one place up. */
  lemma MoveUpStep<T>(s: seq<T>, from: nat, i: nat)
    requires 0 < i <= from < |s|
    ensures Swapped(Moved(s, from, i), i, i - 1) == Moved(s, from, i - 1)
  {
  }

  /** One swap of the moving element with its lower neighbour moves it one place down. */
  lemma MoveDownStep<T>(s: seq<T>, from: nat, i: nat)
    requires from <= i && i + 1 < |s|
    ensures Swapped(Moved(s, from, i), i, i + 1) == Moved(s, from, i + 1)
  {
  }

  /** Where a move takes the task: from its position to its final one. */
  datatype Move = Move(from: nat, to: nat)

  /** An after-guid counts only when it is truthy, so the empty string means "to the top". */
  predicate GivenGuid(g: Option<string>) { g.Some? && g.value != "" }

  /**
   * What `moveTaskAfter` does: nothing (false) when the task is missing or a given
   * after-guid is missing; otherwise the task ends directly below the after-task, or first.
   */
  function MoveOf(guids: seq<string>, taskGuid: string, afterGuid: Option<string>): (r: Option<Move>)
    ensures r.None? <==> taskGuid !in guids || (GivenGuid(afterGuid) && afterGuid.value !in guids)
    ensures r.Some? ==> (r.value.from < |guids| && r.value.to < |guids| &&
      IndexOf(guids, taskGuid) == Some(r.value.from))
  {
    var ti := IndexOf(guids, taskGuid);
    var ai := if GivenGuid(afterGuid) then IndexOf(guids, afterGuid.value) else None;
    if ti.None? || (GivenGuid(afterGuid) && ai.None?) then None
    else
      var target := if ai.Some? then ai.value + 1 else 0;
      if ti.value == target then Some(Move(ti.value, ti.value))
      else if ti.value > target then Some(Move(ti.value, target))
      else Some(Move(ti.value, ai.value))
  }

  /** The moved task lands first without an after-guid, else directly below the after-task. */
  lemma MoveLandsAfter<T>(guids: seq<string>, s: seq<T>, taskGuid: string, afterGuid: Option<string>)
    requires |s| == |guids| && MoveOf(guids, taskGuid, afterGuid).Some?
    ensures var m := MoveOf(guids, taskGuid, afterGuid).value;
      var r := Moved(s, m.from, m.to);
      r[m.to] == s[m.from] &&
      (!GivenGuid(afterGuid) ==> m.to == 0) &&
      (GivenGuid(afterGuid) && afterGuid.value != taskGuid ==>
        m.to > 0 && r[m.to - 1] == s[IndexOf(guids, afterGuid.value).value])
  {
    var m := MoveOf(guids, taskGuid, afterGuid).value;
    var r := Moved(s, m.from, m.to);
    assert r[m.to] == s[m.from];
    if GivenGuid(afterGuid) && afterGuid.value != taskGuid {
      var ai := IndexOf(guids, afterGuid.value).value;
      assert ai != m.from;
      if m.from == ai + 1 {
        assert m.to == m.from && r[m.to - 1] == s[ai];
      } else if m.from > ai + 1 {
        assert m.to == ai + 1 && r[ai] == s[ai];
      } else {
        assert m.to == ai && r[ai - 1] == s[ai];
      }
    }
  }

  /**
   * `moveTaskAfter` on the contents of the section's items: a run of adjacent swaps
   * that carries the task's content up or down to its place.
   */
  method MoveTaskAfter<T>(guids: seq<string>, contents: array<T>, taskGuid: string, afterGuid: Option<string>)
    returns (ok: bool)
    requires contents.Length == |guids|
    modifies contents
    ensures ok <==> MoveOf(guids, taskGuid, afterGuid).Some?
    ensures ok ==> contents[..] == Moved(old(contents[..]), MoveOf(guids, taskGuid, afterGuid).value.from,
      MoveOf(guids, taskGuid, afterGuid).value.to)
    ensures !ok ==> contents[..] == old(contents[..])
  {
    var ti := IndexOf(guids, taskGuid);
    var ai := if GivenGuid(afterGuid) then IndexOf(guids, afterGuid.value) else None;
    if ti.None? || (GivenGuid(afterGuid) && ai.None?) {
      return false;
    }
    ghost var s := contents[..];
    var from := ti.value;
    var target := if ai.Some? then ai.value + 1 else 0;
    MovedNowhere(s, from);
    if from > target {
      var i := from;
      while i > target
        invariant target <= i <= from
        invariant contents[..] == Moved(s, from, i)
      {
        MoveUpStep(s, from, i);
        contents[i], contents[i - 1] := contents[i - 1], contents[i];
        i := i - 1;
      }
    } else if from < target {
      var i := from;
      while i < target - 1
        invariant from <= i <= target - 1
        invariant contents[..] == Moved(s, from, i)
      {
        MoveDownStep(s, from, i);
        contents[i], contents[i + 1] := contents[i + 1], contents[i];
        i := i + 1;
      }
    }
    return true;
  }

  // ---------------------------------------------------------------------
  // The time child of a scheduled task: "Wed Jan 7 15:00 — Wed Jan 7 16:00"

  const DayNames: seq<string> := ["Sun", "Mon", "Tue", "Wed", "Thu", "Fri", "Sat"]
  const MonthNames: seq<string> := ["Jan", "Feb", "Mar", "Apr", "May", "Jun", "Jul", "Aug", "Sep", "Oct", "Nov", "Dec"]

  /** The local-time fields of a `Date`: weekday 0..6 from Sunday, month 0..11 from January. */
  datatype Stamp = Stamp(weekday: nat, month: nat, date: nat, hour: nat, minute: nat)

  predicate ValidStamp(d: Stamp) {
    d.weekday < 7 && d.month < 12 && 1 <= d.date <= 31 && d.hour < 24 && d.minute < 60
  }

  /** "Ddd Mmm D HH:MM": the day of the month unpadded, hours and minutes padded to two. */
  function FormatStamp(d: Stamp): (r: string)
    requires d.weekday < 7 && d.month < 12
  {
    DayNames[d.weekday] + " " + MonthNames[d.month] + " " + ClockText(d)
  }

  function ClockText(d: Stamp): string {
    NatToString(d.date) + " " + Pad2(d.hour) + ":" + Pad2(d.minute)
  }

  const RangeSeparator: string := " \U{2014} "

  /** `formatTimeRange`. */
  function FormatTimeRange(start: Stamp, end: Stamp): (r: string)
    requires start.weekday < 7 && start.month < 12 && end.weekday < 7 && end.month < 12
    ensures |r| == |FormatStamp(start)| + 3 + |FormatStamp(end)|
    ensures StartsWith(r, FormatStamp(start)) && EndsWith(r, FormatStamp(end))
    ensures r[|FormatStamp(start)|..|FormatStamp(start)| + 3] == RangeSeparator
  {
    FormatStamp(start) + RangeSeparator + FormatStamp(end)
  }

  /** A character of the regular-expression class `\w`. */
  predicate IsWordChar(c: char) {
    'a' <= c <= 'z' || 'A' <= c <= 'Z' || IsDigit(c) || c == '_'
  }

  /** `\w{3}`. */
  predicate Word3(w: string) {
    |w| == 3 && IsWordChar(w[0]) && IsWordChar(w[1]) && IsWordChar(w[2])
  }

  predicate DigitAt(t: string, i: nat) {
    i < |t| && IsDigit(t[i])
  }

  predicate CharAt(t: string, i: nat, c: char) {
    i < |t| && t[i] == c
  }

  /** The value of the two digits at `i` and `i + 1`. */
  function TwoDigits(t: string, i: nat): (n: nat)
    requires DigitAt(t, i) && DigitAt(t, i + 1)
    ensures n < 100
  {
    DigitVal(t[i]) * 10 + DigitVal(t[i + 1])
  }

  /** The clock part of one half, `(\d{1,2}) (\d{2}):(\d{2})`, at the start of `u`. */
  datatype Clock = Clock(date: nat, hour: nat, minute: nat, len: nat)

  function MatchClock(u: string): (r: Option<Clock>)
    ensures r.Some? ==> 0 < r.value.len <= |u|
    ensures r.Some? ==> (r.value.len == 7 || r.value.len == 8) && r.value.date < 100 && r.value.hour < 100 && r.value.minute < 100
    ensures !DigitAt(u, 0) ==> r.None?
  {
    if !DigitAt(u, 0) then None
    else
      // greedy `\d{1,2}`: a second digit is taken whenever there is one, since a space follows
      var dl := if DigitAt(u, 1) then 2 else 1;
      if CharAt(u, dl, ' ') && DigitAt(u, dl + 1) && DigitAt(u, dl + 2) && CharAt(u, dl + 3, ':') &&
        DigitAt(u, dl + 4) && DigitAt(u, dl + 5)
      then
        var date := if dl == 2 then TwoDigits(u, 0) else DigitVal(u[0]);
        Some(Clock(date, TwoDigits(u, dl + 1), TwoDigits(u, dl + 4), dl + 6))
      else None
  }

  /** One half of the pattern, `(\w{3}) (\w{3}) (\d{1,2}) (\d{2}):(\d{2})`, at the start of `t`. */
  datatype HalfMatch = HalfMatch(month: string, date: nat, hour: nat, minute: nat, len: nat)

  function MatchHalf(t: string): (r: Option<HalfMatch>)
    ensures r.Some? ==> 0 < r.value.len <= |t|
    ensures r.Some? ==> |t| >= 8 && r.value.month == t[4..7] && Word3(r.value.month)
  {
    if !(|t| >= 8 && Word3(t[0..3]) && t[3] == ' ' && Word3(t[4..7]) && t[7] == ' ') then None
    else match MatchClock(t[8..])
      case None => None
      case Some(c) => Some(HalfMatch(t[4..7], c.date, c.hour, c.minute, 8 + c.len))
  }

  /** What `parseTimeRange` reads for one end; an unknown month name makes an invalid date. */
  datatype Fields = Fields(month: Option<nat>, date: nat, hour: nat, minute: nat)
  datatype TimeRange = TimeRange(year: int, start: Fields, end: Fields)

  function FieldsOf(h: HalfMatch): Fields {
    Fields(MonthIndex(h.month), h.date, h.hour, h.minute)
  }

  /** The whole pattern matched at position `p`. */
  function MatchAt(t: string, p: nat, year: int): (r: Option<TimeRange>)
    requires p <= |t|
    ensures r.Some? ==> r.value.year == year && MatchHalf(t[p..]).Some?
    ensures r.Some? ==> var q := p + MatchHalf(t[p..]).value.len;
      q + 3 <= |t| && t[q..q + 3] == RangeSeparator && MatchHalf(t[q + 3..]).Some?
  {
    match MatchHalf(t[p..])
    case None => None
    case Some(h1) =>
      var q := p + h1.len;
      if q + 3 <= |t| && t[q..q + 3] == RangeSeparator then
        match MatchHalf(t[q + 3..])
        case None => None
        case Some(h2) => Some(TimeRange(year, FieldsOf(h1), FieldsOf(h2)))
      else None
  }

  /** The leftmost match at or after `p`: the pattern is searched for, not anchored. */
  function SearchFrom(t: string, p: nat, year: int): (r: Option<TimeRange>)
    requires p <= |t|
    ensures r.Some? ==> exists q :: p <= q <= |t| && r == MatchAt(t, q, year)
    ensures r.None? <==> forall q :: p <= q <= |t| ==> MatchAt(t, q, year).None?
    decreases |t| - p
  {
    if MatchAt(t, p, year).Some? then MatchAt(t, p, year)
    else if p == |t| then None
    else SearchFrom(t, p + 1, year)
  }

  /** `parseTimeRange`, with `year` the current year; null when nothing matches. */
  function ParseTimeRange(text: string, year: int): (r: Option<TimeRange>)
    ensures r.Some? ==> r.value.year == year
  {
    SearchFromYear(text, 0, year);
    SearchFrom(text, 0, year)
  }

  lemma {:induction false} SearchFromYear(t: string, p: nat, year: int)
    requires p <= |t|
    ensures SearchFrom(t, p, year).Some? ==> SearchFrom(t, p, year).value.year == year
    decreases |t| - p
  {
    if MatchAt(t, p, year).None? && p < |t| {
      SearchFromYear(t, p + 1, year);
    }
  }

  /** The `months` table of `parseTimeRange`. */
  function MonthIndex(name: string): (r: Option<nat>)
    ensures r.Some? ==> r.value < 12 && MonthNames[r.value] == name
  {
    if name == "Jan" then Some(0) else if name == "Feb" then Some(1) else if name == "Mar" then Some(2)
    else if name == "Apr" then Some(3) else if name == "May" then Some(4) else if name == "Jun" then Some(5)
    else if name == "Jul" then Some(6) else if name == "Aug" then Some(7) else if name == "Sep" then Some(8)
    else if name == "Oct" then Some(9) else if name == "Nov" then Some(10) else if name == "Dec" then Some(11)
    else None
  }

  /** The table reads back every month name the formatter writes. */
  lemma MonthLookup(m: nat)
    requires m < 12
    ensures MonthIndex(MonthNames[m]) == Some(m)
  {
    var r := MonthIndex(MonthNames[m]);
    assert r.Some? by {
      if m < 6 {
        assert m == 0 || m == 1 || m == 2 || m == 3 || m == 4 || m == 5;
      } else {
        assert m == 6 || m == 7 || m == 8 || m == 9 || m == 10 || m == 11;
      }
    }
    assert MonthNames[r.value] == MonthNames[m];
    NamesDistinct(r.value, m);
  }

  lemma NamesDistinct(i: nat, j: nat)
    requires i < 12 && j < 12 && MonthNames[i] == MonthNames[j]
    ensures i == j
  {
  }

  /** Every day and month name is three word characters. */
  lemma NamesAreWords(d: Stamp)
    requires d.weekday < 7 && d.month < 12
    ensures Word3(DayNames[d.weekday]) && Word3(MonthNames[d.month])
  {
  }

  lemma OneDigit(n: nat)
    requires n < 10
    ensures NatToString(n) == [DigitChar(n)]
    ensures Pad2(n) == [DigitChar(0), DigitChar(n)]
  {
  }

  lemma TwoDigitsWritten(n: nat)
    requires 10 <= n < 100
    ensures NatToString(n) == [DigitChar(n / 10), DigitChar(n % 10)]
    ensures Pad2(n) == NatToString(n)
  {
    assert NatToString(n / 10) == [DigitChar(n / 10)];
  }

  /** `n.toString().padStart(2, "0")` for n < 100: the tens digit, then the units digit. */
  lemma Pad2Digits(n: nat)
    requires n < 100
    ensures Pad2(n) == [DigitChar(n / 10), DigitChar(n % 10)]
  {
    if n < 10 { OneDigit(n); } else { TwoDigitsWritten(n); }
  }

  /** The clock part after a day of the month that has one digit or two. */
  lemma ClockDigits(date: nat, hour: nat, minute: nat, rest: string)
    requires 1 <= date <= 31 && hour < 24 && minute < 60
    ensures var h := [' ', DigitChar(hour / 10), DigitChar(hour % 10), ':', DigitChar(minute / 10), DigitChar(minute % 10)];
      ClockText(Stamp(0, 0, date, hour, minute)) + rest ==
        (if date < 10 then [DigitChar(date)] else [DigitChar(date / 10), DigitChar(date % 10)]) + h + rest
  {
    Pad2Digits(hour);
    Pad2Digits(minute);
    ClockJoin(NatToString(date), DigitChar(hour / 10), DigitChar(hour % 10), DigitChar(minute / 10), DigitChar(minute % 10), rest);
    if date < 10 { OneDigit(date); } else { TwoDigitsWritten(date); }
  }

  lemma ClockJoin(dd: string, h1: char, h2: char, m1: char, m2: char, rest: string)
    ensures dd + " " + [h1, h2] + ":" + [m1, m2] + rest == dd + [' ', h1, h2, ':', m1, m2] + rest
  {
    assert " " + [h1, h2] + ":" + [m1, m2] == [' ', h1, h2, ':', m1, m2];
  }

  lemma ClockOneDigit(date: nat, hour: nat, minute: nat, rest: string)
    requires 1 <= date < 10 && hour < 24 && minute < 60
    ensures var h := [' ', DigitChar(hour / 10), DigitChar(hour % 10), ':', DigitChar(minute / 10), DigitChar(minute % 10)];
      MatchClock([DigitChar(date)] + h + rest) == Some(Clock(date, hour, minute, 7))
  {
  }

  lemma ClockTwoDigits(date: nat, hour: nat, minute: nat, rest: string)
    requires 10 <= date <= 31 && hour < 24 && minute < 60
    ensures var h := [' ', DigitChar(hour / 10), DigitChar(hour % 10), ':', DigitChar(minute / 10), DigitChar(minute % 10)];
      MatchClock([DigitChar(date / 10), DigitChar(date % 10)] + h + rest) == Some(Clock(date, hour, minute, 8))
  {
  }

  /** The clock part written by the formatter is read back by the pattern. */
  lemma ClockRoundTrip(date: nat, hour: nat, minute: nat, rest: string)
    requires 1 <= date <= 31 && hour < 24 && minute < 60
    ensures MatchClock(ClockText(Stamp(0, 0, date, hour, minute)) + rest) ==
      Some(Clock(date, hour, minute, |ClockText(Stamp(0, 0, date, hour, minute))|))
  {
    ClockDigits(date, hour, minute, rest);
    ClockDigits(date, hour, minute, []);
    if date < 10 { ClockOneDigit(date, hour, minute, rest); } else { ClockTwoDigits(date, hour, minute, rest); }
  }

  /** Two names and their spaces, then the clock part. */
  lemma HalfOfNames(day: string, mon: string, c: string, rest: string, k: Clock)
    requires Word3(day) && Word3(mon) && MatchClock(c + rest) == Some(k)
    ensures MatchHalf(day + " " + mon + " " + c + rest) == Some(HalfMatch(mon, k.date, k.hour, k.minute, 8 + k.len))
  {
    var t := day + " " + mon + " " + c + rest;
    assert t[0..3] == day && t[4..7] == mon;
    assert t[8..] == c + rest;
  }

  /** A formatted end is matched in full by one half of the pattern, whatever follows it. */
  lemma HalfRoundTrip(d: Stamp, rest: string)
    requires ValidStamp(d)
    ensures MatchHalf(FormatStamp(d) + rest) ==
      Some(HalfMatch(MonthNames[d.month], d.date, d.hour, d.minute, |FormatStamp(d)|))
  {
    var c := ClockText(d);
    NamesAreWords(d);
    ClockRoundTrip(d.date, d.hour, d.minute, rest);
    assert ClockText(d) == ClockText(Stamp(0, 0, d.date, d.hour, d.minute));
    HalfOfNames(DayNames[d.weekday], MonthNames[d.month], c, rest, Clock(d.date, d.hour, d.minute, |c|));
  }

  /** Two halves around the separator make a match at the start. */
  lemma MatchAtStart(x: string, y: string, h1: HalfMatch, h2: HalfMatch, year: int)
    requires MatchHalf(x + (RangeSeparator + y)) == Some(h1) && h1.len == |x|
    requires MatchHalf(y) == Some(h2)
    ensures ParseTimeRange(x + RangeSeparator + y, year) == Some(TimeRange(year, FieldsOf(h1), FieldsOf(h2)))
  {
    var t := x + RangeSeparator + y;
    assert t == x + (RangeSeparator + y);
    assert t[0..] == t;
    assert t[|x|..|x| + 3] == RangeSeparator;
    assert t[|x| + 3..] == y;
  }

  /** `parseTimeRange(formatTimeRange(s, e))` gives back the month, day, hour and minute of both ends. */
  lemma TimeRangeRoundTrip(s: Stamp, e: Stamp, year: int)
    requires ValidStamp(s) && ValidStamp(e)
    ensures ParseTimeRange(FormatTimeRange(s, e), year) ==
      Some(TimeRange(year, Fields(Some(s.month), s.date, s.hour, s.minute), Fields(Some(e.month), e.date, e.hour, e.minute)))
  {
    HalfRoundTrip(s, RangeSeparator + FormatStamp(e));
    HalfRoundTrip(e, []);
    assert FormatStamp(e) + [] == FormatStamp(e);
    MatchAtStart(FormatStamp(s), FormatStamp(e),
      HalfMatch(MonthNames[s.month], s.date, s.hour, s.minute, |FormatStamp(s)|),
      HalfMatch(MonthNames[e.month], e.date, e.hour, e.minute, |FormatStamp(e)|), year);
    MonthLookup(s.month);
    MonthLookup(e.month);
  }

  /** Text without the pattern anywhere is not a time range. */
  lemma {:induction false} NoMatchNoRange(t: string, p: nat, year: int)
    requires p <= |t|
    requires forall q :: p <= q <= |t| ==> MatchAt(t, q, year).None?
    ensures SearchFrom(t, p, year).None?
    decreases |t| - p
  {
    if p < |t| {
      NoMatchNoRange(t, p + 1, year);
    }
  }

  // ---------------------------------------------------------------------
  // Scheduling a task and adding one to today

  /** An optional leading '+' or '-': its factor and the text after it. */
  function SignOf(s: string): (r: (int, string))
    ensures r.0 == -1 <==> s != [] && s[0] == '-'
    ensures r.0 == 1 || r.0 == -1
    ensures if s != [] && (s[0] == '+' || s[0] == '-') then r.1 == s[1..] else r.1 == s
  {
    if s != [] && s[0] == '-' then (-1, s[1..])
    else if s != [] && s[0] == '+' then (1, s[1..])
    else (1, s)
  }

  /**
   * `Number` of a part of "HH:MM": white space around it is ignored, a blank part reads
   * as 0, and an optional sign followed by decimal digits reads as that integer; any
   * other text is NaN, here None.
   */
  function NumberOf(s: string): (r: Option<int>)
  {
    var rest := s[WsRun(s, 0)..];
    var t := rest[..|rest| - WsRunBack(rest, |rest|)];
    if t == [] then Some(0)
    else
      var sd := SignOf(t);
      if sd.1 != [] && AllDigits(sd.1) then Some(sd.0 * ParseNat(sd.1)) else None
  }

  /** Text with no white space at either end is read without trimming. */
  lemma NumberOfUntrimmed(s: string)
    requires s != [] && !IsWs(s[0]) && !IsWs(s[|s| - 1])
    ensures NumberOf(s) == (var sd := SignOf(s); if sd.1 != [] && AllDigits(sd.1) then Some(sd.0 * ParseNat(sd.1)) else None)
  {
    assert WsRun(s, 0) == 0 && s[0..] == s;
    assert WsRunBack(s, |s|) == 0 && s[..|s|] == s;
  }

  /** Plain digits read as their value. */
  lemma NumberOfDigits(d: string)
    requires d != [] && AllDigits(d)
    ensures NumberOf(d) == Some(ParseNat(d))
  {
    assert !IsWs(d[0]) && !IsWs(d[|d| - 1]);
    NumberOfUntrimmed(d);
  }

  /** Blank text reads as 0. */
  lemma NumberOfBlank(s: string)
    requires IsBlank(s)
    ensures NumberOf(s) == Some(0)
  {
    WsRunOver(s, 0, |s|);
  }

  /** Text without white space at either end, with a character other than a digit after its first, is NaN. */
  lemma NumberOfNaN(s: string, k: nat)
    requires 0 < k < |s| && !IsDigit(s[k]) && !IsWs(s[0]) && !IsWs(s[|s| - 1])
    ensures NumberOf(s) == None
  {
    NumberOfUntrimmed(s);
    var d := SignOf(s).1;
    assert d == s[1..] || d == s;
    assert d == s[1..] ==> d[k - 1] == s[k];
  }

  /** "-N" and "+N" read as -N and N. */
  lemma NumberOfSigned(d: string)
    requires d != [] && AllDigits(d)
    ensures NumberOf("-" + d) == Some(0 - ParseNat(d) as int)
    ensures NumberOf("+" + d) == Some(ParseNat(d))
  {
    SignedNumber('-', d);
    SignedNumber('+', d);
  }

  lemma SignedNumber(c: char, d: string)
    requires c == '-' || c == '+'
    requires d != [] && AllDigits(d)
    ensures NumberOf([c] + d) == Some(if c == '-' then 0 - ParseNat(d) as int else ParseNat(d))
  {
    var s := [c] + d;
    assert s[0] == c && s[|s| - 1] == d[|d| - 1] && s[1..] == d;
    NumberOfUntrimmed(s);
    var n: int := ParseNat(d);
    if c == '-' {
      assert SignOf(s) == (-1, d);
      assert NumberOf(s) == Some(-1 * n);
    } else {
      assert SignOf(s) == (1, d);
      assert NumberOf(s) == Some(1 * n);
    }
  }

  /** The text before the first ':' and the text between it and the next one. */
  function SplitClock(s: string): (r: Option<(string, string)>)
    ensures r.Some? ==> ':' !in r.value.0 && ':' !in r.value.1
  {
    if ':' !in s then None
    else
      var i := FirstColon(s);
      var rest := s[i + 1..];
      Some((s[..i], if ':' in rest then rest[..FirstColon(rest)] else rest))
  }

  function FirstColon(s: string): (i: nat)
    requires ':' in s
    ensures i < |s| && s[i] == ':' && ':' !in s[..i]
  {
    if s[0] == ':' then 0
    else
      assert ':' in s[1..] by { var k :| 0 <= k < |s| && s[k] == ':'; assert s[1..][k - 1] == ':'; }
      var j := FirstColon(s[1..]);
      assert s[..j + 1] == [s[0]] + s[1..][..j];
      j + 1
  }

  /** "HH:MM" on the day starting at `midnight` (`setHours(hours, mins, 0, 0)`); None is an invalid date. */
  function ClockMs(s: string, midnight: int): (r: Option<int>)
    ensures ':' !in s ==> r.None?
    ensures r.Some? ==> SplitClock(s).Some?
  {
    match SplitClock(s)
    case None => None
    case Some((h, m)) =>
      if NumberOf(h).Some? && NumberOf(m).Some? then Some(midnight + NumberOf(h).value * 3600000 + NumberOf(m).value * 60000)
      else None
  }

  /** A padded "HH:MM" reads as that many hours and minutes after midnight. */
  lemma ClockOfPadded(h: nat, m: nat, midnight: int)
    requires h < 100 && m < 100
    ensures ClockMs(Pad2(h) + ":" + Pad2(m), midnight) == Some(midnight + h * 3600000 + m * 60000)
  {
    var hs, ms := Pad2(h), Pad2(m);
    NumberOfPad2(h);
    NumberOfPad2(m);
    SplitPadded(h, m);
    ClockOfParts(hs + ":" + ms, midnight, hs, ms, h, m);
  }

  lemma NumberOfPad2(n: nat)
    requires n < 100
    ensures NumberOf(Pad2(n)) == Some(n)
  {
    Pad2RoundTrip(n);
    NumberOfDigits(Pad2(n));
  }

  lemma SplitPadded(h: nat, m: nat)
    requires h < 100 && m < 100
    ensures SplitClock(Pad2(h) + ":" + Pad2(m)) == Some((Pad2(h), Pad2(m)))
  {
    var s := Pad2(h) + ":" + Pad2(m);
    Pad2RoundTrip(h);
    Pad2RoundTrip(m);
    assert s[2] == ':' && ':' !in s[..2];
    assert FirstColon(s) == 2;
    assert s[..2] == Pad2(h);
    assert s[3..] == Pad2(m);
    assert ':' !in Pad2(m) by { assert AllDigits(Pad2(m)); }
  }

  lemma ClockOfParts(s: string, midnight: int, hs: string, ms: string, hours: int, mins: int)
    requires SplitClock(s) == Some((hs, ms)) && NumberOf(hs) == Some(hours) && NumberOf(ms) == Some(mins)
    ensures ClockMs(s, midnight) == Some(midnight + hours * 3600000 + mins * 60000)
  {
  }

  lemma SplitDigits(hs: string, ms: string)
    requires AllDigits(hs) && AllDigits(ms)
    ensures SplitClock(hs + ":" + ms) == Some((hs, ms))
  {
    var s := hs + ":" + ms;
    assert s[|hs|] == ':';
    assert s[..|hs|] == hs;
    assert ':' !in hs;
    assert FirstColon(s) == |hs|;
    assert s[|hs| + 1..] == ms;
    assert ':' !in ms;
  }

  lemma NineAndEighteen()
    ensures Pad2(9) + ":" + Pad2(0) == "09:00"
    ensures Pad2(18) + ":" + Pad2(0) == "18:00"
  {
    assert DigitChar(9) == '9' && DigitChar(0) == '0' && DigitChar(1) == '1' && DigitChar(8) == '8';
    assert NatToString(18) == NatToString(1) + [DigitChar(8)];
  }

  /** The workday of the timeline by default: 09:00 to 18:00. */
  lemma DefaultWorkday(midnight: int)
    ensures ClockMs("09:00", midnight) == Some(midnight + 9 * 3600000)
    ensures ClockMs("18:00", midnight) == Some(midnight + 18 * 3600000)
  {
    NineAndEighteen();
    ClockOfPadded(9, 0, midnight);
    ClockOfPadded(18, 0, midnight);
  }

  /** A start or end argument: a `Date` (its epoch milliseconds), an "HH:MM" string, or anything else. */
  datatype TimeArg = DateArg(ms: int) | ClockArg(text: string) | OtherArg

  /** One hour, the length of a task scheduled without an end. */
  const HourMs: int := 3600000

  /**
   * What `scheduleTask` writes: either nothing (false) when the task is missing or the start
   * is neither a date nor a string, or the range into the first text child (Some guid) or a
   * new one (None). An unreadable clock string gives an invalid date, here None.
   */
  datatype Schedule = NoTask | BadStart | WriteRange(child: Option<string>, start: Option<int>, end: Option<int>)

  function ScheduleTask(taskFound: bool, textChildren: seq<string>, start: TimeArg, end: TimeArg, midnight: int): (r: Schedule)
    ensures !taskFound <==> r == NoTask
    ensures taskFound && start.OtherArg? <==> r == BadStart
    ensures r.WriteRange? ==> (r.child.Some? <==> textChildren != []) && (r.child.Some? ==> r.child.value == textChildren[0])
    ensures r.WriteRange? && start.DateArg? ==> r.start == Some(start.ms)
    ensures r.WriteRange? && r.start.Some? && end.OtherArg? ==> r.end == Some(r.start.value + HourMs)
    ensures r.WriteRange? && end.DateArg? ==> r.end == Some(end.ms)
  {
    if !taskFound then NoTask
    else if start.OtherArg? then BadStart
    else
      var s := if start.DateArg? then Some(start.ms) else ClockMs(start.text, midnight);
      var e := if end.DateArg? then Some(end.ms)
        else if end.ClockArg? then ClockMs(end.text, midnight)
        else if s.Some? then Some(s.value + HourMs) else None;
      WriteRange(if textChildren == [] then None else Some(textChildren[0]), s, e)
  }

  /** A new planner task: where it goes under the heading and its segments. */
  datatype NewTask = NewTask(after: Option<string>, segments: seq<Segment>)

  /**
   * `addToToday`: a truthy issue guid gives "work on " and a reference, and the text is then
   * ignored; otherwise a truthy text gives one text segment; neither gives false and nothing is
   * created. The task goes after the last item of the section, or first when it is empty.
   */
  function AddToToday(text: Option<string>, issueGuid: Option<string>, sectionItems: seq<string>): (r: Option<NewTask>)
    ensures r.None? <==> !GivenGuid(issueGuid) && !GivenGuid(text)
    ensures r.Some? && GivenGuid(issueGuid) ==> r.value.segments == [TextSeg("work on "), RefSeg(issueGuid.value)]
    ensures r.Some? && !GivenGuid(issueGuid) ==> r.value.segments == [TextSeg(text.value)]
    ensures r.Some? ==> (r.value.after.None? <==> sectionItems == [])
    ensures r.Some? && sectionItems != [] ==> r.value.after == Some(sectionItems[|sectionItems| - 1])
  {
    var after := if sectionItems == [] then None else Some(sectionItems[|sectionItems| - 1]);
    if GivenGuid(issueGuid) then Some(NewTask(after, [TextSeg("work on "), RefSeg(issueGuid.value)]))
    else if GivenGuid(text) then Some(NewTask(after, [TextSeg(text.value)]))
    else None
  }

  /** With an issue the text makes no difference. */
  lemma AddToTodayIgnoresText(t1: Option<string>, t2: Option<string>, issueGuid: string, section: seq<string>)
    requires issueGuid != ""
    ensures AddToToday(t1, Some(issueGuid), section) == AddToToday(t2, Some(issueGuid), section)
  {
  }

  // ---------------------------------------------------------------------
  // YYYYMMDD dates of the monthly record

  /** `formatDateYYYYMMDD` of a local date with month 0..11. */
  function FormatDate(year: nat, month: nat, day: nat): (r: string)
    ensures AllDigits(r)
  {
    NatToString(year) + Pad2(month + 1) + Pad2(day)
  }

  /** The length of the run of digits at the start of `s`. */
  function DigitPrefix(s: string): (n: nat)
    ensures n <= |s| && AllDigits(s[..n]) && (n < |s| ==> !IsDigit(s[n]))
  {
    if s == [] || !IsDigit(s[0]) then 0
    else
      var n := DigitPrefix(s[1..]) + 1;
      assert s[..n] == [s[0]] + s[1..][..n - 1];
      n
  }

  /**
   * `parseInt(s, 10)`: leading white space is skipped, an optional sign read, and the run
   * of digits after it read as the integer; no digit there is NaN, here None.
   */
  function LeadingInt(s: string): (r: Option<int>)
    ensures AllDigits(s) && s != [] ==> r == Some(ParseNat(s))
  {
    var sd := SignOf(s[WsRun(s, 0)..]);
    var n := DigitPrefix(sd.1);
    if n == 0 then None
    else
      assert AllDigits(s) ==> sd.1 == s && n == |s| by {
        if AllDigits(s) { assert s[0] != '+' && s[0] != '-' && !IsWs(s[0]); }
      }
      assert s[..|s|] == s;
      Some(sd.0 * ParseNat(sd.1[..n]))
  }

  /** The digit run of `d + rest` is `d` followed by the digit run of `rest`. */
  lemma {:induction false} DigitPrefixPast(d: string, rest: string)
    requires AllDigits(d)
    ensures DigitPrefix(d + rest) == |d| + DigitPrefix(rest)
    decreases |d|
  {
    if d != [] {
      assert (d + rest)[1..] == d[1..] + rest;
      DigitPrefixPast(d[1..], rest);
    } else {
      assert d + rest == rest;
    }
  }

  /** `parseInt` stops at the first character after the digits. */
  lemma LeadingIntStops(d: string, rest: string)
    requires d != [] && AllDigits(d) && (rest == [] || !IsDigit(rest[0]))
    ensures LeadingInt(d + rest) == Some(ParseNat(d))
  {
    var s := d + rest;
    assert !IsWs(s[0]) && s[0] != '+' && s[0] != '-';
    DigitPrefixPast(d, rest);
    assert s[..|d|] == d;
  }

  /** Text that starts with a character other than white space, a sign or a digit is NaN. */
  lemma LeadingIntNaN(s: string)
    requires s != [] && !IsWs(s[0]) && !IsDigit(s[0]) && s[0] != '+' && s[0] != '-'
    ensures LeadingInt(s) == None
  {
    assert s[0..] == s;
  }

  /** `parseInt` skips leading white space and honours a minus sign. */
  lemma LeadingIntSkipsBlankAndSign(w: string, d: string)
    requires IsBlank(w) && d != [] && AllDigits(d)
    ensures LeadingInt(w + "-" + d) == Some(0 - ParseNat(d) as int)
  {
    assert w + "-" + d == w + ("-" + d);
    LeadingIntAfterBlank(w, "-" + d);
    LeadingIntNegative(d);
  }

  /** Leading white space makes no difference to `parseInt`. */
  lemma LeadingIntAfterBlank(w: string, u: string)
    requires IsBlank(w) && u != [] && !IsWs(u[0])
    ensures LeadingInt(w + u) == LeadingInt(u)
  {
    var s := w + u;
    forall j | 0 <= j < |w| ensures IsWs(s[j]) { assert s[j] == w[j]; }
    assert s[|w|] == u[0];
    WsRunOver(s, 0, |w|);
    assert s[|w|..] == u;
    assert WsRun(u, 0) == 0 && u[0..] == u;
  }

  lemma LeadingIntNegative(d: string)
    requires d != [] && AllDigits(d)
    ensures LeadingInt("-" + d) == Some(0 - ParseNat(d) as int)
  {
    var u := "-" + d;
    assert WsRun(u, 0) == 0 && u[0..] == u;
    assert SignOf(u) == (-1, d);
    DigitPrefixPast(d, []);
    assert d + [] == d;
    assert d[..|d|] == d;
  }

  /** A `Date` built from year, month and day; one of NaN makes it invalid. */
  datatype DateValue = DateValue(year: int, month: int, day: int) | InvalidDate

  /** `parseDateYYYYMMDD`: null unless the text has exactly eight characters. */
  function ParseDate(s: string): (r: Option<DateValue>)
    ensures r.None? <==> |s| != 8
  {
    if |s| != 8 then None
    else
      var y := LeadingInt(s[0..4]);
      var m := LeadingInt(s[4..6]);
      var d := LeadingInt(s[6..8]);
      if y.Some? && m.Some? && d.Some? then Some(DateValue(y.value, m.value - 1, d.value)) else Some(InvalidDate)
  }

  lemma {:induction false} FourDigitYear(y: nat)
    requires 1000 <= y <= 9999
    ensures |NatToString(y)| == 4
  {
    assert |NatToString(y / 1000)| == 1;
    assert NatToString(y / 100) == NatToString(y / 1000) + [DigitChar(y / 100 % 10)];
    assert y / 100 / 10 == y / 1000;
    assert NatToString(y / 10) == NatToString(y / 100) + [DigitChar(y / 10 % 10)];
    assert y / 10 / 10 == y / 100;
  }

  /** A four-digit year formats to eight digits that parse back to the same date. */
  lemma DateRoundTrip(year: nat, month: nat, day: nat)
    requires 1000 <= year <= 9999 && month < 12 && 1 <= day <= 31
    ensures |FormatDate(year, month, day)| == 8
    ensures ParseDate(FormatDate(year, month, day)) == Some(DateValue(year, month, day))
  {
    var s := FormatDate(year, month, day);
    FourDigitYear(year);
    Pad2RoundTrip(month + 1);
    Pad2RoundTrip(day);
    ParseNatOfNatToString(year);
    assert s[0..4] == NatToString(year);
    assert s[4..6] == Pad2(month + 1);
    assert s[6..8] == Pad2(day);
  }

  /** `itemDate.getTime() > targetTime` for valid dates, compared field by field; NaN compares false. */
  predicate Later(a: DateValue, b: DateValue) {
    a.DateValue? && b.DateValue? &&
    (a.year > b.year || (a.year == b.year && (a.month > b.month || (a.month == b.month && a.day > b.day))))
  }

  /** A top-level item of the monthly record and the `d` of its datetime segment, if any. */
  datatype Heading = Heading(guid: string, date: Option<string>)

  predicate Dated(h: Heading) { h.date.Some? && h.date.value != "" }

  /** The heading a dated entry is later than the target as it reads. */
  predicate LaterHeading(h: Heading, target: DateValue) {
    Dated(h) && ParseDate(h.date.value).Some? && Later(ParseDate(h.date.value).value, target)
  }

  /**
   * Where `findOrCreateDateHeading` puts a new heading: after the run of later-dated headings
   * at the top (undated items are passed over); the first dated one that is not later, or does
   * not parse, stops the walk.
   */
  function InsertPointFrom(hs: seq<Heading>, i: nat, after: Option<string>, target: DateValue): (r: Option<string>)
    requires i <= |hs|
    ensures r == after || exists k :: i <= k < |hs| && r == Some(hs[k].guid)
    decreases |hs| - i
  {
    if i == |hs| then after
    else if !Dated(hs[i]) then InsertPointFrom(hs, i + 1, after, target)
    else if LaterHeading(hs[i], target) then InsertPointFrom(hs, i + 1, Some(hs[i].guid), target)
    else after
  }

  method DateHeadingInsertPoint(hs: seq<Heading>, target: DateValue) returns (after: Option<string>)
    ensures after == InsertPointFrom(hs, 0, None, target)
  {
    after := None;
    var i := 0;
    while i < |hs|
      invariant i <= |hs|
      invariant InsertPointFrom(hs, i, after, target) == InsertPointFrom(hs, 0, None, target)
    {
      var h := hs[i];
      if h.date.None? || h.date.value == "" {
        i := i + 1;
        continue;
      }
      var d := ParseDate(h.date.value);
      if d.Some? && Later(d.value, target) {
        after := Some(h.guid);
      } else {
        break;
      }
      i := i + 1;
    }
  }

  /** The new heading goes after a heading dated later than the target, or first. */
  /** `Later` is a strict order on valid dates, and any two different valid dates are comparable. */
  lemma LaterStrictOrder(a: DateValue, b: DateValue, c: DateValue)
    ensures !Later(a, a)
    ensures Later(a, b) ==> !Later(b, a)
    ensures Later(a, b) && Later(b, c) ==> Later(a, c)
    ensures a.DateValue? && b.DateValue? && a != b ==> Later(a, b) || Later(b, a)
  {
  }

  lemma {:induction false} InsertPointIsLater(hs: seq<Heading>, i: nat, after: Option<string>, target: DateValue)
    requires i <= |hs|
    requires after.Some? ==> exists k :: 0 <= k < |hs| && hs[k].guid == after.value && LaterHeading(hs[k], target)
    ensures var r := InsertPointFrom(hs, i, after, target);
      r.Some? ==> exists k :: 0 <= k < |hs| && hs[k].guid == r.value && LaterHeading(hs[k], target)
    decreases |hs| - i
  {
    if i < |hs| {
      if !Dated(hs[i]) {
        InsertPointIsLater(hs, i + 1, after, target);
      } else if LaterHeading(hs[i], target) {
        InsertPointIsLater(hs, i + 1, Some(hs[i].guid), target);
      }
    }
  }

  /** It goes first exactly when the first dated heading is not later than the target. */
  lemma {:induction false} InsertPointFirst(hs: seq<Heading>, i: nat, target: DateValue)
    requires i <= |hs|
    ensures InsertPointFrom(hs, i, None, target).None? <==>
      forall k :: i <= k < |hs| && Dated(hs[k]) ==>
        !LaterHeading(hs[k], target) || exists j :: i <= j < k && Dated(hs[j])
    decreases |hs| - i
  {
    if i < |hs| {
      if !Dated(hs[i]) {
        InsertPointFirst(hs, i + 1, target);
        forall k | i < k < |hs| && Dated(hs[k])
          ensures (exists j :: i <= j < k && Dated(hs[j])) <==> (exists j :: i + 1 <= j < k && Dated(hs[j]))
        {
        }
      } else if LaterHeading(hs[i], target) {
        InsertPointSome(hs, i + 1, hs[i].guid, target);
      } else {
        assert InsertPointFrom(hs, i, None, target).None?;
        forall k | i < k < |hs| && Dated(hs[k]) ensures exists j :: i <= j < k && Dated(hs[j]) {
          assert Dated(hs[i]);
        }
      }
    }
  }

  lemma {:induction false} InsertPointSome(hs: seq<Heading>, i: nat, g: string, target: DateValue)
    requires i <= |hs|
    ensures InsertPointFrom(hs, i, Some(g), target).Some?
    decreases |hs| - i
  {
    if i < |hs| {
      InsertPointSome(hs, i + 1, g, target);
      if LaterHeading(hs[i], target) {
        InsertPointSome(hs, i + 1, hs[i].guid, target);
      }
    }
  }

  // ---------------------------------------------------------------------
  // The timeline: blocked slots, then unscheduled tasks in the gaps

  datatype Kind = ScheduledSlot | CalendarSlot | AutoSlot | OverflowSlot

  /** A timeline entry; times are epoch milliseconds. */
  datatype Slot = Slot(guid: string, start: int, end: int, kind: Kind)

  /** A scheduled task with the range read from its time child. */
  datatype ScheduledTask = ScheduledTask(guid: string, status: TaskStatus, start: int, end: int)

  /** An unscheduled task of the planner section. */
  datatype PlanTask = PlanTask(guid: string, status: TaskStatus)

  datatype CalendarEvent = CalendarEvent(guid: string, start: int, end: int)

  /** The slot `[s, e)` conflicts with `b` (`slotStart < b.end && slotEnd > b.start`). */
  predicate Overlaps(b: Slot, s: int, e: int) {
    s < b.end && e > b.start
  }

  /** The first blocked slot in conflict (`blockedSlots.find`). */
  function FirstConflict(blocked: seq<Slot>, s: int, e: int): (r: Option<nat>)
    ensures r.Some? ==> r.value < |blocked| && Overlaps(blocked[r.value], s, e)
    ensures r.None? <==> forall b :: b in blocked ==> !Overlaps(b, s, e)
  {
    if blocked == [] then None
    else if Overlaps(blocked[0], s, e) then Some(0)
    else match FirstConflict(blocked[1..], s, e)
      case None => (assert forall b :: b in blocked ==> b == blocked[0] || b in blocked[1..]; None)
      case Some(k) => Some(k + 1)
  }

  /** Where one task goes from `cur`: the first free slot before `dayEnd`, else overflow at the current time. */
  datatype Placement = Placement(start: int, auto: bool)

  function Gap(blocked: seq<Slot>, cur: int, dayEnd: int, dur: int): (p: Placement)
    ensures p.start >= cur
    ensures p.auto ==> p.start < dayEnd && forall b :: b in blocked ==> !Overlaps(b, p.start, p.start + dur)
    ensures !p.auto ==> p.start >= dayEnd
    decreases dayEnd - cur
  {
    if cur >= dayEnd then Placement(cur, false)
    else match FirstConflict(blocked, cur, cur + dur)
      case None => Placement(cur, true)
      // a conflict ends after the current time, so the search always moves forward
      case Some(b) => Gap(blocked, blocked[b].end, dayEnd, dur)
  }

  /** The slots of the unscheduled tasks, each placed from where the previous one ended. */
  function Fill(blocked: seq<Slot>, tasks: seq<PlanTask>, cur: int, dayEnd: int, dur: int): (r: seq<Slot>)
    ensures |r| == |tasks|
    decreases |tasks|
  {
    if tasks == [] then []
    else
      var p := Gap(blocked, cur, dayEnd, dur);
      [Slot(tasks[0].guid, p.start, p.start + dur, if p.auto then AutoSlot else OverflowSlot)]
        + Fill(blocked, tasks[1..], p.start + dur, dayEnd, dur)
  }

  /** The inner loop of `getTimelineView`: step past conflicts until a free slot or the end of the day. */
  method FindGap(blocked: seq<Slot>, cur: int, dayEnd: int, dur: int) returns (p: Placement)
    ensures p == Gap(blocked, cur, dayEnd, dur)
  {
    var currentTime := cur;
    var placed := false;
    while currentTime < dayEnd && !placed
      invariant !placed ==> Gap(blocked, currentTime, dayEnd, dur) == Gap(blocked, cur, dayEnd, dur)
      invariant placed ==> Gap(blocked, cur, dayEnd, dur) == Placement(currentTime, true)
      decreases (if placed then 0 else 1), dayEnd - currentTime
    {
      var conflict := FirstConflict(blocked, currentTime, currentTime + dur);
      if conflict.Some? {
        currentTime := blocked[conflict.value].end;
      } else {
        placed := true;
      }
    }
    return Placement(currentTime, placed);
  }

  /** The placement loop of `getTimelineView`: `currentTime` walks forward through the day. */
  method PlaceTasks(blocked: seq<Slot>, tasks: seq<PlanTask>, dayStart: int, dayEnd: int, dur: int)
    returns (placed: seq<Slot>)
    ensures placed == Fill(blocked, tasks, dayStart, dayEnd, dur)
  {
    placed := [];
    var currentTime := dayStart;
    var i := 0;
    while i < |tasks|
      invariant i <= |tasks|
      invariant placed + Fill(blocked, tasks[i..], currentTime, dayEnd, dur) == Fill(blocked, tasks, dayStart, dayEnd, dur)
    {
      var p := FindGap(blocked, currentTime, dayEnd, dur);
      var slot := Slot(tasks[i].guid, p.start, p.start + dur, if p.auto then AutoSlot else OverflowSlot);
      FillFrom(blocked, tasks, i, currentTime, dayEnd, dur);
      AppendAssoc(placed, [slot], Fill(blocked, tasks[i + 1..], p.start + dur, dayEnd, dur));
      placed := placed + [slot];
      currentTime := p.start + dur;
      i := i + 1;
    }
    assert tasks[i..] == [];
  }

  /** `Fill` from task `i` on: that task's slot, then the rest filled after it. */
  lemma FillFrom(blocked: seq<Slot>, tasks: seq<PlanTask>, i: nat, cur: int, dayEnd: int, dur: int)
    requires i < |tasks|
    ensures var p := Gap(blocked, cur, dayEnd, dur);
      Fill(blocked, tasks[i..], cur, dayEnd, dur) ==
        [Slot(tasks[i].guid, p.start, p.start + dur, if p.auto then AutoSlot else OverflowSlot)] +
        Fill(blocked, tasks[i + 1..], p.start + dur, dayEnd, dur)
  {
    assert tasks[i..][1..] == tasks[i + 1..];
  }

  lemma AppendAssoc<T>(a: seq<T>, b: seq<T>, c: seq<T>)
    ensures a + b + c == a + (b + c)
  {
  }

  /** Each task gets one slot, in order, of the default duration; auto slots are free and inside the day. */
  lemma {:induction false} FillAt(blocked: seq<Slot>, tasks: seq<PlanTask>, cur: int, dayEnd: int, dur: int, k: nat)
    requires k < |tasks|
    ensures var r := Fill(blocked, tasks, cur, dayEnd, dur)[k];
      r.guid == tasks[k].guid && r.end - r.start == dur && (dur >= 0 ==> r.start >= cur) &&
      (r.kind == AutoSlot || r.kind == OverflowSlot) &&
      (r.kind == AutoSlot ==> r.start < dayEnd && forall b :: b in blocked ==> !Overlaps(b, r.start, r.end)) &&
      (r.kind == OverflowSlot ==> r.start >= dayEnd)
    decreases k
  {
    var p := Gap(blocked, cur, dayEnd, dur);
    if k > 0 {
      FillAt(blocked, tasks[1..], p.start + dur, dayEnd, dur, k - 1);
    }
  }

  /** A later task's slot starts no earlier than an earlier task's slot ends: placed slots never overlap. */
  lemma {:induction false} FillApart(blocked: seq<Slot>, tasks: seq<PlanTask>, cur: int, dayEnd: int, dur: int, j: nat, k: nat)
    requires j < k < |tasks| && dur >= 0
    ensures Fill(blocked, tasks, cur, dayEnd, dur)[j].end <= Fill(blocked, tasks, cur, dayEnd, dur)[k].start
    decreases j
  {
    var p := Gap(blocked, cur, dayEnd, dur);
    if j == 0 {
      FillAt(blocked, tasks[1..], p.start + dur, dayEnd, dur, k - 1);
    } else {
      FillApart(blocked, tasks[1..], p.start + dur, dayEnd, dur, j - 1, k - 1);
    }
  }

  predicate SortedByStart(s: seq<Slot>) {
    forall i, j :: 0 <= i < j < |s| ==> s[i].start <= s[j].start
  }

  /** `x` put after every element that starts no later: the place a stable sort gives it. */
  function InsertByStart(x: Slot, s: seq<Slot>): (r: seq<Slot>)
    ensures multiset(r) == multiset(s) + multiset{x} && |r| == |s| + 1
    decreases |s|
  {
    if s == [] then [x]
    else if s[|s| - 1].start <= x.start then s + [x]
    else
      assert s == s[..|s| - 1] + [s[|s| - 1]];
      InsertByStart(x, s[..|s| - 1]) + [s[|s| - 1]]
  }

  lemma {:induction false} InsertSorted(x: Slot, s: seq<Slot>)
    requires SortedByStart(s)
    ensures SortedByStart(InsertByStart(x, s))
    decreases |s|
  {
    if s != [] && s[|s| - 1].start > x.start {
      var u := s[..|s| - 1];
      var last := s[|s| - 1];
      InsertSorted(x, u);
      var t := InsertByStart(x, u);
      forall i | 0 <= i < |t|
        ensures t[i].start <= last.start
      {
        assert t[i] in multiset(t);
        if t[i] != x {
          assert t[i] in multiset(u);
          var j :| 0 <= j < |u| && u[j] == t[i];
          assert s[j] == t[i];
        }
      }
    }
  }

  /** The stable sort by start of `blockedSlots.sort` and `timeline.sort`. */
  function SortByStart(s: seq<Slot>): (r: seq<Slot>)
    ensures multiset(r) == multiset(s) && |r| == |s|
    ensures SortedByStart(r)
  {
    if s == [] then []
    else
      assert s == s[..|s| - 1] + [s[|s| - 1]];
      var t := SortByStart(s[..|s| - 1]);
      InsertSorted(s[|s| - 1], t);
      InsertByStart(s[|s| - 1], t)
  }

  /** The blocked slots: scheduled tasks (done ones only with includeCompleted), then calendar events. */
  function ScheduledSlots(ts: seq<ScheduledTask>, includeCompleted: bool): (r: seq<Slot>)
    ensures forall x :: x in r ==> x.kind == ScheduledSlot
  {
    if ts == [] then []
    else
      var rest := ScheduledSlots(ts[1..], includeCompleted);
      if !includeCompleted && ts[0].status == Done then rest
      else [Slot(ts[0].guid, ts[0].start, ts[0].end, ScheduledSlot)] + rest
  }

  function EventSlots(es: seq<CalendarEvent>): (r: seq<Slot>)
    ensures |r| == |es|
    ensures forall x :: x in r ==> x.kind == CalendarSlot
  {
    if es == [] then [] else [Slot(es[0].guid, es[0].start, es[0].end, CalendarSlot)] + EventSlots(es[1..])
  }

  /** The calendar's events, or None when no calendar is there to ask. */
  function BlockedSlots(scheduled: seq<ScheduledTask>, events: Option<seq<CalendarEvent>>,
                        includeCalendar: bool, includeCompleted: bool): (r: seq<Slot>)
    ensures SortedByStart(r)
    ensures multiset(r) == multiset(ScheduledSlots(scheduled, includeCompleted)) +
      multiset(if includeCalendar && events.Some? then EventSlots(events.value) else [])
  {
    SortByStart(ScheduledSlots(scheduled, includeCompleted) +
      (if includeCalendar && events.Some? then EventSlots(events.value) else []))
  }

  /** The unscheduled tasks that get a slot: all but the done ones unless includeCompleted. */
  function Pending(ts: seq<PlanTask>, includeCompleted: bool): (r: seq<PlanTask>)
    ensures |r| <= |ts|
    ensures forall t :: t in r ==> t in ts && (includeCompleted || t.status != Done)
    ensures forall t :: t in ts && (includeCompleted || t.status != Done) ==> t in r
  {
    if ts == [] then []
    else if !includeCompleted && ts[0].status == Done then Pending(ts[1..], includeCompleted)
    else [ts[0]] + Pending(ts[1..], includeCompleted)
  }

  /** `getTimelineView`, with the workday bounds in milliseconds and the default duration in minutes. */
  function Timeline(scheduled: seq<ScheduledTask>, events: Option<seq<CalendarEvent>>, unscheduled: seq<PlanTask>,
                    dayStart: int, dayEnd: int, durationMin: int, includeCalendar: bool, includeCompleted: bool): (r: seq<Slot>)
    ensures SortedByStart(r)
    ensures |r| == |BlockedSlots(scheduled, events, includeCalendar, includeCompleted)| + |Pending(unscheduled, includeCompleted)|
  {
    var blocked := BlockedSlots(scheduled, events, includeCalendar, includeCompleted);
    SortByStart(blocked + Fill(blocked, Pending(unscheduled, includeCompleted), dayStart, dayEnd, durationMin * 60000))
  }

  /**
   * The timeline is sorted by start and holds exactly the blocked slots and one slot per
   * pending task; each task's slot carries its guid and lasts the default duration.
   */
  lemma TimelineShape(scheduled: seq<ScheduledTask>, events: Option<seq<CalendarEvent>>, unscheduled: seq<PlanTask>,
                      dayStart: int, dayEnd: int, durationMin: int, includeCalendar: bool, includeCompleted: bool, k: nat)
    requires k < |Pending(unscheduled, includeCompleted)|
    ensures var blocked := BlockedSlots(scheduled, events, includeCalendar, includeCompleted);
      var fill := Fill(blocked, Pending(unscheduled, includeCompleted), dayStart, dayEnd, durationMin * 60000);
      var t := Timeline(scheduled, events, unscheduled, dayStart, dayEnd, durationMin, includeCalendar, includeCompleted);
      SortedByStart(t) && multiset(t) == multiset(blocked) + multiset(fill) &&
      fill[k] in t && fill[k].guid == Pending(unscheduled, includeCompleted)[k].guid &&
      fill[k].end - fill[k].start == durationMin * 60000
  {
    var blocked := BlockedSlots(scheduled, events, includeCalendar, includeCompleted);
    var tasks := Pending(unscheduled, includeCompleted);
    var fill := Fill(blocked, tasks, dayStart, dayEnd, durationMin * 60000);
    FillAt(blocked, tasks, dayStart, dayEnd, durationMin * 60000, k);
    SortedHolds(blocked, fill, k);
  }

  /** Sorting the two runs together keeps every slot of both. */
  lemma SortedHolds(a: seq<Slot>, b: seq<Slot>, k: nat)
    requires k < |b|
    ensures multiset(SortByStart(a + b)) == multiset(a) + multiset(b) && b[k] in SortByStart(a + b)
  {
    assert b[k] in multiset(a + b);
  }
}
