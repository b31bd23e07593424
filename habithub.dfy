// The habit tracker HabitHub (habithub/plugin.js): journal lines that link a habit are
// counted, rewritten as a "✓ ..." summary and appended to the habit's log as one running
// total per day; the habit page shows totals, streaks and a sparkline read from that log.

module HabitHub {
  import opened Common

  // ---------------------------------------------------------------------
  // Done and status rules

  /** A habit record: its name, emoji, target (0 when unset), unit and kind ("habit" or "vice"). */
  datatype Habit = Habit(guid: string, name: string, emoji: string, target: int, unit: string, kind: string)

  predicate IsVice(kind: string) { kind == "vice" }

  /** A vice is done while its count stays within the target; a habit when it meets it, or at all without one. */
  predicate IsDone(kind: string, todayValue: int, target: int) {
    if IsVice(kind) then todayValue <= target
    else if target > 0 then todayValue >= target
    else todayValue > 0
  }

  datatype DayStatus = Perfect | Pass | Fail | Partial | NoneYet

  /** The status badge of the Today section. */
  function StatusOf(kind: string, todayValue: int, target: int): (s: DayStatus)
    ensures IsVice(kind) ==> (s == Perfect <==> todayValue == 0)
    ensures IsVice(kind) ==> (s == Pass <==> todayValue != 0 && todayValue <= target)
    ensures IsVice(kind) ==> (s == Fail <==> todayValue != 0 && todayValue > target)
    ensures !IsVice(kind) ==> (s == Pass <==> IsDone(kind, todayValue, target))
    ensures !IsVice(kind) ==> (s == Partial <==> !IsDone(kind, todayValue, target) && todayValue > 0)
  {
    if IsVice(kind) then
      if todayValue == 0 then Perfect else if todayValue <= target then Pass else Fail
    else if IsDone(kind, todayValue, target) then Pass
    else if todayValue > 0 then Partial
    else NoneYet
  }

  /** A vice with no count today is perfect and done when its target is not negative. */
  lemma PerfectViceIsDone(target: int)
    requires target >= 0
    ensures StatusOf("vice", 0, target) == Perfect && IsDone("vice", 0, target)
  {
  }

  /** The "N/M complete" count of the Today section. */
  function CompletedToday(habits: seq<Habit>, todayTotals: map<string, int>): (n: nat)
    ensures n <= |habits|
  {
    if habits == [] then 0
    else
      var h := habits[|habits| - 1];
      var v := if h.guid in todayTotals then todayTotals[h.guid] else 0;
      CompletedToday(habits[..|habits| - 1], todayTotals) + (if IsDone(h.kind, v, h.target) then 1 else 0)
  }

  /** When every habit is done the count is the number of habits. */
  lemma {:induction false} AllDoneAllComplete(habits: seq<Habit>, todayTotals: map<string, int>)
    requires forall h :: h in habits ==> IsDone(h.kind, if h.guid in todayTotals then todayTotals[h.guid] else 0, h.target)
    ensures CompletedToday(habits, todayTotals) == |habits|
  {
    if habits != [] {
      assert forall h :: h in habits[..|habits| - 1] ==> h in habits;
      AllDoneAllComplete(habits[..|habits| - 1], todayTotals);
    }
  }

  // ---------------------------------------------------------------------
  // The summary that replaces a processed journal line

  const Check: char := '\U{2713}'

  /** `buildSummaryText`; a value of None or 0 is a falsy value. */
  function BuildSummaryText(name: string, emoji: string, value: Option<nat>, unit: string, target: int,
                            todayTotal: int, kind: string): (r: string)
    ensures StartsWith(r, [Check, ' '])
  {
    var head := if value.Some? && value.value > 1 then NatToString(value.value) + unit + " " + name else name;
    [Check, ' '] + head + " " + emoji + RemainingText(value, unit, target, todayTotal, kind)
  }

  /** The part after the emoji: nothing without a target or a value, else what is left today. */
  function RemainingText(value: Option<nat>, unit: string, target: int, todayTotal: int, kind: string): (r: string)
  {
    if target > 0 && value.Some? && value.value != 0 then
      var remaining := MaxInt(0, target - todayTotal);
      if remaining > 0 then " | " + NatToString(remaining) + unit + (if IsVice(kind) then " left" else " to go")
      else " | target hit!"
    else ""
  }

  /** The value is shown only when above 1, and what is left is max(0, target - total), or "target hit!". */
  lemma SummaryParts(name: string, emoji: string, value: Option<nat>, unit: string, target: int, total: int, kind: string)
    ensures var r := BuildSummaryText(name, emoji, value, unit, target, total, kind);
      (value.Some? && value.value > 1 ==> StartsWith(r, [Check, ' '] + NatToString(value.value) + unit + " " + name)) &&
      (!(value.Some? && value.value > 1) ==> StartsWith(r, [Check, ' '] + name + " " + emoji)) &&
      (target <= 0 || value.None? || value.value == 0 ==> EndsWith(r, " " + emoji)) &&
      (target > 0 && value.Some? && value.value != 0 && total >= target ==> EndsWith(r, " | target hit!")) &&
      (target > 0 && value.Some? && value.value != 0 && total < target ==>
        EndsWith(r, " | " + NatToString(target - total) + unit + (if IsVice(kind) then " left" else " to go")))
  {
    var head := if value.Some? && value.value > 1 then NatToString(value.value) + unit + " " + name else name;
    var tail := RemainingText(value, unit, target, total, kind);
    var r := BuildSummaryText(name, emoji, value, unit, target, total, kind);
    assert r == [Check, ' '] + head + (" " + emoji + tail);
    assert r == ([Check, ' '] + head + " " + emoji) + tail;
    if value.Some? && value.value > 1 {
      assert r[..|[Check, ' '] + head|] == [Check, ' '] + head;
    }
    assert r[..|[Check, ' '] + head + " " + emoji|] == [Check, ' '] + head + " " + emoji;
    assert r[|r| - |tail|..] == tail;
    if tail == "" {
      assert r == ([Check, ' '] + head) + (" " + emoji);
      assert r[|r| - |" " + emoji|..] == " " + emoji;
    }
  }

  // ---------------------------------------------------------------------
  // Reading a journal line

  /** A journal line: its type, its segments and whether its task box is ticked. */
  datatype JournalItem = JournalItem(itemType: string, segments: seq<Segment>, done: bool)

  /** The text of the first segment when it is a string (a reference holds an object). */
  function FirstText(segs: seq<Segment>): string {
    if segs == [] || segs[0].RefSeg? then "" else segs[0].text
  }

  /** The length of the run of characters satisfying `p` at `i`. */
  function DigitRun(s: string, i: nat): (n: nat)
    requires i <= |s|
    ensures i + n <= |s| && AllDigits(s[i..i + n]) && (i + n < |s| ==> !IsDigit(s[i + n]))
    decreases |s| - i
  {
    if i == |s| || !IsDigit(s[i]) then 0
    else
      var n := DigitRun(s, i + 1) + 1;
      assert s[i..i + n] == [s[i]] + s[i + 1..i + n];
      n
  }

  /** The first run of digits in `s`, as `parseFloat` reads the integer part of `(\d+(?:\.\d+)?)`. */
  function FirstNumber(s: string, i: nat): (r: Option<nat>)
    requires i <= |s|
    ensures r.None? <==> forall k :: i <= k < |s| ==> !IsDigit(s[k])
    decreases |s| - i
  {
    if i == |s| then None
    else if IsDigit(s[i]) then Some(ParseNat(s[i..i + DigitRun(s, i)]))
    else FirstNumber(s, i + 1)
  }

  /** `extractValueFromSegments`: the first number of the first plain-text segment that has one. */
  function ExtractValue(segs: seq<Segment>): (r: Option<nat>)
    ensures r.None? <==> forall k :: 0 <= k < |segs| && segs[k].TextSeg? ==> FirstNumber(segs[k].text, 0).None?
    ensures r.Some? ==> exists k :: 0 <= k < |segs| && segs[k].TextSeg? && r == FirstNumber(segs[k].text, 0)
  {
    if segs == [] then None
    else if segs[0].TextSeg? && FirstNumber(segs[0].text, 0).Some? then FirstNumber(segs[0].text, 0)
    else
      var r := ExtractValue(segs[1..]);
      assert forall k :: 1 <= k < |segs| ==> segs[k] == segs[1..][k - 1];
      r
  }

  /** The first reference segment of a line. */
  function FirstRef(segs: seq<Segment>): (r: Option<string>)
    ensures r.Some? ==> RefSeg(r.value) in segs
    ensures r.None? <==> forall k :: 0 <= k < |segs| ==> !segs[k].RefSeg?
  {
    if segs == [] then None
    else if segs[0].RefSeg? then Some(segs[0].guid)
    else
      var r := FirstRef(segs[1..]);
      assert forall k :: 1 <= k < |segs| ==> segs[k] == segs[1..][k - 1];
      r
  }

  /** The first habit with the guid (`habitsByGuid.get`), or with the name. */
  function HabitWithGuid(habits: seq<Habit>, guid: string): (r: Option<Habit>)
    ensures r.Some? ==> r.value in habits && r.value.guid == guid
    ensures r.None? <==> forall h :: h in habits ==> h.guid != guid
  {
    if habits == [] then None
    else if habits[0].guid == guid then Some(habits[0])
    else
      var r := HabitWithGuid(habits[1..], guid);
      assert forall h :: h in habits ==> h == habits[0] || h in habits[1..];
      r
  }

  function HabitNamed(habits: seq<Habit>, name: string): (r: Option<Habit>)
    ensures r.Some? ==> r.value in habits && r.value.name == name
  {
    if habits == [] then None
    else if habits[0].name == name then Some(habits[0])
    else HabitNamed(habits[1..], name)
  }

  predicate IsWordChar(c: char) {
    'a' <= c <= 'z' || 'A' <= c <= 'Z' || IsDigit(c) || c == '_'
  }

  function WordRun(s: string, i: nat): (n: nat)
    requires i <= |s|
    ensures i + n <= |s|
    decreases |s| - i
  {
    if i == |s| || !IsWordChar(s[i]) then 0 else WordRun(s, i + 1) + 1
  }

  /** The run of word characters at `i` is maximal. */
  lemma {:induction false} WordRunSpan(s: string, i: nat)
    requires i <= |s|
    ensures forall j :: i <= j < i + WordRun(s, i) ==> IsWordChar(s[j])
    ensures i + WordRun(s, i) < |s| ==> !IsWordChar(s[i + WordRun(s, i)])
    decreases |s| - i
  {
    if i < |s| && IsWordChar(s[i]) { WordRunSpan(s, i + 1); }
  }

  /** `text[1..i]` is white space and `text[i..i + d]` the whole run of digits that follows:
   *  where `✓\s*(\d+)` matches after the tick that starts the text. */
  predicate TickNumber(text: string, i: nat, d: nat) {
    1 <= i && 0 < d && i + d <= |text| && (forall j :: 1 <= j < i ==> IsWs(text[j]))
    && AllDigits(text[i..i + d]) && (i + d < |text| ==> !IsDigit(text[i + d]))
  }

  /** `✓\s*(\d+)` at the tick that starts the text: the number is there exactly when some
   *  white space and a run of digits follow the tick, and it is the value of those digits. */
  function CheckedValue(text: string): (r: Option<nat>)
    requires StartsWith(text, [Check])
    ensures r.Some? <==> exists i: nat, d: nat :: TickNumber(text, i, d)
    ensures forall i: nat, d: nat :: TickNumber(text, i, d) ==> r == Some(ParseNat(text[i..i + d]))
  {
    var i := 1 + WsRun(text, 1);
    var d := DigitRun(text, i);
    forall i': nat, d': nat | TickNumber(text, i', d')
      ensures i' == i && d' == d
    {
      TickNumberUnique(text, i', d');
    }
    if d == 0 then None
    else
      WsRunSpan(text, 1);
      assert TickNumber(text, i, d);
      Some(ParseNat(text[i..i + d]))
  }

  /** The white space after the tick and the digits after it are maximal, so there is only
   *  one place where the number can be. */
  lemma TickNumberUnique(text: string, i: nat, d: nat)
    requires TickNumber(text, i, d)
    ensures i == 1 + WsRun(text, 1) && d == DigitRun(text, i)
  {
    assert IsDigit(text[i]) by { assert text[i] == text[i..i + d][0]; }
    WsRunIs(text, 1, i - 1);
    DigitRunExactly(text, i, d);
  }

  /** `name` is a whole run of word characters at `k`, after the tick, with only white space
   *  and digits between the tick and it. */
  predicate TickName(text: string, k: nat, name: string) {
    1 <= k && k + |name| <= |text| && text[k..k + |name|] == name
    && (forall j :: 1 <= j < k ==> IsWs(text[j]) || IsDigit(text[j]))
    && (k + |name| < |text| ==> !IsWordChar(text[k + |name|]))
  }

  /** `✓\s*(?:\d+\s+)?(\w+)` at the tick: the word after the number, else the first word.
   *  A name is there exactly when a word character follows the tick's white space; it is a
   *  whole, non-empty run of word characters, preceded only by white space and digits. */
  function CheckedName(text: string): (r: Option<string>)
    requires StartsWith(text, [Check])
    ensures r.Some? <==> WordRun(text, TickEnd(text)) > 0
    ensures NumberedWord(text).Some? ==> r == Some(WordAt(text, NumberedWord(text).value))
    ensures NumberedWord(text).None? && r.Some? ==> r.value == WordAt(text, TickEnd(text))
    ensures r.Some? ==> exists k :: TickName(text, k, r.value)
    ensures r.Some? ==> r.value != [] && forall j :: 0 <= j < |r.value| ==> IsWordChar(r.value[j])
  {
    var k := NumberedWord(text);
    if k.Some? then Some(WordAt(text, k.value))
    else if WordRun(text, TickEnd(text)) > 0 then
      NameAfterSpace(text, TickEnd(text));
      Some(WordAt(text, TickEnd(text)))
    else None
  }

  /** Where the text after the tick and its white space begins. */
  function TickEnd(text: string): (i: nat)
    requires |text| > 0
    ensures 1 <= i <= |text|
  {
    1 + WsRun(text, 1)
  }

  /** Where `\d+\s+(\w+)` finds its word right after the tick's white space, if it does: the
   *  word is then a name, and the digits before it are a word too. */
  function NumberedWord(text: string): (k: Option<nat>)
    requires |text| > 0
    ensures k.Some? ==> k.value <= |text| && WordRun(text, k.value) > 0 && WordRun(text, TickEnd(text)) > 0
    ensures k.Some? ==> TickName(text, k.value, WordAt(text, k.value)) && AllWordChars(WordAt(text, k.value))
  {
    var i := TickEnd(text);
    var d := DigitRun(text, i);
    var w := if d > 0 then WsRun(text, i + d) else 0;
    if d > 0 && w > 0 && WordRun(text, i + d + w) > 0 then
      NameAfterNumber(text, i, d, w);
      assert IsDigit(text[i]) by { assert text[i] == text[i..i + d][0]; }
      Some(i + d + w)
    else None
  }

  predicate AllWordChars(s: string) {
    forall j :: 0 <= j < |s| ==> IsWordChar(s[j])
  }

  /** The run of word characters at `k`. */
  function WordAt(text: string, k: nat): (name: string)
    requires k <= |text|
    ensures |name| == WordRun(text, k)
  {
    text[k..k + WordRun(text, k)]
  }

  /** The word after the tick's number and the white space behind it is a name. */
  lemma NameAfterNumber(text: string, i: nat, d: nat, w: nat)
    requires |text| > 0 && i == 1 + WsRun(text, 1) && d == DigitRun(text, i) && w == WsRun(text, i + d)
    ensures TickName(text, i + d + w, WordAt(text, i + d + w))
    ensures AllWordChars(WordAt(text, i + d + w))
  {
    NumberPrefix(text, i, d, w);
    WordAfterPrefix(text, i + d + w);
  }

  /** Between the tick and the word after the number there are only white space and digits. */
  lemma NumberPrefix(text: string, i: nat, d: nat, w: nat)
    requires |text| > 0 && i == 1 + WsRun(text, 1) && d == DigitRun(text, i) && w == WsRun(text, i + d)
    ensures i + d + w <= |text| && forall j :: 1 <= j < i + d + w ==> IsWs(text[j]) || IsDigit(text[j])
  {
    WsRunSpan(text, 1);
    WsRunSpan(text, i + d);
    DigitsAt(text, i, d);
  }

  lemma DigitsAt(s: string, i: nat, d: nat)
    requires i + d <= |s| && AllDigits(s[i..i + d])
    ensures forall j :: i <= j < i + d ==> IsDigit(s[j])
  {
    forall j | i <= j < i + d ensures IsDigit(s[j]) {
      assert s[j] == s[i..i + d][j - i];
    }
  }

  /** The word right after the tick's white space is a name. */
  lemma NameAfterSpace(text: string, i: nat)
    requires |text| > 0 && i == 1 + WsRun(text, 1)
    ensures TickName(text, i, WordAt(text, i))
    ensures AllWordChars(WordAt(text, i))
  {
    WsRunSpan(text, 1);
    WordAfterPrefix(text, i);
  }

  /** A whole run of word characters behind white space and digits after the tick is a name. */
  lemma WordAfterPrefix(text: string, k: nat)
    requires 1 <= k <= |text| && forall j :: 1 <= j < k ==> IsWs(text[j]) || IsDigit(text[j])
    ensures TickName(text, k, WordAt(text, k)) && AllWordChars(WordAt(text, k))
  {
    var name := WordAt(text, k);
    WordRunSpan(text, k);
    forall j | 0 <= j < |name| ensures IsWordChar(name[j]) {
      assert name[j] == text[k + j];
    }
  }

  datatype Outcome = Processed | Skipped | Ignored

  /** What processing a line does: its outcome, the new running totals, and the summary and
   *  log value of a processed line. */
  datatype Processing = Processing(outcome: Outcome, totals: map<string, int>, summary: Option<string>, logValue: Option<nat>)

  function TotalOf(totals: map<string, int>, guid: string): int {
    if guid in totals then totals[guid] else 0
  }

  /** A line that already reads "✓ ...": its number counts towards the habit it names. */
  function CountChecked(first: string, habits: seq<Habit>, totals: map<string, int>): (r: map<string, int>)
    requires StartsWith(first, [Check])
    ensures CheckedValue(first).None? ==> r == totals
    ensures r.Keys == totals.Keys || exists h :: h in habits && r.Keys == totals.Keys + {h.guid}
    ensures var v := CheckedValue(first); var n := CheckedName(first);
      if v.Some? && n.Some? && HabitNamed(habits, n.value).Some? then
        var g := HabitNamed(habits, n.value).value.guid;
        r.Keys == totals.Keys + {g} && r[g] == TotalOf(totals, g) + v.value
        && forall k :: k in totals && k != g ==> r[k] == totals[k]
      else r == totals
  {
    var v := CheckedValue(first);
    var n := CheckedName(first);
    if v.Some? && n.Some? && HabitNamed(habits, n.value).Some? then
      var g := HabitNamed(habits, n.value).value.guid;
      totals[g := TotalOf(totals, g) + v.value]
    else totals
  }

  /** The value logged for a line: its first number, or 1 when it has none or it is 0. */
  function Amount(value: Option<nat>): (n: nat)
    ensures n >= 1
    ensures value.Some? && value.value != 0 ==> n == value.value
  {
    if value.Some? && value.value != 0 then value.value else 1
  }

  /** A ticked or plain line linking habit `h`: the total grows by its amount, and the line
   *  becomes the summary. */
  function ProcessLinked(h: Habit, segs: seq<Segment>, totals: map<string, int>): (p: Processing)
    ensures p.outcome == Processed && p.logValue == Some(Amount(ExtractValue(segs)))
    ensures p.totals == totals[h.guid := TotalOf(totals, h.guid) + Amount(ExtractValue(segs))]
    ensures p.summary.Some? && StartsWith(p.summary.value, [Check, ' '])
  {
    var value := ExtractValue(segs);
    var total := TotalOf(totals, h.guid) + Amount(value);
    var name := if h.name == "" then "Habit" else h.name;
    Processing(Processed, totals[h.guid := total],
      Some(BuildSummaryText(name, h.emoji, value, h.unit, h.target, total, h.kind)), Some(Amount(value)))
  }

  /** `processLineItem`. */
  function Process(item: JournalItem, habits: seq<Habit>, totals: map<string, int>): (p: Processing)
    ensures p.outcome != Processed ==> p.summary.None? && p.logValue.None?
    ensures p.outcome == Skipped ==> p.totals == totals
  {
    var first := FirstText(item.segments);
    if StartsWith(first, [Check]) then Processing(Ignored, CountChecked(first, habits, totals), None, None)
    else
      var guid := FirstRef(item.segments);
      if guid.None? || guid.value == "" || HabitWithGuid(habits, guid.value).None? then
        Processing(Ignored, totals, None, None)
      else if item.itemType == "task" && !item.done then Processing(Skipped, totals, None, None)
      else ProcessLinked(HabitWithGuid(habits, guid.value).value, item.segments, totals)
  }

  /** A line is processed exactly when it is not ticked yet, links a known habit and is not an
   *  open task; only that habit's total changes, by the line's value or 1. */
  lemma ProcessedExactly(item: JournalItem, habits: seq<Habit>, totals: map<string, int>)
    ensures var p := Process(item, habits, totals);
      var g := FirstRef(item.segments);
      (p.outcome == Processed <==>
        !StartsWith(FirstText(item.segments), [Check]) && g.Some? && g.value != "" &&
        HabitWithGuid(habits, g.value).Some? && !(item.itemType == "task" && !item.done)) &&
      (p.outcome == Processed ==>
        p.totals == totals[g.value := TotalOf(totals, g.value) + Amount(ExtractValue(item.segments))])
  {
    if Linked(item, habits) {
      LinkedProcessed(item, habits, totals);
    } else {
      UnlinkedNotProcessed(item, habits, totals);
    }
  }

  /** Not ticked yet, links a known habit and is not an open task. */
  predicate Linked(item: JournalItem, habits: seq<Habit>) {
    var g := FirstRef(item.segments);
    !StartsWith(FirstText(item.segments), [Check]) && g.Some? && g.value != "" &&
    HabitWithGuid(habits, g.value).Some? && !(item.itemType == "task" && !item.done)
  }

  lemma LinkedProcessed(item: JournalItem, habits: seq<Habit>, totals: map<string, int>)
    requires Linked(item, habits)
    ensures var g := FirstRef(item.segments);
      Process(item, habits, totals) == ProcessLinked(HabitWithGuid(habits, g.value).value, item.segments, totals)
  {
  }

  lemma UnlinkedNotProcessed(item: JournalItem, habits: seq<Habit>, totals: map<string, int>)
    requires !Linked(item, habits)
    ensures Process(item, habits, totals).outcome != Processed
  {
  }

  /** A line with no habit link leaves the totals alone, unless it is a "✓" summary. */
  lemma UnlinkedIgnored(item: JournalItem, habits: seq<Habit>, totals: map<string, int>)
    requires !StartsWith(FirstText(item.segments), [Check])
    requires forall k :: 0 <= k < |item.segments| ==> !item.segments[k].RefSeg?
    ensures Process(item, habits, totals) == Processing(Ignored, totals, None, None)
  {
  }

  /** The running totals of one scan of the journal (`todayTotals`), changed line by line. */
  class JournalScan {
    var totals: map<string, int>

    constructor()
      ensures totals == map[]
    {
      totals := map[];
    }

    /** `processLineItem` on its `todayTotals` map. */
    method ProcessLineItem(item: JournalItem, habits: seq<Habit>) returns (outcome: Outcome, summary: Option<string>, logValue: Option<nat>)
      modifies this
      ensures Process(item, habits, old(totals)) == Processing(outcome, totals, summary, logValue)
    {
      var first := FirstText(item.segments);
      if StartsWith(first, [Check]) {
        totals := CountChecked(first, habits, totals);
        return Ignored, None, None;
      }
      var guid := FirstRef(item.segments);
      if guid.None? || guid.value == "" {
        return Ignored, None, None;
      }
      var habit := HabitWithGuid(habits, guid.value);
      if habit.None? {
        return Ignored, None, None;
      }
      if item.itemType == "task" && !item.done {
        return Skipped, None, None;
      }
      var p := ProcessLinked(habit.value, item.segments, totals);
      totals := p.totals;
      return p.outcome, p.summary, p.logValue;
    }
  }

  // ---------------------------------------------------------------------
  // The habit page's log: one line per day, its date and running total kept in properties

  /** A line of a habit page: whether it is a heading, its text, and its `habit_date` and
   *  `habit_value` properties. */
  datatype LogLine = LogLine(isHeading: bool, text: string, date: Option<string>, value: Option<int>)

  /** `value || 1`. */
  function OrOne(v: int): (n: int)
    ensures n != 0 && (v != 0 ==> n == v)
  {
    if v != 0 then v else 1
  }

  /** The last line dated `today` (`todayEntry`). */
  function LastDated(lines: seq<LogLine>, today: string): (r: Option<nat>)
    ensures r.Some? ==> (r.value < |lines| && lines[r.value].date == Some(today) &&
      forall j :: r.value < j < |lines| ==> lines[j].date != Some(today))
    ensures r.None? <==> forall j :: 0 <= j < |lines| ==> lines[j].date != Some(today)
  {
    if lines == [] then None
    else if lines[|lines| - 1].date == Some(today) then Some(|lines| - 1)
    else LastDated(lines[..|lines| - 1], today)
  }

  /** The last heading reading "Log" (`logHeading`). */
  function LastLogHeading(lines: seq<LogLine>): (r: Option<nat>)
    ensures r.Some? ==> r.value < |lines| && lines[r.value].isHeading && lines[r.value].text == "Log"
  {
    if lines == [] then None
    else if lines[|lines| - 1].isHeading && lines[|lines| - 1].text == "Log" then Some(|lines| - 1)
    else LastLogHeading(lines[..|lines| - 1])
  }

  /** The text of a log line: "<date> - <total><unit>" above 1, else the date alone. */
  function EntryText(today: string, total: int, unit: string): (r: string)
    ensures StartsWith(r, today)
  {
    if total > 1 then today + " - " + NatToString(total) + unit else today
  }

  /** What `appendToHabitLog` writes: the day's line rewritten, a new line after the "Log"
   *  heading, a new banner, heading and line, or nothing when lines cannot be inserted. */
  datatype LogWrite =
    | UpdateEntry(index: nat, text: string, total: int)
    | CreateUnderHeading(heading: nat, text: string, total: int)
    | CreateWithBanner(text: string, total: int)
    | NoWrite

  /** `appendToHabitLog`; `canInsert` says whether the markdown inserter is there. */
  function AppendToHabitLog(lines: seq<LogLine>, today: string, value: int, unit: string, canInsert: bool): (w: LogWrite)
    ensures LastDated(lines, today).Some? ==> w.UpdateEntry? && w.index == LastDated(lines, today).value
    ensures w.NoWrite? <==> LastDated(lines, today).None? && !canInsert
    ensures w.CreateUnderHeading? <==> LastDated(lines, today).None? && canInsert && LastLogHeading(lines).Some?
    ensures !w.NoWrite? ==> w.text == EntryText(today, w.total, unit)
    ensures !w.UpdateEntry? && !w.NoWrite? ==> w.total == OrOne(value)
    ensures w.UpdateEntry? ==> w.index < |lines| && var e := lines[w.index];
      w.total == if e.value.Some? && e.value.value != 0 then e.value.value + OrOne(value) else OrOne(value)
  {
    var entry := LastDated(lines, today);
    var total := if entry.Some? && lines[entry.value].value.Some? && lines[entry.value].value.value != 0
      then lines[entry.value].value.value + OrOne(value) else OrOne(value);
    var text := EntryText(today, total, unit);
    if entry.Some? then UpdateEntry(entry.value, text, total)
    else if !canInsert then NoWrite
    else match LastLogHeading(lines)
      case Some(h) => CreateUnderHeading(h, text, total)
      case None => CreateWithBanner(text, total)
  }

  predicate Undated(l: LogLine) { l.date.None? || l.date.value == "" }

  /** The first undated line whose text starts with the date: the one the new line's
   *  properties are set on. */
  function FirstNew(lines: seq<LogLine>, today: string): (r: Option<nat>)
    ensures r.Some? ==> r.value < |lines| && StartsWith(lines[r.value].text, today) && Undated(lines[r.value])
    ensures r.None? <==> forall j :: 0 <= j < |lines| ==> !(StartsWith(lines[j].text, today) && Undated(lines[j]))
  {
    if lines == [] then None
    else if StartsWith(lines[0].text, today) && Undated(lines[0]) then Some(0)
    else
      var r := FirstNew(lines[1..], today);
      assert forall j :: 1 <= j < |lines| ==> lines[j] == lines[1..][j - 1];
      if r.Some? then Some(r.value + 1) else None
  }

  function Dated(l: LogLine, today: string, total: int): LogLine {
    l.(date := Some(today), value := Some(total))
  }

  /** Sets the day's properties on the first new-looking line. */
  function Stamp(lines: seq<LogLine>, today: string, total: int): (r: seq<LogLine>)
    ensures |r| == |lines|
  {
    match FirstNew(lines, today)
    case Some(k) => lines[k := Dated(lines[k], today, total)]
    case None => lines
  }

  /** The page after the write (the banner's own line is counted as one plain line at the top). */
  function ApplyWrite(lines: seq<LogLine>, w: LogWrite, today: string): (r: seq<LogLine>)
    requires w.UpdateEntry? ==> w.index < |lines|
    requires w.CreateUnderHeading? ==> w.heading < |lines|
  {
    match w
    case UpdateEntry(i, text, total) => lines[i := LogLine(lines[i].isHeading, text, Some(today), Some(total))]
    case CreateUnderHeading(h, text, total) =>
      Stamp(lines[..h + 1] + [LogLine(false, text, None, None)] + lines[h + 1..], today, total)
    case CreateWithBanner(text, total) =>
      Stamp([LogLine(false, "DON'T EDIT", None, None), LogLine(true, "Log", None, None), LogLine(false, text, None, None)] + lines, today, total)
    case NoWrite => lines
  }

  /** An ISO date "YYYY-MM-DD". */
  predicate IsDateText(s: string) {
    |s| == 10 && IsDigit(s[0]) && IsDigit(s[1]) && IsDigit(s[2]) && IsDigit(s[3]) && s[4] == '-' &&
    IsDigit(s[5]) && IsDigit(s[6]) && s[7] == '-' && IsDigit(s[8]) && IsDigit(s[9])
  }

  lemma {:induction false} FirstNewIsFirst(lines: seq<LogLine>, today: string, k: nat)
    requires k < |lines| && StartsWith(lines[k].text, today) && Undated(lines[k])
    requires forall j :: 0 <= j < k ==> !(StartsWith(lines[j].text, today) && Undated(lines[j]))
    ensures FirstNew(lines, today) == Some(k)
  {
    if k > 0 {
      assert !(StartsWith(lines[0].text, today) && Undated(lines[0]));
      FirstNewIsFirst(lines[1..], today, k - 1);
    }
  }

  /** A line dated `today` with none after it is the day's entry. */
  lemma LastDatedIs(lines: seq<LogLine>, today: string, k: nat)
    requires k < |lines| && lines[k].date == Some(today)
    requires forall j :: k < j < |lines| ==> lines[j].date != Some(today)
    ensures LastDated(lines, today) == Some(k)
  {
  }

  /** A new line under the "Log" heading is the one stamped with today's date and total. */
  lemma LandsUnderHeading(lines: seq<LogLine>, h: nat, line: LogLine, today: string, total: int)
    requires h < |lines| && StartsWith(line.text, today) && line.date.None?
    requires forall j :: 0 <= j < |lines| ==> lines[j].date != Some(today)
    requires forall j :: 0 <= j < |lines| ==> !StartsWith(lines[j].text, today) || !Undated(lines[j])
    ensures var after := Stamp(lines[..h + 1] + [line] + lines[h + 1..], today, total);
      LastDated(after, today) == Some(h + 1) && after[h + 1].value == Some(total)
  {
    var mid := lines[..h + 1] + [line] + lines[h + 1..];
    assert mid[h + 1] == line;
    assert forall j :: 0 <= j < h + 1 ==> mid[j] == lines[j];
    assert forall j :: h + 1 < j < |mid| ==> mid[j] == lines[j - 1];
    FirstNewIsFirst(mid, today, h + 1);
    LastDatedIs(mid[h + 1 := Dated(line, today, total)], today, h + 1);
  }

  /** The line written with a new banner and heading is the one stamped. */
  lemma LandsWithBanner(lines: seq<LogLine>, line: LogLine, today: string, total: int)
    requires IsDateText(today) && StartsWith(line.text, today) && line.date.None?
    requires forall j :: 0 <= j < |lines| ==> lines[j].date != Some(today)
    ensures var after := Stamp([LogLine(false, "DON'T EDIT", None, None), LogLine(true, "Log", None, None), line] + lines, today, total);
      LastDated(after, today) == Some(2) && after[2].value == Some(total)
  {
    var mid := [LogLine(false, "DON'T EDIT", None, None), LogLine(true, "Log", None, None), line] + lines;
    assert !StartsWith("DON'T EDIT", today) && !StartsWith("Log", today);
    FirstNewIsFirst(mid, today, 2);
    assert forall j :: 3 <= j < |mid| ==> mid[j] == lines[j - 3];
    LastDatedIs(mid[2 := Dated(line, today, total)], today, 2);
  }

  /** After an append, the page's last line dated today carries the new total (a new line is
   *  found again when no undated line already starts with the date). */
  lemma AppendLands(lines: seq<LogLine>, today: string, value: int, unit: string)
    requires IsDateText(today)
    requires forall j :: 0 <= j < |lines| ==> !StartsWith(lines[j].text, today) || !Undated(lines[j])
    ensures var w := AppendToHabitLog(lines, today, value, unit, true);
      var after := ApplyWrite(lines, w, today);
      LastDated(after, today).Some? && after[LastDated(after, today).value].value == Some(w.total)
  {
    var w := AppendToHabitLog(lines, today, value, unit, true);
    if LastDated(lines, today).Some? {
      EntryWriteLands(lines, w.index, w.text, today, w.total);
    } else if w.CreateUnderHeading? {
      HeadingWriteLands(lines, w.heading, w.text, today, w.total);
    } else {
      BannerWriteLands(lines, w.text, today, w.total);
    }
  }

  /** The line dated today that comes last carries `total`. */
  predicate Landed(after: seq<LogLine>, today: string, total: int) {
    LastDated(after, today).Some? && after[LastDated(after, today).value].value == Some(total)
  }

  lemma EntryWriteLands(lines: seq<LogLine>, i: nat, text: string, today: string, total: int)
    requires LastDated(lines, today) == Some(i)
    ensures Landed(ApplyWrite(lines, UpdateEntry(i, text, total), today), today, total)
  {
    LandsOnEntry(lines, today, i, LogLine(lines[i].isHeading, text, Some(today), Some(total)));
  }

  lemma HeadingWriteLands(lines: seq<LogLine>, h: nat, text: string, today: string, total: int)
    requires h < |lines| && StartsWith(text, today)
    requires forall j :: 0 <= j < |lines| ==> lines[j].date != Some(today)
    requires forall j :: 0 <= j < |lines| ==> !StartsWith(lines[j].text, today) || !Undated(lines[j])
    ensures Landed(ApplyWrite(lines, CreateUnderHeading(h, text, total), today), today, total)
  {
    var line := LogLine(false, text, None, None);
    LandsUnderHeading(lines, h, line, today, total);
    assert ApplyWrite(lines, CreateUnderHeading(h, text, total), today) == Stamp(lines[..h + 1] + [line] + lines[h + 1..], today, total);
  }

  lemma BannerWriteLands(lines: seq<LogLine>, text: string, today: string, total: int)
    requires IsDateText(today) && StartsWith(text, today)
    requires forall j :: 0 <= j < |lines| ==> lines[j].date != Some(today)
    ensures Landed(ApplyWrite(lines, CreateWithBanner(text, total), today), today, total)
  {
    var line := LogLine(false, text, None, None);
    LandsWithBanner(lines, line, today, total);
    assert ApplyWrite(lines, CreateWithBanner(text, total), today)
      == Stamp([LogLine(false, "DON'T EDIT", None, None), LogLine(true, "Log", None, None), line] + lines, today, total);
  }

  /** Rewriting the day's entry in place keeps it the last line dated today. */
  lemma LandsOnEntry(lines: seq<LogLine>, today: string, i: nat, line: LogLine)
    requires LastDated(lines, today) == Some(i) && line.date == Some(today)
    ensures LastDated(lines[i := line], today) == Some(i)
  {
    LastDatedIs(lines[i := line], today, i);
  }

  /** Appending twice on a day rewrites one line, whose total is the sum of both values. */
  lemma AppendAccumulates(lines: seq<LogLine>, today: string, a: int, b: int, unit: string)
    requires IsDateText(today) && a >= 0
    requires forall j :: 0 <= j < |lines| ==> !StartsWith(lines[j].text, today) || !Undated(lines[j])
    requires forall j :: 0 <= j < |lines| && lines[j].value.Some? ==> lines[j].value.value >= 0
    ensures var w1 := AppendToHabitLog(lines, today, a, unit, true);
      var w2 := AppendToHabitLog(ApplyWrite(lines, w1, today), today, b, unit, true);
      w2.UpdateEntry? && w2.total == w1.total + OrOne(b) && w2.text == EntryText(today, w1.total + OrOne(b), unit)
  {
    AppendLands(lines, today, a, unit);
  }

  // ---------------------------------------------------------------------
  // Repairing the log's properties from its text

  datatype LogFields = LogFields(date: string, value: int)

  /** `^(\d{4}-\d{2}-\d{2})(?:\s*-\s*(\d+))?` with the value defaulting to 1. */
  function ParseLogText(text: string): (r: Option<LogFields>)
    ensures r.Some? <==> |text| >= 10 && IsDateText(text[..10])
    ensures r.Some? ==> r.value.date == text[..10] && r.value.value >= 0
  {
    if |text| >= 10 && IsDateText(text[..10]) then Some(LogFields(text[..10], DashValue(text, 10))) else None
  }

  /** The optional `\s*-\s*(\d+)` at `i`: its number, else 1. */
  function DashValue(text: string, i: nat): (v: nat)
    requires i <= |text|
  {
    var i1 := i + WsRun(text, i);
    if i1 < |text| && text[i1] == '-' then
      var j := i1 + 1 + WsRun(text, i1 + 1);
      var d := DigitRun(text, j);
      if d > 0 then ParseNat(text[j..j + d]) else 1
    else 1
  }

  lemma DashValueAt(t: string, n: string)
    requires |n| > 0 && AllDigits(n) && 13 + |n| <= |t|
    requires t[10] == ' ' && t[11] == '-' && t[12] == ' ' && t[13..13 + |n|] == n
    requires 13 + |n| < |t| ==> !IsDigit(t[13 + |n|])
    ensures DashValue(t, 10) == ParseNat(n)
  {
    assert IsDigit(t[13]) by { assert t[13] == t[13..13 + |n|][0]; }
    WsRunIs(t, 10, 1);
    WsRunIs(t, 12, 1);
    DigitRunExactly(t, 13, |n|);
  }

  /** A line written by the log writer reads back as its date and total. */
  lemma EntryTextParses(today: string, total: int, unit: string)
    requires IsDateText(today) && total >= 1
    requires unit == [] || !IsDigit(unit[0])
    ensures ParseLogText(EntryText(today, total, unit)) == Some(LogFields(today, total))
  {
    var t := EntryText(today, total, unit);
    assert t[..10] == today;
    if total > 1 {
      var n := NatToString(total);
      assert t == today + ([' ', '-', ' '] + n + unit);
      var rest := [' ', '-', ' '] + n + unit;
      assert rest[3..3 + |n|] == n;
      assert t[13..13 + |n|] == rest[3..3 + |n|];
      DashValueAt(t, n);
      ParseNatOfNatToString(total);
    } else {
      assert t == today;
    }
  }

  lemma {:induction false} DigitRunExactly(s: string, i: nat, n: nat)
    requires i + n <= |s| && AllDigits(s[i..i + n]) && (i + n < |s| ==> !IsDigit(s[i + n]))
    ensures DigitRun(s, i) == n
    decreases n
  {
    if n > 0 {
      assert IsDigit(s[i..i + n][0]);
      assert s[i + 1..i + n] == s[i..i + n][1..];
      DigitRunExactly(s, i + 1, n - 1);
    }
  }

  /** A line whose properties disagree with its text. */
  predicate NeedsRepair(l: LogLine) {
    var f := ParseLogText(l.text);
    f.Some? && (l.date != Some(f.value.date) || l.value != Some(f.value.value))
  }

  function Repaired(l: LogLine): (r: LogLine)
    ensures r.text == l.text && r.isHeading == l.isHeading && !NeedsRepair(r)
    ensures ParseLogText(l.text).None? ==> r == l
  {
    match ParseLogText(l.text)
    case Some(f) => l.(date := Some(f.date), value := Some(f.value))
    case None => l
  }

  /** The number of lines of `lines[..n]` that need repair, and of those that parse. */
  function RepairCount(lines: seq<LogLine>, n: nat): (c: nat)
    requires n <= |lines|
    ensures c <= n
  {
    if n == 0 then 0 else RepairCount(lines, n - 1) + (if NeedsRepair(lines[n - 1]) then 1 else 0)
  }

  function EntryCount(lines: seq<LogLine>, n: nat): (c: nat)
    requires n <= |lines|
    ensures RepairCount(lines, n) <= c <= n
  {
    if n == 0 then 0 else EntryCount(lines, n - 1) + (if ParseLogText(lines[n - 1].text).Some? then 1 else 0)
  }

  /** `repairLogs`: rewrites every log line's properties from its text, counting the lines it
   *  changed and those already right. */
  method RepairLogs(lines: array<LogLine>) returns (repaired: nat, skipped: nat)
    modifies lines
    ensures forall k :: 0 <= k < lines.Length ==> lines[k] == Repaired(old(lines[k]))
    ensures repaired == RepairCount(old(lines[..]), lines.Length)
    ensures repaired + skipped == EntryCount(old(lines[..]), lines.Length)
  {
    ghost var s := lines[..];
    repaired, skipped := 0, 0;
    var i := 0;
    while i < lines.Length
      invariant 0 <= i <= lines.Length
      invariant forall k :: 0 <= k < i ==> lines[k] == Repaired(s[k])
      invariant forall k :: i <= k < lines.Length ==> lines[k] == s[k]
      invariant repaired == RepairCount(s, i)
      invariant repaired + skipped == EntryCount(s, i)
    {
      var l := lines[i];
      var f := ParseLogText(l.text);
      if f.Some? {
        if l.date != Some(f.value.date) || l.value != Some(f.value.value) {
          lines[i] := l.(date := Some(f.value.date), value := Some(f.value.value));
          repaired := repaired + 1;
        } else {
          skipped := skipped + 1;
        }
      }
      i := i + 1;
    }
  }

  /** Nothing is left to repair after a repair: a second run changes nothing and counts 0. */
  lemma {:induction false} RepairIdempotent(lines: seq<LogLine>, n: nat)
    requires n <= |lines|
    requires forall k :: 0 <= k < n ==> !NeedsRepair(lines[k])
    ensures RepairCount(lines, n) == 0
    ensures forall k :: 0 <= k < n ==> Repaired(lines[k]) == lines[k]
  {
    if n > 0 {
      RepairIdempotent(lines, n - 1);
    }
  }

  /** After one run of the repair, a second run repairs nothing. */
  lemma SecondRunRepairsNothing(lines: seq<LogLine>)
    ensures var once := seq(|lines|, k requires 0 <= k < |lines| => Repaired(lines[k]));
      RepairCount(once, |once|) == 0 && forall k :: 0 <= k < |once| ==> Repaired(once[k]) == once[k]
  {
    var once := seq(|lines|, k requires 0 <= k < |lines| => Repaired(lines[k]));
    RepairIdempotent(once, |once|);
  }

  /** A line the log writer stamped needs no repair. */
  lemma WrittenNeedsNoRepair(today: string, total: int, unit: string, isHeading: bool)
    requires IsDateText(today) && total >= 1
    requires unit == [] || !IsDigit(unit[0])
    ensures !NeedsRepair(LogLine(isHeading, EntryText(today, total, unit), Some(today), Some(total)))
  {
    EntryTextParses(today, total, unit);
  }

  // ---------------------------------------------------------------------
  // The sparkline of the habit card

  /** A log entry as the stats read it: its day (a day number) and its value. */
  datatype DayLog = DayLog(day: int, value: int)

  /** The first log of `day` (`logs.find`). */
  function FirstOnDay(logs: seq<DayLog>, day: int): (r: Option<nat>)
    ensures r.Some? ==> (r.value < |logs| && logs[r.value].day == day &&
      forall i :: 0 <= i < r.value ==> logs[i].day != day)
    ensures r.None? <==> forall j :: 0 <= j < |logs| ==> logs[j].day != day
  {
    if logs == [] then None
    else if logs[0].day == day then Some(0)
    else
      var r := FirstOnDay(logs[1..], day);
      assert forall j :: 1 <= j < |logs| ==> logs[j] == logs[1..][j - 1];
      if r.Some? then Some(r.value + 1) else None
  }

  /** The bar value of a day: its first log's value, or 0 (`log?.value || 0`). */
  function DayValue(logs: seq<DayLog>, day: int): (v: int)
    ensures FirstOnDay(logs, day).None? ==> v == 0
    ensures FirstOnDay(logs, day).Some? ==> v == logs[FirstOnDay(logs, day).value].value
  {
    match FirstOnDay(logs, day)
    case Some(k) => logs[k].value
    case None => 0
  }

  /** `buildSparklineData`: one value per day of the last `days`, oldest first, ending today. */
  method BuildSparklineData(logs: seq<DayLog>, days: nat, today: int) returns (data: seq<int>)
    ensures |data| == days
    ensures forall k :: 0 <= k < days ==> data[k] == DayValue(logs, today - (days - 1 - k))
  {
    data := [];
    var i := days;
    while i > 0
      invariant 0 <= i <= days && |data| == days - i
      invariant forall k :: 0 <= k < |data| ==> data[k] == DayValue(logs, today - (days - 1 - k))
    {
      i := i - 1;
      var v := DayValue(logs, today - i);
      data := data + [v];
    }
  }

  datatype Colour = NoData | ViceGreen | ViceAmber | ViceRed | Plain

  /** A bar's colour: none at 0; a vice with a target is green up to half of it, amber up to it,
   *  red above. */
  function BarColour(val: int, kind: string, target: int): (c: Colour)
    ensures c == NoData <==> val == 0
    ensures val != 0 && IsVice(kind) && target > 0 ==>
      (c == ViceGreen <==> 2 * val <= target) && (c == ViceAmber <==> 2 * val > target && val <= target) &&
      (c == ViceRed <==> val > target)
    ensures val != 0 && !(IsVice(kind) && target > 0) ==> c == Plain
  {
    if val == 0 then NoData
    else if IsVice(kind) && target > 0 then
      if 2 * val <= target then ViceGreen else if val <= target then ViceAmber else ViceRed
    else Plain
  }

  datatype Bar = Bar(colour: Colour, today: bool)

  predicate AllZero(data: seq<int>) { forall i :: 0 <= i < |data| ==> data[i] == 0 }

  function DataAt(data: seq<int>, i: nat): int { if i < |data| then data[i] else 0 }

  /** `renderSparkline` without the heights: `days` bars, the last one today's. */
  function RenderSparkline(days: nat, data: seq<int>, kind: string, target: int): (bars: seq<Bar>)
    ensures |bars| == days
    ensures forall i :: 0 <= i < days ==> (bars[i].today <==> i == days - 1)
    ensures AllZero(data) ==> forall i :: 0 <= i < days ==> bars[i].colour == NoData
    ensures forall i :: 0 <= i < days ==> bars[i].colour == BarColour(DataAt(data, i), kind, target)
  {
    if AllZero(data) then seq(days, i => Bar(NoData, i == days - 1))
    else seq(days, i requires 0 <= i < days => Bar(BarColour(DataAt(data, i), kind, target), i == days - 1))
  }

  // ---------------------------------------------------------------------
  // Stats read from the log

  /** `habit_value || 1`. */
  function LogValue(v: Option<int>): (n: int)
    ensures n != 0
  {
    if v.Some? && v.value != 0 then v.value else 1
  }

  predicate SortedDesc(s: seq<DayLog>) {
    forall i, j :: 0 <= i < j < |s| ==> s[i].day >= s[j].day
  }

  /** `x` put after every log of a later or equal day: its place in a stable descending sort. */
  function InsertDesc(x: DayLog, s: seq<DayLog>): (r: seq<DayLog>)
    ensures multiset(r) == multiset(s) + multiset{x} && |r| == |s| + 1
    decreases |s|
  {
    if s == [] then [x]
    else if s[|s| - 1].day >= x.day then s + [x]
    else
      assert s == s[..|s| - 1] + [s[|s| - 1]];
      InsertDesc(x, s[..|s| - 1]) + [s[|s| - 1]]
  }

  lemma {:induction false} InsertDescSorted(x: DayLog, s: seq<DayLog>)
    requires SortedDesc(s)
    ensures SortedDesc(InsertDesc(x, s))
    decreases |s|
  {
    if s != [] && s[|s| - 1].day < x.day {
      var u := s[..|s| - 1];
      var last := s[|s| - 1];
      InsertDescSorted(x, u);
      var t := InsertDesc(x, u);
      forall i | 0 <= i < |t|
        ensures t[i].day >= last.day
      {
        assert t[i] in multiset(t);
        if t[i] != x {
          assert t[i] in multiset(u);
          var j :| 0 <= j < |u| && u[j] == t[i];
          assert s[j] == t[i];
        }
      }
    }
  }

  /** `logs.sort` by date, most recent first. */
  function SortDesc(s: seq<DayLog>): (r: seq<DayLog>)
    ensures multiset(r) == multiset(s) && |r| == |s|
    ensures SortedDesc(r)
  {
    if s == [] then []
    else
      assert s == s[..|s| - 1] + [s[|s| - 1]];
      var t := SortDesc(s[..|s| - 1]);
      InsertDescSorted(s[|s| - 1], t);
      InsertDesc(s[|s| - 1], t)
  }

  /** Which logs a sum counts: all of them, those from a day on, or one day's. */
  datatype Window = AllDays | Since(from: int) | OnDay(on: int)

  predicate InWindow(e: DayLog, w: Window) {
    match w
    case AllDays => true
    case Since(from) => e.day >= from
    case OnDay(on) => e.day == on
  }

  function SumIn(s: seq<DayLog>, w: Window): int {
    if s == [] then 0
    else SumIn(s[..|s| - 1], w) + (if InWindow(s[|s| - 1], w) then s[|s| - 1].value else 0)
  }

  lemma {:induction false} SumInsert(x: DayLog, s: seq<DayLog>, w: Window)
    ensures SumIn(InsertDesc(x, s), w) == SumIn(s, w) + (if InWindow(x, w) then x.value else 0)
    decreases |s|
  {
    if s != [] && s[|s| - 1].day < x.day {
      var u := s[..|s| - 1];
      SumInsert(x, u, w);
      var t := InsertDesc(x, u) + [s[|s| - 1]];
      assert t[..|t| - 1] == InsertDesc(x, u);
    } else if s != [] {
      assert (s + [x])[..|s|] == s;
    }
  }

  lemma SumStep(s: seq<DayLog>, i: nat, w: Window)
    requires i < |s|
    ensures SumIn(s[..i + 1], w) == SumIn(s[..i], w) + (if InWindow(s[i], w) then s[i].value else 0)
  {
    assert s[..i + 1][..i] == s[..i];
  }

  /** Sorting keeps every sum. */
  lemma {:induction false} SumSorted(s: seq<DayLog>, w: Window)
    ensures SumIn(SortDesc(s), w) == SumIn(s, w)
  {
    if s != [] {
      SumSorted(s[..|s| - 1], w);
      SumInsert(s[|s| - 1], SortDesc(s[..|s| - 1]), w);
    }
  }

  /** Log `i` is the day after log `i - 1`, going back in time. */
  predicate Follows(s: seq<DayLog>, i: nat)
    requires 0 < i < |s|
  {
    s[i].day == s[i - 1].day - 1
  }

  /** The length of the run of consecutive days that ends at log `i`. */
  function RunAt(s: seq<DayLog>, i: nat): (n: nat)
    requires i < |s|
    ensures 1 <= n <= i + 1
  {
    if i == 0 then 1 else if Follows(s, i) then RunAt(s, i - 1) + 1 else 1
  }

  /** The length of the run that opens `s[..n]`. */
  function LeadUpTo(s: seq<DayLog>, n: nat): (l: nat)
    requires n <= |s|
    ensures l <= n
  {
    if n == 0 then 0 else if RunAt(s, n - 1) == n then n else LeadUpTo(s, n - 1)
  }

  /** The longest run in `s[..n]`. */
  function LongestUpTo(s: seq<DayLog>, n: nat): (l: nat)
    requires n <= |s|
    ensures l <= n
  {
    if n == 0 then 0 else MaxNat(LongestUpTo(s, n - 1), RunAt(s, n - 1))
  }

  function MaxNat(a: nat, b: nat): nat { if a >= b then a else b }

  /** The current streak: the opening run, when the newest log is today's or yesterday's. */
  function CurrentStreak(s: seq<DayLog>, today: int): nat {
    if s != [] && (s[0].day == today || s[0].day == today - 1) then LeadUpTo(s, |s|) else 0
  }

  function LongestRun(s: seq<DayLog>): nat { LongestUpTo(s, |s|) }

  /** A run ending at `i` covers consecutive days, and cannot be extended backwards in `s`. */
  lemma {:induction false} RunAtMeaning(s: seq<DayLog>, i: nat)
    requires i < |s|
    ensures forall j :: 0 < j && i - RunAt(s, i) + 1 < j <= i ==> Follows(s, j)
    ensures RunAt(s, i) <= i ==> !Follows(s, i - RunAt(s, i) + 1)
  {
    if i > 0 && Follows(s, i) {
      RunAtMeaning(s, i - 1);
    }
  }

  /** The opening run is a run ending at its last log, and stops where the days stop following. */
  lemma {:induction false} LeadShape(s: seq<DayLog>, n: nat)
    requires 0 < n <= |s|
    ensures 1 <= LeadUpTo(s, n) && RunAt(s, LeadUpTo(s, n) - 1) == LeadUpTo(s, n)
    ensures LeadUpTo(s, n) < n ==> !Follows(s, LeadUpTo(s, n))
  {
    if RunAt(s, n - 1) != n {
      LeadShape(s, n - 1);
    }
  }

  /** The current streak counts the newest logs while each is the day before the previous one,
   *  and stops at the first gap. */
  lemma CurrentStreakMeaning(s: seq<DayLog>, today: int)
    requires s != [] && (s[0].day == today || s[0].day == today - 1)
    ensures var l := CurrentStreak(s, today);
      1 <= l <= |s| && (forall j :: 0 < j < l ==> Follows(s, j)) && (l < |s| ==> !Follows(s, l))
  {
    LeadShape(s, |s|);
    RunAtMeaning(s, LeadUpTo(s, |s|) - 1);
  }

  /** The longest run is at least every run, and is one of them. */
  lemma {:induction false} LongestMeaning(s: seq<DayLog>, n: nat)
    requires n <= |s|
    ensures forall i :: 0 <= i < n ==> RunAt(s, i) <= LongestUpTo(s, n)
    ensures n > 0 ==> exists i :: 0 <= i < n && RunAt(s, i) == LongestUpTo(s, n)
  {
    if n > 0 {
      LongestMeaning(s, n - 1);
    }
  }

  /** The best streak is never below the current one. */
  lemma BestAtLeastCurrent(s: seq<DayLog>, today: int)
    ensures CurrentStreak(s, today) <= LongestRun(s)
  {
    if s != [] && (s[0].day == today || s[0].day == today - 1) {
      LeadShape(s, |s|);
      LongestMeaning(s, |s|);
    }
  }

  /** What `getHabitStats` returns, without the raw logs. */
  datatype Stats = Stats(total: int, weeklyTotal: int, todayTotal: int, streak: nat, bestStreak: nat, logCount: nat)

  /** The loop of `getHabitStats` over logs sorted newest first, with the streaks counted as
   *  intended (see the findings). */
  method Tally(s: seq<DayLog>, today: int) returns (st: Stats)
    ensures st.total == SumIn(s, AllDays)
    ensures st.weeklyTotal == SumIn(s, Since(today - 7))
    ensures st.todayTotal == SumIn(s, OnDay(today))
    ensures st.streak == CurrentStreak(s, today)
    ensures st.bestStreak == LongestRun(s)
    ensures st.logCount == |s|
  {
    var total, weekly, todayTotal := 0, 0, 0;
    var cur, best, lead := 0, 0, 0;
    var lastDate: Option<int> := None;
    var i := 0;
    while i < |s|
      invariant 0 <= i <= |s|
      invariant total == SumIn(s[..i], AllDays)
      invariant weekly == SumIn(s[..i], Since(today - 7))
      invariant todayTotal == SumIn(s[..i], OnDay(today))
      invariant lastDate == if i == 0 then None else Some(s[i - 1].day)
      invariant i > 0 ==> cur == RunAt(s, i - 1)
      invariant best == LongestUpTo(s, i)
      invariant lead == LeadUpTo(s, i)
    {
      var log := s[i];
      SumStep(s, i, AllDays);
      SumStep(s, i, Since(today - 7));
      SumStep(s, i, OnDay(today));
      total := total + log.value;
      if log.day >= today - 7 {
        weekly := weekly + log.value;
      }
      if log.day == today {
        todayTotal := todayTotal + log.value;
      }
      if lastDate.Some? && log.day == lastDate.value - 1 {
        cur := cur + 1;
      } else {
        cur := 1;
      }
      if cur > best {
        best := cur;
      }
      if cur == i + 1 {
        lead := i + 1;
      }
      lastDate := Some(log.day);
      i := i + 1;
    }
    assert s[..|s|] == s;
    var streak := if s != [] && (s[0].day == today || s[0].day == today - 1) then lead else 0;
    st := Stats(total, weekly, todayTotal, streak, best, |s|);
  }

  /** `getHabitStats`: sums over all logs, over the last week and over today, whatever their
   *  order, and the streaks of the logs sorted newest first. */
  method HabitStats(logs: seq<DayLog>, today: int) returns (st: Stats)
    ensures st.total == SumIn(logs, AllDays)
    ensures st.weeklyTotal == SumIn(logs, Since(today - 7))
    ensures st.todayTotal == SumIn(logs, OnDay(today))
    ensures st.streak == CurrentStreak(SortDesc(logs), today)
    ensures st.bestStreak == LongestRun(SortDesc(logs))
    ensures st.logCount == |logs|
  {
    var s := SortDesc(logs);
    st := Tally(s, today);
    SumSorted(logs, AllDays);
    SumSorted(logs, Since(today - 7));
    SumSorted(logs, OnDay(today));
  }

  /** The streak loop as written: a break resets the count to 0 rather than 1, and the streak
   *  reported is the count at the oldest log. */
  datatype Fold = Fold(cur: nat, best: nat, last: Option<int>)

  function AsWrittenUpTo(s: seq<DayLog>, today: int, n: nat): (f: Fold)
    requires n <= |s|
    ensures f.cur <= n && f.best <= n
  {
    if n == 0 then Fold(0, 0, None)
    else
      var f := AsWrittenUpTo(s, today, n - 1);
      var d := s[n - 1].day;
      if f.last.None? then Fold(if d == today || d == today - 1 then 1 else 0, f.best, Some(d))
      else if d == f.last.value - 1 then Fold(f.cur + 1, f.best, Some(d))
      else Fold(0, MaxNat(f.best, f.cur), Some(d))
  }

  /** The (streak, bestStreak) pair the source computes over the sorted logs. */
  datatype Streaks = Streaks(streak: nat, best: nat)

  function StreaksAsWritten(s: seq<DayLog>, today: int): (r: Streaks)
    ensures r.best >= r.streak
  {
    var f := AsWrittenUpTo(s, today, |s|);
    Streaks(f.cur, MaxNat(f.best, f.cur))
  }

  /** Logs on today and on three days a week earlier: the source reports a streak of 2 and a
   *  best of 2. */
  lemma StreaksAsWrittenMiscount()
    ensures StreaksAsWritten([DayLog(10, 1), DayLog(5, 1), DayLog(4, 1), DayLog(3, 1)], 10) == Streaks(2, 2)
  {
    var s := [DayLog(10, 1), DayLog(5, 1), DayLog(4, 1), DayLog(3, 1)];
    assert AsWrittenUpTo(s, 10, 1) == Fold(1, 0, Some(10));
    assert AsWrittenUpTo(s, 10, 2) == Fold(0, 1, Some(5));
    assert AsWrittenUpTo(s, 10, 3) == Fold(1, 1, Some(4));
    assert AsWrittenUpTo(s, 10, 4) == Fold(2, 1, Some(3));
  }

  /** The same logs, already newest first: the current streak is 1 and the best run is 3 days. */
  lemma StreaksIntended()
    ensures var s := [DayLog(10, 1), DayLog(5, 1), DayLog(4, 1), DayLog(3, 1)];
      SortedDesc(s) && CurrentStreak(s, 10) == 1 && LongestRun(s) == 3
  {
    var s := [DayLog(10, 1), DayLog(5, 1), DayLog(4, 1), DayLog(3, 1)];
    assert RunAt(s, 0) == 1 && RunAt(s, 1) == 1 && RunAt(s, 2) == 2 && RunAt(s, 3) == 3;
    assert LeadUpTo(s, 1) == 1;
    assert LeadUpTo(s, 4) == 1;
    assert LongestUpTo(s, 2) == 1;
    assert LongestUpTo(s, 4) == 3;
  }

  // ---------------------------------------------------------------------
  // Reading the log, and the habit's emoji

  /** The log entries `getHabitStats` reads: every line with a `habit_date`, valued
   *  `habit_value || 1`; `dayOf` turns the date into a day number. */
  function LogsOf(lines: seq<LogLine>, dayOf: string -> int): (r: seq<DayLog>)
    ensures |r| <= |lines|
    ensures forall k :: 0 <= k < |r| ==> r[k].value != 0
    ensures (forall j :: 0 <= j < |lines| ==> !Undated(lines[j])) ==> |r| == |lines|
  {
    if lines == [] then []
    else
      var rest := LogsOf(lines[1..], dayOf);
      assert forall j :: 1 <= j < |lines| ==> lines[j] == lines[1..][j - 1];
      if Undated(lines[0]) then rest
      else [DayLog(dayOf(lines[0].date.value), LogValue(lines[0].value))] + rest
  }

  const Star: string := ['\U{2B50}']

  const EmojiMap: map<string, string> := map[
    "running" := ['\U{1F3C3}'],
    "gym" := ['\U{1F3CB}', '\U{FE0F}'],
    "reading" := ['\U{1F4DA}'],
    "meditation" := ['\U{1F9D8}'],
    "water" := ['\U{1F4A7}'],
    "sleep" := ['\U{1F634}'],
    "writing" := ['\U{270D}', '\U{FE0F}'],
    "coding" := ['\U{1F4BB}'],
    "music" := ['\U{1F3B5}'],
    "language" := ['\U{1F5E3}', '\U{FE0F}'],
    "cooking" := ['\U{1F373}'],
    "walking" := ['\U{1F6B6}'],
    "cycling" := ['\U{1F6B4}'],
    "yoga" := ['\U{1F9D8}', '\U{200D}', '\U{2640}', '\U{FE0F}'],
    "stretching" := ['\U{1F938}'],
    "journaling" := ['\U{1F4D4}'],
    "cleaning" := ['\U{1F9F9}'],
    "vitamins" := ['\U{1F48A}'],
    "flossing" := ['\U{1F9B7}'],
    "skincare" := ['\U{1F9F4}'],
    "smoking" := ['\U{1F6AC}'],
    "alcohol" := ['\U{1F37A}'],
    "coffee" := ['\U{2615}'],
    "sugar" := ['\U{1F36C}'],
    "screentime" := ['\U{1F4F1}'],
    "socialmedia" := ['\U{1F4F2}'],
    "fastfood" := ['\U{1F354}'],
    "snacking" := ['\U{1F37F}'],
    "custom" := ['\U{2B50}']
  ]

  /** `getEmojiFromChoice`: the emoji of a known choice, else a star. */
  function EmojiFor(choice: Option<string>): (e: string)
    ensures e != []
    ensures choice.None? || choice.value !in EmojiMap ==> e == Star
    ensures choice.Some? && choice.value in EmojiMap ==> e == EmojiMap[choice.value]
  {
    if choice.Some? && choice.value in EmojiMap then EmojiMap[choice.value] else Star
  }
}
