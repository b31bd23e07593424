// Flow, the focus-session timer (plugins/flow/plugin.js).
//
// The plugin object keeps the current session, the overlay mode and whether the
// overlay is shown; class `Flow` holds those three fields. The clock is the `now`
// parameter of each method, in milliseconds. PlannerHub, when installed, is the
// list of tasks it returns; marking a task in progress or done is reported as an
// out-parameter instead of a call.

module Flow {
  import opened Common

  /** The running session: `pausedTime` is set exactly while it is paused. */
  datatype Session = Session(taskGuid: Option<string>, taskText: string, startTime: int,
                             pausedTime: Option<int>, totalPausedMs: int, isPaused: bool)

  datatype Mode = StatusMode | CompactMode | FullMode

  /** What PlannerHub reports about one task. */
  datatype TaskInfo = TaskInfo(guid: string, text: string, linkedIssueTitle: string, done: bool)

  /** `task.text || task.linkedIssueTitle || 'Task'`. */
  function TaskLabel(t: TaskInfo): (r: string)
    ensures r != ""
    ensures t.text != "" ==> r == t.text
  {
    if t.text != "" then t.text else if t.linkedIssueTitle != "" then t.linkedIssueTitle else "Task"
  }

  /** `tasks.find(t => t.status !== 'done')`. */
  function FirstOpen(tasks: seq<TaskInfo>): (r: Option<nat>)
    ensures r.Some? ==> r.value < |tasks| && !tasks[r.value].done
    ensures r.Some? ==> forall j :: 0 <= j < r.value ==> tasks[j].done
    ensures r.None? ==> forall j :: 0 <= j < |tasks| ==> tasks[j].done
  {
    if tasks == [] then None
    else if !tasks[0].done then Some(0)
    else
      var r := FirstOpen(tasks[1..]);
      if r.Some? then Some(r.value + 1) else None
  }

  /** `tasks.find(t => t.guid === guid)`. */
  function FindGuid(tasks: seq<TaskInfo>, guid: string): (r: Option<nat>)
    ensures r.Some? ==> r.value < |tasks| && tasks[r.value].guid == guid
    ensures r.Some? ==> forall j :: 0 <= j < r.value ==> tasks[j].guid != guid
    ensures r.None? ==> forall j :: 0 <= j < |tasks| ==> tasks[j].guid != guid
  {
    if tasks == [] then None
    else if tasks[0].guid == guid then Some(0)
    else
      var r := FindGuid(tasks[1..], guid);
      if r.Some? then Some(r.value + 1) else None
  }

  /** A task guid argument counts only when it is a non-empty string. */
  predicate GivenGuid(g: Option<string>) { g.Some? && g.value != "" }

  /** The task and label a new session gets. Without a guid the first task PlannerHub
    * has not finished is taken; with one its label is looked up; without PlannerHub,
    * or when nothing is found, the guid is kept and the label is "Focus session". */
  function ChooseTask(taskGuid: Option<string>, planner: Option<seq<TaskInfo>>): (r: (Option<string>, string))
    ensures planner.None? ==> r == (taskGuid, "Focus session")
    ensures GivenGuid(taskGuid) ==> r.0 == taskGuid
    ensures planner.Some? && !GivenGuid(taskGuid) && FirstOpen(planner.value).Some? ==>
      var t := planner.value[FirstOpen(planner.value).value];
      r == (Some(t.guid), TaskLabel(t))
    ensures planner.Some? && GivenGuid(taskGuid) && FindGuid(planner.value, taskGuid.value).Some? ==>
      r.1 == TaskLabel(planner.value[FindGuid(planner.value, taskGuid.value).value])
    ensures r.1 != ""
  {
    if planner.None? then (taskGuid, "Focus session")
    else if !GivenGuid(taskGuid) then
      match FirstOpen(planner.value)
      case Some(i) => (Some(planner.value[i].guid), TaskLabel(planner.value[i]))
      case None => (taskGuid, "Focus session")
    else
      match FindGuid(planner.value, taskGuid.value)
      case Some(i) => (taskGuid, TaskLabel(planner.value[i]))
      case None => (taskGuid, "Focus session")
  }

  /** `getElapsedTime`: the time since the start minus every pause, including the
    * one in progress, and never negative. */
  function Elapsed(s: Option<Session>, now: int): (e: int)
    ensures e >= 0
    ensures s.None? ==> e == 0
    ensures s.Some? && !s.value.isPaused ==> e == MaxInt(0, now - s.value.startTime - s.value.totalPausedMs)
  {
    if s.None? then 0
    else
      var ss := s.value;
      var elapsed := now - ss.startTime - ss.totalPausedMs;
      var pausedFor := if ss.isPaused then now - (if ss.pausedTime.Some? then ss.pausedTime.value else 0) else 0;
      MaxInt(0, elapsed - pausedFor)
  }

  /** While a session is paused its elapsed time stands still. */
  lemma ElapsedFrozenWhilePaused(s: Session, t1: int, t2: int)
    requires s.isPaused && s.pausedTime.Some?
    ensures Elapsed(Some(s), t1) == Elapsed(Some(s), t2)
    ensures Elapsed(Some(s), t1) == MaxInt(0, s.pausedTime.value - s.startTime - s.totalPausedMs)
  {
  }

  /** While a session runs its elapsed time never goes down. */
  lemma ElapsedMonotoneWhileRunning(s: Session, t1: int, t2: int)
    requires !s.isPaused && t1 <= t2
    ensures Elapsed(Some(s), t1) <= Elapsed(Some(s), t2)
  {
  }

  /** The session after resuming at `now`: the pause is added to the paused total. */
  function Resumed(s: Session, now: int): (r: Session)
    requires s.isPaused && s.pausedTime.Some?
    ensures !r.isPaused && r.pausedTime.None?
    ensures r.totalPausedMs == s.totalPausedMs + (now - s.pausedTime.value)
    ensures r.taskGuid == s.taskGuid && r.taskText == s.taskText && r.startTime == s.startTime
  {
    s.(totalPausedMs := s.totalPausedMs + (now - s.pausedTime.value), isPaused := false, pausedTime := None)
  }

  /** Pausing and resuming changes nothing about the elapsed time at the moment of resuming:
    * the time counted after `resume` is the time counted at `pause`. */
  lemma {:induction false} PauseResumeKeepsElapsed(s: Session, tPause: int, tResume: int)
    requires !s.isPaused
    ensures Elapsed(Some(Resumed(s.(isPaused := true, pausedTime := Some(tPause)), tResume)), tResume)
         == Elapsed(Some(s), tPause)
  {
    var p := s.(isPaused := true, pausedTime := Some(tPause));
    var r := Resumed(p, tResume);
    assert tResume - r.startTime - r.totalPausedMs == tPause - s.startTime - s.totalPausedMs;
  }

  /** `formatTime`: minutes, a colon and two-digit seconds. JavaScript's `%` keeps the
    * sign of a negative dividend, so a negative time shows a negative second count. */
  function FormatTime(ms: int): (r: string)
    ensures ms >= 0 ==> exists m: nat, d1: nat, d2: nat ::
      d1 < 6 && d2 < 10 && m * 60000 <= ms < m * 60000 + 60000 && (ms / 1000) % 60 == 10 * d1 + d2
      && r == NatToString(m) + ":" + [DigitChar(d1), DigitChar(d2)]
  {
    var totalSeconds := ms / 1000;
    var mins := totalSeconds / 60;
    if totalSeconds >= 0 then
      var secs := totalSeconds % 60;
      var r := NatToString(mins) + ":" + Pad2(secs);
      assert Pad2(secs) == [DigitChar(secs / 10), DigitChar(secs % 10)] by {
        if secs >= 10 { assert NatToString(secs / 10) == [DigitChar(secs / 10)]; }
      }
      assert mins * 60000 <= ms < mins * 60000 + 60000 by { SplitMillis(ms); }
      r
    else
      var secs := -((-totalSeconds) % 60);
      IntToString(mins) + ":" + (if secs == 0 then "00" else "-" + NatToString(-secs))
  }

  lemma SplitMillis(ms: int)
    requires ms >= 0
    ensures (ms / 1000) / 60 * 60000 <= ms < (ms / 1000) / 60 * 60000 + 60000
  {
    var s := ms / 1000;
    assert s * 1000 <= ms < s * 1000 + 1000;
    var m := s / 60;
    assert m * 60 <= s < m * 60 + 60;
    assert m * 60000 == (m * 60) * 1000;
  }

  /** `truncate(str, len)`: short strings are kept, longer ones are cut to `len`
    * characters followed by "...". */
  function Truncate(str: string, len: nat): (r: string)
    ensures |str| <= len ==> r == str
    ensures |str| > len ==> |r| == len + 3 && r[..len] == str[..len] && r[len..] == "..."
  {
    if |str| > len then str[..len] + "..." else str
  }

  class Flow {
    var session: Option<Session>
    var mode: Mode
    var overlay: bool

    /** A paused session knows when its pause began; a running one does not. */
    ghost predicate Valid()
      reads this
    {
      session.Some? ==> (session.value.isPaused <==> session.value.pausedTime.Some?)
    }

    constructor ()
      ensures Valid() && session.None? && mode == StatusMode && !overlay
    {
      session := None;
      mode := StatusMode;
      overlay := false;
    }

    /** `window.flow.isActive`. */
    predicate IsActive()
      reads this
    {
      session.Some? && !session.value.isPaused
    }

    /** `window.flow.isPaused`. */
    predicate IsPaused()
      reads this
    {
      session.Some? && session.value.isPaused
    }

    /** `startSession`: any existing session is replaced by a fresh, running one. */
    method StartSession(taskGuid: Option<string>, planner: Option<seq<TaskInfo>>, now: int)
      returns (ok: bool, markedInProgress: Option<string>)
      requires Valid()
      modifies this`session
      ensures Valid() && ok
      ensures var c := ChooseTask(taskGuid, planner);
        session == Some(Session(c.0, c.1, now, None, 0, false))
      ensures markedInProgress.Some? <==> planner.Some? && GivenGuid(ChooseTask(taskGuid, planner).0)
      ensures markedInProgress.Some? ==> markedInProgress == ChooseTask(taskGuid, planner).0
      ensures IsActive() && !IsPaused()
    {
      var c := ChooseTask(taskGuid, planner);
      markedInProgress := if planner.Some? && GivenGuid(c.0) then c.0 else None;
      session := Some(Session(c.0, c.1, now, None, 0, false));
      ok := true;
    }

    /** `pauseSession`: only a running session can be paused. */
    method PauseSession(now: int) returns (ok: bool)
      requires Valid()
      modifies this`session
      ensures Valid()
      ensures ok == old(IsActive())
      ensures !ok ==> session == old(session)
      ensures ok ==> session == Some(old(session.value).(isPaused := true, pausedTime := Some(now)))
      ensures ok ==> IsPaused() && Elapsed(session, now) == Elapsed(old(session), now)
    {
      if session.None? || session.value.isPaused {
        return false;
      }
      session := Some(session.value.(isPaused := true, pausedTime := Some(now)));
      ok := true;
    }

    /** `resumeSession`: only a paused session can be resumed; the pause is added to its total. */
    method ResumeSession(now: int) returns (ok: bool)
      requires Valid()
      modifies this`session
      ensures Valid()
      ensures ok == old(IsPaused())
      ensures !ok ==> session == old(session)
      ensures ok ==> session == Some(Resumed(old(session.value), now))
      ensures ok ==> IsActive() && Elapsed(session, now) == Elapsed(old(session), now)
    {
      if session.None? || !session.value.isPaused {
        return false;
      }
      session := Some(Resumed(session.value, now));
      ok := true;
    }

    /** `endSession`: clears the session, marking its task done when PlannerHub is there. */
    method EndSession(plannerInstalled: bool) returns (ok: bool, markedDone: Option<string>)
      requires Valid()
      modifies this`session
      ensures Valid()
      ensures ok == old(session).Some?
      ensures session.None? && !IsActive() && !IsPaused()
      ensures markedDone.Some? <==> ok && plannerInstalled && GivenGuid(old(session).value.taskGuid)
      ensures markedDone.Some? ==> markedDone == old(session).value.taskGuid
    {
      if session.None? {
        return false, None;
      }
      markedDone := if plannerInstalled && GivenGuid(session.value.taskGuid) then session.value.taskGuid else None;
      session := None;
      ok := true;
    }

    method SetMode(m: Mode)
      modifies this`mode
      ensures mode == m
    {
      mode := m;
    }

    /** `handleStatusBarClick`: a hidden overlay opens compact, a compact one grows to
      * full, and a full (or status-mode) one is hidden. */
    method HandleStatusBarClick()
      modifies this`mode, this`overlay
      ensures !old(overlay) ==> overlay && mode == CompactMode
      ensures old(overlay) && old(mode) == CompactMode ==> overlay && mode == FullMode
      ensures old(overlay) && old(mode) != CompactMode ==> !overlay && mode == old(mode)
    {
      if overlay {
        if mode == CompactMode {
          SetMode(FullMode);
        } else {
          overlay := false;
        }
      } else {
        SetMode(CompactMode);
        overlay := true;
      }
    }
  }

  /** Three clicks from a hidden overlay go compact, full, hidden. */
  method ClickCycle() returns (f: Flow)
    ensures !f.overlay && f.mode == FullMode
  {
    f := new Flow();
    f.HandleStatusBarClick();
    f.HandleStatusBarClick();
    f.HandleStatusBarClick();
  }
}
