// The browser end of the desktop bridge (plugins/desktop-bridge/plugin.js): a
// WebSocket client that reconnects with exponential backoff, answers the desktop
// app's requests through SyncHub and keeps a bounded log of tool calls.
//
// Browser events (the socket opening or closing, a reconnect timer firing, a
// SyncHub promise settling) are methods of class `Peer`; what SyncHub returns is
// an input of the method that receives it. Frames written to the socket are
// recorded in `sent`, close calls in `closes`, and reconnect timers in `timers`.

module DesktopPeer {
  import opened Common

  /** `WebSocket.readyState`; CONNECTING and OPEN are the states `<= WebSocket.OPEN`. */
  datatype ReadyState = Connecting | Open | Closing | Closed

  const MaxReconnectAttempts: nat := 5
  const MaxLogEntries: nat := 50
  /** WebSocket status code 1008, "policy violation" (section 7.4.1 of RFC 6455): the desktop app replaced this client. */
  const PolicyViolation: int := 1008
  /** WebSocket status code 1000, "normal closure" (section 7.4.1 of RFC 6455). */
  const NormalClosure: int := 1000

  function Pow2(n: nat): (r: nat)
    ensures r >= 1
  {
    if n == 0 then 1 else 2 * Pow2(n - 1)
  }

  /** The reconnect delay after `attempts` failed attempts: `min(1000 * 2^attempts, 30000)` ms. */
  function Backoff(attempts: nat): (d: nat)
    ensures d <= 30000
    ensures d == 30000 || d == 1000 * Pow2(attempts)
  {
    MinInt(1000 * Pow2(attempts), 30000)
  }

  /** With at most five attempts the cap is never reached: the delays are 1, 2, 4, 8 and 16 seconds. */
  lemma BackoffSchedule()
    ensures Backoff(0) == 1000 && Backoff(1) == 2000 && Backoff(2) == 4000
    ensures Backoff(3) == 8000 && Backoff(4) == 16000
  {
    assert Pow2(4) == 16;
  }

  /** The delay doubles from one attempt to the next until it reaches the cap. */
  lemma BackoffDoubles(a: nat)
    ensures Backoff(a + 1) == MinInt(2 * Backoff(a), 30000)
  {
  }

  // ---------------------------------------------------------------------
  // Frames

  function RegisterFrame(): Json {
    JObj(map["type" := JStr("register"), "version" := JStr("1.0.0")])
  }

  function ToolsFrame(tools: Json): Json {
    JObj(map["type" := JStr("tools"), "tools" := tools])
  }

  function PluginsFrame(plugins: Json): Json {
    JObj(map["type" := JStr("plugins"), "plugins" := plugins])
  }

  /** `JSON.stringify({id, key: value})`: an undefined id is left out. */
  function ReplyFrame(id: Option<Json>, key: string, value: Json): (f: Json)
    ensures Field(f, key) == Some(value)
    ensures Field(f, "id") == (if key == "id" then Some(value) else id)
  {
    JObj((if id.Some? then map["id" := id.value] else map[])[key := value])
  }

  // ---------------------------------------------------------------------
  // Messages from the desktop app

  /** What `_handleMessage` did with a frame. */
  datatype Dispatch =
    | Replied
    | ToolCallStarted(seqNo: nat)
    | SyncRequested(plugin: Option<Json>)
    | AllSyncRequested
    | Ignored

  /** The `type` of a parsed frame, when it is an object with a string type. */
  function MessageType(msg: Option<Json>): (t: Option<string>)
    ensures t.Some? ==> msg.Some? && StrField(msg.value, "type") == t
  {
    if msg.Some? then StrField(msg.value, "type") else None
  }

  function MessageField(msg: Option<Json>, key: string): Option<Json> {
    if msg.Some? then Field(msg.value, key) else None
  }

  /** `msg.args || {}`. */
  function ArgsOrEmpty(args: Option<Json>): (r: Json)
    ensures Truthy(args) ==> r == args.value
    ensures !Truthy(args) ==> r == JObj(map[])
  {
    if Truthy(args) then args.value else JObj(map[])
  }

  datatype CallStatus = Pending | Success | Error

  /** One activity-log entry. `seqNo` identifies the call whose promise updates it. */
  datatype LogEntry = LogEntry(seqNo: nat, id: Option<Json>, tool: Option<Json>, args: Json,
                               timestamp: int, status: CallStatus, duration: Option<int>, error: Option<string>)

  /** The log after `unshift(e)` and, once it holds more than 50 entries, `pop()`. */
  function PushEntry(log: seq<LogEntry>, e: LogEntry): (r: seq<LogEntry>)
    ensures |log| <= MaxLogEntries ==> |r| <= MaxLogEntries
    ensures |r| >= 1 && r[0] == e
    ensures |log| < MaxLogEntries ==> r == [e] + log
    ensures |log| >= MaxLogEntries ==> r == [e] + log[..|log| - 1]
  {
    var l := [e] + log;
    if |l| > MaxLogEntries then l[..|l| - 1] else l
  }

  /** An entry's outcome: status, duration and error; every other field is kept. */
  function Settle(e: LogEntry, result: Result<Json>, duration: int): (r: LogEntry)
    ensures r.status == (if result.Ok? then Success else Error)
    ensures r.duration == Some(duration)
    ensures r.error == (if result.Err? then Some(result.error) else e.error)
    ensures r.seqNo == e.seqNo && r.id == e.id && r.tool == e.tool && r.args == e.args && r.timestamp == e.timestamp
  {
    if result.Ok? then e.(status := Success, duration := Some(duration))
    else e.(status := Error, duration := Some(duration), error := Some(result.error))
  }

  /** The log after call `seqNo` settles: its entry, if still held, gets the outcome. */
  function SettleIn(log: seq<LogEntry>, seqNo: nat, result: Result<Json>, duration: int): (r: seq<LogEntry>)
    ensures |r| == |log|
    ensures forall i :: 0 <= i < |log| ==>
      r[i] == (if log[i].seqNo == seqNo then Settle(log[i], result, duration) else log[i])
  {
    if log == [] then []
    else
      [if log[0].seqNo == seqNo then Settle(log[0], result, duration) else log[0]]
      + SettleIn(log[1..], seqNo, result, duration)
  }

  predicate DistinctSeqNos(log: seq<LogEntry>) {
    forall i, j :: 0 <= i < j < |log| ==> log[i].seqNo != log[j].seqNo
  }

  predicate SeqNosBelow(log: seq<LogEntry>, bound: nat) {
    forall i :: 0 <= i < |log| ==> log[i].seqNo < bound
  }

  /** Pushing a fresh entry keeps the sequence numbers distinct and bounded. */
  lemma PushKeepsSeqNos(log: seq<LogEntry>, e: LogEntry, bound: nat)
    requires DistinctSeqNos(log) && SeqNosBelow(log, bound) && e.seqNo == bound
    ensures DistinctSeqNos(PushEntry(log, e)) && SeqNosBelow(PushEntry(log, e), bound + 1)
  {
    var l := [e] + log;
    assert DistinctSeqNos(l) by {
      forall i, j | 0 <= i < j < |l| ensures l[i].seqNo != l[j].seqNo {
        if i == 0 { assert l[j] == log[j - 1]; }
        else { assert l[i] == log[i - 1] && l[j] == log[j - 1]; }
      }
    }
  }

  /** Settling changes exactly the entry of that call, and only once it is held. */
  lemma SettleTouchesOneEntry(log: seq<LogEntry>, seqNo: nat, result: Result<Json>, duration: int, i: nat)
    requires DistinctSeqNos(log) && i < |log| && log[i].seqNo == seqNo
    ensures var r := SettleIn(log, seqNo, result, duration);
      && r[i].status != Pending
      && forall j :: 0 <= j < |log| && j != i ==> r[j] == log[j]
  {
  }

  class Peer {
    /** The installed socket, if any: only its ready state is observable here. */
    var ws: Option<ReadyState>
    var reconnectAttempts: nat
    var intentionalClose: bool
    var connectedAt: Option<int>
    var activityLog: seq<LogEntry>
    /** The sequence number the next tool call's log entry gets. */
    var nextSeqNo: nat
    var sent: seq<Json>
    var closes: seq<int>
    var timers: seq<nat>

    ghost predicate Valid()
      reads this
    {
      && reconnectAttempts <= MaxReconnectAttempts
      && |activityLog| <= MaxLogEntries
      && DistinctSeqNos(activityLog)
      && SeqNosBelow(activityLog, nextSeqNo)
    }

    constructor ()
      ensures Valid()
      ensures ws == None && reconnectAttempts == 0 && !intentionalClose && connectedAt == None
      ensures activityLog == [] && sent == [] && closes == [] && timers == []
    {
      ws := None;
      reconnectAttempts := 0;
      intentionalClose := false;
      connectedAt := None;
      activityLog := [];
      nextSeqNo := 0;
      sent := [];
      closes := [];
      timers := [];
    }

    /** `isConnected`: a socket is installed and open. */
    function IsConnected(): (r: bool)
      reads this
      ensures r <==> ws == Some(Open)
    {
      ws == Some(Open)
    }

    /** A socket is installed and connecting or open. */
    function IsLive(): (r: bool)
      reads this
      ensures r <==> ws == Some(Connecting) || ws == Some(Open)
    {
      ws.Some? && (ws.value == Connecting || ws.value == Open)
    }

    /** `_connect`, also what a reconnect timer runs: opens a new socket unless one is live. */
    method ConnectAttempt()
      requires Valid()
      modifies this
      ensures Valid()
      ensures old(IsLive()) ==> ws == old(ws)
      ensures !old(IsLive()) ==> ws == Some(Connecting)
      ensures reconnectAttempts == old(reconnectAttempts) && intentionalClose == old(intentionalClose)
      ensures connectedAt == old(connectedAt) && activityLog == old(activityLog) && nextSeqNo == old(nextSeqNo)
      ensures sent == old(sent) && closes == old(closes) && timers == old(timers)
    {
      if !IsLive() {
        ws := Some(Connecting);
      }
    }

    /** `connect`: a user-initiated connect resets the backoff and the intentional flag. */
    method Connect()
      requires Valid()
      modifies this
      ensures Valid()
      ensures old(IsLive()) ==> ws == old(ws) && reconnectAttempts == old(reconnectAttempts) && intentionalClose == old(intentionalClose)
      ensures !old(IsLive()) ==> ws == Some(Connecting) && reconnectAttempts == 0 && !intentionalClose
      ensures connectedAt == old(connectedAt) && activityLog == old(activityLog) && nextSeqNo == old(nextSeqNo)
      ensures sent == old(sent) && closes == old(closes) && timers == old(timers)
    {
      if IsLive() {
        return;
      }
      reconnectAttempts := 0;
      intentionalClose := false;
      ConnectAttempt();
    }

    /** `onopen`: the backoff resets and `register`, `tools` and `plugins` are sent in that order. */
    method OnOpen(now: int, tools: Json, plugins: Json)
      requires Valid() && ws == Some(Connecting)
      modifies this
      ensures Valid()
      ensures ws == Some(Open) && reconnectAttempts == 0 && connectedAt == Some(now)
      ensures sent == old(sent) + [RegisterFrame(), ToolsFrame(tools), PluginsFrame(plugins)]
      ensures intentionalClose == old(intentionalClose) && activityLog == old(activityLog) && nextSeqNo == old(nextSeqNo)
      ensures closes == old(closes) && timers == old(timers)
    {
      ws := Some(Open);
      reconnectAttempts := 0;
      connectedAt := Some(now);
      sent := sent + [RegisterFrame()];
      if IsConnected() {
        sent := sent + [ToolsFrame(tools)];
      }
      if IsConnected() {
        sent := sent + [PluginsFrame(plugins)];
      }
    }

    /** The browser starts closing the installed socket. */
    method OnClosing()
      requires Valid() && ws.Some?
      modifies this
      ensures Valid()
      ensures ws == Some(Closing)
      ensures reconnectAttempts == old(reconnectAttempts) && intentionalClose == old(intentionalClose)
      ensures connectedAt == old(connectedAt) && activityLog == old(activityLog) && nextSeqNo == old(nextSeqNo)
      ensures sent == old(sent) && closes == old(closes) && timers == old(timers)
    {
      ws := Some(Closing);
    }

    /** `onclose`: no reconnect after an intentional close or a 1008 replacement; otherwise
      * a retry is scheduled with the backoff delay while fewer than five have been made. */
    method OnClose(code: int) returns (retryDelay: Option<nat>)
      requires Valid()
      modifies this
      ensures Valid()
      ensures ws == None && connectedAt == None
      ensures (old(intentionalClose) || code == PolicyViolation || old(reconnectAttempts) >= MaxReconnectAttempts) ==>
        retryDelay == None && reconnectAttempts == old(reconnectAttempts) && timers == old(timers)
      ensures !(old(intentionalClose) || code == PolicyViolation || old(reconnectAttempts) >= MaxReconnectAttempts) ==>
        retryDelay == Some(Backoff(old(reconnectAttempts))) && reconnectAttempts == old(reconnectAttempts) + 1
        && timers == old(timers) + [Backoff(old(reconnectAttempts))]
      ensures intentionalClose == old(intentionalClose) && activityLog == old(activityLog) && nextSeqNo == old(nextSeqNo)
      ensures sent == old(sent) && closes == old(closes)
    {
      var wasIntentional := intentionalClose;
      ws := None;
      connectedAt := None;
      retryDelay := None;
      if wasIntentional || code == PolicyViolation {
        return;
      }
      if reconnectAttempts < MaxReconnectAttempts {
        var delay := Backoff(reconnectAttempts);
        reconnectAttempts := reconnectAttempts + 1;
        timers := timers + [delay];
        retryDelay := Some(delay);
      }
    }

    /** `disconnect`: marks the close intentional, closes with 1000 and forgets the socket. */
    method Disconnect()
      requires Valid()
      modifies this
      ensures Valid()
      ensures ws == None
      ensures old(ws).Some? ==> intentionalClose && closes == old(closes) + [NormalClosure]
      ensures old(ws).None? ==> intentionalClose == old(intentionalClose) && closes == old(closes)
      ensures reconnectAttempts == old(reconnectAttempts) && connectedAt == old(connectedAt)
      ensures activityLog == old(activityLog) && nextSeqNo == old(nextSeqNo) && sent == old(sent) && timers == old(timers)
    {
      if ws.Some? {
        intentionalClose := true;
        closes := closes + [NormalClosure];
        ws := None;
      }
    }

    /** `_sendResponse` / `_sendError`: dropped unless connected. */
    method Send(frame: Json)
      requires Valid()
      modifies this
      ensures Valid()
      ensures sent == (if old(IsConnected()) then old(sent) + [frame] else old(sent))
      ensures ws == old(ws) && reconnectAttempts == old(reconnectAttempts) && intentionalClose == old(intentionalClose)
      ensures connectedAt == old(connectedAt) && activityLog == old(activityLog) && nextSeqNo == old(nextSeqNo)
      ensures closes == old(closes) && timers == old(timers)
    {
      if IsConnected() {
        sent := sent + [frame];
      }
    }

    /** `_handleMessage`. `msg` is the parsed frame (None when it is not JSON); `tools` and
      * `plugins` are what SyncHub reports. */
    method HandleMessage(msg: Option<Json>, now: int, tools: Json, plugins: Json) returns (d: Dispatch)
      requires Valid()
      modifies this
      ensures Valid()
      ensures MessageType(msg) == Some("get_tools") ==> (d == Replied
        && sent == (if old(IsConnected()) then old(sent) + [ReplyFrame(MessageField(msg, "id"), "result", tools)] else old(sent)))
      ensures MessageType(msg) == Some("get_plugins") ==> (d == Replied
        && sent == (if old(IsConnected()) then old(sent) + [ReplyFrame(MessageField(msg, "id"), "result", plugins)] else old(sent)))
      ensures MessageType(msg) == Some("tool_call") ==> (d == ToolCallStarted(old(nextSeqNo))
        && nextSeqNo == old(nextSeqNo) + 1 && sent == old(sent)
        && activityLog == PushEntry(old(activityLog), LogEntry(old(nextSeqNo), MessageField(msg, "id"), MessageField(msg, "name"),
             ArgsOrEmpty(MessageField(msg, "args")), now, Pending, None, None)))
      ensures MessageType(msg) == Some("sync") ==> d == SyncRequested(MessageField(msg, "plugin")) && sent == old(sent)
      ensures MessageType(msg) == Some("sync_all") ==> d == AllSyncRequested && sent == old(sent)
      ensures MessageType(msg).None? || MessageType(msg).value !in {"get_tools", "get_plugins", "tool_call", "sync", "sync_all"} ==>
        d == Ignored && sent == old(sent)
      ensures MessageType(msg) != Some("tool_call") ==> activityLog == old(activityLog) && nextSeqNo == old(nextSeqNo)
      ensures ws == old(ws) && reconnectAttempts == old(reconnectAttempts) && intentionalClose == old(intentionalClose)
      ensures connectedAt == old(connectedAt) && closes == old(closes) && timers == old(timers)
    {
      var t := MessageType(msg);
      if t == Some("get_tools") {
        Send(ReplyFrame(MessageField(msg, "id"), "result", tools));
        d := Replied;
      } else if t == Some("get_plugins") {
        Send(ReplyFrame(MessageField(msg, "id"), "result", plugins));
        d := Replied;
      } else if t == Some("tool_call") {
        var e := LogEntry(nextSeqNo, MessageField(msg, "id"), MessageField(msg, "name"),
                          ArgsOrEmpty(MessageField(msg, "args")), now, Pending, None, None);
        PushKeepsSeqNos(activityLog, e, nextSeqNo);
        activityLog := PushEntry(activityLog, e);
        d := ToolCallStarted(nextSeqNo);
        nextSeqNo := nextSeqNo + 1;
      } else if t == Some("sync") {
        d := SyncRequested(MessageField(msg, "plugin"));
      } else if t == Some("sync_all") {
        d := AllSyncRequested;
      } else {
        d := Ignored;
      }
    }

    /** The promise of tool call `seqNo` settles after `duration` ms: its log entry records
      * the outcome and the reply (or error) is sent if still connected. */
    method ToolCallSettled(seqNo: nat, id: Option<Json>, result: Result<Json>, duration: int)
      requires Valid()
      modifies this
      ensures Valid()
      ensures activityLog == SettleIn(old(activityLog), seqNo, result, duration)
      ensures result.Ok? ==> sent == (if old(IsConnected()) then old(sent) + [ReplyFrame(id, "result", result.value)] else old(sent))
      ensures result.Err? ==> sent == (if old(IsConnected()) then old(sent) + [ReplyFrame(id, "error", JStr(result.error))] else old(sent))
      ensures ws == old(ws) && reconnectAttempts == old(reconnectAttempts) && intentionalClose == old(intentionalClose)
      ensures connectedAt == old(connectedAt) && nextSeqNo == old(nextSeqNo) && closes == old(closes) && timers == old(timers)
    {
      SettleKeepsSeqNos(activityLog, seqNo, result, duration, nextSeqNo);
      activityLog := SettleIn(activityLog, seqNo, result, duration);
      if result.Ok? {
        Send(ReplyFrame(id, "result", result.value));
      } else {
        Send(ReplyFrame(id, "error", JStr(result.error)));
      }
    }

    /** A `requestSync` or `syncAll` promise settles: `{success: true}` or the error message. */
    method SyncSettled(id: Option<Json>, error: Option<string>)
      requires Valid()
      modifies this
      ensures Valid()
      ensures error.None? ==> sent == (if old(IsConnected()) then old(sent) + [ReplyFrame(id, "result", JObj(map["success" := JBool(true)]))] else old(sent))
      ensures error.Some? ==> sent == (if old(IsConnected()) then old(sent) + [ReplyFrame(id, "error", JStr(error.value))] else old(sent))
      ensures ws == old(ws) && reconnectAttempts == old(reconnectAttempts) && intentionalClose == old(intentionalClose)
      ensures connectedAt == old(connectedAt) && activityLog == old(activityLog) && nextSeqNo == old(nextSeqNo)
      ensures closes == old(closes) && timers == old(timers)
    {
      if error.None? {
        Send(ReplyFrame(id, "result", JObj(map["success" := JBool(true)])));
      } else {
        Send(ReplyFrame(id, "error", JStr(error.value)));
      }
    }
  }

  lemma SettleKeepsSeqNos(log: seq<LogEntry>, seqNo: nat, result: Result<Json>, duration: int, bound: nat)
    requires DistinctSeqNos(log) && SeqNosBelow(log, bound)
    ensures DistinctSeqNos(SettleIn(log, seqNo, result, duration)) && SeqNosBelow(SettleIn(log, seqNo, result, duration), bound)
  {
    var r := SettleIn(log, seqNo, result, duration);
    assert forall i :: 0 <= i < |log| ==> r[i].seqNo == log[i].seqNo;
  }
}
