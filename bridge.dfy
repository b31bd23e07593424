// The desktop side of the WebSocket bridge to SyncHub (desktop/bridge.go).
//
// The Go code guards its state with two mutexes; each locked section is one
// atomic step here, as one method of class `Bridge`. Sockets become connection
// handles and every frame the bridge writes is recorded in `sent`. The 30 s
// timer of `Call` is the explicit event `Timeout`; a write that fails is an
// input of `CallStart`.

module Bridge {
  import opened Common

  type ConnId = nat

  datatype Tool = Tool(name: string, description: string, parameters: Option<map<string, Json>>)

  datatype Plugin = Plugin(name: string, enabled: bool)

  /** What a waiting call receives: a raw result (absent for a reply without one) or an error. */
  datatype Outcome = Answer(raw: Option<Json>) | Failure(error: string)

  /** What `ExecuteTool` hands back to the HTTP gateways once the call has ended:
    * an error, or the raw result bytes together with their JSON reading (None when
    * the bytes are not JSON). */
  datatype ExecOutcome = ExecErr(error: string) | ExecOk(raw: string, decoded: Option<Json>)

  datatype Frame =
    | TextFrame(conn: ConnId, msg: Json)
    | CloseFrame(conn: ConnId, code: int, reason: string)
    | Hangup(conn: ConnId)

  /** WebSocket status code 1008, "policy violation" (section 7.4.1 of RFC 6455). */
  const PolicyViolation: int := 1008
  const ReplacedReason: string := "Replaced by new client"
  const NotConnected: string := "not connected"
  const TimeoutError: string := "timeout"
  const CallTimeoutMs: nat := 30000

  /** `getString`: the string under `key`, or "" when it is missing or not a string. */
  function GetString(m: map<string, Json>, key: string): (r: string)
    ensures key in m && m[key].JStr? ==> r == m[key].s
    ensures r != "" ==> key in m && m[key] == JStr(r)
  {
    if key in m && m[key].JStr? then m[key].s else ""
  }

  /** `getBool`: the boolean under `key`, or false when it is missing or not a boolean. */
  function GetBool(m: map<string, Json>, key: string): (r: bool)
    ensures r <==> key in m && m[key] == JBool(true)
  {
    if key in m && m[key].JBool? then m[key].b else false
  }

  /** A request frame with only a type, as sent on accept. */
  function Request(msgType: string): Json {
    JObj(map["type" := JStr(msgType)])
  }

  // ---------------------------------------------------------------------
  // Tool and plugin pushes

  /** The fields a tool entry is read from: its nested `function` object, else the entry itself. */
  function ToolSource(m: map<string, Json>): map<string, Json> {
    if "function" in m && m["function"].JObj? then m["function"].fields else m
  }

  /** One entry of a `tools` push: kept only when it is an object whose name is non-empty. */
  function ToolOf(entry: Json): (r: Option<Tool>)
    ensures r.Some? ==> entry.JObj? && r.value.name != ""
    ensures r.Some? ==> r.value.name == GetString(ToolSource(entry.fields), "name")
    ensures entry.JObj? && GetString(ToolSource(entry.fields), "name") != "" ==>
      var src := ToolSource(entry.fields);
      r.Some? && r.value.description == GetString(src, "description") &&
      (r.value.parameters.Some? <==> "parameters" in src && src["parameters"].JObj?) &&
      (r.value.parameters.Some? ==> r.value.parameters.value == src["parameters"].fields)
  {
    if !entry.JObj? then None
    else
      var src := ToolSource(entry.fields);
      var name := GetString(src, "name");
      if name == "" then None
      else
        var params := if "parameters" in src && src["parameters"].JObj? then Some(src["parameters"].fields) else None;
        Some(Tool(name, GetString(src, "description"), params))
  }

  function OptSeq<T>(o: Option<T>): seq<T> {
    if o.Some? then [o.value] else []
  }

  /** The tool list a `tools` push installs, entry by entry in order. */
  function NormalizeTools(raw: seq<Json>): (r: seq<Tool>)
    ensures |r| <= |raw|
    ensures forall i :: 0 <= i < |r| ==> r[i].name != ""
  {
    if raw == [] then [] else NormalizeTools(raw[..|raw| - 1]) + OptSeq(ToolOf(raw[|raw| - 1]))
  }

  /** A tool is installed exactly when some entry of the push yields it. */
  lemma {:induction false} NormalizeToolsMembership(raw: seq<Json>, t: Tool)
    ensures t in NormalizeTools(raw) <==> exists i :: 0 <= i < |raw| && ToolOf(raw[i]) == Some(t)
  {
    if raw != [] {
      var init := raw[..|raw| - 1];
      NormalizeToolsMembership(init, t);
      if t in NormalizeTools(init) {
        var i :| 0 <= i < |init| && ToolOf(init[i]) == Some(t);
        assert raw[i] == init[i];
      }
      if exists i :: 0 <= i < |raw| && ToolOf(raw[i]) == Some(t) {
        var i :| 0 <= i < |raw| && ToolOf(raw[i]) == Some(t);
        if i < |raw| - 1 { assert init[i] == raw[i]; }
      }
    }
  }

  /** A nested `function` object wins over flat fields of the same entry. */
  lemma NestedFormatWins(fn: map<string, Json>, flat: map<string, Json>)
    ensures ToolOf(JObj(flat["function" := JObj(fn)])) == ToolOf(JObj(fn["function" := JNull]))
  {
    var a := flat["function" := JObj(fn)];
    assert ToolSource(a) == fn;
    var b := fn["function" := JNull];
    assert ToolSource(b) == b;
    assert GetString(b, "name") == GetString(fn, "name");
    assert GetString(b, "description") == GetString(fn, "description");
  }

  /** The append loop that rebuilds `b.tools`. */
  method BuildTools(raw: seq<Json>) returns (tools: seq<Tool>)
    ensures tools == NormalizeTools(raw)
  {
    tools := [];
    var i := 0;
    while i < |raw|
      invariant 0 <= i <= |raw|
      invariant tools == NormalizeTools(raw[..i])
    {
      assert raw[..i + 1][..i] == raw[..i];
      var t := ToolOf(raw[i]);
      if t.Some? {
        tools := tools + [t.value];
      }
      i := i + 1;
    }
    assert raw[..|raw|] == raw;
  }

  function PluginOf(entry: Json): Option<Plugin> {
    if entry.JObj? then Some(Plugin(GetString(entry.fields, "name"), GetBool(entry.fields, "enabled"))) else None
  }

  /** The plugin list a `plugins` push installs: every object entry, named or not. */
  function NormalizePlugins(raw: seq<Json>): (r: seq<Plugin>)
    ensures |r| <= |raw|
  {
    if raw == [] then [] else NormalizePlugins(raw[..|raw| - 1]) + OptSeq(PluginOf(raw[|raw| - 1]))
  }

  function CountObjects(raw: seq<Json>): nat {
    if raw == [] then 0 else CountObjects(raw[..|raw| - 1]) + (if raw[|raw| - 1].JObj? then 1 else 0)
  }

  /** No entry is filtered by name: one plugin per object entry, in order. */
  lemma {:induction false} PluginsKeepEveryObject(raw: seq<Json>)
    ensures |NormalizePlugins(raw)| == CountObjects(raw)
    ensures forall i :: 0 <= i < |raw| && raw[i].JObj? ==> Plugin(GetString(raw[i].fields, "name"), GetBool(raw[i].fields, "enabled")) in NormalizePlugins(raw)
  {
    if raw != [] {
      var init := raw[..|raw| - 1];
      PluginsKeepEveryObject(init);
      forall i | 0 <= i < |raw| && raw[i].JObj?
        ensures Plugin(GetString(raw[i].fields, "name"), GetBool(raw[i].fields, "enabled")) in NormalizePlugins(raw)
      {
        if i < |raw| - 1 { assert init[i] == raw[i]; }
      }
    }
  }

  method BuildPlugins(raw: seq<Json>) returns (plugins: seq<Plugin>)
    ensures plugins == NormalizePlugins(raw)
  {
    plugins := [];
    var i := 0;
    while i < |raw|
      invariant 0 <= i <= |raw|
      invariant plugins == NormalizePlugins(raw[..i])
    {
      assert raw[..i + 1][..i] == raw[..i];
      if raw[i].JObj? {
        plugins := plugins + [Plugin(GetString(raw[i].fields, "name"), GetBool(raw[i].fields, "enabled"))];
      }
      i := i + 1;
    }
    assert raw[..|raw|] == raw;
  }

  // ---------------------------------------------------------------------
  // Inbound frames

  datatype Inbound =
    | Reply(id: string, outcome: Outcome)
    | ToolsPush(rawTools: seq<Json>)
    | PluginsPush(rawPlugins: seq<Json>)
    | Ignored

  /** The outcome a reply delivers: a string `error` wins, then a present `result`, else none. */
  function ReplyOutcome(m: map<string, Json>): (o: Outcome)
    ensures o.Failure? <==> "error" in m && m["error"].JStr?
    ensures o.Answer? && o.raw.Some? ==> "result" in m && o.raw.value == m["result"]
    ensures o.Answer? && o.raw.None? ==> "result" !in m
  {
    if "error" in m && m["error"].JStr? then Failure(m["error"].s)
    else if "result" in m then Answer(Some(m["result"]))
    else Answer(None)
  }

  /** `handleMessage` as a decision: reply to a pending call, a push, or nothing. */
  function Classify(msg: Option<Json>, pending: set<string>): (r: Inbound)
    ensures r.Reply? <==> msg.Some? && msg.value.JObj? && StrField(msg.value, "id").Some? && StrField(msg.value, "id").value in pending
    ensures r.Reply? ==> r.id in pending && r.outcome == ReplyOutcome(msg.value.fields)
    ensures r.ToolsPush? ==> msg.Some? && StrField(msg.value, "type") == Some("tools") && Field(msg.value, "tools") == Some(JArr(r.rawTools))
    ensures r.PluginsPush? ==> msg.Some? && StrField(msg.value, "type") == Some("plugins") && Field(msg.value, "plugins") == Some(JArr(r.rawPlugins))
  {
    if msg.None? || !msg.value.JObj? then Ignored
    else
      var m := msg.value.fields;
      var id := StrField(msg.value, "id");
      if id.Some? && id.value in pending then Reply(id.value, ReplyOutcome(m))
      else
        var t := StrField(msg.value, "type");
        if t == Some("tools") && "tools" in m && m["tools"].JArr? then ToolsPush(m["tools"].items)
        else if t == Some("plugins") && "plugins" in m && m["plugins"].JArr? then PluginsPush(m["plugins"].items)
        else Ignored
  }

  /** A reply whose id is not pending is read as a push, so a late reply to a finished call changes nothing else. */
  lemma UnmatchedReplyIgnored(id: string, pending: set<string>, result: Json)
    requires id !in pending
    ensures Classify(Some(JObj(map["id" := JStr(id), "result" := result])), pending) == Ignored
  {
    var v := JObj(map["id" := JStr(id), "result" := result]);
    assert StrField(v, "type") == None;
  }

  // ---------------------------------------------------------------------
  // Call identifiers

  function CallId(n: nat): string {
    "call_" + NatToString(n)
  }

  /** The counter value an identifier was made from, if it has the form `call_N`. */
  function CallNumber(id: string): Option<nat> {
    if |id| > 5 && id[..5] == "call_" && AllDigits(id[5..]) then Some(ParseNat(id[5..])) else None
  }

  lemma CallNumberOfCallId(n: nat)
    ensures CallNumber(CallId(n)) == Some(n)
  {
    var id := CallId(n);
    assert id[..5] == "call_";
    assert id[5..] == NatToString(n);
    ParseNatOfNatToString(n);
  }

  /** Distinct counter values give distinct identifiers. */
  lemma CallIdsDistinct(a: nat, b: nat)
    requires a != b
    ensures CallId(a) != CallId(b)
  {
    CallNumberOfCallId(a);
    CallNumberOfCallId(b);
  }

  /** An identifier made from a counter value above all issued ones is not in use. */
  lemma FreshCallId(ids: set<string>, n: nat)
    requires forall id :: id in ids ==> CallNumber(id).Some? && CallNumber(id).value < n
    ensures CallId(n) !in ids
  {
    CallNumberOfCallId(n);
  }

  /** Pending ids have an empty mailbox, and every waiting call has an id issued so far. */
  ghost predicate CallsWellFormed(pending: set<string>, mailbox: map<string, Option<Outcome>>, callID: nat) {
    && pending <= mailbox.Keys
    && (forall id :: id in pending ==> mailbox[id] == None)
    && (forall id :: id in mailbox ==> CallNumber(id).Some? && 1 <= CallNumber(id).value <= callID)
  }

  /** Issuing the next id keeps the calls well formed, with or without registering it. */
  lemma IssueKeepsWellFormed(pending: set<string>, mailbox: map<string, Option<Outcome>>, n: nat)
    requires CallsWellFormed(pending, mailbox, n)
    ensures CallId(n + 1) !in mailbox && CallId(n + 1) !in pending
    ensures CallsWellFormed(pending, mailbox, n + 1)
    ensures CallsWellFormed(pending + {CallId(n + 1)}, mailbox[CallId(n + 1) := None], n + 1)
  {
    FreshCallId(mailbox.Keys, n + 1);
    CallNumberOfCallId(n + 1);
  }

  /** The frame `Call` writes: `id` and `type`, then the parameters (which may override them). */
  function CallMessage(id: string, msgType: string, params: map<string, Json>): Json {
    JObj(map["id" := JStr(id), "type" := JStr(msgType)] + params)
  }

  function ExecuteToolParams(name: string, args: Json): map<string, Json> {
    map["name" := JStr(name), "args" := args]
  }

  function SyncParams(pluginId: string): map<string, Json> {
    map["plugin" := JStr(pluginId)]
  }

  // ---------------------------------------------------------------------
  // The bridge

  class Bridge {
    var client: Option<ConnId>
    var tools: seq<Tool>
    var plugins: seq<Plugin>
    /** Whether `plugins` is a non-nil Go slice: set by a plugins push, cleared on disconnect. */
    var pluginsSet: bool
    /** Whether OnConnect has been called for the current client. */
    var connected: bool
    var callID: nat
    /** The keys of the Go `pending` map. */
    var pending: set<string>
    /** The result and error channels of every call still waiting in `Call`. */
    var mailbox: map<string, Option<Outcome>>
    /** Every frame handed to a connection's writer, in order, whether or not the write succeeded. */
    var sent: seq<Frame>
    const hasOnConnect: bool
    const hasOnDisconnect: bool

    ghost predicate Valid()
      reads this
    {
      CallsWellFormed(pending, mailbox, callID)
    }

    constructor (onConnect: bool, onDisconnect: bool)
      ensures Valid()
      ensures client == None && tools == [] && plugins == [] && !pluginsSet && !connected
      ensures callID == 0 && pending == {} && mailbox == map[] && sent == []
      ensures hasOnConnect == onConnect && hasOnDisconnect == onDisconnect
    {
      client := None;
      tools := [];
      plugins := [];
      pluginsSet := false;
      connected := false;
      callID := 0;
      pending := {};
      mailbox := map[];
      sent := [];
      hasOnConnect := onConnect;
      hasOnDisconnect := onDisconnect;
    }

    /** `IsConnected`: a client is installed, whether or not OnConnect has fired. */
    function IsConnected(): (r: bool)
      reads this
      ensures r <==> client != None
    {
      client.Some?
    }

    /** A new connection supersedes the installed one, which gets a 1008 close frame
      * and is closed; the new client is then asked for its tools and plugins. */
    method Accept(conn: ConnId)
      requires Valid()
      modifies this
      ensures Valid()
      ensures client == Some(conn)
      ensures old(client).Some? ==> sent == old(sent) + [CloseFrame(old(client).value, PolicyViolation, ReplacedReason), Hangup(old(client).value), TextFrame(conn, Request("get_tools")), TextFrame(conn, Request("get_plugins"))]
      ensures old(client).None? ==> sent == old(sent) + [TextFrame(conn, Request("get_tools")), TextFrame(conn, Request("get_plugins"))]
      ensures tools == old(tools) && plugins == old(plugins) && pluginsSet == old(pluginsSet) && connected == old(connected)
      ensures callID == old(callID) && pending == old(pending) && mailbox == old(mailbox)
    {
      if client.Some? {
        sent := sent + [CloseFrame(client.value, PolicyViolation, ReplacedReason), Hangup(client.value)];
      }
      client := Some(conn);
      sent := sent + [TextFrame(conn, Request("get_tools")), TextFrame(conn, Request("get_plugins"))];
    }

    /** The read loop of `conn` ended. Only the installed client is torn down;
      * pending calls are left to finish by reply or timeout. */
    method ReadLoopExit(conn: ConnId) returns (disconnectFired: bool)
      requires Valid()
      modifies this
      ensures Valid()
      ensures old(client) == Some(conn) ==> client == None && tools == [] && plugins == [] && !pluginsSet && !connected
      ensures old(client) == Some(conn) ==> disconnectFired == (old(connected) && hasOnDisconnect)
      ensures old(client) != Some(conn) ==> !disconnectFired && client == old(client) && tools == old(tools) && plugins == old(plugins) && pluginsSet == old(pluginsSet) && connected == old(connected)
      ensures pending == old(pending) && mailbox == old(mailbox) && callID == old(callID) && sent == old(sent)
    {
      disconnectFired := false;
      if client == Some(conn) {
        client := None;
        tools := [];
        plugins := [];
        pluginsSet := false;
        var wasConnected := connected;
        connected := false;
        disconnectFired := wasConnected && hasOnDisconnect;
      }
    }

    /** `handleMessage` on one frame (None when it is not JSON). */
    method Inbound(msg: Option<Json>) returns (connectFired: bool)
      requires Valid()
      modifies this
      ensures Valid()
      ensures var c := Classify(msg, old(pending));
        && (c.Reply? ==> pending == old(pending) - {c.id} && mailbox == old(mailbox)[c.id := Some(c.outcome)])
        && (!c.Reply? ==> pending == old(pending) && mailbox == old(mailbox))
        && (c.ToolsPush? ==> tools == NormalizeTools(c.rawTools))
        && (!c.ToolsPush? ==> tools == old(tools))
        && (c.PluginsPush? ==> plugins == NormalizePlugins(c.rawPlugins) && pluginsSet)
        && (!c.PluginsPush? ==> plugins == old(plugins) && pluginsSet == old(pluginsSet))
        && (connectFired <==> c.ToolsPush? && !old(connected) && hasOnConnect)
      ensures connected == (old(connected) || connectFired)
      ensures client == old(client) && callID == old(callID) && sent == old(sent)
    {
      connectFired := false;
      var c := Classify(msg, pending);
      match c
      case Reply(id, o) =>
        pending := pending - {id};
        mailbox := mailbox[id := Some(o)];
      case ToolsPush(raw) =>
        tools := BuildTools(raw);
        if !connected && hasOnConnect {
          connected := true;
          connectFired := true;
        }
      case PluginsPush(raw) =>
        plugins := BuildPlugins(raw);
        pluginsSet := true;
      case Ignored =>
    }

    /** The part of `Call` up to the wait: a fresh `call_N` id is registered as pending
      * and the request sent; without a client, or when the write fails, the entry is
      * removed again and the error returned. */
    method CallStart(msgType: string, params: map<string, Json>, writeError: Option<string>) returns (r: Result<string>)
      requires Valid()
      modifies this
      ensures Valid()
      ensures callID == old(callID) + 1
      ensures CallId(callID) !in old(mailbox) && CallId(callID) !in old(pending)
      ensures old(client).None? ==> r == Err(NotConnected) && sent == old(sent)
      ensures old(client).Some? ==> sent == old(sent) + [TextFrame(old(client).value, CallMessage(CallId(callID), msgType, params))]
      ensures old(client).Some? && writeError.Some? ==> r == Err(writeError.value)
      ensures old(client).Some? && writeError.None? ==> r == Ok(CallId(callID))
      ensures r.Ok? ==> pending == old(pending) + {r.value} && mailbox == old(mailbox)[r.value := None]
      ensures r.Err? ==> pending == old(pending) && mailbox == old(mailbox)
      ensures client == old(client) && tools == old(tools) && plugins == old(plugins) && pluginsSet == old(pluginsSet) && connected == old(connected)
    {
      IssueKeepsWellFormed(pending, mailbox, callID);
      callID := callID + 1;
      var id := CallId(callID);
      // Registering the entry and deleting it again on a failed send is one atomic
      // step here, so a failed start leaves `pending` as it was.
      if client.None? {
        r := Err(NotConnected);
      } else {
        sent := sent + [TextFrame(client.value, CallMessage(id, msgType, params))];
        if writeError.Some? {
          r := Err(writeError.value);
        } else {
          pending := pending + {id};
          mailbox := mailbox[id := None];
          r := Ok(id);
        }
      }
    }

    /** The wait in `Call` ends with what the reply delivered; the deferred delete runs. */
    method Await(id: string) returns (o: Outcome)
      requires Valid() && id in mailbox && mailbox[id].Some?
      modifies this
      ensures Valid()
      ensures o == old(mailbox[id].value)
      ensures mailbox == old(mailbox) - {id} && pending == old(pending) - {id}
      ensures client == old(client) && tools == old(tools) && plugins == old(plugins) && pluginsSet == old(pluginsSet)
      ensures connected == old(connected) && callID == old(callID) && sent == old(sent)
    {
      o := mailbox[id].value;
      mailbox := mailbox - {id};
      pending := pending - {id};
    }

    /** The 30 s timer of a waiting call fires: the call fails with "timeout" and its entry goes. */
    method Timeout(id: string) returns (o: Outcome)
      requires Valid() && id in mailbox
      modifies this
      ensures Valid()
      ensures o == Failure(TimeoutError)
      ensures mailbox == old(mailbox) - {id} && pending == old(pending) - {id}
      ensures client == old(client) && tools == old(tools) && plugins == old(plugins) && pluginsSet == old(pluginsSet)
      ensures connected == old(connected) && callID == old(callID) && sent == old(sent)
    {
      o := Failure(TimeoutError);
      mailbox := mailbox - {id};
      pending := pending - {id};
    }

    /** `ExecuteTool` starts a `tool_call` with the tool name and its arguments. */
    method ExecuteTool(name: string, args: Json, writeError: Option<string>) returns (r: Result<string>)
      requires Valid()
      modifies this
      ensures Valid()
      ensures callID == old(callID) + 1
      ensures CallId(callID) !in old(mailbox) && CallId(callID) !in old(pending)
      ensures old(client).None? ==> r == Err(NotConnected) && sent == old(sent)
      ensures old(client).Some? ==> sent == old(sent) + [TextFrame(old(client).value, CallMessage(CallId(callID), "tool_call", ExecuteToolParams(name, args)))]
      ensures old(client).Some? && writeError.Some? ==> r == Err(writeError.value)
      ensures old(client).Some? && writeError.None? ==> r == Ok(CallId(callID))
      ensures r.Ok? ==> pending == old(pending) + {r.value} && mailbox == old(mailbox)[r.value := None]
      ensures r.Err? ==> pending == old(pending) && mailbox == old(mailbox)
      ensures client == old(client) && tools == old(tools) && plugins == old(plugins) && pluginsSet == old(pluginsSet) && connected == old(connected)
    {
      r := CallStart("tool_call", ExecuteToolParams(name, args), writeError);
    }

    /** `Sync` starts a `sync` call naming the plugin. */
    method Sync(pluginId: string, writeError: Option<string>) returns (r: Result<string>)
      requires Valid()
      modifies this
      ensures Valid()
      ensures callID == old(callID) + 1
      ensures CallId(callID) !in old(mailbox) && CallId(callID) !in old(pending)
      ensures old(client).None? ==> r == Err(NotConnected) && sent == old(sent)
      ensures old(client).Some? ==> sent == old(sent) + [TextFrame(old(client).value, CallMessage(CallId(callID), "sync", SyncParams(pluginId)))]
      ensures old(client).Some? && writeError.Some? ==> r == Err(writeError.value)
      ensures old(client).Some? && writeError.None? ==> r == Ok(CallId(callID))
      ensures r.Ok? ==> pending == old(pending) + {r.value} && mailbox == old(mailbox)[r.value := None]
      ensures r.Err? ==> pending == old(pending) && mailbox == old(mailbox)
      ensures client == old(client) && tools == old(tools) && plugins == old(plugins) && pluginsSet == old(pluginsSet) && connected == old(connected)
    {
      r := CallStart("sync", SyncParams(pluginId), writeError);
    }

    /** `SyncAll` starts a `sync_all` call with no parameters. */
    method SyncAll(writeError: Option<string>) returns (r: Result<string>)
      requires Valid()
      modifies this
      ensures Valid()
      ensures callID == old(callID) + 1
      ensures CallId(callID) !in old(mailbox) && CallId(callID) !in old(pending)
      ensures old(client).None? ==> r == Err(NotConnected) && sent == old(sent)
      ensures old(client).Some? ==> sent == old(sent) + [TextFrame(old(client).value, CallMessage(CallId(callID), "sync_all", map[]))]
      ensures old(client).Some? && writeError.Some? ==> r == Err(writeError.value)
      ensures old(client).Some? && writeError.None? ==> r == Ok(CallId(callID))
      ensures r.Ok? ==> pending == old(pending) + {r.value} && mailbox == old(mailbox)[r.value := None]
      ensures r.Err? ==> pending == old(pending) && mailbox == old(mailbox)
      ensures client == old(client) && tools == old(tools) && plugins == old(plugins) && pluginsSet == old(pluginsSet) && connected == old(connected)
    {
      r := CallStart("sync_all", map[], writeError);
    }
  }
}
