// The local HTTP API of the desktop app (desktop/api.go). Each handler is a pure
// decision chain from the request and a snapshot of the bridge to the response it
// writes and the bridge call it makes; the outcome the bridge gives for that call
// is a parameter.

module Api {
  import opened Common
  import opened Bridge
  import Mcp
  import Config

  /** What the app sees of its bridge: none, or one with its client flag, tools and plugins
    * (None while the Go slice is nil: before the first plugins push and after a disconnect). */
  datatype BridgeView = NoBridge | Attached(clientPresent: bool, tools: seq<Tool>, plugins: Option<seq<Plugin>>)

  /** `App.IsConnected`: false without a bridge. */
  function IsConnected(b: BridgeView): (r: bool)
    ensures r <==> b.Attached? && b.clientPresent
  {
    b.Attached? && b.clientPresent
  }

  /** `App.ToolCount`: 0 without a bridge. */
  function ToolCount(b: BridgeView): (r: nat)
    ensures b.NoBridge? ==> r == 0
    ensures b.Attached? ==> r == |b.tools|
  {
    if b.NoBridge? then 0 else |b.tools|
  }

  function PluginJson(p: Plugin): Json {
    JObj(map["name" := JStr(p.name), "enabled" := JBool(p.enabled)])
  }

  function PluginsJson(ps: seq<Plugin>): (r: seq<Json>)
    ensures |r| == |ps| && forall i :: 0 <= i < |ps| ==> r[i] == PluginJson(ps[i])
  {
    if ps == [] then [] else [PluginJson(ps[0])] + PluginsJson(ps[1..])
  }

  /** `handleStatus`: the status object; `plugins` is present exactly when there is a bridge,
    * and encodes as JSON null while the bridge's slice is nil. */
  function HandleStatus(b: BridgeView, cfg: Config.Config): (r: Json)
    ensures Field(r, "connected") == Some(JBool(IsConnected(b)))
    ensures Field(r, "tools") == Some(JNum(ToolCount(b)))
    ensures Field(r, "workspace") == Some(JStr(cfg.workspace))
    ensures Field(r, "thymer_url") == Some(JStr(Config.ThymerURL(cfg)))
    ensures Field(r, "plugins").Some? <==> b.Attached?
    ensures b.Attached? && b.plugins.Some? ==> Field(r, "plugins") == Some(JArr(PluginsJson(b.plugins.value)))
    ensures b.Attached? && b.plugins.None? ==> Field(r, "plugins") == Some(JNull)
  {
    var status := map["connected" := JBool(IsConnected(b)), "tools" := JNum(ToolCount(b)),
                      "workspace" := JStr(cfg.workspace), "thymer_url" := JStr(Config.ThymerURL(cfg))];
    if b.Attached? then
      var ps := if b.plugins.Some? then JArr(PluginsJson(b.plugins.value)) else JNull;
      JObj(status["plugins" := ps])
    else JObj(status)
  }

  // ---------------------------------------------------------------------
  // Error bodies

  const NotConnectedBody: string := "{\"error\":\"SyncHub not connected\"}"
  const PostOnlyBody: string := "{\"error\":\"POST only\"}"
  const InvalidJsonBody: string := "{\"error\":\"invalid JSON\"}"

  /** The 502 body: the bridge error is spliced into the JSON text as it is, without escaping. */
  function BridgeErrorBody(e: string): (t: string)
    ensures StartsWith(t, "{\"error\":\"") && EndsWith(t, "\"}")
    ensures |t| == |e| + 12 && t[10..|t| - 2] == e
  {
    "{\"error\":\"" + e + "\"}"
  }

  /** A bridge outcome written back: an error as 502, a result as its raw bytes. */
  function WriteOutcome(exec: ExecOutcome): (r: Response)
    ensures exec.ExecErr? ==> r == HttpError(BridgeErrorBody(exec.error), 502)
    ensures exec.ExecOk? ==> r == Response(200, RawBody(exec.raw))
  {
    match exec
    case ExecErr(e) => HttpError(BridgeErrorBody(e), 502)
    case ExecOk(raw, _) => Response(200, RawBody(raw))
  }

  /** A response together with the bridge call the handler made, if any. */
  datatype Handled = Handled(response: Response, call: Option<Mcp.ToolCall>)

  // ---------------------------------------------------------------------
  // handleQuery

  /** A parsed query string: each key with its values in order. */
  type Query = map<string, seq<string>>

  /** `url.Values.Get`: the first value, or "". */
  function QueryGet(q: Query, key: string): (r: string)
    ensures key in q && |q[key]| > 0 ==> r == q[key][0]
    ensures !(key in q && |q[key]| > 0) ==> r == ""
  {
    if key in q && |q[key]| > 0 then q[key][0] else ""
  }

  /** The arguments of a query: every key other than `collection` that has a value, with its first value. */
  function QueryArgs(q: Query): (args: map<string, Json>)
    ensures "collection" !in args
    ensures forall k :: k in args <==> k in q && k != "collection" && |q[k]| > 0
    ensures forall k :: k in args ==> args[k] == JStr(q[k][0])
  {
    map k | k in q && k != "collection" && |q[k]| > 0 :: JStr(q[k][0])
  }

  /** The loop of `handleQuery` that fills `args`, one query key at a time. */
  method BuildQueryArgs(q: Query) returns (args: map<string, Json>)
    ensures args == QueryArgs(q)
  {
    args := map[];
    var todo := q.Keys;
    while todo != {}
      invariant todo <= q.Keys
      invariant forall k :: k in args <==> k in q && k !in todo && k != "collection" && |q[k]| > 0
      invariant forall k :: k in args ==> args[k] == JStr(q[k][0])
      decreases |todo|
    {
      var k :| k in todo;
      if k != "collection" && |q[k]| > 0 {
        args := args[k := JStr(q[k][0])];
      }
      todo := todo - {k};
    }
  }

  /** `handleQuery`: connection first, then the collection, then one `<collection>_find` call. */
  function HandleQuery(b: BridgeView, q: Query, exec: ExecOutcome): (h: Handled)
    ensures !IsConnected(b) ==> h == Handled(HttpError(NotConnectedBody, 503), None)
    ensures IsConnected(b) && QueryGet(q, "collection") == "" ==>
      h == Handled(HttpError("{\"error\":\"collection parameter required\"}", 400), None)
    ensures h.call.Some? <==> IsConnected(b) && QueryGet(q, "collection") != ""
    ensures h.call.Some? ==> (h.call.value == Mcp.ToolCall(QueryGet(q, "collection") + "_find", JObj(QueryArgs(q)))
      && h.response == WriteOutcome(exec))
  {
    if !IsConnected(b) then Handled(HttpError(NotConnectedBody, 503), None)
    else
      var collection := QueryGet(q, "collection");
      if collection == "" then Handled(HttpError("{\"error\":\"collection parameter required\"}", 400), None)
      else Handled(WriteOutcome(exec), Some(Mcp.ToolCall(collection + "_find", JObj(QueryArgs(q)))))
  }

  /** The tool a query calls is named after its collection, and the collection is not passed on. */
  lemma QueryToolName(b: BridgeView, q: Query, exec: ExecOutcome, collection: string)
    requires IsConnected(b) && "collection" in q && |q["collection"]| > 0 && q["collection"][0] == collection
    requires collection != ""
    ensures var h := HandleQuery(b, q, exec);
      && h.call.Some? && EndsWith(h.call.value.name, "_find")
      && h.call.value.name[..|collection|] == collection
      && h.call.value.args.JObj? && "collection" !in h.call.value.args.fields
  {
    var name := collection + "_find";
    assert name[|name| - 5..] == "_find";
    assert name[..|collection|] == collection;
  }

  // ---------------------------------------------------------------------
  // handleSync

  /** The two bridge calls `handleSync` can make. */
  datatype SyncCall = SyncOne(pluginId: string) | SyncEverything

  datatype SyncHandled = SyncHandled(response: Response, call: Option<SyncCall>)

  /** The sync request: `plugin` and `all`, or a decode error. */
  function DecodeSyncRequest(body: Option<Json>): (r: Option<(string, bool)>)
    ensures r.Some? <==> (DecodeStruct(body).Some? && DecodeStringField(DecodeStruct(body).value, "plugin").Some?
      && DecodeBoolField(DecodeStruct(body).value, "all").Some?)
  {
    var m := DecodeStruct(body);
    if m.None? then None
    else
      var plugin := DecodeStringField(m.value, "plugin");
      var all := DecodeBoolField(m.value, "all");
      if plugin.None? || all.None? then None else Some((plugin.value, all.value))
  }

  /** `handleSync`. `syncError` is the error the bridge call ends with, if any. */
  function HandleSync(isPost: bool, b: BridgeView, body: Option<Json>, syncError: Option<string>): (h: SyncHandled)
    ensures !isPost ==> h == SyncHandled(HttpError(PostOnlyBody, 405), None)
    ensures isPost && !IsConnected(b) ==> h == SyncHandled(HttpError(NotConnectedBody, 503), None)
    ensures isPost && IsConnected(b) && DecodeSyncRequest(body).None? ==> h == SyncHandled(HttpError(InvalidJsonBody, 400), None)
    ensures h.call.Some? <==> (isPost && IsConnected(b) && DecodeSyncRequest(body).Some?
      && (DecodeSyncRequest(body).value.1 || DecodeSyncRequest(body).value.0 != ""))
    ensures h.call.Some? ==> (h.call.value.SyncEverything? <==> DecodeSyncRequest(body).value.1)
    ensures h.call.Some? && h.call.value.SyncOne? ==> h.call.value.pluginId == DecodeSyncRequest(body).value.0
    ensures h.call.Some? && syncError.Some? ==> h.response == HttpError(BridgeErrorBody(syncError.value), 502)
    ensures h.call.Some? && syncError.None? ==> h.response == Response(200, RawBody("{\"success\":true}"))
  {
    if !isPost then SyncHandled(HttpError(PostOnlyBody, 405), None)
    else if !IsConnected(b) then SyncHandled(HttpError(NotConnectedBody, 503), None)
    else
      var req := DecodeSyncRequest(body);
      if req.None? then SyncHandled(HttpError(InvalidJsonBody, 400), None)
      else
        var (plugin, all) := req.value;
        var call := if all then Some(SyncEverything) else if plugin != "" then Some(SyncOne(plugin)) else None;
        if call.None? then SyncHandled(HttpError("{\"error\":\"plugin or all required\"}", 400), None)
        else if syncError.Some? then SyncHandled(HttpError(BridgeErrorBody(syncError.value), 502), call)
        else SyncHandled(Response(200, RawBody("{\"success\":true}")), call)
  }

  /** `all` takes precedence over a named plugin. */
  lemma SyncAllWins(b: BridgeView, plugin: string, syncError: Option<string>)
    requires IsConnected(b)
    ensures HandleSync(true, b, Some(JObj(map["plugin" := JStr(plugin), "all" := JBool(true)])), syncError).call == Some(SyncEverything)
  {
    var m := map["plugin" := JStr(plugin), "all" := JBool(true)];
    assert DecodeSyncRequest(Some(JObj(m))) == Some((plugin, true));
  }

  // ---------------------------------------------------------------------
  // handleCapture

  /** The capture text: the `text` field of a well-formed body, else the whole body verbatim. */
  function CaptureText(rawBody: string, parsed: Option<Json>): (t: string)
    ensures DecodeStruct(parsed).None? ==> t == rawBody
    ensures parsed.Some? && parsed.value.JObj? && "text" in parsed.value.fields && parsed.value.fields["text"].JStr?
      && DecodeStringField(parsed.value.fields, "source").Some? && DecodeStringsField(parsed.value.fields, "tags").Some?
      ==> t == parsed.value.fields["text"].s
  {
    var m := DecodeStruct(parsed);
    if m.None? then rawBody
    else
      var text := DecodeStringField(m.value, "text");
      var source := DecodeStringField(m.value, "source");
      var tags := DecodeStringsField(m.value, "tags");
      if text.None? || source.None? || tags.None? then rawBody else text.value
  }

  /** `handleCapture`. `rawBody` is the request body and `parsed` its JSON reading, if it is JSON. */
  function HandleCapture(isPost: bool, b: BridgeView, rawBody: string, parsed: Option<Json>, exec: ExecOutcome): (h: Handled)
    ensures !isPost ==> h == Handled(HttpError(PostOnlyBody, 405), None)
    ensures isPost && !IsConnected(b) ==> h == Handled(HttpError(NotConnectedBody, 503), None)
    ensures isPost && IsConnected(b) && CaptureText(rawBody, parsed) == "" ==>
      h == Handled(HttpError("{\"error\":\"text required\"}", 400), None)
    ensures h.call.Some? <==> isPost && IsConnected(b) && CaptureText(rawBody, parsed) != ""
    ensures h.call.Some? ==> (h.call.value == Mcp.ToolCall("log_to_journal", JObj(map["content" := JStr(CaptureText(rawBody, parsed))]))
      && h.response == WriteOutcome(exec))
  {
    if !isPost then Handled(HttpError(PostOnlyBody, 405), None)
    else if !IsConnected(b) then Handled(HttpError(NotConnectedBody, 503), None)
    else
      var text := CaptureText(rawBody, parsed);
      if text == "" then Handled(HttpError("{\"error\":\"text required\"}", 400), None)
      else Handled(WriteOutcome(exec), Some(Mcp.ToolCall("log_to_journal", JObj(map["content" := JStr(text)]))))
  }

  /** A `null` among the tags is a Go string left "", so the body still decodes and its text is captured. */
  lemma NullTagCapture(b: BridgeView, rawBody: string, exec: ExecOutcome)
    requires IsConnected(b)
    ensures HandleCapture(true, b, rawBody, Some(JObj(map["text" := JStr("hi"), "tags" := JArr([JNull])])), exec).call
      == Some(Mcp.ToolCall("log_to_journal", JObj(map["content" := JStr("hi")])))
  {
  }

  /** A body that is not JSON is journaled verbatim. */
  lemma PlainTextCapture(b: BridgeView, rawBody: string, exec: ExecOutcome)
    requires IsConnected(b) && rawBody != ""
    ensures HandleCapture(true, b, rawBody, None, exec).call == Some(Mcp.ToolCall("log_to_journal", JObj(map["content" := JStr(rawBody)])))
  {
  }

  // ---------------------------------------------------------------------
  // handleMCPTools and handleMCPCall

  /** `handleMCPTools`: the bridge's tools in MCP form; there is no method or connection check. */
  method HandleMcpTools(tools: seq<Tool>) returns (r: Response)
    ensures r.status == 200 && r.body.JsonBody? && r.body.value.JArr?
    ensures |r.body.value.items| == |tools|
    ensures forall i :: 0 <= i < |tools| ==> r.body.value.items[i] == Mcp.McpToolEntry(tools[i])
  {
    var entries := Mcp.ListTools(tools);
    r := Response(200, JsonBody(JArr(entries)));
  }

  /** The request of `handleMCPCall`: a name and an argument map (JNull when absent). */
  function DecodeMcpCall(body: Option<Json>): (r: Option<Mcp.ToolCall>)
    ensures r.Some? <==> (DecodeStruct(body).Some? && DecodeStringField(DecodeStruct(body).value, "name").Some?
      && DecodeObjectField(DecodeStruct(body).value, "args").Some?)
    ensures r.Some? ==> r.value.args.JNull? || r.value.args.JObj?
  {
    var m := DecodeStruct(body);
    if m.None? then None
    else
      var name := DecodeStringField(m.value, "name");
      var args := DecodeObjectField(m.value, "args");
      if name.None? || args.None? then None else Some(Mcp.ToolCall(name.value, args.value))
  }

  /** `handleMCPCall`: unlike the JSON-RPC endpoint, an empty name is passed on to the bridge. */
  function HandleMcpCall(isPost: bool, b: BridgeView, body: Option<Json>, exec: ExecOutcome): (h: Handled)
    ensures !isPost ==> h == Handled(HttpError(PostOnlyBody, 405), None)
    ensures isPost && !IsConnected(b) ==> h == Handled(HttpError(NotConnectedBody, 503), None)
    ensures isPost && IsConnected(b) && DecodeMcpCall(body).None? ==> h == Handled(HttpError(InvalidJsonBody, 400), None)
    ensures h.call.Some? <==> isPost && IsConnected(b) && DecodeMcpCall(body).Some?
    ensures h.call.Some? ==> h.call == DecodeMcpCall(body) && h.response == WriteOutcome(exec)
  {
    if !isPost then Handled(HttpError(PostOnlyBody, 405), None)
    else if !IsConnected(b) then Handled(HttpError(NotConnectedBody, 503), None)
    else
      var call := DecodeMcpCall(body);
      if call.None? then Handled(HttpError(InvalidJsonBody, 400), None)
      else Handled(WriteOutcome(exec), call)
  }

  /** A JSON `null` body decodes to the zero request, so the bridge is asked for the tool "". */
  lemma NullMcpCallReachesBridge(b: BridgeView, exec: ExecOutcome)
    requires IsConnected(b)
    ensures HandleMcpCall(true, b, Some(JNull), exec).call == Some(Mcp.ToolCall("", JNull))
  {
  }
}
