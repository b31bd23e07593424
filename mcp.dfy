// The stateless MCP endpoint of the desktop app (desktop/mcp.go): a JSON-RPC 2.0
// method table over a snapshot of the bridge. The bridge call a request makes is
// reported in the result, together with the outcome the bridge gave for it.

module Mcp {
  import opened Common
  import opened Bridge

  /** Error codes from section 5.1 of the JSON-RPC 2.0 specification, and one from its server-error range. */
  const ParseError: int := -32700
  const MethodNotFound: int := -32601
  const InvalidParams: int := -32602
  const ServerError: int := -32000

  /** The MCP protocol revision `initialize` reports. */
  const ProtocolVersion: string := "2024-11-05"

  datatype RpcRequest = RpcRequest(id: Json, methodName: string, params: map<string, Json>)

  /** Decoding the body into the request struct; None is a decode error. */
  function DecodeRequest(body: Option<Json>): (r: Option<RpcRequest>)
    ensures body.None? ==> r.None?
    ensures r.Some? <==> (DecodeStruct(body).Some? && DecodeStringField(DecodeStruct(body).value, "jsonrpc").Some?
      && DecodeStringField(DecodeStruct(body).value, "method").Some? && DecodeObjectField(DecodeStruct(body).value, "params").Some?)
    ensures body == Some(JNull) ==> r == Some(RpcRequest(JNull, "", map[]))
  {
    if DecodeStruct(body).None? then None
    else
      var m := DecodeStruct(body).value;
      var jsonrpc := DecodeStringField(m, "jsonrpc");
      var methodName := DecodeStringField(m, "method");
      var params := DecodeObjectField(m, "params");
      if jsonrpc.None? || methodName.None? || params.None? then None
      else Some(RpcRequest(if "id" in m then m["id"] else JNull, methodName.value, if params.value.JObj? then params.value.fields else map[]))
  }

  function RpcResult(id: Json, result: Json): Json {
    JObj(map["jsonrpc" := JStr("2.0"), "id" := id, "result" := result])
  }

  /** `jsonRPCError`: an error object carrying the code and the message. */
  function RpcError(id: Json, code: int, message: string): (r: Response)
    ensures r.status == 200
    ensures r.body.JsonBody? && Field(r.body.value, "id") == Some(id)
    ensures Field(r.body.value, "error") == Some(JObj(map["code" := JNum(code), "message" := JStr(message)]))
  {
    Response(200, JsonBody(JObj(map["jsonrpc" := JStr("2.0"), "id" := id,
      "error" := JObj(map["code" := JNum(code), "message" := JStr(message)])])))
  }

  /** The schema a tool without parameters is advertised with. */
  function EmptyObjectSchema(): Json {
    JObj(map["type" := JStr("object"), "properties" := JObj(map[])])
  }

  function InputSchema(t: Tool): (s: Json)
    ensures t.parameters.Some? ==> s == JObj(t.parameters.value)
    ensures t.parameters.None? ==> s == EmptyObjectSchema()
  {
    if t.parameters.Some? then JObj(t.parameters.value) else EmptyObjectSchema()
  }

  function McpToolEntry(t: Tool): Json {
    JObj(map["name" := JStr(t.name), "description" := JStr(t.description), "inputSchema" := InputSchema(t)])
  }

  function McpToolEntries(tools: seq<Tool>): (r: seq<Json>)
    ensures |r| == |tools|
    ensures forall i :: 0 <= i < |tools| ==> r[i] == McpToolEntry(tools[i])
  {
    if tools == [] then [] else McpToolEntries(tools[..|tools| - 1]) + [McpToolEntry(tools[|tools| - 1])]
  }

  /** The append loop of `tools/list`: one entry per bridge tool, in order. */
  method ListTools(tools: seq<Tool>) returns (entries: seq<Json>)
    ensures entries == McpToolEntries(tools)
    ensures |entries| == |tools| && forall i :: 0 <= i < |tools| ==> entries[i] == McpToolEntry(tools[i])
  {
    entries := [];
    var i := 0;
    while i < |tools|
      invariant 0 <= i <= |tools|
      invariant entries == McpToolEntries(tools[..i])
    {
      EntriesSnoc(tools, i);
      entries := entries + [McpToolEntry(tools[i])];
      i := i + 1;
    }
    assert tools[..|tools|] == tools;
  }

  lemma EntriesSnoc(tools: seq<Tool>, i: nat)
    requires i < |tools|
    ensures McpToolEntries(tools[..i + 1]) == McpToolEntries(tools[..i]) + [McpToolEntry(tools[i])]
  {
    assert tools[..i + 1][..i] == tools[..i];
  }

  /** `executeTool`: a bridge error passes through; a JSON object result is the structured
    * content; a JSON null decodes to a nil map; anything else is wrapped as text. */
  function WrapToolResult(o: ExecOutcome): (r: Result<Json>)
    ensures o.ExecErr? ==> r == Err(o.error)
    ensures o.ExecOk? && o.decoded.Some? && o.decoded.value.JObj? ==> r == Ok(o.decoded.value)
    ensures o.ExecOk? && (o.decoded.None? || !(o.decoded.value.JObj? || o.decoded.value.JNull?)) ==> r == Ok(JObj(map["text" := JStr(o.raw)]))
    ensures r.Ok? ==> r.value.JObj? || r.value.JNull?
  {
    match o
    case ExecErr(e) => Err(e)
    case ExecOk(raw, decoded) =>
      if decoded.Some? && decoded.value.JObj? then Ok(decoded.value)
      else if decoded == Some(JNull) then Ok(JNull)
      else Ok(JObj(map["text" := JStr(raw)]))
  }

  /** A bridge call a request made: tool name and arguments. */
  datatype ToolCall = ToolCall(name: string, args: Json)

  datatype Handled = Handled(response: Response, call: Option<ToolCall>)

  /** `handleStateless`. `tools` is the bridge's tool list and `exec` the outcome the
    * bridge gives for the tool call, if the request makes one. */
  function HandleStateless(isPost: bool, body: Option<Json>, tools: seq<Tool>, exec: ExecOutcome): (h: Handled)
    ensures !isPost ==> h == Handled(HttpError("POST only", 405), None)
    ensures isPost && DecodeRequest(body).None? ==> h == Handled(RpcError(JNull, ParseError, "Parse error"), None)
    ensures h.call.Some? ==> isPost && DecodeRequest(body).Some? && DecodeRequest(body).value.methodName == "tools/call" && h.call.value.name != ""
  {
    if !isPost then Handled(HttpError("POST only", 405), None)
    else
      var req := DecodeRequest(body);
      if req.None? then Handled(RpcError(JNull, ParseError, "Parse error"), None)
      else
        var q := req.value;
        if q.methodName == "initialize" then
          Handled(Response(200, JsonBody(RpcResult(q.id, JObj(map[
            "protocolVersion" := JStr(ProtocolVersion),
            "serverInfo" := JObj(map["name" := JStr("thymer"), "version" := JStr("0.1.0")]),
            "capabilities" := JObj(map["tools" := JObj(map["listChanged" := JBool(true)])])])))), None)
        else if q.methodName == "notifications/initialized" then
          Handled(Response(204, NoBody), None)
        else if q.methodName == "tools/list" then
          Handled(Response(200, JsonBody(RpcResult(q.id, JObj(map["tools" := JArr(McpToolEntries(tools))])))), None)
        else if q.methodName == "tools/call" then
          var name := if "name" in q.params && q.params["name"].JStr? then q.params["name"].s else "";
          var args := if "arguments" in q.params && q.params["arguments"].JObj? then q.params["arguments"] else JNull;
          if name == "" then Handled(RpcError(q.id, InvalidParams, "Invalid params: name required"), None)
          else
            var call := Some(ToolCall(name, args));
            match WrapToolResult(exec)
            case Err(e) => Handled(RpcError(q.id, ServerError, e), call)
            case Ok(structured) =>
              Handled(Response(200, JsonBody(RpcResult(q.id, JObj(map[
                "content" := JArr([]), "structuredContent" := structured])))), call)
        else
          Handled(RpcError(q.id, MethodNotFound, "Method not found: " + q.methodName), None)
  }

  // ---------------------------------------------------------------------
  // Properties of the method table

  function Req(id: Json, methodName: string, params: map<string, Json>): Option<Json> {
    Some(JObj(map["jsonrpc" := JStr("2.0"), "id" := id, "method" := JStr(methodName), "params" := JObj(params)]))
  }

  lemma DecodeReq(id: Json, methodName: string, params: map<string, Json>)
    ensures DecodeRequest(Req(id, methodName, params)) == Some(RpcRequest(id, methodName, params))
  {
  }

  /** `initialize` echoes the id and reports the protocol revision, server identity and tool capability. */
  lemma InitializeAnswer(id: Json, params: map<string, Json>, tools: seq<Tool>, exec: ExecOutcome)
    ensures var h := HandleStateless(true, Req(id, "initialize", params), tools, exec);
      && h.call.None? && h.response.status == 200 && h.response.body.JsonBody?
      && Field(h.response.body.value, "id") == Some(id)
      && Field(h.response.body.value, "result").Some?
      && Field(Field(h.response.body.value, "result").value, "protocolVersion") == Some(JStr("2024-11-05"))
      && Field(Field(h.response.body.value, "result").value, "serverInfo")
         == Some(JObj(map["name" := JStr("thymer"), "version" := JStr("0.1.0")]))
      && Field(Field(h.response.body.value, "result").value, "capabilities")
         == Some(JObj(map["tools" := JObj(map["listChanged" := JBool(true)])]))
  {
    DecodeReq(id, "initialize", params);
  }

  /** The initialized notification is answered with 204 and no body. */
  lemma InitializedNotification(id: Json, params: map<string, Json>, tools: seq<Tool>, exec: ExecOutcome)
    ensures HandleStateless(true, Req(id, "notifications/initialized", params), tools, exec) == Handled(Response(204, NoBody), None)
  {
    DecodeReq(id, "notifications/initialized", params);
  }

  /** `tools/list` lists every bridge tool in order, with its parameters or the empty object schema. */
  lemma ToolsListEntries(id: Json, params: map<string, Json>, tools: seq<Tool>, exec: ExecOutcome)
    ensures var h := HandleStateless(true, Req(id, "tools/list", params), tools, exec);
      && h.call.None?
      && h.response == Response(200, JsonBody(RpcResult(id, JObj(map["tools" := JArr(McpToolEntries(tools))]))))
  {
    DecodeReq(id, "tools/list", params);
  }

  /** `tools/call` with a missing, empty or non-string name is rejected without a bridge call. */
  lemma ToolsCallNeedsName(id: Json, params: map<string, Json>, tools: seq<Tool>, exec: ExecOutcome)
    requires "name" !in params || !params["name"].JStr? || params["name"].s == ""
    ensures HandleStateless(true, Req(id, "tools/call", params), tools, exec) == Handled(RpcError(id, InvalidParams, "Invalid params: name required"), None)
  {
    DecodeReq(id, "tools/call", params);
  }

  /** With a name, `tools/call` makes exactly one bridge call and maps its outcome:
    * an error to -32000 with its text, a result to empty content plus structured content. */
  lemma ToolsCallOutcome(id: Json, name: string, params: map<string, Json>, tools: seq<Tool>, exec: ExecOutcome)
    requires name != "" && "name" in params && params["name"] == JStr(name)
    ensures var h := HandleStateless(true, Req(id, "tools/call", params), tools, exec);
      && h.call.Some? && h.call.value.name == name
      && (exec.ExecErr? ==> h.response == RpcError(id, ServerError, exec.error))
      && (exec.ExecOk? ==> h.response == Response(200, JsonBody(RpcResult(id, JObj(map[
            "content" := JArr([]), "structuredContent" := WrapToolResult(exec).value])))))
  {
    DecodeReq(id, "tools/call", params);
  }

  /** Every method outside the table is answered with -32601 naming the method. */
  lemma UnknownMethod(id: Json, methodName: string, params: map<string, Json>, tools: seq<Tool>, exec: ExecOutcome)
    requires methodName !in {"initialize", "notifications/initialized", "tools/list", "tools/call"}
    ensures HandleStateless(true, Req(id, methodName, params), tools, exec) == Handled(RpcError(id, MethodNotFound, "Method not found: " + methodName), None)
  {
    DecodeReq(id, methodName, params);
  }
}
