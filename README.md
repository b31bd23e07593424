# Thymer SyncHub, modelled in Dafny

This project is a Dafny model of the core of the Thymer SyncHub ecosystem. Each repository file in the core
gets one Dafny module. The modules prove the properties the code promises.

- **Desktop app (Go).**
  - `bridge.dfy`: the single-client WebSocket bridge. A new client supersedes the old one. Read-loop teardown,
    call/reply matching with `call_N` ids and the 30 s timeout are each one atomic step of the `Bridge` class.
  - `mcp.dfy`: the stateless JSON-RPC 2.0 endpoint. It covers the `initialize`, `tools/list` and `tools/call`
    methods and the error codes from section 5.1 of the JSON-RPC 2.0 specification.
  - `api.dfy`: the HTTP handlers for query, sync, capture, MCP tools and status.
  - `config.dfy`: the Thymer URL rule.
- **Browser side.**
  - `desktop_peer.dfy`: the desktop-bridge peer. It reconnects with backoff, dispatches messages and keeps a
    bounded activity log.
  - `html_escape.dfy`: HTML escaping.
- **SyncHub.**
  - `synchub.dfy`: the scheduler's due rule and tick, interval parsing, run status transitions, toasts and the
    journal filter.
  - `synchub_tools.dfy`: the collection-tool registry, tool naming and dispatch, and parameter-schema building.
  - `synchub_markdown.dfy`: the markdown line parser and inline-formatting parser.
- **Planning and tracking plugins.**
  - `plannerhub.dfy`: PlannerHub's task status and listing, swap-based reorder, time-range and date codecs, and
    the timeline gap-filling scheduler.
  - `habithub.dfy`: HabitHub's journal processing, log accumulation and repair, statistics and streaks,
    summary text and sparkline colours.
  - `flow.dfy`: Flow's focus-session timer.
- **Streaming chat.**
  - `streaming.dfy`: the character-by-character streaming markdown renderer. AgentHub and the progressive-test
    plugin share it.
  - `agenthub.dfy`: AgentHub's chat-page parsing, link extraction, message building, tool-call delta merge and
    statistics.
  - `progressive.dfy`: the progressive-test plugin's own pieces.
- **Sync plugins.** `github.dfy`, `google_contacts.dfy`, `google_calendar.dfy`, `readwise.dfy` and
  `telegram.dfy` cover mapping, the create/update/skip merge rules and their change logs. Each proves that a
  second run over the same data is quiet.
- **Collection query tools.** `collections_calendar.dfy`, `collections_people.dfy`, `collections_captures.dfy`
  and `collections_issues.dfy` cover label/id maps, filters, sort orders and limits.
- **Shared definitions.** `common.dfy` holds Option/Result, a parsed-JSON datatype and the string helpers
  (JavaScript whitespace, trimming, splitting, decimal numbers).

Modelling conventions:

- Times are integer milliseconds, and the clock is a parameter.
- Dates are `YYYYMMDD`/`YYYY-MM-DD` strings or day numbers.
- JSON arrives already parsed, as the `Json` datatype.
- Regular expressions are explicit predicates.
- SDK records and line items are maps and sequences.
- What the network, the SDK or the user would return is an input parameter.
- Code that mutates objects in place is modelled as classes: the bridge, the peer, the scheduler, Flow's
  session, the renderers and the journal scan.
- Loops that build results become methods, each proved against a specification function.

## Model

| member | source | states |
|---|---|---|
| Common.AgeOf | plugins/desktop-bridge/plugin.js:313-319 | an age is "just now" exactly below a minute; otherwise it is the whole number of minutes, hours or days elapsed, below 60 minutes and 24 hours respectively |
| Common.LabelToId | collections/captures/plugin.js:20-22 | a name in the table gives its id; any other name gives itself lower-cased |
| Common.IdToLabel | collections/captures/plugin.js:25-31 | a missing id gives nothing; an id found in the table, exactly or lower-cased, gives the first such name; any other id is capitalised |
| Common.LabelRoundTrip | collections/captures/plugin.js:20-31 | in a well-formed table every name goes to its id and back to the same name |
| Common.IdToLabelIgnoresCase | collections/captures/plugin.js:25-31 | an id written in any letter case decodes to its name |
| Common.LabelOrIdMatches | collections/captures/plugin.js:34-39 | a filter may name a choice by its name or by its id, with the same result |
| Common.ChoiceMatchesIgnoresCase | collections/captures/plugin.js:34-39 | a stored choice matches a target exactly when it is set and its lower-cased form equals the lower-cased id of the target |
| Bridge.GetString | desktop/bridge.go:358-363 | a string stored under the key is the result; a non-empty result is exactly such a string, so a missing or non-string value reads as "" |
| Bridge.GetBool | desktop/bridge.go:365-370 | the result is true exactly when the key holds the boolean true |
| Bridge.ToolOf | desktop/bridge.go:191-219 | an entry yields a tool exactly when it is an object whose name, read from the nested `function` object when there is one and else from the flat entry, is non-empty; the tool then carries that name, the description read the same way, and the `parameters` object exactly when there is one |
| Bridge.NormalizeTools | desktop/bridge.go:188-220 | a `tools` push installs at most one tool per entry, every one of them named |
| Bridge.NormalizeToolsMembership | desktop/bridge.go:188-220 | a tool is installed exactly when some entry of the push yields it |
| Bridge.NestedFormatWins | desktop/bridge.go:197-210 | when an entry has a nested `function` object, its flat name, description and parameters are ignored |
| Bridge.BuildTools | desktop/bridge.go:190-220 | the append loop leaves `b.tools` equal to the normalised list of the push |
| Bridge.NormalizePlugins | desktop/bridge.go:235-245 | a `plugins` push installs at most one plugin per entry |
| Bridge.PluginsKeepEveryObject | desktop/bridge.go:238-245 | every object entry becomes a plugin, named or not: the count equals the number of object entries and each one's name and enabled flag are present |
| Bridge.BuildPlugins | desktop/bridge.go:237-245 | the append loop leaves `b.plugins` equal to the normalised list of the push |
| Bridge.ReplyOutcome | desktop/bridge.go:172-179 | a reply fails exactly when `error` is a string; otherwise it delivers `result` when present and nothing when absent |
| Bridge.Classify | desktop/bridge.go:154-258 | a frame is a reply exactly when it is an object whose string `id` is pending; a `tools` or `plugins` push carries the array under that key |
| Bridge.UnmatchedReplyIgnored | desktop/bridge.go:162-186 | a reply whose id is no longer pending is not delivered and, having no `type`, changes nothing |
| Bridge.CallNumberOfCallId | desktop/bridge.go:279 | the identifier `call_N` reads back as N |
| Bridge.CallIdsDistinct | desktop/bridge.go:279 | distinct counter values give distinct call identifiers |
| Bridge.FreshCallId | desktop/bridge.go:279 | an identifier made from a counter above every issued one is not in use |
| Bridge.IssueKeepsWellFormed | desktop/bridge.go:279-296 | the next identifier is neither pending nor waiting, and issuing it (with or without registering it) keeps every pending call's mailbox empty and every waiting id issued |
| Bridge.Bridge.constructor | desktop/bridge.go:61-66 | a new bridge has no client, tools, plugins (a nil list) or pending calls, its counter at 0 |
| Bridge.Bridge.IsConnected | desktop/bridge.go:318-322 | connected means a client is installed, whether or not OnConnect has fired |
| Bridge.Bridge.Accept | desktop/bridge.go:100-125 | a new connection replaces the old one, which is sent a 1008 "Replaced by new client" close frame and closed; then `get_tools` and `get_plugins` are sent to the new client; nothing else changes |
| Bridge.Bridge.ReadLoopExit | desktop/bridge.go:128-152 | when the installed client's read loop ends, client, tools and plugins are cleared (the plugins back to a nil list) and OnDisconnect fires only if OnConnect had fired; a superseded connection's exit changes nothing; pending calls are untouched |
| Bridge.Bridge.Inbound | desktop/bridge.go:154-258 | a pending reply is removed from the pending set and delivered to its caller; a `tools` push replaces the tools and fires OnConnect the first time; a `plugins` push replaces the plugins and makes the list non-nil; anything else changes nothing |
| Bridge.Bridge.CallStart | desktop/bridge.go:278-306 | each call takes the next `call_N` identifier, registers it and sends the request carrying it; without a client or on a write error the entry is removed and the error returned |
| Bridge.Bridge.Await | desktop/bridge.go:298-312 | the call returns what its reply delivered and its entry is deleted |
| Bridge.Bridge.Timeout | desktop/bridge.go:298-316 | a call with no reply after 30 s fails with "timeout" and its entry is deleted |
| Bridge.Bridge.ExecuteTool | desktop/bridge.go:337-342 | the call counter advances by one to a fresh `call_N` id; with a client a `tool_call` request naming the tool and its arguments is sent, and the result is that id, or the write error; without one, "not connected" and nothing is sent; only a successful send registers the id as pending with an empty mailbox slot; the client, tools, plugins and connection flag are unchanged |
| Bridge.Bridge.Sync | desktop/bridge.go:345-350 | the call counter advances by one to a fresh `call_N` id; with a client a `sync` request naming the plugin is sent, and the result is that id, or the write error; without one, "not connected" and nothing is sent; only a successful send registers the id as pending; the client, tools, plugins and connection flag are unchanged |
| Bridge.Bridge.SyncAll | desktop/bridge.go:353-356 | the call counter advances by one to a fresh `call_N` id; with a client a `sync_all` request with no parameters is sent, and the result is that id, or the write error; without one, "not connected" and nothing is sent; only a successful send registers the id as pending; the client, tools, plugins and connection flag are unchanged |
| Mcp.DecodeRequest | desktop/mcp.go:79-89 | a body decodes exactly when it is a JSON object (or null) whose `jsonrpc` and `method` are strings and whose `params` is an object when present; an unparseable body is a decode error; `null` decodes to the zero request |
| Mcp.RpcError | desktop/mcp.go:155-161 | an error answer is a 200 JSON-RPC object echoing the id, with `error` holding the code and the message |
| Mcp.InputSchema | desktop/mcp.go:113-116 | a tool with parameters is advertised with them as its input schema, else with the empty object schema |
| Mcp.ListTools | desktop/mcp.go:110-122 | the append loop produces one entry per bridge tool, in order, each carrying the tool's name, description and input schema |
| Mcp.WrapToolResult | desktop/mcp.go:198-211 | a bridge error passes through; a result that decodes to an object is returned as it is, `null` as a nil map; any other result is wrapped as `{"text": raw}`; a success is always an object or nil |
| Mcp.HandleStateless | desktop/mcp.go:73-153 | a non-POST request gets 405 "POST only"; an undecodable body gets -32700 "Parse error" with a null id; a bridge call is made only for `tools/call` with a non-empty name |
| Mcp.InitializeAnswer | desktop/mcp.go:94-103 | `initialize` answers 200 with the request's id, protocol version "2024-11-05", serverInfo `{name: "thymer", version: "0.1.0"}` and capabilities `{tools: {listChanged: true}}`, without calling the bridge |
| Mcp.InitializedNotification | desktop/mcp.go:105-107 | the initialized notification gets 204 with no body |
| Mcp.ToolsListEntries | desktop/mcp.go:109-127 | `tools/list` answers with the id and every bridge tool in order, without calling the bridge |
| Mcp.ToolsCallNeedsName | desktop/mcp.go:129-135 | `tools/call` with a missing, non-string or empty name answers -32602 "Invalid params: name required" and makes no bridge call |
| Mcp.ToolsCallOutcome | desktop/mcp.go:129-148 | with a name, `tools/call` makes exactly one bridge call for that name; an error becomes -32000 with its text, a result becomes empty `content` plus `structuredContent` |
| Mcp.UnknownMethod | desktop/mcp.go:150-151 | any other method answers -32601 "Method not found: " followed by the method |
| Config.ThymerURL | desktop/config.go:66-80 | a stored URL wins; with no workspace the URL is https://app.thymer.com; a workspace without a dot becomes a thymer.com sub-domain; one with a dot is used as the host |
| Config.BuiltUrlIsFullDomain | desktop/config.go:72-79 | without a stored URL the result is an https URL whose host contains a dot |
| Config.BuiltUrlKeepsWorkspace | desktop/config.go:76-79 | the host of a URL built from a workspace starts with the workspace name |
| Api.IsConnected | desktop/app.go:150-156 | the app is connected exactly when it has a bridge and that bridge has a client |
| Api.ToolCount | desktop/app.go:158-164 | the tool count is 0 without a bridge and the bridge's tool count otherwise |
| Api.HandleStatus | desktop/api.go:10-24 | the status object carries the connection flag, tool count, workspace and Thymer URL; `plugins` is present exactly when there is a bridge, and is then its plugins, or null while no plugins push has arrived |
| Api.BridgeErrorBody | desktop/api.go:52 | the 502 body is `{"error":"` + the error text + `"}`, the text spliced in without escaping |
| Api.WriteOutcome | desktop/api.go:50-57 | a bridge error is answered 502 with that body; a result is written back as its raw bytes |
| Api.QueryGet | desktop/api.go:33 | a query key reads as its first value, or "" when it is missing or has no value |
| Api.QueryArgs | desktop/api.go:43-48 | the arguments are every key other than `collection` that has a value, mapped to its first value |
| Api.BuildQueryArgs | desktop/api.go:43-48 | the loop over the query keys fills exactly those arguments |
| Api.HandleQuery | desktop/api.go:27-58 | without a connection 503; without a collection 400; otherwise exactly one call of `<collection>_find` with the query arguments, its outcome written back |
| Api.QueryToolName | desktop/api.go:33-48 | the tool called is the collection's name followed by `_find`, and `collection` itself is not passed on |
| Api.DecodeSyncRequest | desktop/api.go:72-80 | a sync body decodes exactly when it is an object (or null) whose `plugin` is a string and `all` a boolean when present |
| Api.HandleSync | desktop/api.go:61-99 | non-POST 405, no connection 503, bad JSON 400; a bridge call happens exactly when `all` is set or a plugin is named, sync-all winning; a bridge error is 502, success `{"success":true}` |
| Api.SyncAllWins | desktop/api.go:83-86 | with `all` true the whole sync is asked for even when a plugin is named |
| Api.CaptureText | desktop/api.go:113-125 | the capture text is the `text` field of a body that decodes into the request struct, where `tags` may hold strings or nulls, and the whole body verbatim when it does not |
| Api.HandleCapture | desktop/api.go:102-144 | non-POST 405, no connection 503, empty text 400; otherwise exactly one `log_to_journal` call with the text as `content`, its outcome written back |
| Api.NullTagCapture | desktop/api.go:115-125 | a `null` among the tags decodes as an empty string, so `{"text":"hi","tags":[null]}` journals "hi" |
| Api.PlainTextCapture | desktop/api.go:121-125 | a body that is not JSON is journaled verbatim |
| Api.HandleMcpTools | desktop/api.go:147-169 | the answer lists every bridge tool in order in MCP form, with no method or connection check |
| Api.DecodeMcpCall | desktop/api.go:183-191 | a call body decodes exactly when it is an object (or null) whose `name` is a string and `args` an object when present; the arguments are an object or nil |
| Api.HandleMcpCall | desktop/api.go:172-201 | non-POST 405, no connection 503, bad JSON 400; otherwise exactly the decoded call is made, even with an empty name, and its outcome written back |
| Api.NullMcpCallReachesBridge | desktop/api.go:183-193 | a `null` body decodes to the zero request, so the bridge is asked for the tool "" with no arguments |
| DesktopPeer.Backoff | plugins/desktop-bridge/plugin.js:130 | the reconnect delay is 1000·2^attempts ms, capped at 30000 |
| DesktopPeer.BackoffSchedule | plugins/desktop-bridge/plugin.js:129-133 | within the five attempts allowed the delays are 1, 2, 4, 8 and 16 seconds |
| DesktopPeer.BackoffDoubles | plugins/desktop-bridge/plugin.js:130 | each delay is double the previous one until the cap |
| DesktopPeer.ReplyFrame | plugins/desktop-bridge/plugin.js:234-242 | a reply frame carries the value under `result` or `error` and the request's id, left out when the request had none |
| DesktopPeer.MessageType | plugins/desktop-bridge/plugin.js:165-167 | a frame's type is its string `type` field |
| DesktopPeer.ArgsOrEmpty | plugins/desktop-bridge/plugin.js:207 | the call's arguments when truthy, else the empty object |
| DesktopPeer.PushEntry | plugins/desktop-bridge/plugin.js:212-214 | a new entry goes first and the oldest is dropped once more than 50 are held, so the log never exceeds 50 |
| DesktopPeer.Settle | plugins/desktop-bridge/plugin.js:219-230 | a settled entry records success or error, the duration and, on failure, the message; its other fields are kept |
| DesktopPeer.SettleIn | plugins/desktop-bridge/plugin.js:219-230 | settling a call updates that call's entry, if it is still in the log, and no other |
| DesktopPeer.PushKeepsSeqNos | plugins/desktop-bridge/plugin.js:212-214 | pushing an entry with the next number keeps the entries' numbers distinct and below the counter |
| DesktopPeer.SettleTouchesOneEntry | plugins/desktop-bridge/plugin.js:219-230 | settling marks the call's entry as no longer pending and leaves every other entry unchanged |
| DesktopPeer.SettleKeepsSeqNos | plugins/desktop-bridge/plugin.js:219-230 | settling keeps the entries' numbers distinct and bounded |
| DesktopPeer.Peer.constructor | plugins/desktop-bridge/plugin.js:24-48 | a new peer has no socket, no attempts, an empty activity log and has sent nothing |
| DesktopPeer.Peer.IsConnected | plugins/desktop-bridge/plugin.js:155-157 | connected means a socket is installed and open |
| DesktopPeer.Peer.IsLive | plugins/desktop-bridge/plugin.js:71 | a socket is live when it is connecting or open |
| DesktopPeer.Peer.ConnectAttempt | plugins/desktop-bridge/plugin.js:83-89 | a new socket is opened unless one is live; nothing else changes |
| DesktopPeer.Peer.Connect | plugins/desktop-bridge/plugin.js:67-81 | unless a socket is live, the backoff and the intentional flag are reset and a socket is opened |
| DesktopPeer.Peer.OnOpen | plugins/desktop-bridge/plugin.js:91-108 | on open the backoff resets, the connection time is recorded and `register`, `tools` and `plugins` are sent in that order |
| DesktopPeer.Peer.OnClosing | plugins/desktop-bridge/plugin.js:114 | a closing socket is no longer open; nothing else changes |
| DesktopPeer.Peer.OnClose | plugins/desktop-bridge/plugin.js:114-135 | the socket is forgotten; after an intentional close, a 1008 replacement or five attempts nothing is scheduled, otherwise a retry with the backoff delay and one more attempt |
| DesktopPeer.Peer.Disconnect | plugins/desktop-bridge/plugin.js:147-153 | with a socket, the close is marked intentional and made with code 1000; the socket is forgotten |
| DesktopPeer.Peer.Send | plugins/desktop-bridge/plugin.js:234-242 | a frame is sent only while connected, else dropped |
| DesktopPeer.Peer.HandleMessage | plugins/desktop-bridge/plugin.js:163-198 | `get_tools` and `get_plugins` are answered with the tool or plugin list; `tool_call` logs a pending entry and starts the call; `sync` and `sync_all` start a sync; any other frame is ignored |
| DesktopPeer.Peer.ToolCallSettled | plugins/desktop-bridge/plugin.js:218-231 | when the call settles, its log entry records the outcome and the result or error is sent if still connected |
| DesktopPeer.Peer.SyncSettled | plugins/desktop-bridge/plugin.js:180-190 | a finished sync answers `{success: true}`, a failed one its message, if still connected |
| HtmlEscape.EscapeEach | plugins/desktop-bridge/plugin.js:573-575 | the reference escaping, one entity per character, leaves no `<`, `>` or `"` in the output |
| HtmlEscape.EscapeHtmlAppend | plugins/desktop-bridge/plugin.js:573-575 | escaping distributes over concatenation |
| HtmlEscape.EscapeHtmlChar | plugins/desktop-bridge/plugin.js:573-575 | on one character the four passes produce exactly that character's entity |
| HtmlEscape.EscapeHtmlEscapesOnce | plugins/desktop-bridge/plugin.js:573-575 | since `&` is replaced first no entity is escaped twice: the result equals the one-pass escaping and holds no `<`, `>` or `"` |
| SyncHub.UnitMs | synchub/plugin.js:744-749 | the multipliers of `s`, `m`, `h` and `d` are one second, one minute, one hour and one day in milliseconds |
| SyncHub.ParseInterval | synchub/plugin.js:735-752 | a missing, empty or unmatched interval setting lasts the five-minute default |
| SyncHub.IntervalWithUnit | synchub/plugin.js:738-751 | a setting of digits followed by a unit letter lasts that many of the unit |
| SyncHub.BareIntervalIsMinutes | synchub/plugin.js:742 | a bare number counts minutes |
| SyncHub.WordIntervalsAreDefault | synchub/plugin.js:738-739 | `manual` and a setting with an unknown unit fall back to five minutes |
| SyncHub.NewRecord | synchub/plugin.js:665-672 | a created record carries the plugin id, is enabled, idle and never run, and has a non-empty interval |
| SyncHub.FindRecord | synchub/plugin.js:642-645 | the result is the first record whose plugin id matches, or none exactly when no record matches |
| SyncHub.ChoiceOr | synchub/plugin.js:797-799 | a set, non-empty choice is used; a missing or empty one gives the default |
| SyncHub.ShouldToastLevels | synchub/plugin.js:888-894 | a toast is shown exactly for `all_updates`, or for `new_records` when the result created something |
| SyncHub.JournalChanges | synchub/plugin.js:1020-1023 | the journal never receives more changes than the run reported |
| SyncHub.JournalFilter | synchub/plugin.js:1020-1023 | `major_only` keeps exactly the major changes; every other level keeps all of them |
| SyncHub.Finished | synchub/plugin.js:833-885 | the finished record keeps its plugin id, enabled flag and interval and has `last_run` set to the finishing time |
| SyncHub.RunEnds | synchub/plugin.js:833-885 | every run ends idle or in error; it is in error exactly when the sync threw a non-empty message or timed out, and then it keeps that message; when idle the error is cleared |
| SyncHub.FailedRunEffects | synchub/plugin.js:838-850 | a failed run logs its error and toasts it unless toasts are off; it logs no change and writes nothing to the journal |
| SyncHub.ManualRunToasts | synchub/plugin.js:868-876 | a manual run that succeeds always toasts under the plugin id |
| SyncHub.NotDueBeforeInterval | synchub/plugin.js:724-731 | a record that finished at time t is not due again before t plus its interval |
| SyncHub.SyncingIsNotDue | synchub/plugin.js:724 | a record being synced is never due, so the scheduler never starts a plugin twice at once |
| SyncHub.NewRecordDue | synchub/plugin.js:724-731 | a new plugin with a numeric interval is due once that interval has passed since the epoch |
| SyncHub.IndexOfCollection | synchub/plugin.js:1096 | the index found holds the collection name and no earlier entry does; none exactly when no entry has the name |
| SyncHub.Lookup | synchub/plugin.js:1096-1100 | a collection has a configuration exactly when some entry carries its name |
| SyncHub.UpsertSpec | synchub/plugin.js:1096-1100 | setting a collection keeps names distinct, maps the name to the new configuration, leaves every other name and position unchanged, and grows the list only for a new name |
| SyncHub.TickedUpTo | synchub/plugin.js:715-732 | a tick keeps the number of records |
| SyncHub.TickedRecords | synchub/plugin.js:715-732 | after a tick exactly the records it started are marked syncing and every other record is unchanged |
| SyncHub.StartedRecords | synchub/plugin.js:715-732 | the tick starts exactly the records that are due and have a sync function, each once, in collection order |
| SyncHub.Hub.constructor | synchub/plugin.js:226-316 | a new hub holds the collection's records, no sync function, no collection tools and no running sync |
| SyncHub.Hub.RegisterPlugin | synchub/plugin.js:607-632 | a missing id or sync function changes nothing; otherwise the function is stored under the id and the existing record is returned, or a new record with the default settings is appended and returned when the collection accepts one |
| SyncHub.Hub.UnregisterPlugin | synchub/plugin.js:634-636 | only the plugin's sync function is removed |
| SyncHub.Hub.StartRun | synchub/plugin.js:790-805 | without a sync function nothing changes; otherwise the run reads the record's settings, the record is marked syncing and the plugin becomes the one currently syncing |
| SyncHub.Hub.FinishRun | synchub/plugin.js:833-885 | the record takes its finished state, nothing is syncing any more, and the toast, log lines, change log and journal changes are those the outcome calls for |
| SyncHub.Hub.RequestSync | synchub/plugin.js:765-779 | an unknown plugin changes nothing; a full sync clears `last_run` first; then the run starts on the plugin's first record |
| SyncHub.Hub.Tick | synchub/plugin.js:709-733 | without the collection nothing happens; otherwise the records and the started list are those of the tick specification, and the last plugin started is the one currently syncing |
| SyncHub.Hub.RegisterCollectionTools | synchub/plugin.js:1087-1103 | a missing name or tool list changes nothing; otherwise the collection's entry is set, with the description defaulting to the name and the schema to an empty object |
| SyncHub.RelativeTimeAgrees | synchub/plugin.js:1750-1762 | Sync Hub's step-by-step floors give the same text as the desktop bridge's relative time |
| SyncHubTools.RemoveFirst | synchub/plugin.js:1377 | only the first `?` is removed: text without one is unchanged, text with one loses exactly one character |
| SyncHubTools.RemoveTrailing | synchub/plugin.js:1376-1377 | a type written `T?` with no other `?` becomes `T` |
| SyncHubTools.BuildParameters | synchub/plugin.js:1365-1387 | the loop over the entries yields the parameter schema of the whole description, an empty schema for none, and the error a null entry throws |
| SyncHubTools.ParametersErrPersists | synchub/plugin.js:1371-1384 | once an entry throws, the rest of the description no longer matters |
| SyncHubTools.ParametersFailOnNull | synchub/plugin.js:1373-1384 | building fails exactly when some entry is null, and then with the error of reading `optional` of null |
| SyncHubTools.ParametersProperties | synchub/plugin.js:1373-1384 | the properties are exactly the keys whose value is a string, an object or an array (an array is an object to `typeof`) |
| SyncHubTools.ParametersRequired | synchub/plugin.js:1373-1384 | a key is required exactly when some entry for it is a type without `?` or an object or array not marked `optional` |
| SyncHubTools.RequiredAreProperties | synchub/plugin.js:1365-1387 | every required key is a property |
| SyncHubTools.StringParam | synchub/plugin.js:1374-1379 | `T?` adds an optional property of type `T`; `T` adds a required one |
| SyncHubTools.CoreNamesListed | synchub/plugin.js:1169-1257 | the five core tools are listed in the order `executeCoreToolCall` answers them, none belonging to a collection |
| SyncHubTools.CollectionEntry | synchub/plugin.js:1121-1130 | a collection tool is listed as the lower-cased collection name, `_` and the tool name, tagged with its collection, and fails exactly when its parameters fail |
| SyncHubTools.GetRegisteredTools | synchub/plugin.js:1109-1132 | the loop over the collections yields the catalogue: the core tools, then every collection tool in registration order |
| SyncHubTools.ListCollectionTools | synchub/plugin.js:1120-1131 | the inner loop yields one entry per tool of the collection, in order |
| SyncHubTools.ToolsErrPersists | synchub/plugin.js:1120-1131 | a tool whose parameters throw ends the listing of its collection |
| SyncHubTools.CollectionsErrPersists | synchub/plugin.js:1119-1131 | a collection whose listing throws ends the whole listing |
| SyncHubTools.ToolsEntriesAre | synchub/plugin.js:1120-1131 | a collection lists exactly one entry per tool, the k-th being the k-th tool's entry |
| SyncHubTools.EveryToolListed | synchub/plugin.js:1119-1131 | every tool of every registered collection appears in the listing |
| SyncHubTools.CatalogueShape | synchub/plugin.js:1109-1132 | the catalogue starts with the core tools and everything after them is a collection tool |
| SyncHubTools.ListedToolsExist | synchub/plugin.js:1119-1131 | every listed collection entry comes from a tool of a registered collection |
| SyncHubTools.FindTool | synchub/plugin.js:1152 | the tool found is the first with the name; none exactly when no tool has it |
| SyncHubTools.RouteFrom | synchub/plugin.js:1148-1161 | a call goes to the first collection, from the given one on, whose prefix starts the name and which has a tool with a handler under the rest; it is unknown exactly when no collection takes it |
| SyncHubTools.Route | synchub/plugin.js:1138-1164 | a core name always goes to the core tool; any other name goes to a collection or is unknown |
| SyncHubTools.ExecuteToolCall | synchub/plugin.js:1138-1164 | the loop over the collections reaches the same decision as the routing specification |
| SyncHubTools.CallResult | synchub/plugin.js:1154-1163 | an unknown tool answers `{error: "Unknown tool: <name>"}`; a handler that throws answers `{error}` with its message; otherwise the handler's value |
| SyncHubTools.FullNameTaken | synchub/plugin.js:1125-1151 | a listed name starts with its collection's prefix, and stripping the prefix gives back the tool name |
| SyncHubTools.ListedToolRoutes | synchub/plugin.js:1109-1164 | a listed tool with a handler is reachable: its name goes to a core tool, or to a collection no later than its own whose tool of that listed name has a handler |
| SyncHubMarkdown.RunOfIsRun | synchub/plugin.js:1513 | the run of a character that a pattern consumes holds only that character |
| SyncHubMarkdown.Enclosed | synchub/plugin.js:1559-1564 | a delimited match covers its opening marker, a non-empty group and its closing marker, and stays inside the text |
| SyncHubMarkdown.EnclosedSpan | synchub/plugin.js:1559-1564 | the text a delimited match covers is its opening marker, its group and its closing marker |
| SyncHubMarkdown.RefAt | synchub/plugin.js:1560 | a record reference covers `[[`, a GUID of at least 20 characters and `]]` |
| SyncHubMarkdown.RefSpan | synchub/plugin.js:1560 | the text a record reference covers is `[[`, its GUID and `]]` |
| SyncHubMarkdown.LinkAt | synchub/plugin.js:1561 | a link covers `[`, a non-empty text, `](`, a non-empty URL and `)` |
| SyncHubMarkdown.LinkSpan | synchub/plugin.js:1561 | the text a link covers is exactly `[text](url)` |
| SyncHubMarkdown.UnderscoreBody | synchub/plugin.js:1565 | the body of an underscore match holds a non-empty group and ends after the closing `_`, or one character later when a non-letter follows |
| SyncHubMarkdown.UnderscoreItalicAsWritten | synchub/plugin.js:1565 | the pattern as written covers at least three characters and captures a non-empty group |
| SyncHubMarkdown.UnderscoreItalic | synchub/plugin.js:1565 | the corrected pattern covers exactly `_`, its group and `_` |
| SyncHubMarkdown.PatternAt | synchub/plugin.js:1558-1566 | every pattern match stays inside the text, covers at least one character and captures something |
| SyncHubMarkdown.FirstFrom | synchub/plugin.js:1575 | the match a pattern finds lies at or after the search start, inside the text |
| SyncHubMarkdown.FirstFromIsLeftmost | synchub/plugin.js:1575 | the match found is the leftmost one of the pattern, and none is found exactly when the pattern matches nowhere |
| SyncHubMarkdown.Candidates | synchub/plugin.js:1574-1581 | there is one candidate per pattern, the leftmost match of that pattern |
| SyncHubMarkdown.EarliestOf | synchub/plugin.js:1574-1581 | the match the loop keeps is one of the candidates, together with its pattern |
| SyncHubMarkdown.Earliest | synchub/plugin.js:1570-1581 | the match taken next lies inside the text and captured something |
| SyncHubMarkdown.EarliestOfNone | synchub/plugin.js:1574-1581 | the loop finds nothing exactly when no candidate matches |
| SyncHubMarkdown.EarliestOfIsLeftmost | synchub/plugin.js:1574-1581 | no candidate starts before the one the loop keeps |
| SyncHubMarkdown.EarliestOfPrefersFirst | synchub/plugin.js:1576 | among candidates that start at the same place the pattern listed first wins, because only a strictly earlier match replaces the best so far |
| SyncHubMarkdown.EarliestIsLeftmost | synchub/plugin.js:1570-1581 | no pattern matches before the match taken next, and none is taken only when no pattern matches anywhere |
| SyncHubMarkdown.SearchesInBounds | synchub/plugin.js:1570-1581 | both the corrected and the as-written search return matches inside the text |
| SyncHubMarkdown.InlineFrom | synchub/plugin.js:1570-1601 | a non-empty remainder always yields at least one segment |
| SyncHubMarkdown.InlineSegments | synchub/plugin.js:1556-1604 | the parser never returns an empty list of segments |
| SyncHubMarkdown.ParseInline | synchub/plugin.js:1556-1604 | the corrected parser never returns an empty list of segments |
| SyncHubMarkdown.InlineAsWritten | synchub/plugin.js:1556-1604 | the parser as written never returns an empty list of segments |
| SyncHubMarkdown.ScanInline | synchub/plugin.js:1556-1604 | the while loop over `remaining` emits exactly the segments of the parser specification |
| SyncHubMarkdown.PlainTextIsOneSegment | synchub/plugin.js:1596-1603 | text in which no pattern matches comes back whole, as one text segment |
| SyncHubMarkdown.InlineSegmentsHaveText | synchub/plugin.js:1583-1601 | no segment the loop emits is empty |
| SyncHubMarkdown.ParsedSegmentsHaveText | synchub/plugin.js:1556-1604 | for a non-empty text neither the corrected nor the as-written parser emits an empty segment |
| SyncHubMarkdown.FixedMatchSpansMarkers | synchub/plugin.js:1558-1566 | with the correction every match covers exactly its markers and content, so no character around a marked-up span is lost |
| SyncHubMarkdown.EarliestIsFirstFrom | synchub/plugin.js:1574-1581 | the match taken next is the leftmost match of its pattern |
| SyncHubMarkdown.EarliestHit | synchub/plugin.js:1574-1581 | the match taken next is a match of its pattern at the place it reports |
| SyncHubMarkdown.SpanSplits | synchub/plugin.js:1583-1597 | a text splits into what comes before a corrected match, the match's markers and content, and what comes after |
| SyncHubMarkdown.EarliestSpansMarkers | synchub/plugin.js:1583-1597 | with the correction the text is what the loop emits as plain text, the marked-up span, and the remainder it goes on with |
| SyncHubMarkdown.UnderscoreItalicSwallowsNeighbours | synchub/plugin.js:1565 | as written the match in `" _b_ "` also takes the spaces around `_b_`, so they reach no segment; the corrected pattern matches `_b_` alone |
| SyncHubMarkdown.SpacedRest | synchub/plugin.js:1513 | the text after white space is non-empty, holds no line terminator and ends the line |
| SyncHubMarkdown.HeadingMatch | synchub/plugin.js:1513 | a heading has a level from 1 to 6 given by its leading `#`s and a non-empty text ending the line |
| SyncHubMarkdown.TaskMatch | synchub/plugin.js:1523 | a task's text is non-empty, holds no line terminator and ends the line |
| SyncHubMarkdown.BulletMatch | synchub/plugin.js:1529 | a bullet's text is non-empty, holds no line terminator and ends the line |
| SyncHubMarkdown.NumberedMatch | synchub/plugin.js:1535 | a numbered item's text is non-empty, holds no line terminator and ends the line |
| SyncHubMarkdown.ClassifyLine | synchub/plugin.js:1504-1547 | a line is nothing exactly when blank; a rule exactly when its trimmed form is one; a heading has level 1 to 6; a quote is the line after `> `; plain text is the whole line |
| SyncHubMarkdown.ParseLine | synchub/plugin.js:1504-1547 | a blank line gives nothing, a rule gives no segments, and every other kind has at least one segment |
| SyncHubMarkdown.TrimKeepsPrefix | synchub/plugin.js:1508 | trimming a line that starts with a visible character keeps its start |
| SyncHubMarkdown.HeadingRoundTrip | synchub/plugin.js:1513-1520 | `#` repeated n times (n from 1 to 6), a space and a text classify back as a heading of level n with that text |
| SyncHubMarkdown.HeadingLineIsNoRule | synchub/plugin.js:1508 | a line starting with `#` is not a rule |
| SyncHubMarkdown.TaskRoundTrip | synchub/plugin.js:1523-1526 | `- [ ] text`, `- [x] text` and `- [X] text` all classify as a task with that text |
| SyncHubMarkdown.TaskLineIsNoRule | synchub/plugin.js:1508 | a line starting `- [` is not a rule |
| SyncHubMarkdown.NormalizeLanguage | synchub/plugin.js:1609-1619 | no language gives `plaintext`; an alias gives its language; anything else is lower-cased |
| SyncHubMarkdown.AliasTargetsAreCanonical | synchub/plugin.js:1612-1617 | every alias names a lower-case language that is not itself an alias |
| SyncHubMarkdown.NormalizeLanguageIdempotent | synchub/plugin.js:1609-1619 | normalising a language twice gives the same as once |
| SyncHubMarkdown.AliasIsCanonical | synchub/plugin.js:1612-1618 | a language an alias names normalises to itself |
| PlannerHub.GetTaskStatus | plannerhub/plugin.js:26-30 | a task is done exactly when its raw value is 8, in progress exactly when it is 1, and to do otherwise |
| PlannerHub.SetTaskStatus | plannerhub/plugin.js:1048-1069 | the status is written only when the task is found and its properties can be set; then an item with the guid takes the raw value and no other item changes |
| PlannerHub.FindItem | plannerhub/plugin.js:1053 | the item found is the first with the guid; none exactly when no item has it |
| PlannerHub.MarksReadBack | plannerhub/plugin.js:1071-1080 | after `markDone` the task reads back as done, after `markInProgress` as in progress |
| PlannerHub.LastRef | plannerhub/plugin.js:646-652 | the linked issue is the guid of a reference segment of the item, and there is none exactly when no reference segment carries a guid |
| PlannerHub.TextOf | plannerhub/plugin.js:642-651 | an item without segments has no text, and one whose only segment is text has that text |
| PlannerHub.TextOfNoText | plannerhub/plugin.js:642-651 | an item with no plain-text segment has no text |
| PlannerHub.ListStep | plannerhub/plugin.js:634-679 | one item adds its guid to those seen exactly when it is a task, and appends at most one task to the listing, keeping the earlier ones |
| PlannerHub.ListUpTo | plannerhub/plugin.js:634-679 | the first n items give at most n tasks |
| PlannerHub.ListTasks | plannerhub/plugin.js:624-691 | the loop over the journal's items yields the listing of the specification |
| PlannerHub.SeenAreTasks | plannerhub/plugin.js:634-640 | the guids seen are exactly those of the task items read so far |
| PlannerHub.ListStepExtends | plannerhub/plugin.js:634-679 | each item adds at most one task to the end of the listing and removes none |
| PlannerHub.ListedIsTask | plannerhub/plugin.js:634-679 | a listed task comes from a task item with its guid and has non-blank text or a linked issue |
| PlannerHub.ListedDistinct | plannerhub/plugin.js:638-640 | a listing never holds the same guid twice |
| PlannerHub.ListedAtItsStep | plannerhub/plugin.js:634-679 | a task item seen for the first time, with text or a link, is listed at its own step |
| PlannerHub.ListingComplete | plannerhub/plugin.js:634-679 | every task item whose guid appears there first, with text or a link, is listed |
| PlannerHub.IndexOf | plannerhub/plugin.js:1477-1480 | the index found is the first position of the guid; none exactly when the guid is absent |
| PlannerHub.Swapped | plannerhub/plugin.js:1015-1028 | the two positions exchange their contents and every other position keeps its own |
| PlannerHub.SwapPlanTasks | plannerhub/plugin.js:1003-1036 | the swap succeeds exactly when both guids are present, and then exchanges the two items' contents; otherwise nothing changes |
| PlannerHub.Remove | plannerhub/plugin.js:1470-1513 | removing a position shifts the later contents down by one and keeps the earlier ones |
| PlannerHub.Moved | plannerhub/plugin.js:1470-1513 | moving keeps the length, puts the moved content at its target and keeps every position outside the stretch between source and target |
| PlannerHub.MovedKeepsOthers | plannerhub/plugin.js:1470-1513 | the moved content ends at its target, and without it the others keep their relative order |
| PlannerHub.MovedNowhere | plannerhub/plugin.js:1487 | a task already at its target stays where it is |
| PlannerHub.MoveUpStep | plannerhub/plugin.js:1492-1497 | one swap with the item above carries the task one place up |
| PlannerHub.MoveDownStep | plannerhub/plugin.js:1500-1504 | one swap with the item below carries the task one place down |
| PlannerHub.MoveOf | plannerhub/plugin.js:1470-1487 | the move fails exactly when the task is missing or a given after-guid is missing; otherwise it takes the task from its position to a valid target |
| PlannerHub.MoveLandsAfter | plannerhub/plugin.js:1480-1510 | the moved task lands first without an after-guid, and otherwise directly below the after-task |
| PlannerHub.MoveTaskAfter | plannerhub/plugin.js:1470-1513 | the swaps succeed exactly when the move is possible and then leave the contents moved to the target; otherwise nothing changes |
| PlannerHub.TwoDigits | plannerhub/plugin.js:1124 | two digits read as a number below 100 |
| PlannerHub.MatchClock | plannerhub/plugin.js:1122-1124 | `\d{1,2} \d{2}:\d{2}` at the start takes seven or eight characters, with each number below 100; text not starting with a digit does not match |
| PlannerHub.MatchHalf | plannerhub/plugin.js:1122-1124 | one half of the pattern takes at least eight characters, and its month is the second three-character word, made of word characters |
| PlannerHub.MatchAt | plannerhub/plugin.js:1122-1124 | a match at a position is one half there, the separator ` — ` right after it and a second half after that, in the current year |
| PlannerHub.SearchFrom | plannerhub/plugin.js:1124-1125 | the search finds a match at some position from where it starts, and finds none exactly when the pattern matches at no such position |
| PlannerHub.FormatTimeRange | plannerhub/plugin.js:1088-1113 | a range is the formatted start, the separator ` — ` and the formatted end |
| PlannerHub.ParseTimeRange | plannerhub/plugin.js:1120-1157 | a recognised range carries the current year |
| PlannerHub.MonthIndex | plannerhub/plugin.js:1128-1141 | a month name read from the table is that month's number |
| PlannerHub.MonthLookup | plannerhub/plugin.js:1092-1141 | every month name the formatter writes reads back as its month |
| PlannerHub.NamesAreWords | plannerhub/plugin.js:1091-1124 | every day and month name the formatter writes is three word characters |
| PlannerHub.Pad2Digits | plannerhub/plugin.js:1109-1110 | a number below 100 padded to two places is its tens digit followed by its units digit |
| PlannerHub.ClockRoundTrip | plannerhub/plugin.js:1109-1124 | the day, hour and minute the formatter writes are read back by the pattern |
| PlannerHub.HalfRoundTrip | plannerhub/plugin.js:1089-1124 | one formatted end is matched in full by one half of the pattern, whatever follows it |
| PlannerHub.TimeRangeRoundTrip | plannerhub/plugin.js:1089-1157 | parsing a formatted range gives back the month, day, hour and minute of both ends, in the current year |
| PlannerHub.NoMatchNoRange | plannerhub/plugin.js:1125-1126 | text in which the pattern matches nowhere is not a time range |
| PlannerHub.SplitClock | plannerhub/plugin.js:1211 | the hours and minutes of a clock contain no `:` |
| PlannerHub.SignOf | plannerhub/plugin.js:1211 | a leading '-' gives the factor -1, anything else 1, and a leading sign is stripped |
| PlannerHub.NumberOfBlank | plannerhub/plugin.js:1211 | `Number` reads blank text as 0 |
| PlannerHub.NumberOfDigits | plannerhub/plugin.js:1211 | `Number` reads plain digits as their decimal value |
| PlannerHub.NumberOfSigned | plannerhub/plugin.js:1211 | `Number` reads "-N" as the negative and "+N" as the value of the digits N |
| PlannerHub.NumberOfNaN | plannerhub/plugin.js:1211 | text without white space at either end that holds a non-digit after its first character is NaN |
| PlannerHub.SplitPadded | plannerhub/plugin.js:1211 | a padded `HH:MM` splits into its two padded numbers |
| PlannerHub.ClockOfParts | plannerhub/plugin.js:1209-1213 | a clock whose two parts are numbers falls that many hours and minutes after midnight |
| PlannerHub.ClockMs | plannerhub/plugin.js:1209-1213 | text without ':' is an invalid date, and a valid time needs the text to split into hours and minutes |
| PlannerHub.ClockOfPadded | plannerhub/plugin.js:1209-1213 | a padded `HH:MM` falls that many hours and minutes after midnight |
| PlannerHub.DefaultWorkday | plannerhub/plugin.js:1340-1364 | the default workday runs from 09:00 to 18:00 |
| PlannerHub.ScheduleTask | plannerhub/plugin.js:1196-1254 | a missing task or a start that is neither a date nor text fails; otherwise the range goes to the first text child or to a new one, a date start is kept, and an end that is neither a date nor text is one hour after the start |
| PlannerHub.AddToToday | plannerhub/plugin.js:1521-1566 | an issue gives `work on ` and a reference to it; otherwise a text gives one text segment; neither creates nothing; the task goes after the last item of the section, or first when the section is empty |
| PlannerHub.AddToTodayIgnoresText | plannerhub/plugin.js:1532-1535 | with an issue, the text makes no difference |
| PlannerHub.FormatDate | plannerhub/plugin.js:1771-1776 | a formatted date is all digits |
| PlannerHub.DigitPrefix | plannerhub/plugin.js:1783-1785 | the digits `parseInt` reads are the longest run of digits at the start |
| PlannerHub.LeadingInt | plannerhub/plugin.js:1783-1785 | text made only of digits reads as its decimal value |
| PlannerHub.DigitPrefixPast | plannerhub/plugin.js:1783-1785 | the digits `parseInt` reads from digits followed by more text are those digits followed by the digits the rest starts with |
| PlannerHub.LeadingIntStops | plannerhub/plugin.js:1783-1785 | `parseInt` stops at the first character after the digits |
| PlannerHub.LeadingIntNaN | plannerhub/plugin.js:1783-1785 | text starting with a character other than white space, a sign or a digit is NaN |
| PlannerHub.LeadingIntSkipsBlankAndSign | plannerhub/plugin.js:1783-1785 | `parseInt` skips leading white space and honours a minus sign |
| PlannerHub.ParseDate | plannerhub/plugin.js:1781-1787 | a date is read exactly when the text has eight characters |
| PlannerHub.DateRoundTrip | plannerhub/plugin.js:1771-1787 | a date with a four-digit year formats to eight characters that parse back to the same year, month and day |
| PlannerHub.LaterStrictOrder | plannerhub/plugin.js:1849 | comparing the dates' times is a strict order, and any two different valid dates are comparable |
| PlannerHub.DateHeadingInsertPoint | plannerhub/plugin.js:1843-1856 | the loop over the top-level items yields the insertion point of the specification |
| PlannerHub.InsertPointFrom | plannerhub/plugin.js:1843-1856 | the insertion point is the one carried in, or one of the headings walked over |
| PlannerHub.InsertPointIsLater | plannerhub/plugin.js:1843-1856 | a new heading goes after a heading dated later than its date, or first |
| PlannerHub.InsertPointFirst | plannerhub/plugin.js:1843-1856 | a new heading goes first exactly when the first dated heading is not later than its date |
| PlannerHub.FirstConflict | plannerhub/plugin.js:1416-1418 | the conflict found is a blocked slot that overlaps the candidate slot; none exactly when no blocked slot does |
| PlannerHub.Gap | plannerhub/plugin.js:1411-1447 | a task is placed no earlier than the current time; an automatic slot starts before the end of the day and overlaps no blocked slot; an overflow slot starts at or after the end of the day |
| PlannerHub.Fill | plannerhub/plugin.js:1408-1449 | every pending task gets exactly one slot |
| PlannerHub.FindGap | plannerhub/plugin.js:1411-1433 | the inner loop stops at the slot of the gap specification |
| PlannerHub.PlaceTasks | plannerhub/plugin.js:1405-1449 | the placement loop yields the slots of the fill specification |
| PlannerHub.FillAt | plannerhub/plugin.js:1408-1449 | each task's slot carries its guid, lasts the default duration and is automatic or overflow; an automatic slot is free and inside the day, an overflow slot starts at or after the end of the day |
| PlannerHub.FillApart | plannerhub/plugin.js:1408-1449 | a later task's slot starts no earlier than an earlier task's slot ends, so placed slots never overlap each other |
| PlannerHub.InsertByStart | plannerhub/plugin.js:1452 | inserting into a sorted run adds exactly that slot |
| PlannerHub.InsertSorted | plannerhub/plugin.js:1452 | inserting into a run sorted by start keeps it sorted |
| PlannerHub.SortByStart | plannerhub/plugin.js:1399-1452 | the sort by start is a permutation whose result is sorted by start |
| PlannerHub.ScheduledSlots | plannerhub/plugin.js:1369-1376 | scheduled tasks become blocked slots of the scheduled kind |
| PlannerHub.EventSlots | plannerhub/plugin.js:1379-1392 | every calendar event becomes exactly one blocked slot of the calendar kind |
| PlannerHub.BlockedSlots | plannerhub/plugin.js:1366-1399 | the blocked slots are sorted by start and are exactly the scheduled slots and, when the calendar is included and answers, the event slots |
| PlannerHub.Pending | plannerhub/plugin.js:1402-1405 | the tasks that get a slot are exactly the unscheduled ones, leaving out the done ones unless completed tasks are included |
| PlannerHub.Timeline | plannerhub/plugin.js:1338-1455 | the timeline is sorted by start and holds one slot per blocked slot and per pending task |
| PlannerHub.TimelineShape | plannerhub/plugin.js:1338-1455 | the timeline is sorted by start and holds exactly the blocked slots and one slot per pending task, which carries its guid and lasts the default duration |
| PlannerHub.SortedHolds | plannerhub/plugin.js:1451-1452 | sorting the blocked and placed slots together keeps every slot of both |
| HabitHub.StatusOf | habithub/plugin.js:628-635 | a vice is perfect exactly at 0, passes exactly when it is counted and within the target, fails exactly above it; a habit passes exactly when done and is partial exactly when counted but not done |
| HabitHub.PerfectViceIsDone | habithub/plugin.js:601-611 | a vice with nothing counted today is perfect and done when its target is not negative |
| HabitHub.CompletedToday | habithub/plugin.js:601-611 | the number of completed habits is at most the number of habits |
| HabitHub.AllDoneAllComplete | habithub/plugin.js:601-611 | when every habit is done, every habit counts as complete |
| HabitHub.BuildSummaryText | habithub/plugin.js:1157-1185 | the summary starts with `✓ ` |
| HabitHub.SummaryParts | habithub/plugin.js:1157-1185 | the value and unit are shown only when the value is above 1; without a target or a value the summary ends with the emoji; otherwise it ends with `target hit!` once the total reaches the target, else with what is left followed by `left` for a vice and `to go` for a habit |
| HabitHub.FirstNumber | habithub/plugin.js:1072 | there is no number exactly when the text has no digit |
| HabitHub.ExtractValue | habithub/plugin.js:1064-1081 | the value is the first number of the first text segment that has one, and there is none exactly when no text segment has a digit |
| HabitHub.FirstRef | habithub/plugin.js:1015 | the reference found is one of the line's segments, and there is none exactly when the line has no reference |
| HabitHub.HabitWithGuid | habithub/plugin.js:1023 | the habit found has the guid, and there is none exactly when no habit has it |
| HabitHub.HabitNamed | habithub/plugin.js:1003-1009 | the habit found has the name |
| HabitHub.CountChecked | habithub/plugin.js:997-1012 | a `✓` line without a number changes no total; with a number and a name naming a habit, that habit's total grows by exactly the number (from 0 when it had none) and every other total is kept; otherwise the totals are unchanged |
| HabitHub.Amount | habithub/plugin.js:1043 | a line counts its value, or 1 when it has none or 0 |
| HabitHub.ProcessLinked | habithub/plugin.js:1029-1058 | a processed line adds its amount to its habit's total, logs that amount and is replaced by a summary starting with `✓ ` |
| HabitHub.Process | habithub/plugin.js:992-1058 | a line that is not processed gets no summary and writes no log; a skipped line changes no total |
| HabitHub.ProcessedExactly | habithub/plugin.js:992-1058 | a line is processed exactly when it does not start with `✓`, links a known habit and is not an open task; then only that habit's total changes, by the line's value or 1 |
| HabitHub.LinkedProcessed | habithub/plugin.js:1014-1058 | a line that links a known habit and is not ticked or an open task is processed for that habit |
| HabitHub.UnlinkedNotProcessed | habithub/plugin.js:996-1031 | any other line is not processed |
| HabitHub.UnlinkedIgnored | habithub/plugin.js:1014-1016 | a line with no reference that does not start with `✓` is ignored and changes no total |
| HabitHub.JournalScan.constructor | habithub/plugin.js:957-990 | a scan starts with no totals |
| HabitHub.JournalScan.ProcessLineItem | habithub/plugin.js:992-1058 | the totals map is updated in place as the specification of one line says, and the outcome, summary and logged value are those of that specification |
| HabitHub.OrOne | habithub/plugin.js:1107 | the default of one is never 0, and a non-zero value is kept |
| HabitHub.LastDated | habithub/plugin.js:1102-1104 | today's entry is the last line dated today, and there is none exactly when no line is |
| HabitHub.LastLogHeading | habithub/plugin.js:1097-1100 | the log heading found is a heading reading `Log` |
| HabitHub.EntryText | habithub/plugin.js:1113 | a log line starts with the date |
| HabitHub.AppendToHabitLog | habithub/plugin.js:1087-1151 | an existing entry for today is rewritten with its value plus the new value (or 1); without one, a new entry goes under the log heading, or with a new banner and heading, holding the new value, unless the inserter is missing, when nothing is written; the text is the entry text of the total |
| HabitHub.FirstNew | habithub/plugin.js:1138-1141 | the line found is the first undated line starting with the date, and there is none exactly when no line is both |
| HabitHub.Stamp | habithub/plugin.js:1138-1145 | setting the properties of the new line keeps the number of lines |
| HabitHub.LandsUnderHeading | habithub/plugin.js:1134-1145 | a new line inserted under the log heading is the one that gets today's date and total |
| HabitHub.LandsWithBanner | habithub/plugin.js:1122-1145 | a new line written with a new banner and heading is the one that gets today's date and total |
| HabitHub.AppendLands | habithub/plugin.js:1087-1151 | after an append the last line dated today carries the new total |
| HabitHub.LandsOnEntry | habithub/plugin.js:1115-1118 | rewriting today's entry in place keeps it the last line dated today |
| HabitHub.AppendAccumulates | habithub/plugin.js:1105-1119 | a second append on the same day rewrites the same entry with the sum of both values |
| HabitHub.ParseLogText | habithub/plugin.js:453-460 | a line is a log entry exactly when it starts with a `YYYY-MM-DD` date, which it then carries with a value that is not negative |
| HabitHub.EntryTextParses | habithub/plugin.js:1113 | a line written by the log writer reads back as its date and total |
| HabitHub.Repaired | habithub/plugin.js:449-471 | a repaired line keeps its text and no longer needs repair; a line that is not a log entry is left alone |
| HabitHub.RepairCount | habithub/plugin.js:464-470 | no more lines are repaired than were read |
| HabitHub.EntryCount | habithub/plugin.js:464-470 | the log entries read are at least those repaired and at most the lines read |
| HabitHub.RepairLogs | habithub/plugin.js:433-484 | every line's properties are rewritten from its text; the counts are the lines changed and the log entries left as they were |
| HabitHub.RepairIdempotent | habithub/plugin.js:449-471 | lines that need no repair are left as they are and counted as not repaired |
| HabitHub.SecondRunRepairsNothing | habithub/plugin.js:433-484 | after one repair a second one changes nothing and repairs no line |
| HabitHub.WrittenNeedsNoRepair | habithub/plugin.js:1113-1118 | a line stamped by the log writer needs no repair |
| HabitHub.FirstOnDay | habithub/plugin.js:865 | the log found is the first of the day, and there is none exactly when no log is for that day |
| HabitHub.DayValue | habithub/plugin.js:865-866 | a day's bar is its first log's value, or 0 without one |
| HabitHub.BuildSparklineData | habithub/plugin.js:856-871 | there is exactly one value per day, oldest first and ending today, each the day's value |
| HabitHub.BarColour | habithub/plugin.js:893-905 | a bar has no data exactly at 0; a vice with a target is green up to half of it, amber up to it and red above; other bars are plain |
| HabitHub.RenderSparkline | habithub/plugin.js:873-912 | there are exactly `days` bars, only the last one marked today; all-zero data gives only empty bars; otherwise each bar has its value's colour |
| HabitHub.LogValue | habithub/plugin.js:1288 | a log's value is never 0 |
| HabitHub.InsertDesc | habithub/plugin.js:1294 | inserting a log adds exactly that log |
| HabitHub.InsertDescSorted | habithub/plugin.js:1294 | inserting into logs sorted newest first keeps them sorted |
| HabitHub.SortDesc | habithub/plugin.js:1294 | sorting by date, newest first, is a permutation whose result is sorted |
| HabitHub.SumInsert | habithub/plugin.js:1308-1318 | inserting a log adds its value to every sum whose window holds its day |
| HabitHub.SumSorted | habithub/plugin.js:1294-1318 | sorting the logs changes no sum |
| HabitHub.RunAt | habithub/plugin.js:1320-1334 | a run of consecutive days ending at a log has at least that log and at most the logs up to it |
| HabitHub.RunAtMeaning | habithub/plugin.js:1320-1334 | a run covers consecutive days and cannot be extended further back |
| HabitHub.LeadShape | habithub/plugin.js:1320-1334 | the opening run ends where the days stop following each other |
| HabitHub.CurrentStreakMeaning | habithub/plugin.js:1320-1334 | when the newest log is today's or yesterday's, the current streak counts the newest logs while each is the day before the previous one, and stops at the first gap |
| HabitHub.LongestMeaning | habithub/plugin.js:1320-1341 | the best streak is at least every run and is one of them |
| HabitHub.BestAtLeastCurrent | habithub/plugin.js:1339-1341 | the best streak is never below the current one |
| HabitHub.Tally | habithub/plugin.js:1306-1341 | over logs sorted newest first the loop gives the total, the last week's total, today's total, the current and best streaks as intended, and the number of logs |
| HabitHub.HabitStats | habithub/plugin.js:1279-1350 | the sums over all logs, the last week and today hold whatever the logs' order, and the streaks are those of the logs sorted newest first |
| HabitHub.AsWrittenUpTo | habithub/plugin.js:1306-1334 | the streak counters as written never exceed the number of logs read |
| HabitHub.StreaksAsWritten | habithub/plugin.js:1320-1341 | as written, the reported best streak is never below the reported streak |
| HabitHub.StreaksAsWrittenMiscount | habithub/plugin.js:1320-1341 | as written, logs on today and on three consecutive days a week earlier report a streak of 2 and a best of 2 |
| HabitHub.StreaksIntended | habithub/plugin.js:1320-1341 | for the same logs the intended current streak is 1 and the intended best streak is 3 |
| HabitHub.LogsOf | habithub/plugin.js:1283-1291 | only lines with a date become logs, none of them valued 0; when every line is dated every line becomes a log |
| HabitHub.EmojiFor | habithub/plugin.js:1383-1395 | a known choice gives its emoji and anything else the star |
| HabitHub.CheckedValue | habithub/plugin.js:998-1000 | a number is read exactly when white space and a run of digits follow the tick, and it is the value of those digits |
| HabitHub.TickNumberUnique | habithub/plugin.js:998 | the white space and digits after the tick are maximal, so the number can sit in one place only |
| HabitHub.CheckedName | habithub/plugin.js:1002 | a name is read exactly when a word character follows the tick's white space; when digits, white space and a word follow, the name is that word, otherwise it is the word right after the white space; either way it is a whole non-empty run of word characters preceded only by white space and digits |
| Flow.TaskLabel | plugins/flow/plugin.js:955 | a task's label is never empty and is its own text whenever that text is non-empty |
| Flow.FirstOpen | plugins/flow/plugin.js:953 | the next task is the first one not done: every earlier task is done, and no result means all are done |
| Flow.FindGuid | plugins/flow/plugin.js:961 | the looked-up task is the first with the guid, and no result means no task has it |
| Flow.ChooseTask | plugins/flow/plugin.js:944-965 | without PlannerHub the session keeps the given guid and is labelled "Focus session"; a given guid is always kept; without one the first open task is taken; the label is never empty |
| Flow.Elapsed | plugins/flow/plugin.js:1032-1042 | elapsed time is never negative, is zero without a session, and for a running session is the time since the start minus the paused total |
| Flow.ElapsedFrozenWhilePaused | plugins/flow/plugin.js:1032-1042 | while paused the elapsed time is the same at every moment and equals the time counted up to the pause |
| Flow.ElapsedMonotoneWhileRunning | plugins/flow/plugin.js:1032-1042 | while running the elapsed time never goes down as the clock advances |
| Flow.Resumed | plugins/flow/plugin.js:999-1012 | resuming clears the pause, adds the length of the pause to the paused total and keeps the task and start time |
| Flow.PauseResumeKeepsElapsed | plugins/flow/plugin.js:986-1042 | pausing and then resuming leaves the elapsed time at the resume moment equal to the time counted at the pause |
| Flow.FormatTime | plugins/flow/plugin.js:1538-1543 | a non-negative time prints as its whole minutes, a colon and the two digits of the leftover seconds |
| Flow.Truncate | plugins/flow/plugin.js:1545-1548 | a string within the limit is kept; a longer one becomes its first `len` characters followed by "..." |
| Flow.Flow.constructor | plugins/flow/plugin.js:771-777 | a loaded plugin starts with no session, in status mode, with the overlay hidden |
| Flow.Flow.StartSession | plugins/flow/plugin.js:944-983 | a fresh running session replaces any old one, with the chosen task and label, no pauses; PlannerHub marks the task in progress exactly when it is there and the guid is given |
| Flow.Flow.PauseSession | plugins/flow/plugin.js:986-997 | pausing succeeds exactly on a running session, records the pause time and keeps the elapsed time; otherwise nothing changes |
| Flow.Flow.ResumeSession | plugins/flow/plugin.js:999-1012 | resuming succeeds exactly on a paused session, makes it running with the pause added to the total and keeps the elapsed time; otherwise nothing changes |
| Flow.Flow.EndSession | plugins/flow/plugin.js:1014-1030 | ending succeeds exactly when a session exists, always leaves none, and marks its task done exactly when PlannerHub is there and the session has a guid |
| Flow.Flow.SetMode | plugins/flow/plugin.js:1048-1053 | the display mode becomes the requested one |
| Flow.Flow.HandleStatusBarClick | plugins/flow/plugin.js:926-938 | a click on a hidden overlay shows it compact, on a compact one grows it to full, and on any other hides it and keeps the mode |
| Flow.ClickCycle | plugins/flow/plugin.js:926-938 | three clicks after loading end hidden, with the mode left at full |
| Streaming.FenceLang | agenthub/plugin.js:1784-1789 | for the leading-fence renderer a line opens a block exactly when it starts with three back-ticks, with the trimmed rest as language; for the indented one exactly when white space, three back-ticks and a rest without line terminator make the line, with the trimmed text after the back-ticks as language |
| Streaming.LeadingFenceLang | plugins/progressive-test/plugin.js:224-226 | a line opens a block exactly when it starts with three back-ticks, and the language is the trimmed rest |
| Streaming.IndentedFenceOnlyInAgentHub | agenthub/plugin.js:1785 | a fence after leading spaces opens a block with the trimmed language in AgentHub, and none in the leading-fence renderer |
| Streaming.Step | agenthub/plugin.js:1770-1797 | consuming one character counts it and hands over at most one new line or block, never changing what was handed over before |
| Streaming.RunAdvances | agenthub/plugin.js:1770-1797 | consuming a run of characters counts every one of them and only appends to what was handed over, at most one item per character |
| Streaming.UpdateConsumesAll | agenthub/plugin.js:1766-1797 | after an update every character of the full text has been consumed |
| Streaming.UpdateIdempotent | agenthub/plugin.js:1766-1768 | updating twice with the same text is the same as updating once: nothing is consumed or handed over twice |
| Streaming.StepKeepsLineBuffer | agenthub/plugin.js:1783-1796 | outside a code block the buffer never holds a newline after a character is consumed |
| Streaming.RunKeepsLineBuffer | agenthub/plugin.js:1770-1797 | outside a code block the buffer never holds a newline, whatever run of characters is consumed |
| Streaming.StepHandsOverSingleLines | agenthub/plugin.js:1791-1793 | every plain line handed over after one character is non-blank and holds no newline |
| Streaming.RunHandsOverSingleLines | agenthub/plugin.js:1770-1797 | every plain line handed over during an update is non-blank and holds no newline |
| Streaming.ClosingFenceHandsOverBody | agenthub/plugin.js:1774-1782 | a block closing with a newline, the fence and a newline hands over exactly the text before the fence and leaves the block |
| Streaming.BlankLineRendersNothing | agenthub/plugin.js:1794-1795 | a blank line outside a block hands nothing over and empties the buffer |
| Streaming.FenceOpensBlock | agenthub/plugin.js:1787-1790 | a fence line opens a block with its language, empties the buffer and is not handed over |
| Streaming.Finalized | agenthub/plugin.js:1882-1890 | a blank leftover buffer hands nothing over; a non-blank one is handed over, as a code block inside a block and as a line otherwise |
| Streaming.NormalizeLanguage | agenthub/plugin.js:1902-1909 | no language is "plaintext"; one of the six short aliases is its full name, case-insensitively; any other is lower-cased |
| Streaming.Renderer.constructor | agenthub/plugin.js:1746-1758 | a new renderer has consumed nothing, has an empty buffer, is outside any block and has handed nothing over |
| Streaming.Renderer.Update | agenthub/plugin.js:1766-1800 | the renderer's new fields are those of consuming, one character at a time, the text beyond the characters already consumed |
| Streaming.Renderer.Finalize | agenthub/plugin.js:1882-1890 | the renderer's new fields are those of handing over the non-blank leftover buffer |
| Streaming.IndentedFenceLang | agenthub/plugin.js:1785-1789 | a line is a fence exactly when white space, three back-ticks and a rest without line terminator make it, and the language is the trimmed text after the back-ticks |
| Streaming.IndentedFenceUnique | agenthub/plugin.js:1785 | the back-ticks of a fence can only start where the leading white space ends |
| AgentHub.Markers | agenthub/plugin.js:823-833 | every marker guid belongs to a top-level item of the page |
| AgentHub.CollectMarkers | agenthub/plugin.js:823-833 | the first pass collects exactly the top-level items whose first segment is bold and whose text matches the robot marker |
| AgentHub.Flush | agenthub/plugin.js:862-864 | the current message is pushed, trimmed, exactly when it has a role and non-blank content; otherwise the messages are unchanged |
| AgentHub.FlushGood | agenthub/plugin.js:862-864 | pushing the current message keeps every message non-empty and trimmed |
| AgentHub.ChatFoldGood | agenthub/plugin.js:838-885 | the second pass only ever pushes non-empty, trimmed messages |
| AgentHub.ChatMessagesAreTrimmed | agenthub/plugin.js:838-903 | every message read off a page is non-empty and has no white space at either end |
| AgentHub.FoldSkipsDeep | agenthub/plugin.js:851-852 | an item neither top-level nor a marker's child changes nothing in the second pass |
| AgentHub.MarkersSkipDeep | agenthub/plugin.js:825 | an item that is not top-level changes nothing in the first pass |
| AgentHub.DeepItemIgnored | agenthub/plugin.js:851-852 | removing an item nested deeper than a marker's children leaves the page's messages as they were |
| AgentHub.AssistantChildrenJoined | agenthub/plugin.js:876-884 | the non-blank children of a marker form one assistant message: their texts, one per line |
| AgentHub.ExtractLinks | agenthub/plugin.js:909-921 | at most one link per segment, and every link has a guid and a non-empty title |
| AgentHub.AddLink | agenthub/plugin.js:890-897 | a link either changes nothing or appends the resolved record; guids stay distinct |
| AgentHub.AddLinks | agenthub/plugin.js:889-897 | collecting a run of links keeps the linked records' guids distinct |
| AgentHub.LinkedOf | agenthub/plugin.js:838-897 | the linked records of a page have distinct guids |
| AgentHub.ReadItems | agenthub/plugin.js:838-898 | the second pass loop ends with the messages and linked records of folding every item of the page |
| AgentHub.ParseChatPage | agenthub/plugin.js:814-907 | the messages and linked records are those the two passes define; the messages are trimmed and non-empty and the linked guids distinct |
| AgentHub.ReplaceAllWithout | agenthub/plugin.js:950-956 | a global replace leaves a text without the pattern unchanged |
| AgentHub.ExpandPlain | agenthub/plugin.js:955 | a replacement text without '$' is inserted as it is |
| AgentHub.ReplaceFromWithout | agenthub/plugin.js:951-955 | past the last occurrence of the pattern the text is kept as it is |
| AgentHub.ReplaceFromUpTo | agenthub/plugin.js:951-955 | a stretch holding no character that starts the pattern is kept as it is |
| AgentHub.ReplaceFromMiss | agenthub/plugin.js:951-955 | a character that does not start the pattern is kept and the search goes on after it |
| AgentHub.ReplaceFromHit | agenthub/plugin.js:951-955 | an occurrence is replaced by the expanded replacement and the search goes on after it, so occurrences do not overlap |
| AgentHub.PlainTitleReplaces | agenthub/plugin.js:950-956 | in a text with no other '[' and for a title without '$', the reference becomes the quoted title and nothing else changes |
| AgentHub.DollarTitles | agenthub/plugin.js:955 | a title `$&` puts the reference itself back inside the quotes, and a title `$$` becomes a single '$', as the replacement patterns of `String.prototype.replace` say |
| AgentHub.ReplaceAllAfterText | agenthub/plugin.js:950-956 | a global replace keeps the text before the first occurrence and puts the expanded replacement in its place, with `$` patterns read against the whole text, then goes on after it |
| AgentHub.ReplaceOnce | agenthub/plugin.js:950-956 | a pattern that occurs once, replaced by text without `$`, is swapped for that text and nothing else changes |
| AgentHub.FirstUser | agenthub/plugin.js:972 | the result is the first user message's index, and none means there is no user message |
| AgentHub.FirstUserByRoles | agenthub/plugin.js:972 | which message is the first user message depends on the roles alone |
| AgentHub.FirstUserIs | agenthub/plugin.js:972 | a user message with no user message before it is the first user message |
| AgentHub.FirstUserNone | agenthub/plugin.js:972 | without user messages there is no first user message |
| AgentHub.FindFirstUser | agenthub/plugin.js:972 | the search loop returns the first user message's index |
| AgentHub.BuildMessages | agenthub/plugin.js:947-983 | the same number of messages with the same roles; each has every reference replaced as `String.prototype.replace` does with a quoted title, `$` patterns included, and only the first user message is prefixed by the context block; without linked records nothing changes |
| AgentHub.ReplaceInAll | agenthub/plugin.js:952-957 | one record's references are replaced in every message, and nothing else in them changes |
| AgentHub.ReplaceLinksInPlace | agenthub/plugin.js:949-959 | after the loop every message has the references of every linked record replaced |
| AgentHub.BuildMessagesInPlace | agenthub/plugin.js:947-983 | the rewritten array holds the messages `BuildMessages` defines |
| AgentHub.MergeDelta | agenthub/plugin.js:1650-1666 | a delta touches only its slot (its index, or a new one at the end), growing the array with holes; a new slot's id is the delta's or `call_<idx>`; a given id or name overwrites and an absent one is kept; arguments are appended |
| AgentHub.ArgumentsConcatenate | agenthub/plugin.js:1650-1666 | the deltas for one slot build its arguments by concatenation, in arrival order |
| AgentHub.MergeToolCalls | agenthub/plugin.js:1648-1667 | the loop over a chunk's tool-call deltas merges them in order and never shrinks the array |
| AgentHub.UpdateStats | agenthub/plugin.js:1915-1931 | invocations grow by one; token counts grow by the usage only when there is one; generation time grows only by a positive duration |
| AgentHub.StatsGrow | agenthub/plugin.js:1915-1931 | with non-negative usage no counter ever goes down |
| AgentHub.ChatLogTitle | agenthub/plugin.js:1943-1947 | the journal title is the chat's trimmed name, or "Untitled Chat" when it is blank, followed by the agent's name in parentheses |
| AgentHub.RenderedCount | agenthub/plugin.js:1803-1864 | no more items are counted than were handed over |
| AgentHub.LineCreatedUnlessRule | agenthub/plugin.js:1803-1805 | with SyncHub present every non-blank line that is no horizontal rule becomes an item |
| AgentHub.FinalizeAgent | agenthub/plugin.js:1882-1897 | finalizing hands over the leftover buffer and returns how many handed-over lines and blocks became items |
| ProgressiveTest.FindClose | plugins/progressive-test/plugin.js:405 | a lazy match ends where the closing marker follows, inside the text |
| ProgressiveTest.Enclosed | plugins/progressive-test/plugin.js:405-421 | a marker match starts with the opening marker, captures at least one character and ends with the closing marker |
| ProgressiveTest.NextSpecial | plugins/progressive-test/plugin.js:429 | the result is the first star or back-tick, and none means the text holds neither |
| ProgressiveTest.FallbackStep | plugins/progressive-test/plugin.js:403-438 | every turn of the loop consumes at least one character and no more than remain |
| ProgressiveTest.StepSource | plugins/progressive-test/plugin.js:403-438 | the segment of one turn, with its markers put back, is exactly the text the turn consumed |
| ProgressiveTest.InlineRoundTrip | plugins/progressive-test/plugin.js:400-441 | no character is lost or invented: the fallback's segments, with their markers, spell out the text |
| ProgressiveTest.Fallback | plugins/progressive-test/plugin.js:440 | the fallback never returns an empty list, and empty text is one empty plain segment |
| ProgressiveTest.FallbackParse | plugins/progressive-test/plugin.js:400-440 | the parsing loop yields the segments `Fallback` defines |
| ProgressiveTest.PlainTextOneSegment | plugins/progressive-test/plugin.js:429-435 | text with no star or back-tick is one plain segment |
| ProgressiveTest.DashItem | plugins/progressive-test/plugin.js:368 | a bullet line starts with a dash or star in the first column and has non-empty text |
| ProgressiveTest.NumberItem | plugins/progressive-test/plugin.js:375 | a numbered line starts with a digit in the first column and has non-empty text |
| ProgressiveTest.LineText | plugins/progressive-test/plugin.js:367-385 | a line starting with "> " is a quote of the rest, overriding the list rules; a plain line keeps its whole text |
| ProgressiveTest.ListRulesExclusive | plugins/progressive-test/plugin.js:367-385 | no line is both a bullet and a numbered item, and a quote line is neither |
| ProgressiveTest.ParseLine | plugins/progressive-test/plugin.js:355-391 | a heading is one plain segment with the text after the hashes; any other line has its kind and its inline text parsed by SyncHub's parser when present and by the fallback otherwise; never an empty list |
| ProgressiveTest.ChunkSize | plugins/progressive-test/plugin.js:124-129 | every chunk holds between one and eight characters |
| ProgressiveTest.Cum | plugins/progressive-test/plugin.js:127-134 | after `n` chunks at least `n` characters have been streamed |
| ProgressiveTest.LensIncrease | plugins/progressive-test/plugin.js:127-137 | the prefixes fed to the renderer are strictly longer each time and never past the text |
| ProgressiveTest.SimulateStreaming | plugins/progressive-test/plugin.js:120-148 | successively longer prefixes are fed, the last one being the whole text (none for empty text), and the renderer ends as updating with them in order and finalizing makes it |
| GitHub.ExternalId | plugins/github/plugin.js:458 | the external id is "github_" followed by the issue id |
| GitHub.ExternalIdInjective | plugins/github/plugin.js:458 | issues with different GitHub ids get different external ids |
| GitHub.IndexOfPart | plugins/github/plugin.js:463 | `indexOf` gives the first position of the part, or -1 exactly when it is absent |
| GitHub.RepoOfIssueUrl | plugins/github/plugin.js:462-464 | the repository read from an issue or pull-request page of owner/name is "owner/name" |
| GitHub.Lookup | plugins/github/plugin.js:467 | a key of the projects mapping is found exactly when present, and the value is the one stored under its last occurrence, as `JSON.parse` keeps the last of duplicate keys |
| GitHub.ProjectOf | plugins/github/plugin.js:467 | a project is never empty; a non-empty entry for the full path wins; no project means the full path has no non-empty entry |
| GitHub.ProjectByRepoName | plugins/github/plugin.js:467 | without an entry for owner/name, a non-empty entry for the bare repository name selects the project |
| GitHub.MergeState | plugins/github/plugin.js:497-518 | a closed issue sets Closed exactly when the record is neither Closed nor Cancelled; an open issue sets Open exactly when it is; any other workflow state is kept |
| GitHub.MergeStateSettles | plugins/github/plugin.js:497-518 | once the merged state is applied, the same GitHub state changes it no more |
| GitHub.StateToVerb | plugins/github/plugin.js:569-574 | a merged pull request is "merged"; otherwise Open is "opened", Closed is "closed" and anything else "updated"; never "edited" |
| GitHub.DataOf | plugins/github/plugin.js:473-490 | the field values carry the issue's external id and `updated_at`, type PR for a pull request and Issue otherwise, the body or "" when it is null, and no state yet |
| GitHub.SetFields | plugins/github/plugin.js:612-629 | every field but the title is written: external id and `updated_at` always, project and state only when given; guid, title, body and contents are untouched |
| GitHub.Created | plugins/github/plugin.js:580-600 | a created record has the new guid, the issue title, the issue's external id, `updated_at`, state and body, and no line items yet |
| GitHub.FindRecord | plugins/github/plugin.js:459 | the result is the first record with the external id, and none means no record has it |
| GitHub.FindRecordIs | plugins/github/plugin.js:459 | a record with the id and no earlier one with it is the record found |
| GitHub.Step | plugins/github/plugin.js:457-564 | one issue keeps the records' ids, raises at most one counter by one, appends at most one change (only when counted) and adds at most one record; earlier changes are kept, and a new change is major exactly when its verb is not "edited" |
| GitHub.ProcessIssue | plugins/github/plugin.js:457-564 | the loop body computes one `Step` |
| GitHub.Process | plugins/github/plugin.js:451-567 | no more records are counted than issues, no more changes than counted, no more added than created; the existing records keep their ids; major exactly when no edit |
| GitHub.ProcessIssues | plugins/github/plugin.js:451-567 | the loop computes the counters, changes and records that `Process` defines |
| GitHub.StepEffect | plugins/github/plugin.js:457-564 | an issue with a record touches that record alone and gives it the issue's `updated_at`; one without keeps the records and appends one new record with the issue's id and `updated_at` |
| GitHub.StepKeepsInv | plugins/github/plugin.js:457-564 | with distinct ids, every issue processed so far keeps a record carrying its `updated_at` after one more issue |
| GitHub.SettledIsQuiet | plugins/github/plugin.js:491-492 | when every issue's record already carries its `updated_at`, a run counts, changes and creates nothing |
| GitHub.FirstRunSettles | plugins/github/plugin.js:451-567 | after a run over distinct ids in which every creation succeeds, each issue's record exists and carries its `updated_at` |
| GitHub.ReprocessIsQuiet | plugins/github/plugin.js:451-567 | processing the same payload again, against the records the first run left, counts, changes and creates nothing |
| GitHub.ReposToSync | plugins/github/plugin.js:325-329 | the projects mapping's keys, in order, replace the older `repos` list whenever there is at least one |
| GitHub.Since | plugins/github/plugin.js:333 | an incremental sync starts at the last run exactly when there is one and no full sync was asked for |
| GitHub.IncrementalQueryUsesDate | plugins/github/plugin.js:397-401 | the search is narrowed to issues updated on or after the date part of the timestamp |
| GitHub.FullSyncQueryUnchanged | plugins/github/plugin.js:333-401 | a forced full sync searches with the query as configured |
| GitHub.SyncPlan | plugins/github/plugin.js:284-353 | a plan exists only with status, Sync Hub collection, plugin record, token, Issues collection and something to fetch, and always when all are there; it starts at `Since` and fetches the repositories `ReposToSync` gives |
| GitHub.Totals | plugins/github/plugin.js:355-376 | the totals hold exactly as many changes as the fetches reported together, and each count is at least that of any single fetch |
| GitHub.SyncSummary | plugins/github/plugin.js:378-380 | the summary is "No changes" exactly when nothing was created or updated |
| GitHub.FailedFetchAddsNothing | plugins/github/plugin.js:419-421 | a fetch that fails reports zero counts and leaves the totals as they were |
| GitHub.Filtered | plugins/github/plugin.js:139-156 | a record is kept exactly when it passes every given filter, case-insensitively; nothing is added |
| GitHub.FindIssues | plugins/github/plugin.js:131-173 | without an Issues collection an error; otherwise the count is every matching record and the list the first `limit` of them (ten by default), each summarised |
| GitHub.FirstWhereNumber | plugins/github/plugin.js:184-187 | the first record whose non-zero number prints as the query, and none means there is no such record |
| GitHub.FirstWhereName | plugins/github/plugin.js:189-193 | the first record whose title contains the query case-insensitively, and none means there is none |
| GitHub.PickIssue | plugins/github/plugin.js:184-193 | a record matched by number wins, the first one; otherwise the first by title; none exactly when neither matches |
| GitHub.ChildLines | plugins/github/plugin.js:198-202 | the body holds at most one line per item, and a line is there exactly when it is the text of a direct child of the record |
| GitHub.GetIssue | plugins/github/plugin.js:175-219 | "Issues collection not found" without the collection; "Issue not found: " and the query exactly when no record is picked; otherwise the picked record's fields, and its child lines joined by newlines, or "(empty)" when there are none |
| GitHub.ResolveChoice | plugins/github/plugin.js:240-246 | a label equal to the state is chosen; any chosen label is one of the choices and equals the state ignoring case |
| GitHub.InProgressAnyCase | plugins/github/plugin.js:243-245 | a differently cased "In Progress" selects that label when no label matches exactly |
| GitHub.SetIssueState | plugins/github/plugin.js:221-253 | "Issues collection not found", "Issue not found: " with the query, or "State field not found", each in its own case; it succeeds exactly otherwise, and then changes the picked record alone, setting its state to the resolved label or keeping it, and answers with the record's name and the requested state |
| GitHub.GroupIndex | plugins/github/plugin.js:263 | the group of a repository is found exactly when one exists |
| GitHub.AddToGroups | plugins/github/plugin.js:262-264 | a title joins its repository's group, or opens a new group at the end when there is none; earlier groups keep their repositories |
| GitHub.GroupsPartition | plugins/github/plugin.js:260-265 | every listed issue lands in exactly one group, the group sizes add up to the list, and no repository has two groups |
| GitHub.SummarizeOpen | plugins/github/plugin.js:255-282 | an error exactly without the collection; the total counts every open issue; each group lists at most five of its titles |
| GitHub.SummaryCoversListed | plugins/github/plugin.js:255-274 | the group sizes add up to the open issues listed: all of them, up to fifty |
| GitHub.UpdateStep | plugins/github/plugin.js:491-546 | an unchanged `updated_at` changes nothing; otherwise the record alone is rewritten with the new `updated_at`, the merged state and the body when it is non-empty, the update is counted, and one change is logged: major with the new state's verb when the state changed, else a minor "edited" |
| GitHub.CreateStep | plugins/github/plugin.js:547-564 | a creation is always counted; with a guid the record is added starting Open or Closed as GitHub says, and one major change with that state's verb is logged; without a guid nothing else changes |
| GitHub.WriteBody | plugins/github/plugin.js:596-609 | a non-empty body replaces the record's contents; an empty body leaves the record as it was |
| GitHub.TotalsOne | plugins/github/plugin.js:355-376 | one fetch alone gives its own counts and changes |
| GitHub.TotalsAppend | plugins/github/plugin.js:355-376 | totals over two runs of fetches are their two totals added, with the first run's changes first |
| GitHub.ChildLinesAppend | plugins/github/plugin.js:198-202 | the lines of two runs of items are those of the first run followed by those of the second, in item order |
| GoogleContacts.DisplayName | plugins/google-contacts/plugin.js:599-602 | the name is non-empty exactly when the first name entry has a display, given or family name, and a display name wins |
| GoogleContacts.FullNameJoined | plugins/google-contacts/plugin.js:601 | without a display name, given and family name are joined by one space |
| GoogleContacts.PrimaryIndex | plugins/google-contacts/plugin.js:605-606 | an entry is chosen exactly when there is one: the first primary entry, else the first entry |
| GoogleContacts.FirstPrimary | plugins/google-contacts/plugin.js:605 | the first entry marked primary, and none means no entry is |
| GoogleContacts.FirstAnniversary | plugins/google-contacts/plugin.js:619 | the first anniversary event, and none means there is none |
| GoogleContacts.Anniversary | plugins/google-contacts/plugin.js:619-627 | an anniversary date is written exactly when the first anniversary event has a date with year, month and day |
| GoogleContacts.AnniversaryRoundTrip | plugins/google-contacts/plugin.js:625 | the written date splits at the dashes into three digit runs that read back as the year, the two-digit month and the two-digit day |
| GoogleContacts.MapContact | plugins/google-contacts/plugin.js:597-646 | the record data carries the external id, the display name, the update time and the anniversary; notes exactly when the first biography has text |
| GoogleContacts.PrimaryEmailWins | plugins/google-contacts/plugin.js:604-606 | the first primary email is the one written, even after non-primary ones |
| GoogleContacts.SetFields | plugins/google-contacts/plugin.js:676-699 | the synced fields are written; notes and anniversary only when given; created_at only when unset; name, keep-in-touch and last contact are untouched |
| GoogleContacts.UserFieldsSurvive | plugins/google-contacts/plugin.js:686-698 | a sync never clears notes the user wrote and never moves created_at |
| GoogleContacts.Created | plugins/google-contacts/plugin.js:654-669 | a created record has the new guid, the contact's name as title, and its external id and update time |
| GoogleContacts.FindPerson | plugins/google-contacts/plugin.js:551 | the first record with the external id, and none means no record has it |
| GoogleContacts.FindPersonIs | plugins/google-contacts/plugin.js:551 | a record with the id and no earlier one with it is the record found |
| GoogleContacts.Step | plugins/google-contacts/plugin.js:545-591 | a contact without resource name or name changes nothing; otherwise at most one counter rises, with exactly one change per count and one added record per creation; only creations are major |
| GoogleContacts.Process | plugins/google-contacts/plugin.js:538-594 | no more counts than contacts, one change per count, one added record per creation, existing ids kept; only creations are major |
| GoogleContacts.ProcessContacts | plugins/google-contacts/plugin.js:538-594 | the loop computes the counters, changes and records `Process` defines |
| GoogleContacts.ProcessContact | plugins/google-contacts/plugin.js:545-591 | the loop body computes one `Step` |
| GoogleContacts.SettledIsQuiet | plugins/google-contacts/plugin.js:562-566 | when every contact is skipped or its record carries its update time, a run counts, changes and creates nothing |
| GoogleContacts.StepEffect | plugins/google-contacts/plugin.js:561-590 | a contact with a record touches that record alone and gives it the update time; one without adds one record with its id and update time |
| GoogleContacts.StepKeepsInv | plugins/google-contacts/plugin.js:545-591 | with distinct resource names, every contact processed so far stays settled after one more |
| GoogleContacts.FirstRunSettles | plugins/google-contacts/plugin.js:538-594 | after a run over distinct resource names in which every creation succeeds, every contact is settled |
| GoogleContacts.ReprocessIsQuiet | plugins/google-contacts/plugin.js:538-594 | processing the same contacts again, against the records the first run left, counts, changes and creates nothing |
| GoogleContacts.SyncGate | plugins/google-contacts/plugin.js:380-432 | a sync goes on to fetch exactly with the Sync Hub collection, the plugin record, a parseable token with refresh token and endpoint, a refreshed access token and the People collection |
| GoogleContacts.SyncSummary | plugins/google-contacts/plugin.js:444-446 | the summary is "No changes" exactly when nothing was created or updated |
| GoogleContacts.HandleAuthMessage | plugins/google-contacts/plugin.js:124-150 | a contacts auth message with refresh token and endpoint is saved as sent; one without them is rejected; anything else is ignored |
| GoogleContacts.SaveToken | plugins/google-contacts/plugin.js:152-178 | the token field holds the serialized config and the plugin is enabled |
| GoogleContacts.AcceptedTokenPassesSync | plugins/google-contacts/plugin.js:124-420 | a token saved from an accepted message passes every token check of the next sync |
| GoogleContacts.FilterPeople | plugins/google-contacts/plugin.js:262-282 | a person is kept exactly when every given filter matches; nothing is added |
| GoogleContacts.FindPeople | plugins/google-contacts/plugin.js:255-298 | without People an error; otherwise the first people of the matches sorted by name, as many as match up to the limit (20 when absent or zero) |
| GoogleContacts.SearchFilter | plugins/google-contacts/plugin.js:311-318 | a person is kept exactly when name, email, organization or notes contain the query, ignoring case |
| GoogleContacts.SearchPeople | plugins/google-contacts/plugin.js:300-329 | no query is an error, no People collection another, and it succeeds exactly otherwise; the result is the first matches in collection order, as many as match up to the limit (10 when absent or zero) |
| GoogleContacts.IntervalDays | plugins/google-contacts/plugin.js:339-345 | an interval exists exactly for Weekly, Monthly, Quarterly and Yearly |
| GoogleContacts.DueFilter | plugins/google-contacts/plugin.js:348-357 | a person is kept exactly when due for contact; nothing is added |
| GoogleContacts.NeedsContact | plugins/google-contacts/plugin.js:331-367 | without People an error; otherwise exactly the people due for contact, each once, the longest uncontacted first |
| GoogleContacts.WeeklyBoundary | plugins/google-contacts/plugin.js:355-356 | a weekly contact eight days ago is due and one six days ago is not |
| GoogleContacts.NeverContactedIsDue | plugins/google-contacts/plugin.js:350-353 | a person never contacted is due whatever the frequency, unless it is Never |
| GoogleCalendar.SyncWindow | plugins/google-calendar/plugin.js:141-154 | the window always contains now; an incremental run (a last run and no forced full sync) spans 7 days back and 30 ahead, any other run 30 back and 90 ahead |
| GoogleCalendar.IncrementalWithinFull | plugins/google-calendar/plugin.js:141-154 | the incremental window lies inside the full window for the same moment |
| GoogleCalendar.ForcedRunIsFull | plugins/google-calendar/plugin.js:144-154 | forcing a full sync gives the full window whatever the last run was |
| GoogleCalendar.ExternalId | plugins/google-calendar/plugin.js:256 | the external id is the five-character `gcal_` prefix followed by the event id |
| GoogleCalendar.ExternalIdInjective | plugins/google-calendar/plugin.js:256-257 | two events share an external id only when they share an event id, so the record lookup cannot confuse events |
| GoogleCalendar.StartText | plugins/google-calendar/plugin.js:260-269 | an all-day event starts at its `date`, a timed one at its `dateTime` |
| GoogleCalendar.EndText | plugins/google-calendar/plugin.js:263-270 | the end is of the same kind as the start and falls back to the start when the event gives none |
| GoogleCalendar.MissingEndIsStart | plugins/google-calendar/plugin.js:265-269 | an event without an end ends where it starts |
| GoogleCalendar.AttendeeLabel | plugins/google-calendar/plugin.js:275 | an attendee is shown by display name when given, else by email, else as empty text |
| GoogleCalendar.Others | plugins/google-calendar/plugin.js:274 | exactly the attendees that are not the calendar owner are kept |
| GoogleCalendar.AttendeeNames | plugins/google-calendar/plugin.js:273-277 | the names are those of the first five non-owner attendees, in order |
| GoogleCalendar.NoOthersNoAttendees | plugins/google-calendar/plugin.js:273-277 | when only the owner attends, the attendees field is empty |
| GoogleCalendar.MapEvent | plugins/google-calendar/plugin.js:279-290 | the record data carries the `gcal_` id and the event's stamp; the title is the summary, or "Untitled Event" when there is none, and is never empty; all-day exactly when the start has a date; location and url default to empty |
| GoogleCalendar.SetFields | plugins/google-calendar/plugin.js:355-364 | writing the fields keeps the record's guid and title, sets the id and stamp, and marks the source "Google" |
| GoogleCalendar.SetFieldsIdempotent | plugins/google-calendar/plugin.js:355-364 | writing the same data twice leaves the record as writing it once |
| GoogleCalendar.Created | plugins/google-calendar/plugin.js:329-349 | a created record carries the new guid, the event title, its external id and its stamp |
| GoogleCalendar.FindRecord | plugins/google-calendar/plugin.js:257 | the lookup finds the first record with the external id, and none means no record has it |
| GoogleCalendar.Step | plugins/google-calendar/plugin.js:249-323 | a cancelled event changes nothing; otherwise at most one of the counters grows by one, record ids are kept, earlier changes are kept, and each new change is major exactly when it is an addition and carries the event's title |
| GoogleCalendar.Process | plugins/google-calendar/plugin.js:243-327 | over all events, creations and updates together are at most the number of events; every update and every created record is logged once; only additions are major |
| GoogleCalendar.AllCreatedLogged | plugins/google-calendar/plugin.js:306-321 | when every creation yields a record, each creation and each update logs exactly one change |
| GoogleCalendar.ProcessEvents | plugins/google-calendar/plugin.js:243-327 | the loop over the events computes exactly `Process` |
| GoogleCalendar.ProcessEvent | plugins/google-calendar/plugin.js:250-322 | the body of the loop for one event computes exactly one `Step` |
| GoogleCalendar.StepEffect | plugins/google-calendar/plugin.js:292-321 | a step on a stamped event stamps the event's own record, or appends one new stamped record, and leaves every other record as it was |
| GoogleCalendar.SettledIsQuiet | plugins/google-calendar/plugin.js:292-305 | when every event is cancelled or already has its record with the same stamp, a run updates, creates and logs nothing |
| GoogleCalendar.StepKeepsInv | plugins/google-calendar/plugin.js:250-322 | processing one more event with a fresh id keeps every processed event settled |
| GoogleCalendar.FirstRunSettles | plugins/google-calendar/plugin.js:243-327 | after a run over distinct, stamped events, every event is settled against the resulting records |
| GoogleCalendar.ReprocessIsQuiet | plugins/google-calendar/plugin.js:243-327 | re-running on the same distinct, stamped events against the records the first run left updates nothing, creates nothing and logs no change |
| GoogleCalendar.UnstampedAlwaysUpdates | plugins/google-calendar/plugin.js:294-296 | an event without an `updated` stamp is rewritten on every run that finds its record |
| GoogleCalendar.SyncGate | plugins/google-calendar/plugin.js:82-135 | the run goes on exactly when the Sync Hub collection, the plugin record, a non-empty parseable config with token endpoint and refresh token, a refreshed token and the Events collection are all there; otherwise it stops with the first failing reason |
| GoogleCalendar.Sync | plugins/google-calendar/plugin.js:156-176 | a stopped run reports its reason and zero counts, a failed fetch reports "Fetch failed", otherwise the counts and changes are those of processing and the summary says "No changes" exactly when nothing was created or updated |
| Readwise.Since | plugins/readwise/plugin.js:82-86 | a cut-off is sent exactly when there was a last run, no full sync is forced and the Captures collection has records, and it is the last run's time |
| Readwise.Separate | plugins/readwise/plugin.js:250-257 | every item lands in exactly one list: highlights are the items with a parent, documents the rest, nothing lost or duplicated |
| Readwise.SeparateAppend | plugins/readwise/plugin.js:228-265 | separating the results of several pages is separating each page and appending, so paging does not change the lists |
| Readwise.HighlightsOf | plugins/readwise/plugin.js:108-116 | the highlights of a document are exactly the highlights whose parent is that document, order kept |
| Readwise.ByParentIsHighlightsOf | plugins/readwise/plugin.js:108-116 | every entry of the grouping map is exactly the highlights of that document, and a key appears only when it has some |
| Readwise.GroupHighlights | plugins/readwise/plugin.js:108-116 | the grouping loop builds the map whose every lookup, absent keys giving the empty list, is the document's highlights |
| Readwise.QuoteLines | plugins/readwise/plugin.js:370 | one quoted line per line of the highlight text, each being "> " followed by that line |
| Readwise.QuoteRoundTrip | plugins/readwise/plugin.js:368-371 | every quoted line starts with "> ", and dropping those marks and rejoining gives back the highlight text |
| Readwise.Quote | plugins/readwise/plugin.js:368-372 | a highlight with text becomes a blockquote, one without text the empty string |
| Readwise.HighlightParts | plugins/readwise/plugin.js:366-380 | each highlight contributes its quote, then the note line with an empty line before it when there is a note, then an empty line |
| Readwise.HighlightPartsNoHeading | plugins/readwise/plugin.js:364-380 | no part a highlight contributes is the summary heading |
| Readwise.SummarySectionIffSummary | plugins/readwise/plugin.js:357-362 | the summary heading appears exactly when the document has a summary |
| Readwise.HighlightPartsLength | plugins/readwise/plugin.js:366-380 | the highlights give two parts each and two more for each note |
| Readwise.BuildHighlightsMarkdown | plugins/readwise/plugin.js:354-384 | the parts pushed, summary first and highlights after, joined by newlines |
| Readwise.PushHighlights | plugins/readwise/plugin.js:366-380 | the loop appends the parts of every highlight, in order, after what was pushed before |
| Readwise.PushHighlight | plugins/readwise/plugin.js:367-379 | the pushes for one highlight append exactly its parts |
| Readwise.CapitalizeCategory | plugins/readwise/plugin.js:274-277 | a missing or empty category gives ""; otherwise the same length with the first character upper-cased and the rest unchanged |
| Readwise.ExternalId | plugins/readwise/plugin.js:133 | the external id is the nine-character `readwise_` prefix followed by the document id |
| Readwise.ExternalIdInjective | plugins/readwise/plugin.js:133-134 | two documents share an external id only when they share a document id |
| Readwise.DocDataOf | plugins/readwise/plugin.js:136-145 | the record data carries the external id, the number of the document's highlights and the title or "Untitled", never empty |
| Readwise.SetFields | plugins/readwise/plugin.js:302-310 | writing the fields keeps guid, title and contents, sets id, count and source title, and changes the captured time only when the document has one |
| Readwise.NonEmptyTexts | plugins/readwise/plugin.js:161-163 | the trimmed highlight texts, none of them empty, no more than there are highlights |
| Readwise.HighlightTexts | plugins/readwise/plugin.js:160-164 | at most five texts are logged, none of them empty |
| Readwise.FindCapture | plugins/readwise/plugin.js:134 | the lookup finds the first record with the external id, and none means no record has it |
| Readwise.Step | plugins/readwise/plugin.js:124-198 | RSS documents and documents without highlights change nothing; a document with a capture counts one update and creates nothing; one without counts one creation exactly when the collection gives a guid, and adds a record for it; at most one change is logged, earlier changes are kept, a logged change is "highlighted" with at most five children, and it is major exactly for a creation |
| Readwise.Process | plugins/readwise/plugin.js:118-199 | over all documents, creations and updates together are at most the number of documents; one record is added per creation; every creation logs a change and no more changes are logged than creations and updates together |
| Readwise.ProcessDocuments | plugins/readwise/plugin.js:118-199 | the loop over the documents computes exactly `Process` |
| Readwise.ProcessDocument | plugins/readwise/plugin.js:124-198 | the loop body for one document computes exactly one `Step` |
| Readwise.UpdateDocument | plugins/readwise/plugin.js:147-173 | the existing-record branch computes the update step |
| Readwise.CreateDocument | plugins/readwise/plugin.js:174-197 | the new-record branch computes the creation step |
| Readwise.StepOnSettled | plugins/readwise/plugin.js:147-173 | a document whose record already counts its highlights creates and logs nothing, and every settled document stays settled |
| Readwise.SettledIsSilent | plugins/readwise/plugin.js:118-199 | when every document is settled, a run creates nothing and logs nothing |
| Readwise.StepKeepsInv | plugins/readwise/plugin.js:124-198 | processing one more document with a fresh id keeps every processed document settled |
| Readwise.FirstRunSettles | plugins/readwise/plugin.js:118-199 | after a run over documents with distinct ids, every document is settled against the resulting records |
| Readwise.ReprocessLogsNothing | plugins/readwise/plugin.js:118-199 | re-running the same documents and highlights against the records the first run left creates nothing and logs no change |
| Readwise.MoreHighlightsLogMinor | plugins/readwise/plugin.js:147-173 | a record whose highlight count grew logs exactly one minor "highlighted" change with the title and the first texts |
| Readwise.SyncGate | plugins/readwise/plugin.js:46-78 | the run goes on exactly when the Sync Hub collection, the plugin record, a non-empty token and the Captures collection are all there |
| Readwise.Sync | plugins/readwise/plugin.js:100-210 | a stopped run reports its reason and zero counts; no documents means "No changes"; otherwise the counts and changes are those of processing the documents with their grouped highlights, and the summary says "No changes" exactly when nothing was created or updated |
| Readwise.StepEffect | plugins/readwise/plugin.js:124-198 | a document with a capture touches that capture alone, counts one update and records the number of highlights; one without keeps the captures, counts one creation and appends one capture with the document's external id and highlight count |
| Telegram.GitHubAt | plugins/telegram/plugin.js:230-233 | a match yields a non-empty owner and repository without slashes, the kind "issues" or "pull" and a non-empty run of digits as the number |
| Telegram.GitHubAtParses | plugins/telegram/plugin.js:230-233 | the host, owner, repository, kind and number of an issue or pull request link are matched as exactly those parts |
| Telegram.GitHubLinkRecognised | plugins/telegram/plugin.js:220-233 | an http or https link to a GitHub issue or pull request is recognised, with its owner, repository, kind and number |
| Telegram.RouteOf | plugins/telegram/plugin.js:174-211 | a photo always goes to the photo handler; otherwise a text that is a URL as a whole after trimming goes to the GitHub, then calendar, then web handler, each exactly when the earlier ones do not apply, with the trimmed URL; everything else is handled as text |
| Telegram.LinkAt | plugins/telegram/plugin.js:461 | a matched link spells `[text](url)` at the start of the text, with non-empty text free of ']' and non-empty url free of ')' |
| Telegram.LinkAtOf | plugins/telegram/plugin.js:461 | a markdown link at the start of a text is matched with exactly its text, url and length |
| Telegram.FindLink | plugins/telegram/plugin.js:461-462 | the search returns the leftmost position where a link matches, and none means no position matches |
| Telegram.ParseInline | plugins/telegram/plugin.js:459-479 | the line starts with the bold time; without a link it is the time, then a space and the text |
| Telegram.ParseInlineFound | plugins/telegram/plugin.js:462-473 | with a link, the segments are the bold time, a space, the text before the link when non-empty, the link, and the text after it when non-empty |
| Telegram.ParseInlineRoundTrip | plugins/telegram/plugin.js:459-479 | after the bold time the segments spell out a space and the text again: nothing is lost, duplicated or moved |
| Telegram.AtMostOneLink | plugins/telegram/plugin.js:459-479 | only the first link of a line becomes a link segment, and a line without one gets none |
| Telegram.NonBlankLines | plugins/telegram/plugin.js:353 | only lines that are not all white space are kept, and a visible first line stays first |
| Telegram.Classify | plugins/telegram/plugin.js:349-358 | empty after trimming is blank; one visible line is a one-liner; two to five without a leading "# " a short note; two or more with a leading "# " a markdown document; anything else has more than five lines and is long text |
| Telegram.HeadingLine | plugins/telegram/plugin.js:548 | the heading match skips the white space after '#', starts at a visible character and stays within its line |
| Telegram.CaptureTitle | plugins/telegram/plugin.js:548-549 | the capture title is non-empty and holds no line break |
| Telegram.HeadingAndBody | plugins/telegram/plugin.js:548-567 | for a heading line followed by a body, the title is the heading text and the inserted body is the trimmed rest |
| Telegram.GitHubLineLinks | plugins/telegram/plugin.js:244 | the journal line of a GitHub link is the bold time, a space, "PR: " or "Issue: ", then one link titled "owner/repo#number" pointing to the URL |
| Telegram.HandleLinkOrPhoto | plugins/telegram/plugin.js:228-345 | GitHub and calendar links report a change exactly when there is a journal; a photo is captured under its caption or "Photo"; a web link without a Captures or Inbox collection is captured by URL; with one, it reports a major change exactly when the record was created; only a created web capture is major; a GitHub change is titled "owner/repo#number"; every change is "captured" |
| Telegram.HandleText | plugins/telegram/plugin.js:349-425 | blank text or no journal reports nothing and writes nothing; a reported change has a guid; it is major, with the verb "added", exactly for a markdown document captured into a new record, and otherwise "noted" with a title of at most 50 characters; a one-liner appends the trimmed text as one line |
| Telegram.HandleContent | plugins/telegram/plugin.js:360-425 | with visible text and a journal, a change is always reported, major exactly when a markdown document became a new capture |
| Telegram.Handle | plugins/telegram/plugin.js:174-211 | every reported change is "captured", "noted" or "added"; a photo always reports one; without a journal only a photo or a web link can report one |
| Telegram.LongTextWhole | plugins/telegram/plugin.js:411-416 | long text is inserted whole, with only the bold time put in front of it |
| Telegram.LastOffset | plugins/telegram/plugin.js:105 | the stored offset, with a missing or zero offset read as 0 |
| Telegram.NextOffset | plugins/telegram/plugin.js:155-157 | the offset written back is one past the id of the batch's last update |
| Telegram.NextOffsetPassesBatch | plugins/telegram/plugin.js:155-157 | with ids ascending, every update of the batch lies below the new offset, so the next poll does not see it again |
| Telegram.Routed | plugins/telegram/plugin.js:139-152 | no more changes are collected than there are updates |
| Telegram.NoMessagesNoChanges | plugins/telegram/plugin.js:139-142 | a batch without messages routes nothing |
| Telegram.RouteUpdates | plugins/telegram/plugin.js:135-152 | the loop collects exactly the routed changes and counts each one |
| Telegram.Sync | plugins/telegram/plugin.js:68-168 | the offset is written back exactly when the hub, its record and a bot token are there and a non-empty batch arrived; then it passes the batch and the summary counts the routed changes; every early exit routes nothing |
| CapturesCollection.SourcesWellFormed | collections/captures/plugin.js:12-17 | the sources have distinct labels, distinct non-empty lower-case ids, and no id that is also a label |
| CapturesCollection.SourceIdsLowerCase | collections/captures/plugin.js:12-17 | every source id is non-empty and already lower case |
| CapturesCollection.SourcesDistinct | collections/captures/plugin.js:12-17 | no two sources share a label or an id |
| CapturesCollection.SourceIdsAreNotLabels | collections/captures/plugin.js:12-17 | no source id is also a source label |
| CapturesCollection.SourceRoundTrip | collections/captures/plugin.js:20-31 | each source label maps to its id and the id maps back to that label |
| CapturesCollection.SourceLabelFindsId | collections/captures/plugin.js:34-39 | a filter by a source's label or id accepts a capture stored under that id in any case |
| CapturesCollection.Clip | collections/captures/plugin.js:171 | only the content changes, it is present exactly when it was, and it becomes its first n characters |
| CapturesCollection.FindMatching | collections/captures/plugin.js:124-134 | exactly the captures passing the source, author and book-title filters are kept, each no more often than it occurs |
| CapturesCollection.Find | collections/captures/plugin.js:117-147 | without the collection the error; otherwise the first `limit` matching captures (20 when the limit is absent or zero), in collection order, each passing every given filter |
| CapturesCollection.SearchMatching | collections/captures/plugin.js:158-163 | exactly the captures whose title, content or book title contains the query, ignoring case |
| CapturesCollection.SearchFound | collections/captures/plugin.js:158-166 | a prefix of the matches, in collection order, of the limit's length (10 by default) when the limit is not negative |
| CapturesCollection.Search | collections/captures/plugin.js:149-175 | a missing query is an error before the collection is looked up; otherwise the found captures with content cut to at most 200 characters |
| CapturesCollection.CapturedMillis | collections/captures/plugin.js:189-190 | the captured time, or the epoch when there is none |
| CapturesCollection.NewestFirstOrders | collections/captures/plugin.js:188-192 | the newest-first comparison is total and transitive, so sorting by it is well defined |
| CapturesCollection.SourceMatching | collections/captures/plugin.js:183-185 | exactly the captures of the given source are kept, or all of them without a source |
| CapturesCollection.RecentFound | collections/captures/plugin.js:181-195 | the first captures of the given source once sorted newest first, as many as match up to the limit (10 by default), drawn from the collection |
| CapturesCollection.Recent | collections/captures/plugin.js:177-205 | without the collection the error; otherwise the recent captures, still newest first, with content cut to at most 200 characters |
| CapturesCollection.UndatedLast | collections/captures/plugin.js:188-195 | in the answer, a capture dated after the epoch comes before every undated one |
| CapturesCollection.BookMatching | collections/captures/plugin.js:216-218 | exactly the captures whose book title contains the title, ignoring case |
| CapturesCollection.ByBook | collections/captures/plugin.js:207-230 | a missing title is an error before the collection is looked up; otherwise every capture of the book, in collection order, with content cut to 300 characters, and their number |
| CapturesCollection.ByBookKeepsOrder | collections/captures/plugin.js:213-229 | splitting the collection in two splits the book's captures and their count the same way, in order |
| PeopleCollection.KeepInTouchWellFormed | collections/people/plugin.js:12-18 | the cadences have distinct labels, distinct non-empty lower-case ids, and no id that is also a label |
| PeopleCollection.KeepInTouchIdsLowerCase | collections/people/plugin.js:12-18 | every cadence id is non-empty and already lower case |
| PeopleCollection.KeepInTouchDistinct | collections/people/plugin.js:12-18 | no two cadences share a label or an id |
| PeopleCollection.KeepInTouchIdsAreNotLabels | collections/people/plugin.js:12-18 | no cadence id is also a cadence label |
| PeopleCollection.KeepInTouchRoundTrip | collections/people/plugin.js:21-32 | each cadence label maps to its id and the id maps back to that label |
| PeopleCollection.CadenceFindsId | collections/people/plugin.js:35-40 | a filter by a cadence's label or id accepts a person stored under that id in any case |
| PeopleCollection.ByNameTotal | collections/people/plugin.js:148 | the name comparison is total, so every pair of people is ordered |
| PeopleCollection.FindMatching | collections/people/plugin.js:139-145 | exactly the people passing the organization and cadence filters are kept, each no more often than they occur |
| PeopleCollection.Find | collections/people/plugin.js:132-161 | without the collection the error; otherwise the first matching people once sorted by name, as many as match up to the limit (20 when absent or zero) |
| PeopleCollection.SearchMatching | collections/people/plugin.js:172-179 | exactly the people whose name, email, organization or notes contain the query, ignoring case |
| PeopleCollection.Search | collections/people/plugin.js:163-191 | a missing query is an error before the collection is looked up; otherwise the first `limit` matches (10 by default), in collection order |
| PeopleCollection.AllowedDays | collections/people/plugin.js:211-217 | a threshold exists exactly for Weekly, Monthly, Quarterly and Yearly |
| PeopleCollection.OverdueStays | collections/people/plugin.js:201-218 | whoever is overdue stays overdue as time passes |
| PeopleCollection.WeeklyThreshold | collections/people/plugin.js:209-212 | a weekly contact is overdue exactly when more than seven days have passed since the last contact |
| PeopleCollection.NoCadenceNoReminder | collections/people/plugin.js:203-216 | with Never, an empty or an unknown cadence, a person with a recorded contact is never overdue |
| PeopleCollection.NeverContactedIsOverdue | collections/people/plugin.js:204-207 | a person with a cadence other than Never and no recorded contact is always overdue |
| PeopleCollection.ContactMillis | collections/people/plugin.js:222-223 | the last contact, or the epoch when there is none |
| PeopleCollection.ContactOrders | collections/people/plugin.js:221-225 | the oldest-first and newest-first comparisons are total and transitive |
| PeopleCollection.OverdueAt | collections/people/plugin.js:201-218 | exactly the overdue people are kept, each no more often than they occur |
| PeopleCollection.NeedsContact | collections/people/plugin.js:193-238 | without the collection the error; otherwise the first overdue people once sorted longest-neglected first, as many as are overdue up to the limit (10 by default) |
| PeopleCollection.NeverContactedFirst | collections/people/plugin.js:220-228 | in the answer, the never-contacted come before anyone contacted after the epoch |
| PeopleCollection.AtOrganizationMatching | collections/people/plugin.js:249-251 | exactly the people whose organization contains the name, ignoring case |
| PeopleCollection.AtOrganization | collections/people/plugin.js:240-267 | a missing organization is an error before the collection is looked up; otherwise everyone at it, sorted by name and without a limit, a permutation of the matches, with their number |
| PeopleCollection.Cutoff | collections/people/plugin.js:274-277 | the cut-off lies the given number of days before now, 30 when absent or zero |
| PeopleCollection.ContactedSinceAll | collections/people/plugin.js:279-282 | exactly the people with a recorded contact on or after the cut-off |
| PeopleCollection.RecentContacts | collections/people/plugin.js:269-301 | without the collection the error; otherwise the first people contacted since the cut-off once sorted most recent first, as many as there are up to the limit (10 by default) |
| PeopleCollection.WeeklyOverdueNotRecent | collections/people/plugin.js:209-281 | someone overdue on a weekly cadence is not among the contacts of the last seven days |
| CalendarCollection.MapFor | collections/calendar/plugin.js:37-44 | a field name without a table of its own gets the empty table |
| CalendarCollection.CalendarsWellFormed | collections/calendar/plugin.js:11-16 | the calendar choices have distinct labels, distinct non-empty lower-case ids, and no id that is also a label |
| CalendarCollection.CalendarsLowerCase | collections/calendar/plugin.js:11-16 | every calendar id is non-empty and already lower case |
| CalendarCollection.CalendarsDistinct | collections/calendar/plugin.js:11-16 | no two calendar choices share a label or an id |
| CalendarCollection.CalendarsIdsAreNotLabels | collections/calendar/plugin.js:11-16 | no calendar id is also a calendar label |
| CalendarCollection.StatusesWellFormed | collections/calendar/plugin.js:18-22 | the status choices have distinct labels, distinct non-empty lower-case ids, and no id that is also a label |
| CalendarCollection.StatusesLowerCase | collections/calendar/plugin.js:18-22 | every status id is non-empty and already lower case |
| CalendarCollection.StatusesDistinct | collections/calendar/plugin.js:18-22 | no two status choices share a label or an id |
| CalendarCollection.StatusesIdsAreNotLabels | collections/calendar/plugin.js:18-22 | no status id is also a status label |
| CalendarCollection.EnergiesWellFormed | collections/calendar/plugin.js:24-28 | the energy choices have distinct labels, distinct non-empty lower-case ids, and no id that is also a label |
| CalendarCollection.EnergiesLowerCase | collections/calendar/plugin.js:24-28 | every energy id is non-empty and already lower case |
| CalendarCollection.EnergiesDistinct | collections/calendar/plugin.js:24-28 | no two energy choices share a label or an id |
| CalendarCollection.EnergiesIdsAreNotLabels | collections/calendar/plugin.js:24-28 | no energy id is also a energy label |
| CalendarCollection.OutcomesWellFormed | collections/calendar/plugin.js:30-34 | the outcome choices have distinct labels, distinct non-empty lower-case ids, and no id that is also a label |
| CalendarCollection.OutcomesLowerCase | collections/calendar/plugin.js:30-34 | every outcome id is non-empty and already lower case |
| CalendarCollection.OutcomesDistinct | collections/calendar/plugin.js:30-34 | no two outcome choices share a label or an id |
| CalendarCollection.OutcomesIdsAreNotLabels | collections/calendar/plugin.js:30-34 | no outcome id is also a outcome label |
| CalendarCollection.ChoiceRoundTrip | collections/calendar/plugin.js:37-62 | for each of the four fields, every label maps to its id and the id maps back to that label |
| CalendarCollection.UnknownFieldFallsBack | collections/calendar/plugin.js:44-61 | for a field without a table, labels are only lower-cased and ids only capitalised |
| CalendarCollection.DashDate | collections/calendar/plugin.js:84-87 | an eight-character stored date becomes ten characters with dashes at positions 4 and 7 |
| CalendarCollection.ColonTime | collections/calendar/plugin.js:96 | a four-character stored time becomes five characters with a colon at position 2 |
| CalendarCollection.DashDateUndashes | collections/calendar/plugin.js:84-87 | dropping the dashes gives the stored date back |
| CalendarCollection.ColonTimeUncolons | collections/calendar/plugin.js:96 | dropping the colon gives the stored time back |
| CalendarCollection.DashDateInjective | collections/calendar/plugin.js:84-87 | two stored dates with the same dashed form are the same date |
| CalendarCollection.StoredDateOrder | collections/calendar/plugin.js:143 | stored dates compare as strings exactly as year, then month, then day |
| CalendarCollection.DashedDateOrder | collections/calendar/plugin.js:138-143 | dashed dates compare as strings exactly as year, then month, then day |
| CalendarCollection.DashDateOrder | collections/calendar/plugin.js:138-143 | dashed dates compare as strings exactly as the stored dates do |
| CalendarCollection.FormatDateTime | collections/calendar/plugin.js:76-117 | a structure exactly when the record has a date; the date is dashed; all-day exactly without a time object; a time exactly when one is given; an end date exactly for a range with a date, and an end time only with an end date |
| CalendarCollection.FormatDateTimeRoundTrip | collections/calendar/plugin.js:84-97 | the stored date and time are recovered from the shown date and time |
| CalendarCollection.FourDigits | collections/calendar/plugin.js:123 | a year from 1000 to 9999 is written with four digits |
| CalendarCollection.LocalDateIsDashed | collections/calendar/plugin.js:122-126 | the local date string of a four-digit year is the dashed form of that day's stored date |
| CalendarCollection.IsOnDateStored | collections/calendar/plugin.js:131-147 | on well-formed dates, an event is on a day exactly when its stored date is that day or, for a range, the day lies between its start and end |
| CalendarCollection.FindMatching | collections/calendar/plugin.js:266-271 | exactly the events passing the calendar and status filters are kept, each no more often than it occurs |
| CalendarCollection.InstantOr0 | collections/calendar/plugin.js:275-276 | the event's instant, or the epoch when it has none |
| CalendarCollection.EarliestFirstOrders | collections/calendar/plugin.js:274-278 | the earliest-first comparison is total and transitive |
| CalendarCollection.Find | collections/calendar/plugin.js:259-291 | without the collection the error; otherwise the first matching events once sorted earliest first, as many as match up to the limit (20 when absent or zero) |
| CalendarCollection.TimeOf | collections/calendar/plugin.js:309-315 | the event's time exactly when its value has a time object |
| CalendarCollection.DayOf | collections/calendar/plugin.js:366 | the event's stored date exactly when it has a value |
| CalendarCollection.AllDayThenTimeTotal | collections/calendar/plugin.js:308-317 | the today comparison orders every pair of events |
| CalendarCollection.AllDayFirst | collections/calendar/plugin.js:311-313 | an all-day event goes before a timed one and never after it |
| CalendarCollection.TodayMatching | collections/calendar/plugin.js:301-305 | exactly the events on today's date of the calendar asked for |
| CalendarCollection.Today | collections/calendar/plugin.js:293-332 | without the collection the error; otherwise every event of today of the calendar asked for, all-day first then by time, without a limit, with their number and today's date |
| CalendarCollection.UpcomingMatching | collections/calendar/plugin.js:348-359 | exactly the events dated from today to the end date, of the calendar asked for |
| CalendarCollection.DateThenTimeTotal | collections/calendar/plugin.js:362-372 | the upcoming comparison orders every pair of events |
| CalendarCollection.EarlierDateFirst | collections/calendar/plugin.js:366 | of two neighbours in the answer on different well-formed dates, the earlier date comes first |
| CalendarCollection.Upcoming | collections/calendar/plugin.js:334-389 | without the collection the error; otherwise the period text, and the first events in the window of the calendar asked for once sorted by date, then all-day, then time, as many as match up to the limit (20 by default), with their count |
| CalendarCollection.LookAhead | collections/calendar/plugin.js:339 | without a number of days, or with zero, the window covers 7 days |
| CalendarCollection.InWindowStored | collections/calendar/plugin.js:353-354 | on well-formed dates the window test is today <= date <= end on the stored dates |
| CalendarCollection.FollowupMatching | collections/calendar/plugin.js:397 | exactly the events marked for follow-up |
| CalendarCollection.LatestFirstTotal | collections/calendar/plugin.js:400-404 | the latest-first comparison orders every pair of events |
| CalendarCollection.NeedsFollowup | collections/calendar/plugin.js:391-416 | without the collection the error; otherwise the first events marked "yes" for follow-up once sorted latest first, as many as there are up to the limit (10 by default) |
| CalendarCollection.SearchMatching | collections/calendar/plugin.js:427-432 | exactly the events whose title, location or attendees contain the query, ignoring case |
| CalendarCollection.Search | collections/calendar/plugin.js:418-444 | a missing query is an error before the collection is looked up; otherwise the first matches up to the limit (10 by default), in collection order |
| IssuesCollection.FindMatching | collections/issues/plugin.js:92-105 | exactly the issues passing the state, type, repo and assignee filters are kept, each no more often than it occurs |
| IssuesCollection.Find | collections/issues/plugin.js:85-119 | without the collection the error; otherwise the first matching issues up to the limit (20 when absent or zero), in collection order |
| IssuesCollection.StateFilterIsExact | collections/issues/plugin.js:92-94 | the state filter compares exactly: an issue stored as "open" is not found under "Open" |
| IssuesCollection.NumberDigits | collections/issues/plugin.js:131 | a number query is a non-empty run of digits, alone or after one '#' |
| IssuesCollection.NumberQuery | collections/issues/plugin.js:131-133 | a query names a number exactly when it has the digits form |
| IssuesCollection.NumberQueryReads | collections/issues/plugin.js:131-133 | both "N" and "#N" name issue N |
| IssuesCollection.WordIsNoNumber | collections/issues/plugin.js:131 | a query holding a non-digit anywhere after an optional leading '#' names no number |
| IssuesCollection.Get | collections/issues/plugin.js:121-163 | a missing query is an error before the collection is looked up; a number query returns the first issue with that number when there is one; otherwise the first issue whose title contains the lower-cased query; otherwise "Issue not found"; a found issue is always from the collection |
| IssuesCollection.NumberBeatsTitle | collections/issues/plugin.js:131-146 | "#N" returns the first issue numbered N even when an earlier title contains "#N" |
| IssuesCollection.SearchMatching | collections/issues/plugin.js:174-178 | exactly the issues whose title or repo contains the query, ignoring case |
| IssuesCollection.Search | collections/issues/plugin.js:165-190 | a missing query is an error before the collection is looked up; otherwise the first matches up to the limit (10 by default), in collection order |
| IssuesCollection.OpenMatching | collections/issues/plugin.js:199-208 | exactly the issues in an open state, of the repo and project asked for |
| IssuesCollection.GroupHolds | collections/issues/plugin.js:211-221 | each group lists the issues of its state, in collection order |
| IssuesCollection.GroupsNonEmpty | collections/issues/plugin.js:211-221 | a state has a group only once an issue of that state was taken, so no group is empty |
| IssuesCollection.GroupTotal | collections/issues/plugin.js:199-221 | with every issue open, only open states have groups and the group sizes add up to the number of issues |
| IssuesCollection.AddToGroup | collections/issues/plugin.js:213-220 | one turn of the loop appends the issue's entry to its state's group, creating the group when missing, and leaves the others |
| IssuesCollection.SummarizeOpen | collections/issues/plugin.js:192-227 | without the collection the error; otherwise the number of matching open issues and their grouping by state, built in one pass |
| IssuesCollection.SummaryAddsUp | collections/issues/plugin.js:199-226 | the summary's total is the sum of its group sizes, and only open states have groups |

## Left out

- Real concurrency in the desktop bridge is not modelled: goroutines, read/write mutexes, buffered channels, the atomic counter and the `time.After` timer. Each locked section is one atomic method, and the 30 s timeout is an explicit `Timeout` event.
- Socket and HTTP I/O (upgrade, frame reads and writes, close frames) is replaced by abstract connection handles and recorded outgoing messages. HTTP responses are (status, body) values.
- Server lifecycle wiring in `desktop/app.go`, the MCP Go SDK wrappers (`Start`, `registerTools`, `Stop`), `desktop/tray.go`, `desktop/main.go` and all of `cli/` are not part of this model. They are process wiring, UI and argument parsing around the core.
- Configuration file loading and saving are left out, because they are file I/O. Only the URL rule is modelled.
- Network calls are not modelled: LLM providers with SSE decoding, and the GitHub, Google, Readwise and Telegram APIs. OAuth refresh and popups are also out. Their results are parameters of the modelled functions.
- Thymer SDK internals are abstracted as record and line-item maps: collection lookup, line-item creation, property setters and segment setters. Promise chaining, `setTimeout`/`setInterval` scheduling and the short SDK waits are left out.
- The DOM and UI are left out: CSS, `innerHTML` rendering, the DOM-based HTML escaping, event listeners, status-bar labels and dashboards. Only the string-based `escapeHtml` of the desktop-bridge peer is modelled.
- Floating-point displays are left out: token and speed formatting in AgentHub, Flow's progress ring and percentage, HabitHub's vice-ratio thresholds and sparkline bar heights.
- JavaScript `Date`, time zones and `toLocale*` are left out. Dates are strings or day numbers, and the conversion from a date string to a day number is a parameter.
- The local rendering in the calendar collection's `formatDateTime` is left out. The end date of the upcoming filter is an input.
- `localeCompare` is modelled as code-point order.
- Array sorts are modelled as stable insertion sorts, which agrees with the stable `Array.prototype.sort`.
- Strings are sequences of code points. The model does not capture where UTF-16 lengths and slices differ.
- Case folding is ASCII only.
- The SyncHub core tool handlers at synchub/plugin.js:1259-1356 are left out. They are thin SDK queries, and only their registration and dispatch are modelled.
- PlannerHub.FillAt: the slot-ordering part of its contract is stated only for a non-negative default duration. A negative default is not covered.
- PlannerHub.FillApart: requires a non-negative default duration. Slot order under a negative default is not proved.
- In HabitHub, the model does not capture a ✓ mark found later in the text, which the unanchored pattern would match. It also leaves out fractional JavaScript values and the on-screen position of the banner.
- The collection tools' output rows are modelled as the matching records in order, not as the projected JSON objects. Successive `filter` calls are one conjunctive predicate.
- IssuesCollection.SummarizeOpen: does not model the key order of the `byState` object. It states the count per state and the total.
- Issue numbers are integers.
- The Telegram photo download and web-page title fetch are left out. They are network calls whose results would only fill the record's fields.
- In the people collection, the `needs_contact` day difference is stated over integer milliseconds rather than JavaScript floating-point days.
- GitHub.SettledIsQuiet and GitHub.ReprocessIsQuiet: the stored `updated_at` is the issue's own `updated_at` text. The source stores it as a `Date` and reads it back with `text('updated_at')`, and the model does not capture whether that read gives back the same text.
- GitHub.Created and GitHub.UpdateStep: the record's markdown `body` is kept as text. The line items that `insertMarkdown` and `replaceContents` build from it are not derived from it, so GitHub.GetIssue reads line items that the sync does not produce.
- PlannerHub.NumberOf: reads optional white space, an optional sign and decimal digits. Fractions, exponents, the `0x`, `0o` and `0b` prefixes and `Infinity`, which `Number` also accepts, read as NaN here.
- PlannerHub.ParseDate: keeps the year, month and day as `parseInt` reads them. The `Date` constructor's rollover of an out-of-range month or day, and its mapping of years 0 to 99 to 1900 to 1999, are not modelled, so PlannerHub.Later compares the fields as read.
- DesktopPeer.ReplyFrame: always carries the `result` or `error` key. `JSON.stringify` drops a key whose value is `undefined`, and the model has no `undefined` value.
- Common.DecodeStringField, Common.DecodeBoolField, Common.DecodeObjectField and Common.DecodeStringsField: read the field's exact key only. Go's `encoding/json` also fills a struct field from a key that equals the field name up to case, such as `Method` for `method`, and when several keys match, the last one in document order wins. JSON objects are maps here, with no document order, so a key that differs from the field name only in case counts as absent.
- Mcp.DecodeRequest: inherits that exact-key lookup for `jsonrpc`, `id`, `method` and `params`. `{"jsonrpc":"2.0","Method":"tools/list"}` decodes here with an empty method.
- Mcp.HandleStateless: inherits that exact-key lookup through Mcp.DecodeRequest, so `{"jsonrpc":"2.0","Method":"tools/list"}` is answered with -32601 here, while the Go server lists the tools.
- Api.DecodeSyncRequest: inherits that exact-key lookup for `plugin` and `all`.
- Api.HandleSync: inherits that exact-key lookup through Api.DecodeSyncRequest. A body such as `{"All":true}` starts no sync here.
- Api.CaptureText: inherits that exact-key lookup for `text`, `source` and `tags`. A body such as `{"Text":"hi"}` gives an empty text here, which Api.HandleCapture then rejects.
- Api.HandleCapture: inherits that exact-key lookup through Api.CaptureText.
- Api.DecodeMcpCall: inherits that exact-key lookup for `name` and `args`.
- Api.HandleMcpCall: inherits that exact-key lookup through Api.DecodeMcpCall.
- `plugins/_template/plugin.js` and the PlannerHub test harness are not part of this model.

## Findings

| source | as written | input that shows it | evidently intended | confidence | as-written member | corrected member |
|---|---|---|---|---|---|---|
| synchub/plugin.js:1565 | the underscore-italic pattern consumes the non-letter character before the opening `_` and the one after the closing `_` as part of the match, so these characters land in no segment | the text ` _b_ ` (space, underscore, b, underscore, space): the match spans all five characters and both spaces vanish | the neighbouring characters are only looked at, so the match is `_b_` and the spaces stay in the surrounding plain text | not executed | SyncHubMarkdown.UnderscoreItalicSwallowsNeighbours | SyncHubMarkdown.EarliestSpansMarkers |
| habithub/plugin.js:1320-1341 | the streak loop resets the running count to 0 rather than 1 when consecutive days break, and it reports the count reached at the oldest log as the current streak | logs on days 10, 5, 4 and 3 with today = 10 give current streak 2 and best streak 2 | current streak 1 (today only) and best streak 3 (days 3 to 5) | not executed | HabitHub.StreaksAsWrittenMiscount | HabitHub.StreaksIntended |
