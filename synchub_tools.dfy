// The agent-tool side of Sync Hub (synchub/plugin.js): the parameter schemas built
// from a collection's simple tool descriptions, the catalogue of core and collection
// tools handed to the agent, and the routing of a tool call by name.

module SyncHubTools {
  import opened Common

  // ---------------------------------------------------------------------
  // Parameter schemas

  /** One entry of `Object.entries(params)`. */
  datatype Param = Param(key: string, value: Json)

  /** What `buildParameters` makes of a parameter description: the schema of each
    * property and the required keys in entry order. */
  datatype Schema = Schema(properties: map<string, Json>, required: seq<string>)

  const EmptySchema: Schema := Schema(map[], [])

  /** The message of the TypeError a null description raises when `optional` is read. */
  const NullOptionalError: string := "Cannot read properties of null (reading 'optional')"

  function StringsJson(xs: seq<string>): (r: seq<Json>)
    ensures |r| == |xs| && forall i :: 0 <= i < |xs| ==> r[i] == JStr(xs[i])
  {
    if xs == [] then [] else StringsJson(xs[..|xs| - 1]) + [JStr(xs[|xs| - 1])]
  }

  /** The JSON object `{type: 'object', properties, required}`. */
  function SchemaJson(s: Schema): Json {
    JObj(map["type" := JStr("object"), "properties" := JObj(s.properties), "required" := JArr(StringsJson(s.required))])
  }

  /** `String.prototype.replace` with a one-character string pattern: only the first occurrence goes. */
  function RemoveFirst(s: string, c: char): (r: string)
    ensures c !in s ==> r == s
    ensures c in s ==> |r| == |s| - 1
  {
    if s == [] then []
    else if s[0] == c then s[1..]
    else [s[0]] + RemoveFirst(s[1..], c)
  }

  lemma {:induction false} RemoveTrailing(t: string, c: char)
    requires c !in t
    ensures RemoveFirst(t + [c], c) == t
  {
    if t != [] {
      assert (t + [c])[1..] == t[1..] + [c];
      RemoveTrailing(t[1..], c);
    }
  }

  /** `{...array}`: the elements keyed by their indices. */
  function IndexFields(xs: seq<Json>): (m: map<string, Json>)
  {
    if xs == [] then map[] else IndexFields(xs[..|xs| - 1])[NatToString(|xs| - 1) := xs[|xs| - 1]]
  }

  /** Values `buildParameters` turns into a property: strings and objects (arrays are objects). */
  predicate MakesProperty(v: Json) { v.JStr? || v.JObj? || v.JArr? }

  /** Whether such a value makes its key required: a string not ending in `?`, or an
    * object or array whose `optional` is not truthy. */
  predicate MakesRequired(v: Json) {
    (v.JStr? && !EndsWith(v.s, "?")) || (v.JObj? && !Truthy(Field(v, "optional"))) || v.JArr?
  }

  /** One pass of the loop body of `buildParameters`. */
  function AddParam(s: Schema, p: Param): (r: Result<Schema>)
  {
    match p.value
    case JStr(t) =>
      Ok(Schema(s.properties[p.key := JObj(map["type" := JStr(RemoveFirst(t, '?'))])],
        if EndsWith(t, "?") then s.required else s.required + [p.key]))
    case JObj(f) =>
      Ok(Schema(s.properties[p.key := JObj(f)],
        if Truthy(Field(p.value, "optional")) then s.required else s.required + [p.key]))
    case JArr(xs) => Ok(Schema(s.properties[p.key := JObj(IndexFields(xs))], s.required + [p.key]))
    case JNull => Err(NullOptionalError)
    case _ => Ok(s)
  }

  /** The schema the loop has built after the given entries. */
  function Parameters(ps: seq<Param>): (r: Result<Schema>)
  {
    if ps == [] then Ok(EmptySchema)
    else match Parameters(ps[..|ps| - 1])
      case Err(e) => Err(e)
      case Ok(s) => AddParam(s, ps[|ps| - 1])
  }

  /** `buildParameters`: no description gives the empty schema. */
  function ParametersOf(params: Option<seq<Param>>): Result<Schema> {
    if params.None? then Ok(EmptySchema) else Parameters(params.value)
  }

  /** `buildParameters` with its loop over the entries; a null description throws. */
  method BuildParameters(params: Option<seq<Param>>) returns (r: Result<Schema>)
    ensures r == ParametersOf(params)
  {
    if params.None? {
      return Ok(EmptySchema);
    }
    var ps := params.value;
    var properties: map<string, Json> := map[];
    var required: seq<string> := [];
    var i := 0;
    while i < |ps|
      invariant 0 <= i <= |ps|
      invariant Parameters(ps[..i]) == Ok(Schema(properties, required))
    {
      assert ps[..i + 1][..i] == ps[..i];
      var key := ps[i].key;
      var value := ps[i].value;
      if value.JStr? {
        var isRequired := !EndsWith(value.s, "?");
        properties := properties[key := JObj(map["type" := JStr(RemoveFirst(value.s, '?'))])];
        if isRequired {
          required := required + [key];
        }
      } else if value.JObj? {
        properties := properties[key := JObj(value.fields)];
        if !Truthy(Field(value, "optional")) {
          required := required + [key];
        }
      } else if value.JArr? {
        properties := properties[key := JObj(IndexFields(value.items))];
        required := required + [key];
      } else if value.JNull? {
        ParametersErrPersists(ps, i + 1);
        return Err(NullOptionalError);
      }
      i := i + 1;
    }
    assert ps[..|ps|] == ps;
    return Ok(Schema(properties, required));
  }

  /** A thrown error ends the loop: the whole description fails with it. */
  lemma {:induction false} ParametersErrPersists(ps: seq<Param>, j: nat)
    requires j <= |ps| && Parameters(ps[..j]).Err?
    ensures Parameters(ps) == Parameters(ps[..j])
    decreases |ps| - j
  {
    if j == |ps| {
      assert ps[..j] == ps;
    } else {
      assert ps[..j + 1][..j] == ps[..j];
      ParametersErrPersists(ps, j + 1);
    }
  }

  /** The description fails exactly when some entry's value is null. */
  lemma {:induction false} ParametersFailOnNull(ps: seq<Param>)
    ensures Parameters(ps).Err? <==> exists i :: 0 <= i < |ps| && ps[i].value == JNull
    ensures Parameters(ps).Err? ==> Parameters(ps).error == NullOptionalError
  {
    if ps != [] {
      var init := ps[..|ps| - 1];
      ParametersFailOnNull(init);
      if exists i :: 0 <= i < |init| && init[i].value == JNull {
        var i :| 0 <= i < |init| && init[i].value == JNull;
        assert ps[i] == init[i];
      }
      if exists i :: 0 <= i < |ps| && ps[i].value == JNull {
        var i :| 0 <= i < |ps| && ps[i].value == JNull;
        if i < |init| { assert init[i] == ps[i]; }
      }
    }
  }

  /** The properties are exactly the keys whose value is a string, an object or an array. */
  lemma {:induction false} ParametersProperties(ps: seq<Param>, k: string)
    requires Parameters(ps).Ok?
    ensures k in Parameters(ps).value.properties <==> exists i :: 0 <= i < |ps| && ps[i].key == k && MakesProperty(ps[i].value)
  {
    if ps != [] {
      var init := ps[..|ps| - 1];
      ParametersProperties(init, k);
      if exists i :: 0 <= i < |init| && init[i].key == k && MakesProperty(init[i].value) {
        var i :| 0 <= i < |init| && init[i].key == k && MakesProperty(init[i].value);
        assert ps[i] == init[i];
      }
      if exists i :: 0 <= i < |ps| && ps[i].key == k && MakesProperty(ps[i].value) {
        var i :| 0 <= i < |ps| && ps[i].key == k && MakesProperty(ps[i].value);
        if i < |init| { assert init[i] == ps[i]; }
      }
    }
  }

  /** A key is required exactly when some entry for it makes it required. */
  lemma {:induction false} ParametersRequired(ps: seq<Param>, k: string)
    requires Parameters(ps).Ok?
    ensures k in Parameters(ps).value.required <==> exists i :: 0 <= i < |ps| && ps[i].key == k && MakesRequired(ps[i].value)
  {
    if ps != [] {
      var init := ps[..|ps| - 1];
      ParametersRequired(init, k);
      if exists i :: 0 <= i < |init| && init[i].key == k && MakesRequired(init[i].value) {
        var i :| 0 <= i < |init| && init[i].key == k && MakesRequired(init[i].value);
        assert ps[i] == init[i];
      }
      if exists i :: 0 <= i < |ps| && ps[i].key == k && MakesRequired(ps[i].value) {
        var i :| 0 <= i < |ps| && ps[i].key == k && MakesRequired(ps[i].value);
        if i < |init| { assert init[i] == ps[i]; }
      }
    }
  }

  /** Every required key is a property. */
  lemma {:induction false} RequiredAreProperties(ps: seq<Param>)
    requires Parameters(ps).Ok?
    ensures forall k :: k in Parameters(ps).value.required ==> k in Parameters(ps).value.properties
  {
    if ps != [] {
      RequiredAreProperties(ps[..|ps| - 1]);
    }
  }

  /** `'T?'` is an optional property of type `T`; `'T'` (no `?`) a required one of type `T`. */
  lemma StringParam(s: Schema, key: string, t: string)
    requires '?' !in t
    ensures AddParam(s, Param(key, JStr(t + "?"))) == Ok(Schema(s.properties[key := JObj(map["type" := JStr(t)])], s.required))
    ensures AddParam(s, Param(key, JStr(t))) == Ok(Schema(s.properties[key := JObj(map["type" := JStr(t)])], s.required + [key]))
  {
    RemoveTrailing(t, '?');
    assert EndsWith(t + "?", "?") by { assert (t + "?")[|t|..] == "?"; }
    if |t| > 0 {
      assert t[|t| - 1..] != "?" by { assert t[|t| - 1] in t; }
    }
  }

  // ---------------------------------------------------------------------
  // The tool catalogue

  /** A tool a collection registers; the handler itself is not modelled, only whether there is one. */
  datatype ToolDef = ToolDef(name: string, description: string, parameters: Option<seq<Param>>, hasHandler: bool)

  /** The value `registerCollectionTools` stores for a collection. */
  datatype CollectionConfig = CollectionConfig(description: string, schema: Json, tools: seq<ToolDef>)

  /** One entry of the `collectionTools` Map, which keeps insertion order. */
  datatype Collection = Collection(name: string, config: CollectionConfig)

  /** A tool as the agent sees it (`function.name`, `function.description`, `function.parameters`)
    * and the collection it belongs to (none for core tools). */
  datatype ToolEntry = ToolEntry(name: string, description: string, parameters: Json, collection: Option<string>)

  function Prefix(collection: string): (p: string)
    ensures |p| == |collection| + 1
  {
    Lower(collection) + "_"
  }

  /** The name a collection tool is listed under. */
  function FullName(collection: string, tool: string): string {
    Prefix(collection) + tool
  }

  function StringProp(description: string): Json {
    JObj(map["type" := JStr("string"), "description" := JStr(description)])
  }

  function ObjectParams(properties: map<string, Json>, required: seq<string>): Json {
    JObj(map["type" := JStr("object"), "properties" := JObj(properties), "required" := JArr(StringsJson(required))])
  }

  /** `getCoreTools`, in its order. */
  const CoreEntries: seq<ToolEntry> := [
    ToolEntry("search_workspace",
      "Search across all collections for relevant context. Use this to find information before answering questions.",
      ObjectParams(map["query" := StringProp("Search query - keywords or phrases"),
        "limit" := JObj(map["type" := JStr("number"), "description" := JStr("Max results (default: 5)")])], ["query"]), None),
    ToolEntry("list_collections",
      "List all available collections and their schemas. Use this to understand what data is available.",
      ObjectParams(map[], []), None),
    ToolEntry("get_active_record", "Get the current page including its fields and body content.", ObjectParams(map[], []), None),
    ToolEntry("write_to_active_record", "Write markdown content to the currently active record.",
      ObjectParams(map["content" := StringProp("Markdown content to write"),
        "mode" := JObj(map["type" := JStr("string"), "enum" := JArr([JStr("replace"), JStr("prepend"), JStr("append")]),
          "description" := JStr("Write mode (default: prepend)")])], ["content"]), None),
    ToolEntry("log_to_journal", "Add an entry to today's journal.",
      ObjectParams(map["content" := StringProp("Content to add")], ["content"]), None)]

  /** The names `executeCoreToolCall` answers. */
  const CoreToolNames: seq<string> := ["search_workspace", "list_collections", "get_active_record", "write_to_active_record", "log_to_journal"]

  lemma CoreNamesListed()
    ensures |CoreEntries| == |CoreToolNames|
    ensures forall i :: 0 <= i < |CoreEntries| ==> CoreEntries[i].name == CoreToolNames[i] && CoreEntries[i].collection.None?
  {
  }

  /** The entry `getRegisteredTools` makes for one collection tool. */
  function CollectionEntry(collection: string, t: ToolDef): (r: Result<ToolEntry>)
    ensures r.Ok? ==> r.value.name == FullName(collection, t.name) && r.value.collection == Some(collection)
    ensures r.Ok? <==> ParametersOf(t.parameters).Ok?
  {
    match ParametersOf(t.parameters)
    case Err(e) => Err(e)
    case Ok(s) => Ok(ToolEntry(FullName(collection, t.name), "[" + collection + "] " + t.description, SchemaJson(s), Some(collection)))
  }

  /** The inner loop: the entries of a collection's tools, in order. */
  function ToolsEntries(collection: string, ts: seq<ToolDef>): Result<seq<ToolEntry>> {
    if ts == [] then Ok([])
    else match ToolsEntries(collection, ts[..|ts| - 1])
      case Err(e) => Err(e)
      case Ok(es) =>
        match CollectionEntry(collection, ts[|ts| - 1])
        case Err(e) => Err(e)
        case Ok(t) => Ok(es + [t])
  }

  /** The outer loop: the entries of the collections, in Map order. */
  function CollectionsEntries(cs: seq<Collection>): Result<seq<ToolEntry>> {
    if cs == [] then Ok([])
    else match CollectionsEntries(cs[..|cs| - 1])
      case Err(e) => Err(e)
      case Ok(es) =>
        match ToolsEntries(cs[|cs| - 1].name, cs[|cs| - 1].config.tools)
        case Err(e) => Err(e)
        case Ok(more) => Ok(es + more)
  }

  /** `getRegisteredTools`: the core tools, then every collection tool. */
  function Catalogue(cs: seq<Collection>): Result<seq<ToolEntry>> {
    match CollectionsEntries(cs)
    case Err(e) => Err(e)
    case Ok(es) => Ok(CoreEntries + es)
  }

  /** `getRegisteredTools` with its loop over the collections; a schema that throws ends the listing. */
  method GetRegisteredTools(cs: seq<Collection>) returns (r: Result<seq<ToolEntry>>)
    ensures r == Catalogue(cs)
  {
    var listed: seq<ToolEntry> := [];
    var i := 0;
    while i < |cs|
      invariant 0 <= i <= |cs|
      invariant CollectionsEntries(cs[..i]) == Ok(listed)
    {
      assert cs[..i + 1][..i] == cs[..i];
      var more := ListCollectionTools(cs[i].name, cs[i].config.tools);
      if more.Err? {
        CollectionsErrPersists(cs, i + 1);
        return Err(more.error);
      }
      listed := listed + more.value;
      i := i + 1;
    }
    assert cs[..|cs|] == cs;
    return Ok(CoreEntries + listed);
  }

  /** The inner loop of `getRegisteredTools`: one entry per tool of a collection. */
  method ListCollectionTools(name: string, ts: seq<ToolDef>) returns (r: Result<seq<ToolEntry>>)
    ensures r == ToolsEntries(name, ts)
  {
    var entries: seq<ToolEntry> := [];
    var j := 0;
    while j < |ts|
      invariant 0 <= j <= |ts|
      invariant ToolsEntries(name, ts[..j]) == Ok(entries)
    {
      assert ts[..j + 1][..j] == ts[..j];
      var schema := BuildParameters(ts[j].parameters);
      if schema.Err? {
        ToolsErrPersists(name, ts, j + 1);
        return Err(schema.error);
      }
      entries := entries + [ToolEntry(FullName(name, ts[j].name), "[" + name + "] " + ts[j].description, SchemaJson(schema.value), Some(name))];
      j := j + 1;
    }
    assert ts[..|ts|] == ts;
    return Ok(entries);
  }

  lemma {:induction false} ToolsErrPersists(collection: string, ts: seq<ToolDef>, j: nat)
    requires j <= |ts| && ToolsEntries(collection, ts[..j]).Err?
    ensures ToolsEntries(collection, ts) == ToolsEntries(collection, ts[..j])
    decreases |ts| - j
  {
    if j == |ts| {
      assert ts[..j] == ts;
    } else {
      assert ts[..j + 1][..j] == ts[..j];
      ToolsErrPersists(collection, ts, j + 1);
    }
  }

  lemma {:induction false} CollectionsErrPersists(cs: seq<Collection>, j: nat)
    requires j <= |cs| && CollectionsEntries(cs[..j]).Err?
    ensures CollectionsEntries(cs) == CollectionsEntries(cs[..j])
    decreases |cs| - j
  {
    if j == |cs| {
      assert cs[..j] == cs;
    } else {
      assert cs[..j + 1][..j] == cs[..j];
      CollectionsErrPersists(cs, j + 1);
    }
  }

  /** A collection's entries are its tools' entries, one each, in order. */
  lemma {:induction false} ToolsEntriesAre(collection: string, ts: seq<ToolDef>)
    requires ToolsEntries(collection, ts).Ok?
    ensures |ToolsEntries(collection, ts).value| == |ts|
    ensures forall k :: 0 <= k < |ts| ==> (CollectionEntry(collection, ts[k]).Ok?
      && ToolsEntries(collection, ts).value[k] == CollectionEntry(collection, ts[k]).value)
  {
    if ts != [] {
      var init := ts[..|ts| - 1];
      ToolsEntriesAre(collection, init);
      forall k | 0 <= k < |ts|
        ensures CollectionEntry(collection, ts[k]).Ok? && ToolsEntries(collection, ts).value[k] == CollectionEntry(collection, ts[k]).value
      {
        if k < |init| { assert ts[k] == init[k]; }
      }
    }
  }

  /** Every tool of every collection is listed, under its collection's lower-cased prefix. */
  lemma {:induction false} EveryToolListed(cs: seq<Collection>, i: nat, k: nat)
    requires i < |cs| && k < |cs[i].config.tools| && CollectionsEntries(cs).Ok?
    ensures CollectionEntry(cs[i].name, cs[i].config.tools[k]).Ok?
    ensures CollectionEntry(cs[i].name, cs[i].config.tools[k]).value in CollectionsEntries(cs).value
  {
    var init := cs[..|cs| - 1];
    var last := cs[|cs| - 1];
    if i < |init| {
      assert init[i] == cs[i];
      EveryToolListed(init, i, k);
    } else {
      ToolsEntriesAre(last.name, last.config.tools);
      assert ToolsEntries(last.name, last.config.tools).value[k] in ToolsEntries(last.name, last.config.tools).value;
    }
  }

  /** The catalogue starts with the five core tools and then lists exactly the collection tools. */
  lemma CatalogueShape(cs: seq<Collection>)
    requires Catalogue(cs).Ok?
    ensures Catalogue(cs).value[..|CoreEntries|] == CoreEntries
    ensures forall e :: e in Catalogue(cs).value[|CoreEntries|..] ==> e in CollectionsEntries(cs).value
  {
    var es := CollectionsEntries(cs).value;
    assert Catalogue(cs).value[|CoreEntries|..] == es;
  }

  /** Every listed collection entry comes from a tool of a registered collection. */
  lemma {:induction false} ListedToolsExist(cs: seq<Collection>, e: ToolEntry)
    requires CollectionsEntries(cs).Ok? && e in CollectionsEntries(cs).value
    ensures exists i, k :: (0 <= i < |cs| && 0 <= k < |cs[i].config.tools|
      && CollectionEntry(cs[i].name, cs[i].config.tools[k]) == Ok(e))
  {
    var init := cs[..|cs| - 1];
    var last := cs[|cs| - 1];
    var more := ToolsEntries(last.name, last.config.tools).value;
    if e in CollectionsEntries(init).value {
      ListedToolsExist(init, e);
      var i, k :| 0 <= i < |init| && 0 <= k < |init[i].config.tools| && CollectionEntry(init[i].name, init[i].config.tools[k]) == Ok(e);
      assert init[i] == cs[i];
    } else {
      assert e in more;
      ToolsEntriesAre(last.name, last.config.tools);
      var k :| 0 <= k < |more| && more[k] == e;
      assert CollectionEntry(cs[|cs| - 1].name, cs[|cs| - 1].config.tools[k]) == Ok(e);
    }
  }

  // ---------------------------------------------------------------------
  // Dispatch

  /** Where `executeToolCall` sends a call: a core tool, the tool at index `tool` of
    * the collection at index `collection`, or nowhere. */
  datatype Dispatch = CoreTool(name: string) | CollectionTool(collection: nat, tool: nat) | UnknownTool

  /** `config.tools.find(t => t.name === name)`. */
  function FindTool(ts: seq<ToolDef>, name: string): (r: Option<nat>)
    ensures r.Some? ==> r.value < |ts| && ts[r.value].name == name && forall k :: 0 <= k < r.value ==> ts[k].name != name
    ensures r.None? ==> forall k :: 0 <= k < |ts| ==> ts[k].name != name
  {
    if ts == [] then None
    else if ts[0].name == name then Some(0)
    else match FindTool(ts[1..], name)
      case None => None
      case Some(k) => Some(k + 1)
  }

  /** Whether collection `c` takes the call: the name carries its prefix and the first tool
    * with the rest of the name has a handler. */
  predicate Takes(c: Collection, name: string) {
    && StartsWith(name, Prefix(c.name))
    && var t := FindTool(c.config.tools, name[|Prefix(c.name)|..]);
    && t.Some? && c.config.tools[t.value].hasHandler
  }

  /** The collection loop of `executeToolCall`, from collection `i` on. */
  function RouteFrom(cs: seq<Collection>, name: string, i: nat): (d: Dispatch)
    requires i <= |cs|
    ensures d.CollectionTool? ==> (i <= d.collection < |cs| && Takes(cs[d.collection], name)
      && d.tool == FindTool(cs[d.collection].config.tools, name[|Prefix(cs[d.collection].name)|..]).value)
    ensures d.CollectionTool? ==> forall j :: i <= j < d.collection ==> !Takes(cs[j], name)
    ensures d.UnknownTool? <==> forall j :: i <= j < |cs| ==> !Takes(cs[j], name)
    ensures !d.CoreTool?
    decreases |cs| - i
  {
    if i == |cs| then UnknownTool
    else if Takes(cs[i], name) then CollectionTool(i, FindTool(cs[i].config.tools, name[|Prefix(cs[i].name)|..]).value)
    else RouteFrom(cs, name, i + 1)
  }

  /** `executeToolCall`: core names first, then the first collection that takes the call. */
  function Route(cs: seq<Collection>, name: string): (d: Dispatch)
    ensures name in CoreToolNames <==> d == CoreTool(name)
  {
    if name in CoreToolNames then CoreTool(name) else RouteFrom(cs, name, 0)
  }

  /** `executeToolCall` with its loop over the collections. */
  method ExecuteToolCall(cs: seq<Collection>, name: string) returns (d: Dispatch)
    ensures d == Route(cs, name)
  {
    if name in CoreToolNames {
      return CoreTool(name);
    }
    var i := 0;
    while i < |cs|
      invariant 0 <= i <= |cs|
      invariant RouteFrom(cs, name, i) == RouteFrom(cs, name, 0)
    {
      var prefix := Lower(cs[i].name) + "_";
      if StartsWith(name, prefix) {
        var toolName := name[|prefix|..];
        var t := FindTool(cs[i].config.tools, toolName);
        if t.Some? && cs[i].config.tools[t.value].hasHandler {
          return CollectionTool(i, t.value);
        }
      }
      i := i + 1;
    }
    return UnknownTool;
  }

  /** What the call returns: a handler's value, or `{error}` with the message it threw;
    * an unknown name gives `{error: 'Unknown tool: <name>'}`. */
  function CallResult(name: string, d: Dispatch, outcome: Result<Json>): (r: Json)
    ensures d.UnknownTool? ==> r == JObj(map["error" := JStr("Unknown tool: " + name)])
    ensures !d.UnknownTool? && outcome.Err? ==> r == JObj(map["error" := JStr(outcome.error)])
    ensures !d.UnknownTool? && outcome.Ok? ==> r == outcome.value
  {
    if d.UnknownTool? then JObj(map["error" := JStr("Unknown tool: " + name)])
    else match outcome
      case Ok(v) => v
      case Err(e) => JObj(map["error" := JStr(e)])
  }

  lemma FullNameTaken(c: string, t: string)
    ensures StartsWith(FullName(c, t), Prefix(c)) && FullName(c, t)[|Prefix(c)|..] == t
  {
  }

  /** A listed collection tool with a handler reaches a handler of a tool listed under the
    * same name: its own, or that of an earlier collection whose prefix and tool name
    * spell the same name; a core tool of the same name shadows it. */
  lemma ListedToolRoutes(cs: seq<Collection>, i: nat, k: nat)
    requires i < |cs| && k < |cs[i].config.tools|
    requires cs[i].config.tools[k].hasHandler
    requires FindTool(cs[i].config.tools, cs[i].config.tools[k].name) == Some(k)
    ensures var name := FullName(cs[i].name, cs[i].config.tools[k].name);
      var d := Route(cs, name);
      (name in CoreToolNames ==> d == CoreTool(name))
      && (name !in CoreToolNames ==> (d.CollectionTool? && d.collection <= i
        && FullName(cs[d.collection].name, cs[d.collection].config.tools[d.tool].name) == name
        && cs[d.collection].config.tools[d.tool].hasHandler))
  {
    var name := FullName(cs[i].name, cs[i].config.tools[k].name);
    FullNameTaken(cs[i].name, cs[i].config.tools[k].name);
    assert Takes(cs[i], name);
    if name !in CoreToolNames {
      var d := RouteFrom(cs, name, 0);
      var c := cs[d.collection];
      var p := Prefix(c.name);
      assert name == p + name[|p|..];
    }
  }
}
