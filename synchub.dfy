// The scheduler and registry of Sync Hub (synchub/plugin.js): sync plugins register a
// sync function and get a settings record; a periodic tick starts every due plugin; a
// run marks its record as syncing and always ends in 'idle' or 'error' with its time
// recorded; collections register agent tools under their name.

module SyncHub {
  import opened Common
  import opened SyncHubTools

  // ---------------------------------------------------------------------
  // Intervals

  /** Five minutes, the interval of an unset or unreadable setting. */
  const DefaultIntervalMs: nat := 300000

  predicate IsUnit(c: char) { c == 's' || c == 'm' || c == 'h' || c == 'd' }

  /** The multiplier of a unit letter; a bare number counts minutes. */
  function UnitMs(u: char): (ms: nat)
    ensures u == 's' ==> ms == 1000
    ensures u == 'm' ==> ms == 60000
    ensures u == 'h' ==> ms == 3600000
    ensures u == 'd' ==> ms == 86400000
  {
    if u == 's' then 1000 else if u == 'h' then 3600000 else if u == 'd' then 86400000 else 60000
  }

  /** What `^(\d+)(s|m|h|d)?$` captures: the digits and the unit, `m` when absent. */
  datatype IntervalText = IntervalText(digits: string, unit: char)

  function MatchInterval(s: string): (r: Option<IntervalText>)
    ensures r.Some? ==> r.value.digits != [] && AllDigits(r.value.digits) && IsUnit(r.value.unit)
  {
    if s == [] then None
    else if AllDigits(s) then Some(IntervalText(s, 'm'))
    else if |s| >= 2 && IsUnit(s[|s| - 1]) && AllDigits(s[..|s| - 1]) then Some(IntervalText(s[..|s| - 1], s[|s| - 1]))
    else None
  }

  /** `parseInterval`: a missing, empty or unmatched setting gives five minutes. */
  function ParseInterval(interval: Option<string>): (ms: nat)
    ensures interval.None? || interval == Some("") ==> ms == DefaultIntervalMs
    ensures interval.Some? && MatchInterval(interval.value).None? ==> ms == DefaultIntervalMs
  {
    if interval.None? || interval.value == "" then DefaultIntervalMs
    else match MatchInterval(interval.value)
      case None => DefaultIntervalMs
      case Some(IntervalText(digits, unit)) => ParseNat(digits) * UnitMs(unit)
  }

  /** `N` followed by a unit letter lasts N of that unit. */
  lemma IntervalWithUnit(n: nat, u: char)
    requires IsUnit(u)
    ensures ParseInterval(Some(NatToString(n) + [u])) == n * UnitMs(u)
  {
    var s := NatToString(n) + [u];
    assert s[..|s| - 1] == NatToString(n);
    assert !IsDigit(s[|s| - 1]);
    ParseNatOfNatToString(n);
  }

  /** A bare number counts minutes. */
  lemma BareIntervalIsMinutes(n: nat)
    ensures ParseInterval(Some(NatToString(n))) == n * 60000
  {
    ParseNatOfNatToString(n);
  }

  /** The settings the scheduler never parses as a number fall back to five minutes. */
  lemma WordIntervalsAreDefault()
    ensures ParseInterval(Some("manual")) == DefaultIntervalMs
    ensures ParseInterval(Some("5x")) == DefaultIntervalMs
  {
    assert !IsDigit("manual"[0]);
    assert !IsDigit("5x"[1]);
  }

  // ---------------------------------------------------------------------
  // Plugin records

  /** A record of the Sync Hub collection: a plugin's settings and status. Choice
    * properties hold their choice id, None when unset; times are in milliseconds. */
  datatype PluginRecord = PluginRecord(
    pluginId: string,
    enabled: Option<string>,
    status: Option<string>,
    interval: Option<string>,
    lastRun: Option<int>,
    lastError: Option<string>,
    journal: Option<string>,
    toast: Option<string>,
    logLevel: Option<string>)

  /** `lastRun ? lastRun.getTime() : 0`. */
  function LastRunMs(r: PluginRecord): int {
    if r.lastRun.Some? then r.lastRun.value else 0
  }

  /** The test `tick` applies to each record. */
  predicate IsDue(r: PluginRecord, now: int) {
    && r.pluginId != ""
    && r.enabled == Some("yes")
    && r.status != Some("syncing")
    && r.interval != Some("manual")
    && now - LastRunMs(r) >= ParseInterval(r.interval)
  }

  /** The record `createPluginRecord` sets up for a new plugin. */
  function NewRecord(id: string, defaultInterval: Option<string>): (r: PluginRecord)
    ensures r.pluginId == id && r.enabled == Some("yes") && r.status == Some("idle") && r.lastRun.None?
    ensures r.interval.Some? && r.interval.value != ""
  {
    PluginRecord(id, Some("yes"), Some("idle"),
      Some(if defaultInterval.None? || defaultInterval.value == "" then "5m" else defaultInterval.value),
      None, None, Some("major_only"), Some("new_records"), Some("info"))
  }

  /** `records.find(r => r.text('plugin_id') === id)`. */
  function FindRecord(records: seq<PluginRecord>, id: string): (r: Option<nat>)
    ensures r.Some? ==> r.value < |records| && records[r.value].pluginId == id
    ensures r.Some? ==> forall k :: 0 <= k < r.value ==> records[k].pluginId != id
    ensures r.None? ==> forall k :: 0 <= k < |records| ==> records[k].pluginId != id
  {
    if records == [] then None
    else if records[0].pluginId == id then Some(0)
    else match FindRecord(records[1..], id)
      case None => None
      case Some(k) => Some(k + 1)
  }

  /** The record at the moment a run starts. */
  function Syncing(r: PluginRecord): PluginRecord {
    r.(status := Some("syncing"))
  }

  // ---------------------------------------------------------------------
  // Runs

  /** A change a sync function reports. */
  datatype Change = Change(verb: string, title: string, guid: string, major: bool, children: seq<string>)

  /** The value a sync function resolves with; a missing `created` is 0 here, since only
    * `created > 0` is ever asked. */
  datatype SyncResult = SyncResult(created: int, summary: Option<string>, changes: seq<Change>)

  /** How the race between the sync function and the five-minute timeout ends. */
  datatype SyncOutcome = Resolved(result: Option<SyncResult>) | Threw(message: string) | TimedOut

  /** The `errorMsg` of the catch block; empty when the sync resolved. */
  function ErrorMessage(o: SyncOutcome): string {
    match o
    case Resolved(_) => ""
    case Threw(m) => m
    case TimedOut => "Sync timeout (5 min)"
  }

  /** The settings a run reads from its record before it starts. */
  datatype Run = Run(pluginId: string, logLevel: string, toastLevel: string, journalLevel: string, manual: bool, startTime: int)

  function ChoiceOr(c: Option<string>, default: string): (r: string)
    ensures c.Some? && c.value != "" ==> r == c.value
    ensures c.None? || c.value == "" ==> r == default
  {
    if c.Some? && c.value != "" then c.value else default
  }

  function RunOf(pluginId: string, r: PluginRecord, manual: bool, startTime: int): Run {
    Run(pluginId, ChoiceOr(r.logLevel, "info"), ChoiceOr(r.toast, "new_records"), ChoiceOr(r.journal, "none"), manual, startTime)
  }

  /** `shouldToast`: whether a successful automatic run shows a toast. */
  function ShouldToast(level: string, result: Option<SyncResult>): (b: bool)
  {
    if level == "none" then false
    else if level == "all_updates" then true
    else if level == "new_records" then result.Some? && result.value.created > 0
    else false
  }

  /** Only "all_updates" always toasts, and only "new_records" looks at the result. */
  lemma ShouldToastLevels(level: string, result: Option<SyncResult>)
    ensures ShouldToast(level, result) <==> level == "all_updates" || (level == "new_records" && result.Some? && result.value.created > 0)
    ensures level != "all_updates" && level != "new_records" ==> !ShouldToast(level, result)
  {
  }

  /** A toast the hub shows. */
  datatype Toast = Toast(title: string, message: string)

  /** What the end of a run shows and writes besides the record: a toast, lines of the
    * record's activity log, the changes logged one by one, and the changes handed to
    * today's journal. */
  datatype RunEffects = RunEffects(toast: Option<Toast>, log: seq<string>, changeLog: seq<Change>, journal: seq<Change>)

  /** `writeChangesToJournal`'s filter: major changes only for "major_only", else all. */
  function JournalChanges(changes: seq<Change>, level: string): (r: seq<Change>)
    ensures |r| <= |changes|
  {
    if changes == [] then []
    else if level == "major_only" && !changes[0].major then JournalChanges(changes[1..], level)
    else [changes[0]] + JournalChanges(changes[1..], level)
  }

  /** For "major_only" the journal gets exactly the major changes; for any other level every change. */
  lemma {:induction false} JournalFilter(changes: seq<Change>, level: string)
    ensures level != "major_only" ==> JournalChanges(changes, level) == changes
    ensures level == "major_only" ==> forall c :: c in JournalChanges(changes, level) <==> c in changes && c.major
  {
    if changes != [] {
      JournalFilter(changes[1..], level);
    }
  }

  /** How a run's record ends: error with its message, or idle with the error cleared;
    * either way `last_run` is now. An empty message is falsy and counts as success. */
  function Finished(r: PluginRecord, o: SyncOutcome, now: int): (f: PluginRecord)
    ensures f.pluginId == r.pluginId && f.enabled == r.enabled && f.interval == r.interval
    ensures f.lastRun == Some(now)
  {
    var msg := ErrorMessage(o);
    if msg != "" then r.(status := Some("error"), lastError := Some(msg), lastRun := Some(now))
    else r.(status := Some("idle"), lastError := None, lastRun := Some(now))
  }

  /** The `finally` block of `runSync` besides the record update. */
  function EffectsOf(run: Run, o: SyncOutcome, now: int): RunEffects {
    var msg := ErrorMessage(o);
    if msg != "" then
      RunEffects(if run.toastLevel != "none" then Some(Toast(run.pluginId + " error", msg)) else None,
        ["ERROR: " + msg], [], [])
    else
      var result := if o.Resolved? then o.result else None;
      var changes := if result.Some? then result.value.changes else [];
      var summary := if result.Some? && result.value.summary.Some? && result.value.summary.value != "" then result.value.summary.value else "Sync complete";
      RunEffects(
        if run.manual || ShouldToast(run.toastLevel, result) then Some(Toast(run.pluginId, summary)) else None,
        if run.logLevel == "debug" then [summary + " (" + IntToString(now - run.startTime) + "ms)"] else [],
        changes,
        if run.journalLevel != "none" && |changes| > 0 then JournalChanges(changes, run.journalLevel) else [])
  }

  /** Every run ends idle or in error, with its time recorded; it is in error exactly when
    * the sync threw a non-empty message or timed out, and then the message is kept. */
  lemma RunEnds(r: PluginRecord, o: SyncOutcome, now: int)
    ensures Finished(r, o, now).status == Some("idle") || Finished(r, o, now).status == Some("error")
    ensures Finished(r, o, now).status == Some("error") <==> (o.Threw? && o.message != "") || o.TimedOut?
    ensures Finished(r, o, now).status == Some("error") ==> Finished(r, o, now).lastError == Some(ErrorMessage(o))
    ensures Finished(r, o, now).status == Some("idle") ==> Finished(r, o, now).lastError.None?
  {
  }

  /** A failed run toasts unless toasts are off and logs its error; it logs no change and writes no journal. */
  lemma FailedRunEffects(run: Run, msg: string, now: int)
    requires msg != ""
    ensures EffectsOf(run, Threw(msg), now) == RunEffects(
      if run.toastLevel == "none" then None else Some(Toast(run.pluginId + " error", msg)), ["ERROR: " + msg], [], [])
  {
  }

  /** A manual run always toasts when it succeeds. */
  lemma ManualRunToasts(run: Run, result: Option<SyncResult>, now: int)
    requires run.manual
    ensures EffectsOf(run, Resolved(result), now).toast.Some?
    ensures EffectsOf(run, Resolved(result), now).toast.value.title == run.pluginId
  {
  }

  /** A finished record is not due again until its interval has passed. */
  lemma NotDueBeforeInterval(r: PluginRecord, o: SyncOutcome, finishedAt: int, now: int)
    requires IsDue(Finished(r, o, finishedAt), now)
    ensures now >= finishedAt + ParseInterval(r.interval)
  {
  }

  /** A record being synced is never due, so a plugin never runs twice at once from the scheduler. */
  lemma SyncingIsNotDue(r: PluginRecord, now: int)
    ensures !IsDue(Syncing(r), now)
  {
  }

  /** A new plugin with a numeric interval is due once that interval has passed since the epoch. */
  lemma NewRecordDue(id: string, n: nat, now: int)
    requires id != "" && now >= n * 60000
    ensures IsDue(NewRecord(id, Some(NatToString(n))), now)
  {
    BareIntervalIsMinutes(n);
  }

  // ---------------------------------------------------------------------
  // Collection tools

  predicate DistinctNames(cs: seq<Collection>) {
    forall i, j :: 0 <= i < j < |cs| ==> cs[i].name != cs[j].name
  }

  function IndexOfCollection(cs: seq<Collection>, name: string): (r: Option<nat>)
    ensures r.Some? ==> r.value < |cs| && cs[r.value].name == name
    ensures r.Some? ==> forall k :: 0 <= k < r.value ==> cs[k].name != name
    ensures r.None? ==> forall k :: 0 <= k < |cs| ==> cs[k].name != name
  {
    if cs == [] then None
    else if cs[0].name == name then Some(0)
    else match IndexOfCollection(cs[1..], name)
      case None => None
      case Some(k) => Some(k + 1)
  }

  /** `Map.prototype.set`: an existing key keeps its place and takes the new value; a new key goes last. */
  function Upsert(cs: seq<Collection>, name: string, cfg: CollectionConfig): seq<Collection> {
    match IndexOfCollection(cs, name)
    case Some(k) => cs[k := Collection(name, cfg)]
    case None => cs + [Collection(name, cfg)]
  }

  /** The configuration stored for a collection, if any. */
  function Lookup(cs: seq<Collection>, name: string): (r: Option<CollectionConfig>)
    ensures r.Some? <==> exists k :: 0 <= k < |cs| && cs[k].name == name
  {
    match IndexOfCollection(cs, name)
    case Some(k) => Some(cs[k].config)
    case None => None
  }

  /** Setting a key keeps the names distinct, makes the key map to the new value and
    * leaves every other key, and the order of the others, as it was. */
  lemma UpsertSpec(cs: seq<Collection>, name: string, cfg: CollectionConfig)
    requires DistinctNames(cs)
    ensures DistinctNames(Upsert(cs, name, cfg))
    ensures Lookup(Upsert(cs, name, cfg), name) == Some(cfg)
    ensures forall other :: other != name ==> Lookup(Upsert(cs, name, cfg), other) == Lookup(cs, other)
    ensures |Upsert(cs, name, cfg)| == if Lookup(cs, name).Some? then |cs| else |cs| + 1
    ensures forall k :: 0 <= k < |cs| && cs[k].name != name ==> Upsert(cs, name, cfg)[k] == cs[k]
  {
    var u := Upsert(cs, name, cfg);
    assert forall k :: 0 <= k < |cs| ==> u[k].name == cs[k].name;
    forall other | other != name
      ensures Lookup(u, other) == Lookup(cs, other)
    {
      var a := IndexOfCollection(cs, other);
      var b := IndexOfCollection(u, other);
      if a.Some? {
        assert u[a.value] == cs[a.value];
      }
      if b.Some? {
        assert b.value < |cs| && u[b.value] == cs[b.value];
      }
    }
    var b := IndexOfCollection(u, name);
    match IndexOfCollection(cs, name)
    case Some(k) => assert b.value == k;
    case None =>
      assert u[|cs|].name == name;
      assert b == Some(|cs|);
  }

  /** What `registerCollectionTools` stores: the description defaults to the name and the schema to `{}`. */
  function ConfigOf(collection: string, description: Option<string>, schema: Option<Json>, tools: seq<ToolDef>): CollectionConfig {
    CollectionConfig(
      if description.Some? && description.value != "" then description.value else collection,
      if Truthy(schema) then schema.value else JObj(map[]),
      tools)
  }

  // ---------------------------------------------------------------------
  // The scheduler tick

  /** Whether `tick` starts a record: it is due and its plugin has a sync function
    * (`runSync` returns at once otherwise). */
  predicate Starts(r: PluginRecord, fns: map<string, nat>, now: int) {
    IsDue(r, now) && r.pluginId in fns
  }

  /** The records once the tick has visited the first `i`. */
  function TickedUpTo(rs: seq<PluginRecord>, fns: map<string, nat>, now: int, i: nat): (r: seq<PluginRecord>)
    requires i <= |rs|
    ensures |r| == |rs|
  {
    if i == 0 then rs
    else
      var t := TickedUpTo(rs, fns, now, i - 1);
      if Starts(rs[i - 1], fns, now) then t[i - 1 := Syncing(rs[i - 1])] else t
  }

  /** The indices the tick has started among the first `i` records. */
  function StartedUpTo(rs: seq<PluginRecord>, fns: map<string, nat>, now: int, i: nat): seq<nat>
    requires i <= |rs|
  {
    if i == 0 then []
    else StartedUpTo(rs, fns, now, i - 1) + (if Starts(rs[i - 1], fns, now) then [i - 1] else [])
  }

  lemma {:induction false} TickedAhead(rs: seq<PluginRecord>, fns: map<string, nat>, now: int, i: nat, k: nat)
    requires i <= k < |rs|
    ensures TickedUpTo(rs, fns, now, i)[k] == rs[k]
  {
    if i > 0 {
      TickedAhead(rs, fns, now, i - 1, k);
    }
  }

  /** After the tick, exactly the records it started are marked syncing; the rest are unchanged. */
  lemma {:induction false} TickedRecords(rs: seq<PluginRecord>, fns: map<string, nat>, now: int, i: nat)
    requires i <= |rs|
    ensures forall k :: 0 <= k < |rs| ==>
      TickedUpTo(rs, fns, now, i)[k] == (if k < i && Starts(rs[k], fns, now) then Syncing(rs[k]) else rs[k])
  {
    if i > 0 {
      TickedRecords(rs, fns, now, i - 1);
    }
  }

  /** The tick starts exactly the records that are due and have a sync function, each
    * once, in collection order. */
  lemma {:induction false} StartedRecords(rs: seq<PluginRecord>, fns: map<string, nat>, now: int, i: nat)
    requires i <= |rs|
    ensures forall k :: k in StartedUpTo(rs, fns, now, i) <==> 0 <= k < i && Starts(rs[k], fns, now)
    ensures forall a :: 0 <= a < |StartedUpTo(rs, fns, now, i)| ==> StartedUpTo(rs, fns, now, i)[a] < i
    ensures forall a, b :: 0 <= a < b < |StartedUpTo(rs, fns, now, i)| ==>
      StartedUpTo(rs, fns, now, i)[a] < StartedUpTo(rs, fns, now, i)[b]
  {
    if i > 0 {
      StartedRecords(rs, fns, now, i - 1);
    }
  }

  // ---------------------------------------------------------------------
  // The hub

  class Hub {
    /** Plugin id of each registered sync function, with a handle standing for the function. */
    var syncFunctions: map<string, nat>
    /** The records of the Sync Hub collection, in collection order. */
    var records: seq<PluginRecord>
    var currentlySyncing: Option<string>
    /** The `collectionTools` Map, in insertion order. */
    var collections: seq<Collection>

    ghost predicate Valid()
      reads this
    {
      DistinctNames(collections)
    }

    constructor (records: seq<PluginRecord>)
      ensures Valid()
      ensures this.records == records && syncFunctions == map[] && currentlySyncing.None? && collections == []
    {
      this.records := records;
      syncFunctions := map[];
      currentlySyncing := None;
      collections := [];
    }

    /** `registerPlugin`: a missing id or sync function changes nothing; otherwise the
      * function is stored under the id and the plugin's record is found or, when the
      * collection accepts a new record (`canCreate`), created with the default settings. */
    method RegisterPlugin(id: string, sync: Option<nat>, defaultInterval: Option<string>, canCreate: bool)
      returns (rec: Option<PluginRecord>)
      modifies this
      ensures id == "" || sync.None? ==> rec.None? && unchanged(this)
      ensures id != "" && sync.Some? ==> syncFunctions == old(syncFunctions)[id := sync.value]
      ensures collections == old(collections) && currentlySyncing == old(currentlySyncing)
      ensures id != "" && sync.Some? && FindRecord(old(records), id).Some? ==>
        records == old(records) && rec == Some(old(records)[FindRecord(old(records), id).value])
      ensures id != "" && sync.Some? && FindRecord(old(records), id).None? ==>
        (if canCreate then records == old(records) + [NewRecord(id, defaultInterval)] && rec == Some(NewRecord(id, defaultInterval))
         else records == old(records) && rec.None?)
    {
      if id == "" || sync.None? {
        return None;
      }
      syncFunctions := syncFunctions[id := sync.value];
      var found := FindRecord(records, id);
      if found.Some? {
        return Some(records[found.value]);
      }
      if !canCreate {
        return None;
      }
      var r := NewRecord(id, defaultInterval);
      records := records + [r];
      return Some(r);
    }

    /** `unregisterPlugin`. */
    method UnregisterPlugin(id: string)
      modifies this
      ensures syncFunctions == old(syncFunctions) - {id}
      ensures records == old(records) && currentlySyncing == old(currentlySyncing) && collections == old(collections)
    {
      syncFunctions := syncFunctions - {id};
    }

    /** The synchronous start of `runSync`: without a registered function nothing
      * happens; otherwise the settings are read, the record is marked syncing and the
      * plugin becomes the one currently syncing. */
    method StartRun(pluginId: string, k: nat, manual: bool, now: int) returns (run: Option<Run>)
      requires k < |records|
      modifies this
      ensures pluginId !in syncFunctions ==> run.None? && unchanged(this)
      ensures pluginId in syncFunctions ==>
        run == Some(RunOf(pluginId, old(records)[k], manual, now))
        && records == old(records)[k := Syncing(old(records)[k])]
        && currentlySyncing == Some(pluginId)
      ensures syncFunctions == old(syncFunctions) && collections == old(collections)
    {
      if pluginId !in syncFunctions {
        return None;
      }
      run := Some(RunOf(pluginId, records[k], manual, now));
      records := records[k := Syncing(records[k])];
      currentlySyncing := Some(pluginId);
    }

    /** The `finally` block of `runSync`, once the sync settled with outcome `o` at `now`. */
    method FinishRun(run: Run, k: nat, o: SyncOutcome, now: int) returns (effects: RunEffects)
      requires k < |records|
      modifies this
      ensures records == old(records)[k := Finished(old(records)[k], o, now)]
      ensures currentlySyncing.None?
      ensures effects == EffectsOf(run, o, now)
      ensures syncFunctions == old(syncFunctions) && collections == old(collections)
    {
      currentlySyncing := None;
      records := records[k := Finished(records[k], o, now)];
      effects := EffectsOf(run, o, now);
    }

    /** `requestSync`: an unknown plugin is only logged; a full sync clears `last_run`
      * first; then the run starts on the plugin's first record. */
    method RequestSync(pluginId: string, full: bool, manual: bool, now: int) returns (k: Option<nat>, run: Option<Run>)
      modifies this
      ensures FindRecord(old(records), pluginId).None? ==> k.None? && run.None? && unchanged(this)
      ensures k == FindRecord(old(records), pluginId)
      ensures k.Some? && pluginId in syncFunctions ==>
        var r0 := if full then old(records)[k.value].(lastRun := None) else old(records)[k.value];
        run == Some(RunOf(pluginId, r0, manual, now)) && records == old(records)[k.value := Syncing(r0)]
      ensures k.Some? && pluginId !in syncFunctions ==>
        run.None? && records == (if full then old(records)[k.value := old(records)[k.value].(lastRun := None)] else old(records))
      ensures syncFunctions == old(syncFunctions) && collections == old(collections)
    {
      k := FindRecord(records, pluginId);
      if k.None? {
        return None, None;
      }
      if full {
        records := records[k.value := records[k.value].(lastRun := None)];
      }
      run := StartRun(pluginId, k.value, manual, now);
    }

    /** `tick`: without the collection nothing happens; otherwise every due record whose
      * plugin has a sync function is started, in collection order, without waiting for
      * its run to end. */
    method Tick(hasCollection: bool, now: int) returns (started: seq<nat>)
      modifies this
      ensures !hasCollection ==> started == [] && unchanged(this)
      ensures hasCollection ==> records == TickedUpTo(old(records), syncFunctions, now, |old(records)|)
      ensures hasCollection ==> started == StartedUpTo(old(records), syncFunctions, now, |old(records)|)
      ensures started == [] ==> currentlySyncing == old(currentlySyncing)
      ensures started != [] ==> (started[|started| - 1] < |old(records)|
        && currentlySyncing == Some(old(records)[started[|started| - 1]].pluginId))
      ensures syncFunctions == old(syncFunctions) && collections == old(collections)
    {
      started := [];
      if !hasCollection {
        return;
      }
      var i := 0;
      while i < |records|
        invariant 0 <= i <= |old(records)| && |records| == |old(records)|
        invariant syncFunctions == old(syncFunctions) && collections == old(collections)
        invariant records == TickedUpTo(old(records), syncFunctions, now, i)
        invariant started == StartedUpTo(old(records), syncFunctions, now, i)
        invariant started == [] ==> currentlySyncing == old(currentlySyncing)
        invariant started != [] ==> (started[|started| - 1] < i
          && currentlySyncing == Some(old(records)[started[|started| - 1]].pluginId))
      {
        TickedAhead(old(records), syncFunctions, now, i, i);
        if IsDue(records[i], now) {
          var run := StartRun(records[i].pluginId, i, false, now);
          if run.Some? {
            started := started + [i];
          }
        }
        i := i + 1;
      }
    }

    /** `registerCollectionTools`: a missing name or tool list changes nothing; otherwise
      * the collection's entry is set. */
    method RegisterCollectionTools(collection: string, description: Option<string>, schema: Option<Json>, tools: Option<seq<ToolDef>>)
      requires Valid()
      modifies this
      ensures Valid()
      ensures collection == "" || tools.None? ==> unchanged(this)
      ensures collection != "" && tools.Some? ==>
        collections == Upsert(old(collections), collection, ConfigOf(collection, description, schema, tools.value))
      ensures syncFunctions == old(syncFunctions) && records == old(records) && currentlySyncing == old(currentlySyncing)
    {
      if collection == "" || tools.None? {
        return;
      }
      UpsertSpec(collections, collection, ConfigOf(collection, description, schema, tools.value));
      collections := Upsert(collections, collection, ConfigOf(collection, description, schema, tools.value));
    }
  }

  // ---------------------------------------------------------------------
  // Relative times

  /** `formatRelativeTime` of Sync Hub, which floors step by step: seconds, then minutes
    * of those seconds, hours of those minutes, days of those hours. */
  function RelativeTime(now: int, at: int): string {
    var seconds := (now - at) / 1000;
    var minutes := seconds / 60;
    var hours := minutes / 60;
    var days := hours / 24;
    if seconds < 60 then "just now"
    else if minutes < 60 then NatToString(minutes) + "m ago"
    else if hours < 24 then NatToString(hours) + "h ago"
    else NatToString(days) + "d ago"
  }

  /** Sync Hub's stepwise floors agree with the desktop bridge's direct ones. */
  lemma RelativeTimeAgrees(now: int, at: int)
    ensures RelativeTime(now, at) == FormatRelativeTime(now, at)
  {
    var seconds := (now - at) / 1000;
    if seconds >= 60 {
      FloorTwice(seconds);
    }
  }

  /** Flooring by 60 and then by 60 again is flooring by 3600; then by 24, by 86400. */
  lemma FloorTwice(x: int)
    requires x >= 0
    ensures (x / 60) / 60 == x / 3600
    ensures (x / 3600) / 24 == x / 86400
  {
    var q := x / 60;
    assert x == 60 * q + x % 60;
    assert q == 60 * (q / 60) + q % 60;
    var h := x / 3600;
    assert x == 3600 * h + x % 3600;
    assert h == 24 * (h / 24) + h % 24;
  }
}
