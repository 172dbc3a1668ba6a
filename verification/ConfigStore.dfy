// Agentic configurations and sources: src/nucliadb_agentic_api/db/agentic_configs.py,
// db/sources.py and the delete endpoint of v1/sources.py, over one shared database.
module ConfigStore {
  import opened Basics
  import opened CachedTable

  // A configuration as stored: the sources of its smart agent (None when it has none), and the rest.
  datatype AgenticConfig = AgenticConfig(sources: Option<seq<string>>, rest: string)

  // A source as stored.  Only MCP sources carry a client secret.
  datatype Source = Source(mcp: bool, secret: Option<string>, rest: string)

  datatype ConfigRow = ConfigRow(config: AgenticConfig, deletedAt: Option<real>)
  datatype SourceRow = SourceRow(source: Source, agenticConfigId: Option<string>)
  datatype Db = Db(configs: map<Key, ConfigRow>, sources: map<Key, SourceRow>)

  datatype Error = NotFound | Conflict | InvalidReference(missing: set<string>) | InUse(configs: set<string>)

  // _collect_source_ids
  function CollectSourceIds(c: AgenticConfig): seq<string> {
    match c.sources case None => [] case Some(ids) => ids
  }

  predicate Active(db: Db, key: Key) {
    key in db.configs && db.configs[key].deletedAt.None?
  }

  function Missing(db: Db, account: string, kbid: string, ids: seq<string>): set<string> {
    set id | id in ids && Key(account, kbid, id) !in db.sources
  }

  // Every source that the configuration names is there.
  ghost predicate Resolved(db: Db, key: Key, c: AgenticConfig) {
    c.sources.Some? ==> forall id :: id in c.sources.value ==> Key(key.account, key.kbid, id) in db.sources
  }

  // The refusal that names just those that are not.
  ghost predicate RefusesMissing(db: Db, key: Key, c: AgenticConfig, r: Outcome<Error>) {
    && r.Fail? && r.error.InvalidReference? && c.sources.Some?
    && forall id :: id in r.error.missing <==> id in c.sources.value && Key(key.account, key.kbid, id) !in db.sources
  }

  // ----- what each operation does to the database -----

  function Patch(db: Db, key: Key, c: AgenticConfig): Result<Db, Error> {
    var missing := Missing(db, key.account, key.kbid, CollectSourceIds(c));
    if missing != {} then Err(InvalidReference(missing))
    else if !Active(db, key) then Err(NotFound)
    else Ok(db.(configs := db.configs[key := ConfigRow(c, None)]))
  }

  // Creating over a soft-deleted row brings the row back with the new contents.
  function Create(db: Db, key: Key, c: AgenticConfig): Result<Db, Error> {
    var missing := Missing(db, key.account, key.kbid, CollectSourceIds(c));
    if missing != {} then Err(InvalidReference(missing))
    else if Active(db, key) then Err(Conflict)
    else Ok(db.(configs := db.configs[key := ConfigRow(c, None)]))
  }

  function SoftDelete(db: Db, key: Key, now: real): Result<Db, Error> {
    if !Active(db, key) then Err(NotFound)
    else Ok(db.(configs := db.configs[key := db.configs[key].(deletedAt := Some(now))]))
  }

  function Expired(db: Db, cutoff: real): set<Key> {
    set k | k in db.configs && db.configs[k].deletedAt.Some? && db.configs[k].deletedAt.value < cutoff
  }

  // The sources that the foreign key's ON DELETE CASCADE takes along.
  function Cascaded(db: Db, gone: set<Key>): set<Key> {
    set k | k in db.sources && db.sources[k].agenticConfigId.Some?
      && Key(k.account, k.kbid, db.sources[k].agenticConfigId.value) in gone
  }

  function HardDelete(db: Db, cutoff: real): Db {
    var gone := Expired(db, cutoff);
    Db(db.configs - gone, db.sources - Cascaded(db, gone))
  }

  // The row is an active one of this knowledge box that names the source.
  predicate Selected(db: Db, account: string, kbid: string, id: string, row: Key) {
    row.account == account && row.kbid == kbid && Active(db, row) && id in CollectSourceIds(db.configs[row].config)
  }

  function Referencing(db: Db, account: string, kbid: string, id: string): set<string> {
    set row | row in db.configs && Selected(db, account, kbid, id, row) :: row.id
  }

  function AddSource(db: Db, key: Key, source: Source): Result<Db, Error> {
    if key in db.sources then Err(Conflict)
    else Ok(db.(sources := db.sources[key := SourceRow(source, None)]))
  }

  // An MCP patch that does not mention the client secret keeps the stored one.
  function Patched(stored: Source, source: Source, secretGiven: bool): Source {
    if source.mcp && !secretGiven then source.(secret := if stored.mcp then stored.secret else None) else source
  }

  function UpdateSource(db: Db, key: Key, source: Source, secretGiven: bool): Result<Db, Error> {
    if key !in db.sources then Err(NotFound)
    else
      var row := db.sources[key];
      Ok(db.(sources := db.sources[key := row.(source := Patched(row.source, source, secretGiven))]))
  }

  // delete_source_endpoint: refuse while an active configuration refers to the source
  function RemoveSource(db: Db, key: Key): Result<Db, Error> {
    var users := Referencing(db, key.account, key.kbid, key.id);
    if users != {} then Err(InUse(users))
    else if key !in db.sources then Err(NotFound)
    else Ok(db.(sources := db.sources - {key}))
  }

  // ----- the system: one database, one clock, N processes -----

  datatype System = System(now: real, db: Db, configCaches: seq<Cache<AgenticConfig>>, sourceCaches: seq<Cache<Source>>)

  datatype Step =
    | DoCreate(p: nat, key: Key, config: AgenticConfig)
    | DoPatch(p: nat, key: Key, config: AgenticConfig)
    | DoDelete(p: nat, key: Key)
    | DoGet(p: nat, key: Key)
    | DoHardDelete
    | DoCreateSource(p: nat, key: Key, source: Source)
    | DoPatchSource(p: nat, key: Key, source: Source, secretGiven: bool)
    | DoDeleteSource(p: nat, key: Key)
    | DoGetSource(p: nat, key: Key)
    | EvictConfig(p: nat, entry: string)
    | EvictSource(p: nat, entry: string)
    | Wait(later: real)

  predicate SystemOk(s: System) {
    s.now >= 0.0 && |s.configCaches| == |s.sourceCaches|
  }

  predicate CanStep(s: System, step: Step) {
    match step
    case DoHardDelete => true
    case Wait(later) => later >= s.now
    case _ => step.p < |s.configCaches|
  }

  // The active configurations and the sources, as the cached tables that reads go through.
  function ActiveConfigs(db: Db): map<Key, AgenticConfig> {
    map k | k in db.configs && db.configs[k].deletedAt.None? :: db.configs[k].config
  }

  function AllSources(db: Db): map<Key, Source> {
    map k | k in db.sources :: db.sources[k].source
  }

  function ConfigView(s: System): Store<AgenticConfig> { Store(s.now, ActiveConfigs(s.db), s.configCaches) }

  function SourceView(s: System): Store<Source> { Store(s.now, AllSources(s.db), s.sourceCaches) }

  // A failed operation raises and changes nothing.
  function NextDb(s: System, step: Step, retention: real): Result<Db, Error> {
    match step
    case DoCreate(p, key, c) => Create(s.db, key, c)
    case DoPatch(p, key, c) => Patch(s.db, key, c)
    case DoDelete(p, key) => SoftDelete(s.db, key, s.now)
    case DoHardDelete => Ok(HardDelete(s.db, s.now - retention))
    case DoCreateSource(p, key, source) => AddSource(s.db, key, source)
    case DoPatchSource(p, key, source, given) => UpdateSource(s.db, key, source, given)
    case DoDeleteSource(p, key) => RemoveSource(s.db, key)
    case _ => Ok(s.db)
  }

  // What a successful step does to the configuration cache of its process.
  function NextConfigCache(s: System, step: Step): seq<Cache<AgenticConfig>>
    requires SystemOk(s) && CanStep(s, step)
  {
    var caches := s.configCaches;
    match step
    case DoCreate(p, key, c) => caches[p := caches[p][CacheKey(key, Bucket(s.now)) := c]]
    case DoPatch(p, key, c) => caches[p := caches[p][CacheKey(key, Bucket(s.now)) := c]]
    case DoDelete(p, key) => caches[p := caches[p] - {CacheKey(key, Bucket(s.now))}]
    case DoGet(p, key) =>
      (match Answer(ConfigView(s), p, key)
       case Some(c) => caches[p := caches[p][CacheKey(key, Bucket(s.now)) := c]]
       case None => caches)
    case EvictConfig(p, entry) => caches[p := caches[p] - {entry}]
    case _ => caches
  }

  function NextSourceCache(s: System, step: Step, db': Db): seq<Cache<Source>>
    requires SystemOk(s) && CanStep(s, step)
  {
    var caches := s.sourceCaches;
    match step
    case DoCreateSource(p, key, source) => caches[p := caches[p][CacheKey(key, Bucket(s.now)) := source]]
    case DoPatchSource(p, key, _, _) =>
      // the row that the update returned
      if key in db'.sources then caches[p := caches[p][CacheKey(key, Bucket(s.now)) := db'.sources[key].source]]
        else caches
    case DoDeleteSource(p, key) => caches[p := caches[p] - {CacheKey(key, Bucket(s.now))}]
    case DoGetSource(p, key) =>
      (match Answer(SourceView(s), p, key)
       case Some(source) => caches[p := caches[p][CacheKey(key, Bucket(s.now)) := source]]
       case None => caches)
    case EvictSource(p, entry) => caches[p := caches[p] - {entry}]
    case _ => caches
  }

  function NextSystem(s: System, step: Step, retention: real): (s': System)
    requires SystemOk(s) && CanStep(s, step)
    ensures SystemOk(s') && |s'.configCaches| == |s.configCaches| && s'.now >= s.now
  {
    match NextDb(s, step, retention)
    case Err(_) => s
    case Ok(db') =>
      System(if step.Wait? then step.later else s.now, db', NextConfigCache(s, step), NextSourceCache(s, step, db'))
  }

  ghost predicate SystemRun(states: seq<System>, steps: seq<Step>, retention: real) {
    && |states| == |steps| + 1 && SystemOk(states[0]) && Integrity(states[0].db)
    && (forall p :: 0 <= p < |states[0].configCaches| ==>
      states[0].configCaches[p] == map[] && states[0].sourceCaches[p] == map[])
    && forall i :: 0 <= i < |steps| ==>
      SystemOk(states[i]) && CanStep(states[i], steps[i]) && states[i + 1] == NextSystem(states[i], steps[i], retention)
  }

  // ----- reference integrity -----

  ghost predicate RefsExist(db: Db, key: Key)
    requires key in db.configs
  {
    forall id :: id in CollectSourceIds(db.configs[key].config) ==> Key(key.account, key.kbid, id) in db.sources
  }

  ghost predicate Integrity(db: Db) {
    && (forall key :: key in db.configs && Active(db, key) ==> RefsExist(db, key))
    && (forall key :: key in db.sources ==> db.sources[key].agenticConfigId == None)
  }

  // Removing a source nobody active refers to leaves every reference of an active row in place.
  lemma UnusedSource(db: Db, gone: Key, key: Key, id: string)
    requires Referencing(db, gone.account, gone.kbid, gone.id) == {}
    requires key in db.configs && Active(db, key) && id in CollectSourceIds(db.configs[key].config)
    ensures Key(key.account, key.kbid, id) != gone
  {
    assert Key(key.account, key.kbid, id) == gone ==> key.id in Referencing(db, gone.account, gone.kbid, gone.id);
  }

  lemma IntegrityStep(s: System, step: Step, retention: real)
    requires SystemOk(s) && CanStep(s, step) && Integrity(s.db)
    ensures Integrity(NextSystem(s, step, retention).db)
  {
    var db, db' := s.db, NextSystem(s, step, retention).db;
    forall key | key in db'.configs && Active(db', key)
      ensures RefsExist(db', key)
    {
      forall id | id in CollectSourceIds(db'.configs[key].config)
        ensures Key(key.account, key.kbid, id) in db'.sources
      {
        if key in db.configs && db'.configs[key] == db.configs[key] {
          assert RefsExist(db, key);
          if step.DoDeleteSource? && db' != db {
            UnusedSource(db, step.key, key, id);
          }
        } else {
          // the row has just been written, after its sources were validated
          assert step.DoCreate? || step.DoPatch?;
          assert id !in Missing(db, key.account, key.kbid, CollectSourceIds(step.config));
        }
      }
    }
  }

  // In every reachable state an active configuration refers only to sources that exist.
  lemma {:induction false} ReferenceIntegrity(states: seq<System>, steps: seq<Step>, retention: real, n: nat)
    requires SystemRun(states, steps, retention) && n < |states|
    ensures SystemOk(states[n]) && Integrity(states[n].db)
  {
    if n > 0 {
      ReferenceIntegrity(states, steps, retention, n - 1);
      assert states[n] == NextSystem(states[n - 1], steps[n - 1], retention);
      IntegrityStep(states[n - 1], steps[n - 1], retention);
    }
  }

  // ----- hard deletion -----

  // It removes exactly the rows that were soft-deleted before the cutoff; with integrity the
  // cascade takes no source along.
  lemma HardDeleteExact(db: Db, cutoff: real)
    requires Integrity(db)
    ensures HardDelete(db, cutoff).sources == db.sources
    ensures ActiveConfigs(HardDelete(db, cutoff)) == ActiveConfigs(db)
    ensures forall k :: k in db.configs ==>
      (k !in HardDelete(db, cutoff).configs <==>
        db.configs[k].deletedAt.Some? &&
        db.configs[k].deletedAt.value < cutoff)
    ensures forall k :: k in HardDelete(db, cutoff).configs ==>
      k in db.configs && HardDelete(db, cutoff).configs[k] == db.configs[k]
  {
    assert Cascaded(db, Expired(db, cutoff)) == {};
  }

  lemma HardDeleteCount(db: Db, cutoff: real)
    ensures |db.configs| - |HardDelete(db, cutoff).configs| == |Expired(db, cutoff)|
    ensures Expired(db, cutoff) == {} ==> HardDelete(db, cutoff) == db
  {
    var gone := Expired(db, cutoff);
    KeysRemoved(db.configs, gone);
    if gone == {} {
      assert Cascaded(db, gone) == {};
      assert HardDelete(db, cutoff).sources == db.sources;
    }
  }

  lemma KeysRemoved<K, V>(m: map<K, V>, gone: set<K>)
    requires gone <= m.Keys
    ensures |m| - |m - gone| == |gone|
  {
    assert (m - gone).Keys == m.Keys - gone;
    assert |m| == |m.Keys| && |m - gone| == |(m - gone).Keys|;
  }

  // The row is there, and was not deleted before time t.
  ghost predicate DeletedSince(db: Db, key: Key, t: real) {
    key in db.configs && (db.configs[key].deletedAt.Some? ==> db.configs[key].deletedAt.value >= t)
  }

  lemma DeletedSinceStep(s: System, step: Step, retention: real, key: Key, t: real)
    requires SystemOk(s) && CanStep(s, step) && DeletedSince(s.db, key, t)
    requires s.now >= t && s.now - retention <= t
    ensures DeletedSince(NextSystem(s, step, retention).db, key, t)
  {
  }

  // A configuration active at some moment of the last retention period still has its row,
  // whatever ran in between: it can be created again over a row hard deletion has not taken.
  lemma {:induction false} RecentlyActiveSurvives(states: seq<System>, steps: seq<Step>, retention: real, i: nat,
      n: nat, key: Key)
    requires SystemRun(states, steps, retention) && i <= n < |states|
    requires Active(states[i].db, key) && states[i].now >= states[n].now - retention
    ensures states[n].now >= states[i].now && DeletedSince(states[n].db, key, states[i].now)
    decreases n - i
  {
    hide NextDb, NextConfigCache, NextSourceCache, Integrity;
    if i < n {
      assert states[n] == NextSystem(states[n - 1], steps[n - 1], retention);
      RecentlyActiveSurvives(states, steps, retention, i, n - 1, key);
      DeletedSinceStep(states[n - 1], steps[n - 1], retention, key, states[i].now);
    }
  }

  // ----- both stores are cached tables -----

  function ConfigOp(s: System, step: Step, retention: real): Op<AgenticConfig> {
    if NextDb(s, step, retention).Err? then Skip
    else
      match step
      case DoCreate(p, key, c) => Write(p, key, c)
      case DoPatch(p, key, c) => Write(p, key, c)
      case DoDelete(p, key) => Remove(p, key)
      case DoGet(p, key) => Read(p, key)
      case EvictConfig(p, entry) => Evict(p, entry)
      case Wait(later) => Tick(later)
      case _ => Skip
  }

  function SourceOp(s: System, step: Step, retention: real): Op<Source> {
    if NextDb(s, step, retention).Err? then Skip
    else
      match step
      case DoCreateSource(p, key, source) => Write(p, key, source)
      case DoPatchSource(p, key, source, given) =>
        Write(p, key, Patched(if key in s.db.sources then s.db.sources[key].source else source, source, given))
      case DoDeleteSource(p, key) => Remove(p, key)
      case DoGetSource(p, key) => Read(p, key)
      case EvictSource(p, entry) => Evict(p, entry)
      case Wait(later) => Tick(later)
      case _ => Skip
  }

  // No active configuration of its knowledge box names the source.
  ghost predicate Unused(db: Db, key: Key) {
    forall k :: k in db.configs && k.account == key.account && k.kbid == key.kbid && db.configs[k].deletedAt.None? ==>
      db.configs[k].config.sources.Some? ==> key.id !in db.configs[k].config.sources.value
  }

  // Which steps write, which remove, and which are refused.
  lemma ConfigOpExact(s: System, step: Step, retention: real)
    requires SystemOk(s) && CanStep(s, step)
    ensures step.DoCreate? ==>
      var passes := Resolved(s.db, step.key, step.config) && !Active(s.db, step.key);
      ConfigOp(s, step, retention) == if passes then Write(step.p, step.key, step.config) else Skip
    ensures step.DoPatch? ==>
      var passes := Resolved(s.db, step.key, step.config) && Active(s.db, step.key);
      ConfigOp(s, step, retention) == if passes then Write(step.p, step.key, step.config) else Skip
    ensures step.DoDelete? ==>
      ConfigOp(s, step, retention) == if Active(s.db, step.key) then Remove(step.p, step.key) else Skip
  {
    if step.DoCreate? || step.DoPatch? {
      MissingExact(s.db, step.key, step.config);
    }
  }

  lemma MissingExact(db: Db, key: Key, c: AgenticConfig)
    ensures Missing(db, key.account, key.kbid, CollectSourceIds(c)) == {} <==> Resolved(db, key, c)
  {
    if c.sources.Some? {
      assert forall id :: id in c.sources.value && Key(key.account, key.kbid, id) !in db.sources ==>
        id in Missing(db, key.account, key.kbid, CollectSourceIds(c));
    }
  }

  lemma UnusedExact(db: Db, key: Key)
    ensures Referencing(db, key.account, key.kbid, key.id) == {} <==> Unused(db, key)
  {
    if !Unused(db, key) {
      var k :| k in db.configs && k.account == key.account && k.kbid == key.kbid && db.configs[k].deletedAt.None? &&
        db.configs[k].config.sources.Some? && key.id in db.configs[k].config.sources.value;
      assert Selected(db, key.account, key.kbid, key.id, k);
      assert k.id in Referencing(db, key.account, key.kbid, key.id);
    }
  }

  lemma SourceOpExact(s: System, step: Step, retention: real)
    requires SystemOk(s) && CanStep(s, step)
    ensures step.DoCreateSource? ==>
      SourceOp(s, step, retention) ==
        if step.key in s.db.sources then Skip else Write(step.p, step.key, step.source)
    ensures step.DoDeleteSource? ==>
      SourceOp(s, step, retention) ==
        if step.key in s.db.sources && Unused(s.db, step.key) then Remove(step.p, step.key) else Skip
    ensures step.DoPatchSource? && step.key !in s.db.sources ==> SourceOp(s, step, retention) == Skip
    ensures step.DoPatchSource? && step.key in s.db.sources ==>
      var op, stored := SourceOp(s, step, retention), s.db.sources[step.key].source;
      && op.Write? && op.p == step.p && op.key == step.key
      && op.value.mcp == step.source.mcp && op.value.rest == step.source.rest
      && op.value.secret ==
        (if step.secretGiven || !step.source.mcp then step.source.secret
         else if stored.mcp then stored.secret else None)
  {
    if step.DoDeleteSource? {
      UnusedExact(s.db, step.key);
    }
  }

  // Deleting a configuration and creating it again, by whatever processes, leaves it active with
  // the new contents and touches nothing else; creating it once more is refused.
  lemma DeleteThenCreate(s: System, p: nat, q: nat, key: Key, c: AgenticConfig, retention: real)
    requires SystemOk(s) && p < |s.configCaches| && q < |s.configCaches| && Resolved(s.db, key, c)
    ensures var s1 := NextSystem(s, DoDelete(p, key), retention);
      var s2 := NextSystem(s1, DoCreate(q, key, c), retention);
      && !Active(s1.db, key) && s2.db.sources == s.db.sources
      && s2.db.configs == s.db.configs[key := ConfigRow(c, None)]
      && NextDb(s2, DoCreate(q, key, c), retention) == Err(Conflict)
  {
    var s1 := NextSystem(s, DoDelete(p, key), retention);
    MissingExact(s1.db, key, c);
    var s2 := NextSystem(s1, DoCreate(q, key, c), retention);
    MissingExact(s2.db, key, c);
    hide Missing, NextConfigCache, NextSourceCache;
  }

  // The step leaves the client secret of an MCP source alone.
  ghost predicate KeepsSecret(step: Step, key: Key) {
    && (step.DoPatchSource? && step.key == key ==> step.source.mcp && !step.secretGiven)
    && (step.DoDeleteSource? ==> step.key != key)
  }

  ghost predicate HoldsSecret(db: Db, key: Key, secret: Option<string>) {
    key in db.sources && db.sources[key].source.mcp && db.sources[key].source.secret == secret
  }

  lemma SecretStep(s: System, step: Step, retention: real, key: Key, secret: Option<string>)
    requires SystemOk(s) && CanStep(s, step) && Integrity(s.db) && KeepsSecret(step, key)
    requires HoldsSecret(s.db, key, secret)
    ensures HoldsSecret(NextSystem(s, step, retention).db, key, secret)
  {
    if step.DoHardDelete? {
      HardDeleteExact(s.db, s.now - retention);
    }
    hide HardDelete, Integrity, Missing, Referencing, NextConfigCache, NextSourceCache;
  }

  // However often an MCP source is patched without naming a client secret, and whatever else runs,
  // the secret it was given stays.
  lemma {:induction false} SecretSurvives(states: seq<System>, steps: seq<Step>, retention: real, i: nat, n: nat,
      key: Key, secret: Option<string>)
    requires SystemRun(states, steps, retention) && i <= n < |states| && HoldsSecret(states[i].db, key, secret)
    requires forall j :: i <= j < n ==> KeepsSecret(steps[j], key)
    ensures HoldsSecret(states[n].db, key, secret)
    decreases n - i
  {
    hide NextDb, NextConfigCache, NextSourceCache, KeepsSecret, HoldsSecret;
    if i < n {
      SecretSurvives(states, steps, retention, i, n - 1, key, secret);
      ReferenceIntegrity(states, steps, retention, n - 1);
      assert states[n] == NextSystem(states[n - 1], steps[n - 1], retention);
      SecretStep(states[n - 1], steps[n - 1], retention, key, secret);
    }
  }

  lemma ConfigEnabled(s: System, step: Step, retention: real)
    requires SystemOk(s) && CanStep(s, step)
    ensures Enabled(ConfigView(s), ConfigOp(s, step, retention))
  {
    hide HardDelete, Missing, Referencing;
  }

  lemma HardDeleteActive(db: Db, cutoff: real)
    requires Integrity(db)
    ensures ActiveConfigs(HardDelete(db, cutoff)) == ActiveConfigs(db)
  {
    HardDeleteExact(db, cutoff);
    hide Integrity;
  }

  lemma WriteActive(db: Db, key: Key, c: AgenticConfig)
    ensures ActiveConfigs(db.(configs := db.configs[key := ConfigRow(c, None)])) == ActiveConfigs(db)[key := c]
  {
  }

  lemma DeleteActive(db: Db, key: Key, now: real)
    requires Active(db, key)
    ensures ActiveConfigs(db.(configs := db.configs[key := db.configs[key].(deletedAt := Some(now))])) ==
      ActiveConfigs(db) - {key}
  {
  }

  // Nothing but the configurations matters.
  lemma SourcesActive(db: Db, db': Db)
    ensures db'.configs == db.configs ==> ActiveConfigs(db') == ActiveConfigs(db)
  {
  }

  lemma ConfigRows(s: System, step: Step, retention: real)
    requires SystemOk(s) && CanStep(s, step) && NextDb(s, step, retention).Ok? && Integrity(s.db)
    requires Enabled(ConfigView(s), ConfigOp(s, step, retention))
    ensures ActiveConfigs(NextDb(s, step, retention).value) == Next(ConfigView(s), ConfigOp(s, step, retention)).rows
  {
    hide HardDelete, Integrity, Missing, Referencing, CacheKey, Answer, ActiveConfigs;
    match step
    case DoHardDelete => HardDeleteActive(s.db, s.now - retention);
    case DoCreate(p, key, c) => WriteActive(s.db, key, c);
    case DoPatch(p, key, c) => WriteActive(s.db, key, c);
    case DoDelete(p, key) => DeleteActive(s.db, key, s.now);
    case _ => SourcesActive(s.db, NextDb(s, step, retention).value);
  }

  lemma ConfigRefines(s: System, step: Step, retention: real)
    requires SystemOk(s) && CanStep(s, step) && Integrity(s.db)
    ensures Valid(ConfigView(s)) && Enabled(ConfigView(s), ConfigOp(s, step, retention))
    ensures ConfigView(NextSystem(s, step, retention)) == Next(ConfigView(s), ConfigOp(s, step, retention))
  {
    ConfigEnabled(s, step, retention);
    if NextDb(s, step, retention).Ok? {
      ConfigRows(s, step, retention);
    }
    hide ActiveConfigs, Integrity, HardDelete, CacheKey, Bucket;
  }

  lemma SourceEnabled(s: System, step: Step, retention: real)
    requires SystemOk(s) && CanStep(s, step)
    ensures Enabled(SourceView(s), SourceOp(s, step, retention))
  {
    hide HardDelete, Missing, Referencing;
  }

  lemma SourceRows(s: System, step: Step, retention: real)
    requires SystemOk(s) && CanStep(s, step) && NextDb(s, step, retention).Ok? && Integrity(s.db)
    requires Enabled(SourceView(s), SourceOp(s, step, retention))
    ensures AllSources(NextDb(s, step, retention).value) == Next(SourceView(s), SourceOp(s, step, retention)).rows
  {
    if step.DoHardDelete? {
      HardDeleteExact(s.db, s.now - retention);
    }
    hide HardDelete, Missing, Referencing, CacheKey, Answer;
  }

  lemma SourceRefines(s: System, step: Step, retention: real)
    requires SystemOk(s) && CanStep(s, step) && Integrity(s.db)
    ensures Valid(SourceView(s)) && Enabled(SourceView(s), SourceOp(s, step, retention))
    ensures SourceView(NextSystem(s, step, retention)) == Next(SourceView(s), SourceOp(s, step, retention))
  {
    SourceEnabled(s, step, retention);
    if NextDb(s, step, retention).Ok? {
      SourceRows(s, step, retention);
    }
    hide AllSources, Integrity, HardDelete, CacheKey, Bucket;
  }

  ghost function ConfigViews(states: seq<System>): (v: seq<Store<AgenticConfig>>)
    ensures |v| == |states| && forall i :: 0 <= i < |states| ==> v[i] == ConfigView(states[i])
  {
    seq(|states|, i requires 0 <= i < |states| => ConfigView(states[i]))
  }

  ghost function ConfigOps(states: seq<System>, steps: seq<Step>, retention: real): (ops: seq<Op<AgenticConfig>>)
    requires |states| == |steps| + 1
    ensures |ops| == |steps| && forall i :: 0 <= i < |steps| ==> ops[i] == ConfigOp(states[i], steps[i], retention)
  {
    seq(|steps|, i requires 0 <= i < |steps| => ConfigOp(states[i], steps[i], retention))
  }

  ghost function SourceViews(states: seq<System>): (v: seq<Store<Source>>)
    ensures |v| == |states| && forall i :: 0 <= i < |states| ==> v[i] == SourceView(states[i])
  {
    seq(|states|, i requires 0 <= i < |states| => SourceView(states[i]))
  }

  ghost function SourceOps(states: seq<System>, steps: seq<Step>, retention: real): (ops: seq<Op<Source>>)
    requires |states| == |steps| + 1
    ensures |ops| == |steps| && forall i :: 0 <= i < |steps| ==> ops[i] == SourceOp(states[i], steps[i], retention)
  {
    seq(|steps|, i requires 0 <= i < |steps| => SourceOp(states[i], steps[i], retention))
  }

  // Every run of the system is a run of the configuration table and of the source table.
  lemma RunsRefine(states: seq<System>, steps: seq<Step>, retention: real)
    requires SystemRun(states, steps, retention)
    ensures Run(ConfigViews(states), ConfigOps(states, steps, retention))
    ensures Run(SourceViews(states), SourceOps(states, steps, retention))
  {
    forall i | 0 <= i < |steps|
      ensures Valid(ConfigViews(states)[i]) && Enabled(ConfigViews(states)[i], ConfigOps(states, steps, retention)[i])
      ensures ConfigViews(states)[i + 1] == Next(ConfigViews(states)[i], ConfigOps(states, steps, retention)[i])
      ensures Valid(SourceViews(states)[i]) && Enabled(SourceViews(states)[i], SourceOps(states, steps, retention)[i])
      ensures SourceViews(states)[i + 1] == Next(SourceViews(states)[i], SourceOps(states, steps, retention)[i])
    {
      ReferenceIntegrity(states, steps, retention, i);
      assert states[i + 1] == NextSystem(states[i], steps[i], retention);
      ConfigRefines(states[i], steps[i], retention);
      SourceRefines(states[i], steps[i], retention);
    }
  }

  predicate HasKey(step: Step) { !step.DoHardDelete? && !step.EvictConfig? && !step.EvictSource? && !step.Wait? }

  ghost predicate StepsUse(steps: seq<Step>, keys: set<Key>) {
    forall i :: 0 <= i < |steps| && HasKey(steps[i]) ==> steps[i].key in keys
  }

  // get_agentic_config as seen by process p
  function ConfigAnswer(s: System, p: nat, key: Key): Option<AgenticConfig>
    requires SystemOk(s) && p < |s.configCaches|
  {
    Answer(ConfigView(s), p, key)
  }

  // `earlier` was in the same five-second bucket as s, no later, and its active row held c.
  ghost predicate ActiveInBucket(earlier: System, s: System, key: Key, c: AgenticConfig)
    requires SystemOk(s)
  {
    && SystemOk(earlier) && Bucket(earlier.now) == Bucket(s.now) && earlier.now <= s.now
    && Active(earlier.db, key) && earlier.db.configs[key].config == c
  }

  lemma RunStart(states: seq<System>, steps: seq<Step>, retention: real)
    requires SystemRun(states, steps, retention)
    ensures |states| == |steps| + 1 && SystemOk(states[0])
  {
  }

  lemma ReadOp(s: System, step: Step, retention: real)
    ensures step.DoGet? ==> ConfigOp(s, step, retention) == Read(step.p, step.key)
  {
  }

  lemma OpsKeys(states: seq<System>, steps: seq<Step>, retention: real, keys: set<Key>)
    requires |states| == |steps| + 1 && StepsUse(steps, keys)
    ensures KeysIn(ConfigOps(states, steps, retention), keys) && KeysIn(SourceOps(states, steps, retention), keys)
    ensures forall i :: 0 <= i < |steps| && ConfigOps(states, steps, retention)[i].Remove? ==>
      ConfigOps(states, steps, retention)[i].key in keys
    ensures forall i :: 0 <= i < |steps| && SourceOps(states, steps, retention)[i].Remove? ==>
      SourceOps(states, steps, retention)[i].key in keys
  {
    hide NextDb;
  }

  // Any number of processes: a configuration read at step n was the active row's value at some
  // moment of the same bucket, not later than the read.
  lemma ConfigReadBounded(states: seq<System>, steps: seq<Step>, retention: real, keys: set<Key>, n: nat,
      c: AgenticConfig)
    requires SystemRun(states, steps, retention) && StepsUse(steps, keys)
    requires forall k :: k in keys ==> ColonFree(k)
    requires n < |steps| && steps[n].DoGet? && ConfigAnswer(states[n], steps[n].p, steps[n].key) == Some(c)
    ensures exists i :: 0 <= i <= n && ActiveInBucket(states[i], states[n], steps[n].key, c)
  {
    RunStart(states, steps, retention);
    RunsRefine(states, steps, retention);
    ColonFreeUnambiguous(keys);
    OpsKeys(states, steps, retention, keys);
    ReadOp(states[n], steps[n], retention);
    hide SystemRun, StepsUse, Run, Unambiguous, Answer, Integrity, KeysIn, CacheKey;
    var views, ops := ConfigViews(states), ConfigOps(states, steps, retention);
    BoundedStaleness(views, ops, keys, n, c);
    var i :| 0 <= i <= n && HeldInBucket(views[i], views[n], ops[n].key, c);
    ReferenceIntegrity(states, steps, retention, i);
    hide ConfigOp;
    assert ActiveInBucket(states[i], states[n], steps[n].key, c);
  }

  lemma ConfigExact(states: seq<System>, steps: seq<Step>, retention: real, keys: set<Key>, n: nat, key: Key)
    requires |states| == |steps| + 1 && StepsUse(steps, keys) &&
      Run(ConfigViews(states), ConfigOps(states, steps, retention)) && Unambiguous(keys)
    requires n < |states| && SystemOk(states[n]) && |states[0].configCaches| == 1 && key in keys
    ensures |states[n].configCaches| == 1
    ensures ConfigAnswer(states[n], 0, key) ==
      if Active(states[n].db, key) then Some(states[n].db.configs[key].config) else None
  {
    OpsKeys(states, steps, retention, keys);
    hide Run, Unambiguous, KeysIn, Next, CacheKey, Answer, StepsUse, ConfigOp;
    OneProcessExact(ConfigViews(states), ConfigOps(states, steps, retention), keys, n, key);
  }

  lemma SourceExact(states: seq<System>, steps: seq<Step>, retention: real, keys: set<Key>, n: nat, key: Key)
    requires |states| == |steps| + 1 && StepsUse(steps, keys) &&
      Run(SourceViews(states), SourceOps(states, steps, retention)) && Unambiguous(keys)
    requires n < |states| && SystemOk(states[n]) && |states[0].sourceCaches| == 1 && key in keys
    ensures |states[n].sourceCaches| == 1
    ensures Answer(SourceView(states[n]), 0, key) ==
      if key in states[n].db.sources then Some(states[n].db.sources[key].source) else None
  {
    OpsKeys(states, steps, retention, keys);
    hide Run, Unambiguous, KeysIn, Next, CacheKey, Answer, StepsUse, SourceOp;
    OneProcessExact(SourceViews(states), SourceOps(states, steps, retention), keys, n, key);
  }

  // A single process: a read is exactly the active row, and fails exactly when there is none.
  lemma ConfigReadExact(states: seq<System>, steps: seq<Step>, retention: real, keys: set<Key>, n: nat, key: Key)
    requires SystemRun(states, steps, retention) && StepsUse(steps, keys)
    requires forall k :: k in keys ==> ColonFree(k)
    requires |states[0].configCaches| == 1 && n < |states| && key in keys
    ensures SystemOk(states[n]) && |states[n].configCaches| == 1
    ensures ConfigAnswer(states[n], 0, key) ==
      if Active(states[n].db, key) then Some(states[n].db.configs[key].config) else None
    ensures Answer(SourceView(states[n]), 0, key) ==
      if key in states[n].db.sources then Some(states[n].db.sources[key].source) else None
  {
    RunStart(states, steps, retention);
    hide SystemRun, StepsUse, Run, Integrity, Active, Unambiguous, Answer;
    RunsRefine(states, steps, retention);
    ColonFreeUnambiguous(keys);
    ReferenceIntegrity(states, steps, retention, n);
    ConfigExact(states, steps, retention, keys, n, key);
    SourceExact(states, steps, retention, keys, n, key);
  }

  // ----- the managers, step by step -----

  class Database {
    var configs: map<Key, ConfigRow>
    var sources: map<Key, SourceRow>

    function View(): Db
      reads this
    {
      Db(configs, sources)
    }
  }

  // class AgenticConfigs of one process, with its module-level cache
  class AgenticConfigs {
    const database: Database
    const retention: real
    var cache: Cache<AgenticConfig>

    constructor (database: Database, retention: real)
      ensures this.database == database && this.retention == retention && cache == map[]
    {
      this.database, this.retention, cache := database, retention, map[];
    }

    method ValidateSourcesExist(account: string, kbid: string, ids: seq<string>) returns (r: Outcome<Error>)
      ensures r == if Missing(database.View(), account, kbid, ids) == {} then Pass
                   else Fail(InvalidReference(Missing(database.View(), account, kbid, ids)))
    {
      var missing := {};
      for i := 0 to |ids|
        invariant missing == Missing(database.View(), account, kbid, ids[..i])
      {
        assert ids[..i + 1] == ids[..i] + [ids[i]];
        if Key(account, kbid, ids[i]) !in database.sources {
          missing := missing + {ids[i]};
        }
      }
      assert ids[..|ids|] == ids;
      return if missing == {} then Pass else Fail(InvalidReference(missing));
    }

    method PatchConfig(key: Key, config: AgenticConfig, now: real) returns (r: Outcome<Error>)
      requires now >= 0.0
      modifies this, database
      ensures match Patch(old(database.View()), key, config)
        case Ok(db) => r.Pass? && database.View() == db && cache == old(cache)[CacheKey(key, Bucket(now)) := config]
        case Err(e) => r == Fail(e) && database.View() == old(database.View()) && cache == old(cache)
      ensures var db := old(database.View());
        var active := key in db.configs && db.configs[key].deletedAt.None?;
        && (!Resolved(db, key, config) ==> RefusesMissing(db, key, config, r))
        && (Resolved(db, key, config) && !active ==> r == Fail(NotFound))
        && (Resolved(db, key, config) && active ==> r.Pass?)
      ensures r.Pass? ==> database.configs == old(database.configs)[key := ConfigRow(config, None)]
      ensures database.sources == old(database.sources)
    {
      MissingExact(database.View(), key, config);
      var ids := CollectSourceIds(config);
      if ids != [] {
        r := ValidateSourcesExist(key.account, key.kbid, ids);
        if r.Fail? { return; }
      }
      if key !in database.configs || database.configs[key].deletedAt.Some? {
        return Fail(NotFound);
      }
      database.configs := database.configs[key := ConfigRow(config, None)];
      cache := cache[CacheKey(key, Bucket(now)) := config];
      return Pass;
    }

    method CreateConfig(key: Key, config: AgenticConfig, now: real) returns (r: Outcome<Error>)
      requires now >= 0.0
      modifies this, database
      ensures match Create(old(database.View()), key, config)
        case Ok(db) => r.Pass? && database.View() == db && cache == old(cache)[CacheKey(key, Bucket(now)) := config]
        case Err(e) => r == Fail(e) && database.View() == old(database.View()) && cache == old(cache)
      ensures var db := old(database.View());
        var active := key in db.configs && db.configs[key].deletedAt.None?;
        && (!Resolved(db, key, config) ==> RefusesMissing(db, key, config, r))
        && (Resolved(db, key, config) && active ==> r == Fail(Conflict))
        && (Resolved(db, key, config) && !active ==> r.Pass?)
      ensures r.Pass? ==> database.configs == old(database.configs)[key := ConfigRow(config, None)]
      ensures database.sources == old(database.sources)
    {
      MissingExact(database.View(), key, config);
      var ids := CollectSourceIds(config);
      if ids != [] {
        r := ValidateSourcesExist(key.account, key.kbid, ids);
        if r.Fail? { return; }
      }
      if key in database.configs {
        var existing := database.configs[key];
        if existing.deletedAt.None? {
          return Fail(Conflict);
        }
        database.configs := database.configs[key := existing.(config := config, deletedAt := None)];
        cache := cache[CacheKey(key, Bucket(now)) := config];
        return Pass;
      }
      database.configs := database.configs[key := ConfigRow(config, None)];
      cache := cache[CacheKey(key, Bucket(now)) := config];
      return Pass;
    }

    method DeleteConfig(key: Key, now: real) returns (r: Outcome<Error>)
      requires now >= 0.0
      modifies this, database
      ensures match SoftDelete(old(database.View()), key, now)
        case Ok(db) => r.Pass? && database.View() == db && cache == old(cache) - {CacheKey(key, Bucket(now))}
        case Err(e) => r == Fail(e) && database.View() == old(database.View()) && cache == old(cache)
      ensures r.Pass? <==> key in old(database.configs) && old(database.configs)[key].deletedAt.None?
      ensures r.Fail? ==> r.error == NotFound
      ensures r.Pass? ==>
        database.configs == old(database.configs)[key := ConfigRow(old(database.configs)[key].config, Some(now))]
      ensures database.sources == old(database.sources)
    {
      if key !in database.configs || database.configs[key].deletedAt.Some? {
        return Fail(NotFound);
      }
      database.configs := database.configs[key := database.configs[key].(deletedAt := Some(now))];
      cache := cache - {CacheKey(key, Bucket(now))};
      return Pass;
    }

    method GetConfig(key: Key, now: real) returns (r: Result<AgenticConfig, Error>)
      requires now >= 0.0
      modifies this
      ensures var answer := Answer(Store(now, ActiveConfigs(database.View()), [old(cache)]), 0, key);
        match answer
        case Some(c) => r == Ok(c) && cache == old(cache)[CacheKey(key, Bucket(now)) := c]
        case None => r == Err(NotFound) && cache == old(cache)
      ensures CacheKey(key, Bucket(now)) !in old(cache) ==>
        r == if key in database.configs && database.configs[key].deletedAt.None?
             then Ok(database.configs[key].config) else Err(NotFound)
      ensures CacheKey(key, Bucket(now)) in old(cache) ==> r == Ok(old(cache)[CacheKey(key, Bucket(now))])
    {
      var ck := CacheKey(key, Bucket(now));
      if ck !in cache {
        if key !in database.configs || database.configs[key].deletedAt.Some? {
          return Err(NotFound);
        }
        cache := cache[ck := database.configs[key].config];
        return Ok(cache[ck]);
      }
      return Ok(cache[ck]);
    }

    // configs_referencing_source: the rows the query selects, one id each
    method ConfigsReferencingSource(account: string, kbid: string, id: string) returns (ids: seq<string>)
      ensures forall c :: c in ids <==>
        && Active(database.View(), Key(account, kbid, c))
        && database.configs[Key(account, kbid, c)].config.sources.Some?
        && id in database.configs[Key(account, kbid, c)].config.sources.value
      ensures forall i, j :: 0 <= i < j < |ids| ==> ids[i] != ids[j]
    {
      ids := [];
      var rows := database.configs.Keys;
      while rows != {}
        invariant rows <= database.configs.Keys
        invariant forall c :: c in ids <==>
          Key(account, kbid, c) !in rows && Selected(database.View(), account, kbid, id, Key(account, kbid, c))
        invariant forall i, j :: 0 <= i < j < |ids| ==> ids[i] != ids[j]
        decreases |rows|
      {
        var row :| row in rows;
        if Selected(database.View(), account, kbid, id, row) {
          ids := ids + [row.id];
        }
        rows := rows - {row};
      }
    }

    // hard_delete_expired_configs: the number of rows removed
    method HardDeleteExpired(now: real) returns (count: nat)
      modifies database
      ensures database.View() == HardDelete(old(database.View()), now - retention)
      ensures count == |old(database.View()).configs| - |database.View().configs|
      ensures forall k :: k in database.configs <==>
        && k in old(database.configs)
        && !(old(database.configs)[k].deletedAt.Some? && old(database.configs)[k].deletedAt.value < now - retention)
      ensures forall k :: k in database.configs ==> database.configs[k] == old(database.configs)[k]
      ensures forall k :: k in database.sources <==>
        && k in old(database.sources)
        && (old(database.sources)[k].agenticConfigId.Some? ==>
          var owner := Key(k.account, k.kbid, old(database.sources)[k].agenticConfigId.value);
          owner in old(database.configs) ==> owner in database.configs)
      ensures forall k :: k in database.sources ==> database.sources[k] == old(database.sources)[k]
    {
      var cutoff := now - retention;
      var db := database.View();
      var expired := Expired(db, cutoff);
      HardDeleteCount(db, cutoff);
      count := |expired|;
      if count == 0 {
        return;
      }
      database.configs := database.configs - expired;
      database.sources := database.sources - Cascaded(db, expired);
    }
  }

  // class Sources of one process, with its module-level cache
  class Sources {
    const database: Database
    var cache: Cache<Source>

    constructor (database: Database)
      ensures this.database == database && cache == map[]
    {
      this.database, cache := database, map[];
    }

    method CreateSource(key: Key, source: Source, now: real) returns (r: Outcome<Error>)
      requires now >= 0.0
      modifies this, database
      ensures match AddSource(old(database.View()), key, source)
        case Ok(db) => r.Pass? && database.View() == db && cache == old(cache)[CacheKey(key, Bucket(now)) := source]
        case Err(e) => r == Fail(e) && database.View() == old(database.View()) && cache == old(cache)
      ensures r == if key in old(database.sources) then Fail(Conflict) else Pass
      ensures r.Pass? ==> database.sources == old(database.sources)[key := SourceRow(source, None)]
      ensures database.configs == old(database.configs)
    {
      if key in database.sources {
        return Fail(Conflict);
      }
      database.sources := database.sources[key := SourceRow(source, None)];
      cache := cache[CacheKey(key, Bucket(now)) := source];
      return Pass;
    }

    method GetSource(key: Key, now: real) returns (r: Result<Source, Error>)
      requires now >= 0.0
      modifies this
      ensures match Answer(Store(now, AllSources(database.View()), [old(cache)]), 0, key)
        case Some(v) => r == Ok(v) && cache == old(cache)[CacheKey(key, Bucket(now)) := v]
        case None => r == Err(NotFound) && cache == old(cache)
    {
      var ck := CacheKey(key, Bucket(now));
      if ck !in cache {
        if key !in database.sources {
          return Err(NotFound);
        }
        cache := cache[ck := database.sources[key].source];
        return Ok(cache[ck]);
      }
      return Ok(cache[ck]);
    }

    method PatchSource(key: Key, source: Source, secretGiven: bool, now: real) returns (r: Outcome<Error>)
      requires now >= 0.0
      modifies this, database
      ensures match UpdateSource(old(database.View()), key, source, secretGiven)
        case Ok(db) => r.Pass? && database.View() == db &&
          cache == old(cache)[CacheKey(key, Bucket(now)) := db.sources[key].source]
        case Err(e) => r == Fail(e) && database.View() == old(database.View()) && cache == old(cache)
      ensures r == if key in old(database.sources) then Pass else Fail(NotFound)
      ensures r.Pass? ==>
        var stored, row := old(database.sources)[key], database.sources[key];
        && database.sources == old(database.sources)[key := row] && row.agenticConfigId == stored.agenticConfigId
        && row.source.mcp == source.mcp && row.source.rest == source.rest
        && (secretGiven || !source.mcp ==> row.source.secret == source.secret)
        && (!secretGiven && source.mcp && stored.source.mcp ==> row.source.secret == stored.source.secret)
        && (!secretGiven && source.mcp && !stored.source.mcp ==> row.source.secret == None)
      ensures database.configs == old(database.configs)
    {
      if key !in database.sources {
        return Fail(NotFound);
      }
      var row := database.sources[key];
      var updated := source;
      if source.mcp && !secretGiven {
        updated := updated.(secret := if row.source.mcp then row.source.secret else None);
      }
      database.sources := database.sources[key := row.(source := updated)];
      cache := cache[CacheKey(key, Bucket(now)) := updated];
      return Pass;
    }

    method DeleteSource(key: Key, now: real) returns (r: Outcome<Error>)
      requires now >= 0.0
      modifies this, database
      ensures key in old(database.sources) ==>
        && r.Pass? && database.View() == old(database.View()).(sources := old(database.sources) - {key})
        && cache == old(cache) - {CacheKey(key, Bucket(now))}
      ensures key !in old(database.sources) ==>
        r == Fail(NotFound) && database.View() == old(database.View()) && cache == old(cache)
    {
      if key !in database.sources {
        return Fail(NotFound);
      }
      database.sources := database.sources - {key};
      cache := cache - {CacheKey(key, Bucket(now))};
      return Pass;
    }
  }

  lemma ListedReferencing(db: Db, account: string, kbid: string, id: string, ids: seq<string>)
    requires forall c :: c in ids <==> Selected(db, account, kbid, id, Key(account, kbid, c))
    ensures (set c | c in ids) == Referencing(db, account, kbid, id)
  {
    forall c | c in ids ensures c in Referencing(db, account, kbid, id) {
      assert Selected(db, account, kbid, id, Key(account, kbid, c));
    }
  }

  // delete_source_endpoint
  method DeleteSourceEndpoint(agents: AgenticConfigs, sources: Sources, key: Key, now: real) returns (r: Outcome<Error>)
    requires now >= 0.0 && agents.database == sources.database
    modifies sources, sources.database
    ensures match RemoveSource(old(sources.database.View()), key)
      case Ok(db) => r.Pass? && sources.database.View() == db &&
        sources.cache == old(sources.cache) - {CacheKey(key, Bucket(now))}
      case Err(e) =>
        r == Fail(e) && sources.database.View() == old(sources.database.View()) &&
        sources.cache == old(sources.cache)
    ensures r.Pass? <==> key in old(sources.database.sources) && Unused(old(sources.database.View()), key)
    ensures r.Pass? ==> sources.database.sources == old(sources.database.sources) - {key}
    ensures sources.database.configs == old(sources.database.configs)
  {
    UnusedExact(agents.database.View(), key);
    var configs := agents.ConfigsReferencingSource(key.account, key.kbid, key.id);
    ListedReferencing(agents.database.View(), key.account, key.kbid, key.id, configs);
    var users := set c | c in configs;
    assert users == Referencing(agents.database.View(), key.account, key.kbid, key.id);
    if configs != [] {
      assert configs[0] in users;
      return Fail(InUse(users));
    }
    r := sources.DeleteSource(key, now);
  }
}
