/** The configuration builder of the cache add handlers: processCacheModelNode
    and buildCacheStore (CacheAdd), processClusteredCacheModelNode and the
    distributed and replicated processing. Each reads a flat model node and
    calls setters on Infinispan's fluent configuration. The configuration is
    a record with one part per fluent sub-configuration and one optional
    field per setter the handlers call (None: the handler never called it);
    the list of additional dependencies is a list of service names. */
module Builder {
  import opened Failures
  import opened Dmr
  import opened Names
  import opened Enums
  import opened ServiceNames

  /** fluent.locking() */
  datatype LockingConfig = LockingConfig(
    isolationLevel: Option<string>, useLockStriping: Option<bool>,
    lockAcquisitionTimeout: Option<int>, concurrencyLevel: Option<int>)

  /** fluent.transaction() and its recovery() */
  datatype TransactionConfig = TransactionConfig(
    cacheStopTimeout: Option<int>,
    /** the name of Infinispan's TransactionMode */
    transactionMode: Option<string>,
    lockingMode: Option<LockingMode>, eagerLockSingleNode: Option<bool>,
    useSynchronization: Option<bool>,
    /** Some(true): sync commit and rollback phases; Some(false): disabled */
    recovery: Option<bool>)

  /** fluent.eviction() */
  datatype EvictionConfig = EvictionConfig(strategy: Option<string>, maxEntries: Option<int>)

  /** fluent.expiration() */
  datatype ExpirationConfig = ExpirationConfig(maxIdle: Option<int>, lifespan: Option<int>, wakeUpInterval: Option<int>)

  /** The cache store a loader configuration is for. */
  datatype StoreKind =
    /** the configuration of a named store class; `takesProperties` says
        whether it is an AbstractCacheStoreConfig */
    | ClassStore(className: string, takesProperties: bool)
    /** a FileCacheStoreConfig and its path; its relative-to location comes
        from the path dependency */
    | FileStore(path: string)

  /** A CacheStoreConfig as the handler leaves it. */
  datatype StoreConfig = StoreConfig(
    kind: StoreKind, singleton: bool, fetchPersistentState: bool, purgeOnStartup: bool,
    properties: Option<map<string, string>>)

  /** fluent.loaders() */
  datatype LoadersConfig = LoadersConfig(
    shared: Option<bool>, preload: Option<bool>, passivation: Option<bool>, cacheLoaders: seq<StoreConfig>)

  /** fluent.async() and fluent.sync() */
  datatype ClusteringConfig = ClusteringConfig(
    replQueueMaxElements: Option<int>, replQueueInterval: Option<int>, replTimeout: Option<int>)

  /** The L1 cache of a distributed cache: a lifespan, or disabled. */
  datatype L1 = L1Lifespan(lifespan: int) | L1Disabled

  /** fluent.hash() */
  datatype HashConfig = HashConfig(
    numOwners: Option<int>, numVirtualNodes: Option<int>, rehashEnabled: Option<bool>, rehashRpcTimeout: Option<int>)

  /** fluent.stateRetrieval() */
  datatype StateRetrievalConfig = StateRetrievalConfig(
    fetchInMemoryState: Option<bool>, timeout: Option<int>, logFlushTimeout: Option<int>)

  /** The setters of the fluent configuration the handlers call. */
  datatype Settings = Settings(
    mode: Option<string>,
    invocationBatching: Option<bool>,
    /** indexing enabled, with its local-only flag */
    indexLocalOnly: Option<bool>,
    locking: LockingConfig, transaction: TransactionConfig,
    eviction: EvictionConfig, expiration: ExpirationConfig, loaders: LoadersConfig,
    clustering: ClusteringConfig, hash: HashConfig, l1: Option<L1>,
    stateRetrieval: StateRetrievalConfig)

  /** A new Configuration: no setter called. */
  const UNSET: Settings := Settings(
    None, None, None,
    LockingConfig(None, None, None, None),
    TransactionConfig(None, None, None, None, None, None),
    EvictionConfig(None, None), ExpirationConfig(None, None, None),
    LoadersConfig(None, None, None, []),
    ClusteringConfig(None, None, None), HashConfig(None, None, None, None), None,
    StateRetrievalConfig(None, None, None))

  /** Loading a store class by name and instantiating it and its
      configuration class: None when any of that fails, otherwise whether the
      configuration is an AbstractCacheStoreConfig. */
  type StoreOracle = string -> Option<bool>

  const NON_XA: string := "NON_XA"

  /** A state-changing step did what its specification says: on success it
      left the specified value, on failure it reports the specified failure. */
  predicate Performed<T(==)>(spec: Result<T>, after: T, failure: Option<Failure>) {
    match spec
    case Ok(v) => failure.None? && after == v
    case Err(e) => failure == Some(e)
  }

  // ---------------------------------------------------------------------
  // Reading the model
  // ---------------------------------------------------------------------

  /** A setter called only when its key is defined: the new value, or the
      current one. */
  function Override<T>(x: Option<T>, current: Option<T>): Option<T> {
    if x.Some? then x else current
  }

  /** `x ?: d` */
  function Default<T>(x: Option<T>, d: T): T {
    if x.Some? then x.value else d
  }

  /** Enum.valueOf(name) over an enumeration with the given constant names. */
  function ValueOf(names: set<string>, key: string, name: string): (r: Result<string>)
    ensures r.Ok? <==> name in names
    ensures r.Ok? ==> r.value == name
    ensures r.Err? ==> r.error == UnknownConstant(key, name)
  {
    if name in names then Ok(name) else Err(UnknownConstant(key, name))
  }

  /** An optional enumerated key: undefined, or the constant it names. */
  function LookupConstant(m: Node, key: string, names: set<string>): (r: Result<Option<string>>)
    ensures r == Ok(None) <==> key !in m
    ensures r.Ok? && r.value.Some? ==> key in m && AsString(m[key]) == r.value && r.value.value in names
    ensures r.Err? <==> key in m && (AsString(m[key]).None? || AsString(m[key]).value !in names)
  {
    var s :- Lookup(m, key, AsString);
    match s
    case None => Ok(None)
    case Some(name) =>
      var v :- ValueOf(names, key, name);
      Ok(Some(v))
  }

  /** A boolean key with a default for when it is undefined. */
  function FlagOr(m: Node, key: string, default: bool): (r: Result<bool>)
    ensures key !in m ==> r == Ok(default)
    ensures key in m ==> (r.Ok? <==> AsBoolean(m[key]).Some?)
    ensures key in m && r.Ok? ==> Some(r.value) == AsBoolean(m[key])
  {
    var b :- Lookup(m, key, AsBoolean);
    Ok(Default(b, default))
  }

  // ---------------------------------------------------------------------
  // processCacheModelNode, section by section
  // ---------------------------------------------------------------------

  /** Lines 169-170: the cache mode is required and must be a CacheMode constant. */
  function CacheModeOf(c: Catalog, m: Node): Result<string> {
    var name :- Require(m, CACHE_MODE, AsString);
    ValueOf(c.cacheModes, CACHE_MODE, name)
  }

  /** Lines 173-177: batching is switched on only by a true flag. */
  function Batched(m: Node, current: Option<bool>): Result<Option<bool>> {
    var b :- Lookup(m, BATCHING, AsBoolean);
    Ok(if b == Some(true) then Some(true) else current)
  }

  /** Lines 179-184: an enabled indexing constant sets its local-only flag. */
  function Indexed(c: Catalog, m: Node, current: Option<bool>): Result<Option<bool>> {
    var i :- LookupConstant(m, INDEXING, c.indexings);
    Ok(if i.Some? && c.indexingEnabled(i.value) then Some(c.indexingLocalOnly(i.value)) else current)
  }

  /** Lines 187-201: the locking group, only under its marker. */
  function Locked(c: Catalog, m: Node, l: LockingConfig): Result<LockingConfig> {
    if LOCKING !in m then Ok(l)
    else
      var isolation :- LookupConstant(m, Flatten(LOCKING, ISOLATION), c.isolationLevels);
      var striping :- Lookup(m, Flatten(LOCKING, STRIPING), AsBoolean);
      var timeout :- Lookup(m, Flatten(LOCKING, ACQUIRE_TIMEOUT), AsLong);
      var level :- Lookup(m, Flatten(LOCKING, CONCURRENCY_LEVEL), AsInt);
      Ok(LockingConfig(Override(isolation, l.isolationLevel), Override(striping, l.useLockStriping),
                       Override(timeout, l.lockAcquisitionTimeout), Override(level, l.concurrencyLevel)))
  }

  /** What the transaction group of lines 207-221 decides: the stop timeout,
      the subsystem's transaction mode name, the locking mode and the eager
      locking constant. */
  datatype TxChoice = TxChoice(stopTimeout: Option<int>, mode: string, locking: LockingMode, eager: Option<string>)

  function TxChosen(c: Catalog, m: Node): Result<TxChoice> {
    if TRANSACTION !in m then Ok(TxChoice(None, NON_XA, Optimistic, None))
    else
      var stop :- Lookup(m, Flatten(TRANSACTION, STOP_TIMEOUT), AsInt);
      var mode :- LookupConstant(m, Flatten(TRANSACTION, MODE), c.transactionModes);
      var locking :- LookupConstant(m, Flatten(TRANSACTION, LOCKING), LOCKING_MODES);
      var eager :- LookupConstant(m, Flatten(TRANSACTION, EAGER_LOCKING), c.eagerLockings);
      Ok(TxChoice(stop, Default(mode, NON_XA), if locking.Some? then LockingModeOf(locking.value) else Optimistic, eager))
  }

  /** The setters of lines 208-220 inside the transaction group: the stop
      timeout, and the locking mode and single-owner flag of an eager-locking
      constant. */
  function TxGroupApplied(c: Catalog, t: TxChoice, x: TransactionConfig): TransactionConfig {
    var x1 := x.(cacheStopTimeout := Override(t.stopTimeout, x.cacheStopTimeout));
    if t.eager.Some? then
      x1.(lockingMode := Some(if c.eagerEnabled(t.eager.value) then Pessimistic else Optimistic),
          eagerLockSingleNode := Some(c.eagerSingleOwner(t.eager.value)))
    else x1
  }

  /** Lines 204-229. The locking mode the eager-locking constant sets at line
      219 is overwritten at line 223, and only its single-owner flag stays. */
  function Transacted(c: Catalog, m: Node, x: TransactionConfig): Result<TransactionConfig> {
    var t :- TxChosen(c, m);
    Ok(TxGroupApplied(c, t, x).(transactionMode := Some(c.engineTransactionMode(t.mode)),
                                lockingMode := Some(t.locking),
                                useSynchronization := Some(!c.xaEnabled(t.mode)),
                                recovery := Some(c.recoveryEnabled(t.mode))))
  }

  /** Lines 232-240: the eviction group, only under its marker. */
  function Evicted(c: Catalog, m: Node, e: EvictionConfig): Result<EvictionConfig> {
    if EVICTION !in m then Ok(e)
    else
      var strategy :- LookupConstant(m, Flatten(EVICTION, STRATEGY), c.evictionStrategies);
      var entries :- Lookup(m, Flatten(EVICTION, MAX_ENTRIES), AsInt);
      Ok(EvictionConfig(Override(strategy, e.strategy), Override(entries, e.maxEntries)))
  }

  /** Lines 243-254: the expiration group, only under its marker. */
  function Expired(m: Node, e: ExpirationConfig): Result<ExpirationConfig> {
    if EXPIRATION !in m then Ok(e)
    else
      var idle :- Lookup(m, Flatten(EXPIRATION, MAX_IDLE), AsLong);
      var life :- Lookup(m, Flatten(EXPIRATION, LIFESPAN), AsLong);
      var interval :- Lookup(m, Flatten(EXPIRATION, INTERVAL), AsLong);
      Ok(ExpirationConfig(Override(idle, e.maxIdle), Override(life, e.lifespan), Override(interval, e.wakeUpInterval)))
  }

  /** buildCacheStore (lines 286-306): the store configuration and the
      additional dependencies after it. */
  function StoreBuilt(oracle: StoreOracle, name: string, m: Node, deps: seq<ServiceName>): Result<(StoreKind, seq<ServiceName>)> {
    var className :- Lookup(m, Flatten(STORE, CLASS), AsString);
    if className.Some? then
      match oracle(className.value)
      case None => Err(InvalidCacheStore(className.value))
      case Some(takesProperties) => Ok((ClassStore(className.value, takesProperties), deps))
    else
      var relativeTo :- Lookup(m, Flatten(STORE, RELATIVE_TO), AsString);
      var path :- Lookup(m, Flatten(STORE, PATH), AsString);
      Ok((FileStore(Default(path, name)), deps + [PathNameOf(Default(relativeTo, SERVER_DATA_DIR))]))
  }

  /** Whether a store configuration is an AbstractCacheStoreConfig; a file
      store's is. */
  predicate TakesProperties(kind: StoreKind) {
    kind.FileStore? || kind.takesProperties
  }

  /** java.util.Properties filled by setProperty in list order: a later
      property of the same name replaces an earlier one. */
  function PropertyMap(ps: seq<(string, string)>): map<string, string> {
    if ps == [] then map[] else PropertyMap(ps[..|ps| - 1])[ps[|ps| - 1].0 := ps[|ps| - 1].1]
  }

  /** Lines 270-276: the properties a store configuration is given. */
  function StoreProperties(m: Node, kind: StoreKind): Result<Option<map<string, string>>> {
    var key := Flatten(STORE, PROPERTIES);
    if key !in m || !TakesProperties(kind) then Ok(None)
    else match AsProperties(m[key])
      case None => Err(NotConvertible(key))
      case Some(ps) => Ok(Some(PropertyMap(ps)))
  }

  /** Lines 257-278: the store group, only under its marker; the loaders and
      the additional dependencies after it. */
  function Stored(oracle: StoreOracle, name: string, m: Node, l: LoadersConfig, deps: seq<ServiceName>): Result<(LoadersConfig, seq<ServiceName>)> {
    if STORE !in m then Ok((l, deps))
    else
      var shared :- FlagOr(m, Flatten(STORE, SHARED), false);
      var preload :- FlagOr(m, Flatten(STORE, PRELOAD), false);
      var passivation :- FlagOr(m, Flatten(STORE, PASSIVATION), true);
      var store :- StoreBuilt(oracle, name, m, deps);
      var singleton :- FlagOr(m, Flatten(STORE, SINGLETON), false);
      var fetch :- FlagOr(m, Flatten(STORE, FETCH_STATE), true);
      var purge :- FlagOr(m, Flatten(STORE, PURGE), true);
      var properties :- StoreProperties(m, store.0);
      Ok((LoadersConfig(Some(shared), Some(preload), Some(passivation),
                        l.cacheLoaders + [StoreConfig(store.0, singleton, fetch, purge, properties)]),
          store.1))
  }

  /** Lines 169-254: the sections before the store group. */
  function SettingsConfigured(c: Catalog, m: Node, s: Settings): Result<Settings> {
    var mode :- CacheModeOf(c, m);
    var batching :- Batched(m, s.invocationBatching);
    var indexing :- Indexed(c, m, s.indexLocalOnly);
    var locking :- Locked(c, m, s.locking);
    var transaction :- Transacted(c, m, s.transaction);
    var eviction :- Evicted(c, m, s.eviction);
    var expiration :- Expired(m, s.expiration);
    Ok(s.(mode := Some(mode), invocationBatching := batching, indexLocalOnly := indexing, locking := locking,
          transaction := transaction, eviction := eviction, expiration := expiration))
  }

  /** What the builder leaves: the settings and the additional dependencies. */
  datatype Built = Built(settings: Settings, deps: seq<ServiceName>)

  /** processCacheModelNode (lines 161-281) */
  function CacheConfigured(c: Catalog, oracle: StoreOracle, m: Node, s: Settings, deps: seq<ServiceName>): Result<Built> {
    var name :- Require(m, NAME, AsString);
    var t :- SettingsConfigured(c, m, s);
    var stored :- Stored(oracle, name, m, t.loaders, deps);
    Ok(Built(t.(loaders := stored.0), stored.1))
  }

  // ---------------------------------------------------------------------
  // The clustered, distributed and replicated processing
  // ---------------------------------------------------------------------

  /** processClusteredCacheModelNode (ClusteredCacheAdd lines 64-79) */
  function ClusteredConfigured(m: Node, cl: ClusteringConfig): Result<ClusteringConfig> {
    var size :- Lookup(m, QUEUE_SIZE, AsInt);
    var interval :- Lookup(m, QUEUE_FLUSH_INTERVAL, AsLong);
    var timeout :- Lookup(m, REMOTE_TIMEOUT, AsLong);
    Ok(ClusteringConfig(Override(size, cl.replQueueMaxElements), Override(interval, cl.replQueueInterval),
                        Override(timeout, cl.replTimeout)))
  }

  /** The L1 rule of DistributedCacheAdd lines 133-140 */
  function L1Of(lifespan: int): L1 {
    if lifespan > 0 then L1Lifespan(lifespan) else L1Disabled
  }

  /** DistributedCacheAdd lines 127-140: owners, virtual nodes and L1. */
  function Distributed(m: Node, h: HashConfig, l1: Option<L1>): Result<(HashConfig, Option<L1>)> {
    var owners :- Lookup(m, OWNERS, AsInt);
    var nodes :- Lookup(m, VIRTUAL_NODES, AsInt);
    var lifespan :- Lookup(m, L1_LIFESPAN, AsLong);
    Ok((h.(numOwners := Override(owners, h.numOwners), numVirtualNodes := Override(nodes, h.numVirtualNodes)),
        if lifespan.Some? then Some(L1Of(lifespan.value)) else l1))
  }

  /** DistributedCacheAdd lines 141-149: the rehashing group, only under its marker. */
  function Rehashed(m: Node, h: HashConfig): Result<HashConfig> {
    if REHASHING !in m then Ok(h)
    else
      var enabled :- Lookup(m, Flatten(REHASHING, ENABLED), AsBoolean);
      var timeout :- Lookup(m, Flatten(REHASHING, TIMEOUT), AsLong);
      Ok(h.(rehashEnabled := Override(enabled, h.rehashEnabled), rehashRpcTimeout := Override(timeout, h.rehashRpcTimeout)))
  }

  /** processDistributedCacheModelNode (DistributedCacheAdd lines 120-151) */
  function DistributedConfigured(m: Node, s: Settings): Result<Settings> {
    var clustering :- ClusteredConfigured(m, s.clustering);
    var distributed :- Distributed(m, s.hash, s.l1);
    var hash :- Rehashed(m, distributed.0);
    Ok(s.(clustering := clustering, hash := hash, l1 := distributed.1))
  }

  /** ReplicatedCacheAdd lines 117-129: the state-transfer group, only under its marker. */
  function StateTransferred(m: Node, st: StateRetrievalConfig): Result<StateRetrievalConfig> {
    if STATE_TRANSFER !in m then Ok(st)
    else
      var enabled :- Lookup(m, Flatten(STATE_TRANSFER, ENABLED), AsBoolean);
      var timeout :- Lookup(m, Flatten(STATE_TRANSFER, TIMEOUT), AsLong);
      var flush :- Lookup(m, Flatten(STATE_TRANSFER, FLUSH_TIMEOUT), AsLong);
      Ok(StateRetrievalConfig(Override(enabled, st.fetchInMemoryState), Override(timeout, st.timeout),
                              Override(flush, st.logFlushTimeout)))
  }

  /** processReplicatedCacheModelNode (ReplicatedCacheAdd lines 112-131) */
  function ReplicatedConfigured(m: Node, s: Settings): Result<Settings> {
    var clustering :- ClusteredConfigured(m, s.clustering);
    var stateRetrieval :- StateTransferred(m, s.stateRetrieval);
    Ok(s.(clustering := clustering, stateRetrieval := stateRetrieval))
  }

  // ---------------------------------------------------------------------
  // The builder's state
  // ---------------------------------------------------------------------

  /** The list of additional dependencies a builder fills in for the
      service installer. */
  class DependencyList {
    var names: seq<ServiceName>

    constructor ()
      ensures names == []
    {
      names := [];
    }

    method Add(name: ServiceName)
      modifies this
      ensures names == old(names) + [name]
    {
      names := names + [name];
    }
  }

  /** A configuration the handlers update in place. */
  class Configuration {
    var settings: Settings

    constructor ()
      ensures settings == UNSET
    {
      settings := UNSET;
    }

    /** processCacheModelNode: the sections in the order of lines 161-281. */
    method ProcessCacheModelNode(c: Catalog, oracle: StoreOracle, m: Node, deps: DependencyList) returns (failure: Option<Failure>)
      modifies this, deps
      ensures Performed(CacheConfigured(c, oracle, m, old(settings), old(deps.names)), Built(settings, deps.names), failure)
    {
      var name := Require(m, NAME, AsString);
      if name.Err? {
        return Some(name.error);
      }
      failure := SetMode(c, m);
      if failure.Some? {
        return;
      }
      failure := SetBatching(m);
      if failure.Some? {
        return;
      }
      failure := SetIndexing(c, m);
      if failure.Some? {
        return;
      }
      failure := SetLocking(c, m);
      if failure.Some? {
        return;
      }
      failure := SetTransaction(c, m);
      if failure.Some? {
        return;
      }
      failure := SetEviction(c, m);
      if failure.Some? {
        return;
      }
      failure := SetExpiration(m);
      if failure.Some? {
        return;
      }
      failure := SetStore(oracle, name.value, m, deps);
    }

    method SetMode(c: Catalog, m: Node) returns (failure: Option<Failure>)
      modifies this
      ensures match CacheModeOf(c, m)
              case Ok(mode) => failure.None? && settings == old(settings).(mode := Some(mode))
              case Err(e) => failure == Some(e)
    {
      var name := Require(m, CACHE_MODE, AsString);
      if name.Err? {
        return Some(name.error);
      }
      if name.value !in c.cacheModes {
        return Some(UnknownConstant(CACHE_MODE, name.value));
      }
      settings := settings.(mode := Some(name.value));
      return None;
    }

    method SetBatching(m: Node) returns (failure: Option<Failure>)
      modifies this
      ensures Performed(Batched(m, old(settings.invocationBatching)), settings.invocationBatching, failure)
      ensures settings == old(settings).(invocationBatching := settings.invocationBatching)
    {
      if BATCHING in m {
        var b := AsBoolean(m[BATCHING]);
        if b.None? {
          return Some(NotConvertible(BATCHING));
        }
        if b.value {
          settings := settings.(invocationBatching := Some(true));
        }
      }
      return None;
    }

    method SetIndexing(c: Catalog, m: Node) returns (failure: Option<Failure>)
      modifies this
      ensures Performed(Indexed(c, m, old(settings.indexLocalOnly)), settings.indexLocalOnly, failure)
      ensures settings == old(settings).(indexLocalOnly := settings.indexLocalOnly)
    {
      var indexing := LookupConstant(m, INDEXING, c.indexings);
      if indexing.Err? {
        return Some(indexing.error);
      }
      if indexing.value.Some? && c.indexingEnabled(indexing.value.value) {
        settings := settings.(indexLocalOnly := Some(c.indexingLocalOnly(indexing.value.value)));
      }
      return None;
    }

    method SetLocking(c: Catalog, m: Node) returns (failure: Option<Failure>)
      modifies this
      ensures Performed(Locked(c, m, old(settings.locking)), settings.locking, failure)
      ensures settings == old(settings).(locking := settings.locking)
    {
      if LOCKING in m {
        var isolation := LookupConstant(m, Flatten(LOCKING, ISOLATION), c.isolationLevels);
        if isolation.Err? {
          return Some(isolation.error);
        }
        if isolation.value.Some? {
          settings := settings.(locking := settings.locking.(isolationLevel := isolation.value));
        }
        var striping := Lookup(m, Flatten(LOCKING, STRIPING), AsBoolean);
        if striping.Err? {
          return Some(striping.error);
        }
        if striping.value.Some? {
          settings := settings.(locking := settings.locking.(useLockStriping := striping.value));
        }
        var timeout := Lookup(m, Flatten(LOCKING, ACQUIRE_TIMEOUT), AsLong);
        if timeout.Err? {
          return Some(timeout.error);
        }
        if timeout.value.Some? {
          settings := settings.(locking := settings.locking.(lockAcquisitionTimeout := timeout.value));
        }
        var level := Lookup(m, Flatten(LOCKING, CONCURRENCY_LEVEL), AsInt);
        if level.Err? {
          return Some(level.error);
        }
        if level.value.Some? {
          settings := settings.(locking := settings.locking.(concurrencyLevel := level.value));
        }
      }
      return None;
    }

    /** Lines 204-229, with the local transaction and locking modes. */
    method SetTransaction(c: Catalog, m: Node) returns (failure: Option<Failure>)
      modifies this
      ensures Performed(Transacted(c, m, old(settings.transaction)), settings.transaction, failure)
      ensures settings == old(settings).(transaction := settings.transaction)
    {
      var txMode := NON_XA;
      var lockingMode := Optimistic;
      if TRANSACTION in m {
        var t := ReadTransaction(c, m);
        if t.Err? {
          return Some(t.error);
        }
        txMode := t.value.mode;
        lockingMode := t.value.locking;
      }
      settings := settings.(transaction := settings.transaction.(transactionMode := Some(c.engineTransactionMode(txMode))));
      settings := settings.(transaction := settings.transaction.(lockingMode := Some(lockingMode)));
      settings := settings.(transaction := settings.transaction.(useSynchronization := Some(!c.xaEnabled(txMode))));
      settings := settings.(transaction := settings.transaction.(recovery := Some(c.recoveryEnabled(txMode))));
      return None;
    }

    /** Lines 207-221: the transaction group's keys, read in order. */
    method ReadTransaction(c: Catalog, m: Node) returns (r: Result<TxChoice>)
      requires TRANSACTION in m
      modifies this
      ensures r == TxChosen(c, m)
      ensures settings == old(settings).(transaction := settings.transaction)
      ensures r.Ok? ==> settings == old(settings).(transaction := TxGroupApplied(c, r.value, old(settings.transaction)))
    {
      var stop := Lookup(m, Flatten(TRANSACTION, STOP_TIMEOUT), AsInt);
      if stop.Err? {
        return Err(stop.error);
      }
      if stop.value.Some? {
        settings := settings.(transaction := settings.transaction.(cacheStopTimeout := stop.value));
      }
      var mode := LookupConstant(m, Flatten(TRANSACTION, MODE), c.transactionModes);
      if mode.Err? {
        return Err(mode.error);
      }
      var locking := LookupConstant(m, Flatten(TRANSACTION, LOCKING), LOCKING_MODES);
      if locking.Err? {
        return Err(locking.error);
      }
      var eager := LookupConstant(m, Flatten(TRANSACTION, EAGER_LOCKING), c.eagerLockings);
      if eager.Err? {
        return Err(eager.error);
      }
      if eager.value.Some? {
        var e := eager.value.value;
        settings := settings.(transaction := settings.transaction.(
          lockingMode := Some(if c.eagerEnabled(e) then Pessimistic else Optimistic),
          eagerLockSingleNode := Some(c.eagerSingleOwner(e))));
      }
      return Ok(TxChoice(stop.value, Default(mode.value, NON_XA),
                         if locking.value.Some? then LockingModeOf(locking.value.value) else Optimistic, eager.value));
    }

    method SetEviction(c: Catalog, m: Node) returns (failure: Option<Failure>)
      modifies this
      ensures Performed(Evicted(c, m, old(settings.eviction)), settings.eviction, failure)
      ensures settings == old(settings).(eviction := settings.eviction)
    {
      if EVICTION in m {
        var strategy := LookupConstant(m, Flatten(EVICTION, STRATEGY), c.evictionStrategies);
        if strategy.Err? {
          return Some(strategy.error);
        }
        if strategy.value.Some? {
          settings := settings.(eviction := settings.eviction.(strategy := strategy.value));
        }
        var entries := Lookup(m, Flatten(EVICTION, MAX_ENTRIES), AsInt);
        if entries.Err? {
          return Some(entries.error);
        }
        if entries.value.Some? {
          settings := settings.(eviction := settings.eviction.(maxEntries := entries.value));
        }
      }
      return None;
    }

    method SetExpiration(m: Node) returns (failure: Option<Failure>)
      modifies this
      ensures Performed(Expired(m, old(settings.expiration)), settings.expiration, failure)
      ensures settings == old(settings).(expiration := settings.expiration)
    {
      if EXPIRATION in m {
        var idle := Lookup(m, Flatten(EXPIRATION, MAX_IDLE), AsLong);
        if idle.Err? {
          return Some(idle.error);
        }
        if idle.value.Some? {
          settings := settings.(expiration := settings.expiration.(maxIdle := idle.value));
        }
        var life := Lookup(m, Flatten(EXPIRATION, LIFESPAN), AsLong);
        if life.Err? {
          return Some(life.error);
        }
        if life.value.Some? {
          settings := settings.(expiration := settings.expiration.(lifespan := life.value));
        }
        var interval := Lookup(m, Flatten(EXPIRATION, INTERVAL), AsLong);
        if interval.Err? {
          return Some(interval.error);
        }
        if interval.value.Some? {
          settings := settings.(expiration := settings.expiration.(wakeUpInterval := interval.value));
        }
      }
      return None;
    }

    /** Lines 257-278: the loaders' flags, the store built by
        buildCacheStore, its flags and properties, and the loader added. */
    method SetStore(oracle: StoreOracle, name: string, m: Node, deps: DependencyList) returns (failure: Option<Failure>)
      modifies this, deps
      ensures match Stored(oracle, name, m, old(settings.loaders), old(deps.names))
              case Ok(stored) => failure.None? && settings == old(settings).(loaders := stored.0) && deps.names == stored.1
              case Err(e) => failure == Some(e)
    {
      if STORE in m {
        var shared := FlagOr(m, Flatten(STORE, SHARED), false);
        if shared.Err? {
          return Some(shared.error);
        }
        var preload := FlagOr(m, Flatten(STORE, PRELOAD), false);
        if preload.Err? {
          return Some(preload.error);
        }
        var passivation := FlagOr(m, Flatten(STORE, PASSIVATION), true);
        if passivation.Err? {
          return Some(passivation.error);
        }
        settings := settings.(loaders := settings.loaders.(shared := Some(shared.value), preload := Some(preload.value),
                                                           passivation := Some(passivation.value)));
        var kind := BuildCacheStore(oracle, name, m, deps);
        if kind.Err? {
          return Some(kind.error);
        }
        var singleton := FlagOr(m, Flatten(STORE, SINGLETON), false);
        if singleton.Err? {
          return Some(singleton.error);
        }
        var fetch := FlagOr(m, Flatten(STORE, FETCH_STATE), true);
        if fetch.Err? {
          return Some(fetch.error);
        }
        var purge := FlagOr(m, Flatten(STORE, PURGE), true);
        if purge.Err? {
          return Some(purge.error);
        }
        var properties: Option<map<string, string>> := None;
        var key := Flatten(STORE, PROPERTIES);
        if key in m && TakesProperties(kind.value) {
          var ps := AsProperties(m[key]);
          if ps.None? {
            return Some(NotConvertible(key));
          }
          var collected := CollectProperties(ps.value);
          properties := Some(collected);
        }
        var loader := StoreConfig(kind.value, singleton.value, fetch.value, purge.value, properties);
        settings := settings.(loaders := settings.loaders.(cacheLoaders := settings.loaders.cacheLoaders + [loader]));
      }
      return None;
    }

    /** processClusteredCacheModelNode: it never touches the dependency list. */
    method ProcessClusteredCacheModelNode(m: Node, deps: DependencyList) returns (failure: Option<Failure>)
      modifies this
      ensures Performed(ClusteredConfigured(m, old(settings.clustering)), settings.clustering, failure)
      ensures settings == old(settings).(clustering := settings.clustering)
    {
      var size := Lookup(m, QUEUE_SIZE, AsInt);
      if size.Err? {
        return Some(size.error);
      }
      if size.value.Some? {
        settings := settings.(clustering := settings.clustering.(replQueueMaxElements := size.value));
      }
      var interval := Lookup(m, QUEUE_FLUSH_INTERVAL, AsLong);
      if interval.Err? {
        return Some(interval.error);
      }
      if interval.value.Some? {
        settings := settings.(clustering := settings.clustering.(replQueueInterval := interval.value));
      }
      var timeout := Lookup(m, REMOTE_TIMEOUT, AsLong);
      if timeout.Err? {
        return Some(timeout.error);
      }
      if timeout.value.Some? {
        settings := settings.(clustering := settings.clustering.(replTimeout := timeout.value));
      }
      return None;
    }

    /** processDistributedCacheModelNode */
    method ProcessDistributedCacheModelNode(m: Node, deps: DependencyList) returns (failure: Option<Failure>)
      modifies this
      ensures Performed(DistributedConfigured(m, old(settings)), settings, failure)
    {
      failure := ProcessClusteredCacheModelNode(m, deps);
      if failure.Some? {
        return;
      }
      var owners := Lookup(m, OWNERS, AsInt);
      if owners.Err? {
        return Some(owners.error);
      }
      if owners.value.Some? {
        settings := settings.(hash := settings.hash.(numOwners := owners.value));
      }
      var nodes := Lookup(m, VIRTUAL_NODES, AsInt);
      if nodes.Err? {
        return Some(nodes.error);
      }
      if nodes.value.Some? {
        settings := settings.(hash := settings.hash.(numVirtualNodes := nodes.value));
      }
      var l1 := Lookup(m, L1_LIFESPAN, AsLong);
      if l1.Err? {
        return Some(l1.error);
      }
      if l1.value.Some? {
        var lifespan := l1.value.value;
        if lifespan > 0 {
          settings := settings.(l1 := Some(L1Lifespan(lifespan)));
        } else {
          settings := settings.(l1 := Some(L1Disabled));
        }
      }
      failure := SetRehashing(m);
    }

    method SetRehashing(m: Node) returns (failure: Option<Failure>)
      modifies this
      ensures Performed(Rehashed(m, old(settings.hash)), settings.hash, failure)
      ensures settings == old(settings).(hash := settings.hash)
    {
      if REHASHING in m {
        var enabled := Lookup(m, Flatten(REHASHING, ENABLED), AsBoolean);
        if enabled.Err? {
          return Some(enabled.error);
        }
        if enabled.value.Some? {
          settings := settings.(hash := settings.hash.(rehashEnabled := enabled.value));
        }
        var timeout := Lookup(m, Flatten(REHASHING, TIMEOUT), AsLong);
        if timeout.Err? {
          return Some(timeout.error);
        }
        if timeout.value.Some? {
          settings := settings.(hash := settings.hash.(rehashRpcTimeout := timeout.value));
        }
      }
      return None;
    }

    /** processReplicatedCacheModelNode */
    method ProcessReplicatedCacheModelNode(m: Node, deps: DependencyList) returns (failure: Option<Failure>)
      modifies this
      ensures Performed(ReplicatedConfigured(m, old(settings)), settings, failure)
    {
      failure := ProcessClusteredCacheModelNode(m, deps);
      if failure.Some? {
        return;
      }
      if STATE_TRANSFER in m {
        var enabled := Lookup(m, Flatten(STATE_TRANSFER, ENABLED), AsBoolean);
        if enabled.Err? {
          return Some(enabled.error);
        }
        if enabled.value.Some? {
          settings := settings.(stateRetrieval := settings.stateRetrieval.(fetchInMemoryState := enabled.value));
        }
        var timeout := Lookup(m, Flatten(STATE_TRANSFER, TIMEOUT), AsLong);
        if timeout.Err? {
          return Some(timeout.error);
        }
        if timeout.value.Some? {
          settings := settings.(stateRetrieval := settings.stateRetrieval.(timeout := timeout.value));
        }
        var flush := Lookup(m, Flatten(STATE_TRANSFER, FLUSH_TIMEOUT), AsLong);
        if flush.Err? {
          return Some(flush.error);
        }
        if flush.value.Some? {
          settings := settings.(stateRetrieval := settings.stateRetrieval.(logFlushTimeout := flush.value));
        }
      }
      return None;
    }
  }

  /** buildCacheStore: the dependency on the store's location is added to
      the list before the path is read, as at lines 301-304. */
  method BuildCacheStore(oracle: StoreOracle, name: string, m: Node, deps: DependencyList) returns (r: Result<StoreKind>)
    modifies deps
    ensures match StoreBuilt(oracle, name, m, old(deps.names))
            case Ok(built) => r == Ok(built.0) && deps.names == built.1
            case Err(e) => r == Err(e)
  {
    var className := Lookup(m, Flatten(STORE, CLASS), AsString);
    if className.Err? {
      return Err(className.error);
    }
    if className.value.Some? {
      var loaded := oracle(className.value.value);
      if loaded.None? {
        return Err(InvalidCacheStore(className.value.value));
      }
      return Ok(ClassStore(className.value.value, loaded.value));
    }
    var relativeTo := Lookup(m, Flatten(STORE, RELATIVE_TO), AsString);
    if relativeTo.Err? {
      return Err(relativeTo.error);
    }
    deps.Add(PathNameOf(Default(relativeTo.value, SERVER_DATA_DIR)));
    var path := Lookup(m, Flatten(STORE, PATH), AsString);
    if path.Err? {
      return Err(path.error);
    }
    return Ok(FileStore(Default(path.value, name)));
  }

  /** The loop of lines 272-274 filling a Properties object. */
  method CollectProperties(ps: seq<(string, string)>) returns (properties: map<string, string>)
    ensures properties == PropertyMap(ps)
  {
    properties := map[];
    for i := 0 to |ps|
      invariant properties == PropertyMap(ps[..i])
    {
      assert ps[..i + 1][..i] == ps[..i];
      properties := properties[ps[i].0 := ps[i].1];
    }
    assert ps[..|ps|] == ps;
  }

  // ---------------------------------------------------------------------
  // What the builder promises
  // ---------------------------------------------------------------------

  /** The value a setter called only for a defined key leaves: the key's
      converted value, or the current one when the key is undefined. */
  function Converted<T>(m: Node, key: string, convert: Value -> Option<T>, current: Option<T>): Option<T> {
    if key in m then convert(m[key]) else current
  }

  /** The key is undefined or converts. */
  predicate Convertible<T>(m: Node, key: string, convert: Value -> Option<T>) {
    key !in m || convert(m[key]).Some?
  }

  /** A store flag: its value when defined, the default otherwise. */
  function FlagValue(m: Node, key: string, default: bool): bool {
    if key in m then AsBoolean(m[key]) == Some(true) else default
  }

  /** A string key's value when defined, the default otherwise. */
  function TextOr(m: Node, key: string, default: string): string {
    if key in m && AsString(m[key]).Some? then AsString(m[key]).value else default
  }

  /** The subsystem transaction mode the model asks for: NON_XA unless the
      transaction group names one. */
  function TxModeName(m: Node): string {
    if TRANSACTION in m then TextOr(m, Flatten(TRANSACTION, MODE), NON_XA) else NON_XA
  }

  /** The model asks for pessimistic locking in its transaction group. */
  predicate PessimisticRequested(m: Node) {
    TRANSACTION in m && Flatten(TRANSACTION, LOCKING) in m && AsString(m[Flatten(TRANSACTION, LOCKING)]) == Some("PESSIMISTIC")
  }

  /** Lines 204-229 in one section: the transaction mode and the locking mode
      the model asks for, with synchronization exactly for a non-XA mode and
      recovery exactly for a recovery mode. */
  lemma TransactedModes(c: Catalog, m: Node, x: TransactionConfig)
    ensures var r := Transacted(c, m, x);
      r.Ok? ==>
        r.value.transactionMode == Some(c.engineTransactionMode(TxModeName(m))) &&
        r.value.useSynchronization == Some(!c.xaEnabled(TxModeName(m))) &&
        r.value.recovery == Some(c.recoveryEnabled(TxModeName(m))) &&
        r.value.lockingMode == Some(if PessimisticRequested(m) then Pessimistic else Optimistic)
  {
    var r := Transacted(c, m, x);
    if r.Ok? && TRANSACTION in m {
      var t := TxChosen(c, m).value;
      var key := Flatten(TRANSACTION, LOCKING);
      if key in m {
        var locking := LookupConstant(m, key, LOCKING_MODES);
        assert t.locking == LockingModeOf(locking.value.value);
      }
    }
  }

  /** processCacheModelNode's transaction settings (lines 204-229): the
      transaction mode the model names, NON_XA without one; the locking mode
      is pessimistic exactly when the transaction group asks for it, whatever
      the eager-locking setting says; synchronization is used exactly for a
      non-XA mode; recovery is on exactly for a recovery mode. */
  lemma CacheConfiguredTransaction(c: Catalog, oracle: StoreOracle, m: Node, s: Settings, deps: seq<ServiceName>)
    ensures var r := CacheConfigured(c, oracle, m, s, deps);
      r.Ok? ==>
        var x := r.value.settings.transaction;
        x.transactionMode == Some(c.engineTransactionMode(TxModeName(m))) &&
        x.useSynchronization == Some(!c.xaEnabled(TxModeName(m))) &&
        x.recovery == Some(c.recoveryEnabled(TxModeName(m))) &&
        x.lockingMode == Some(if PessimisticRequested(m) then Pessimistic else Optimistic)
  {
    TransactedModes(c, m, s.transaction);
  }

  /** Without a transaction group (lines 205-206): NON_XA and optimistic locking. */
  lemma NoTransactionDefaults(c: Catalog, oracle: StoreOracle, m: Node, s: Settings, deps: seq<ServiceName>)
    requires TRANSACTION !in m
    ensures var r := CacheConfigured(c, oracle, m, s, deps);
      r.Ok? ==>
        var x := r.value.settings.transaction;
        x.transactionMode == Some(c.engineTransactionMode(NON_XA)) &&
        x.lockingMode == Some(Optimistic) &&
        x.useSynchronization == Some(!c.xaEnabled(NON_XA)) &&
        x.recovery == Some(c.recoveryEnabled(NON_XA))
  {
    CacheConfiguredTransaction(c, oracle, m, s, deps);
  }

  /** The cache name and mode are required (lines 163 and 169), and the mode
      set is the CacheMode constant the model names. */
  lemma CacheConfiguredMode(c: Catalog, oracle: StoreOracle, m: Node, s: Settings, deps: seq<ServiceName>)
    ensures var r := CacheConfigured(c, oracle, m, s, deps);
      (NAME !in m ==> r == Err(RequiredUndefined(NAME))) &&
      (NAME in m && AsString(m[NAME]).Some? && CACHE_MODE !in m ==> r == Err(RequiredUndefined(CACHE_MODE))) &&
      ((NAME in m && AsString(m[NAME]).Some? && CACHE_MODE in m && AsString(m[CACHE_MODE]).Some? &&
        AsString(m[CACHE_MODE]).value !in c.cacheModes) ==>
         r == Err(UnknownConstant(CACHE_MODE, AsString(m[CACHE_MODE]).value))) &&
      (r.Ok? ==> CACHE_MODE in m && r.value.settings.mode == AsString(m[CACHE_MODE]) && r.value.settings.mode.value in c.cacheModes)
  {
  }

  /** processCacheModelNode never touches what the clustered processing
      sets: the clustering, hash, L1 and state-retrieval settings. */
  lemma CacheConfiguredKeepsClustering(c: Catalog, oracle: StoreOracle, m: Node, s: Settings, deps: seq<ServiceName>)
    ensures var r := CacheConfigured(c, oracle, m, s, deps);
      r.Ok? ==>
        var t := r.value.settings;
        t.clustering == s.clustering && t.hash == s.hash && t.l1 == s.l1 && t.stateRetrieval == s.stateRetrieval
  {
  }

  /** buildCacheStore (lines 286-306): a named class either fails to load,
      with invalidCacheStore, or gives its configuration and adds no
      dependency; without a class the store is a file store at `store.path`,
      or at the cache name, and exactly one dependency is added, on the path
      service of `store.relative-to`, or of the server data directory. */
  lemma StoreBuiltCases(oracle: StoreOracle, name: string, m: Node, deps: seq<ServiceName>)
    ensures var r := StoreBuilt(oracle, name, m, deps);
      var key := Flatten(STORE, CLASS);
      (key in m && AsString(m[key]).Some? && oracle(AsString(m[key]).value).None? ==>
         r == Err(InvalidCacheStore(AsString(m[key]).value))) &&
      (key in m && AsString(m[key]).Some? && oracle(AsString(m[key]).value).Some? ==>
         r == Ok((ClassStore(AsString(m[key]).value, oracle(AsString(m[key]).value).value), deps))) &&
      (key !in m && r.Ok? ==>
         r.value.0 == FileStore(TextOr(m, Flatten(STORE, PATH), name)) &&
         r.value.1 == deps + [PathNameOf(TextOr(m, Flatten(STORE, RELATIVE_TO), SERVER_DATA_DIR))]) &&
      (key !in m ==>
         (r.Ok? <==> Convertible(m, Flatten(STORE, RELATIVE_TO), AsString) && Convertible(m, Flatten(STORE, PATH), AsString)))
  {
  }

  /** Lines 256-257 test only the store marker: a cache whose only store is
      a file store gets no cache loader and no additional dependency. */
  lemma FileStoreAloneLoadsNothing(c: Catalog, oracle: StoreOracle, m: Node, s: Settings, deps: seq<ServiceName>)
    requires STORE !in m
    ensures var r := CacheConfigured(c, oracle, m, s, deps);
      r.Ok? ==> r.value.settings.loaders == s.loaders && r.value.deps == deps
  {
  }

  /** The store group (lines 257-278): without its marker nothing changes;
      with it the loaders' flags take the model's values or the defaults
      shared=false, preload=false, passivation=true, one loader is added
      whose own flags default to singleton=false, fetch-state=true,
      purge=true, and whose properties are the model's property list when
      its configuration takes properties. */
  lemma StoredFlags(oracle: StoreOracle, name: string, m: Node, l: LoadersConfig, deps: seq<ServiceName>)
    ensures var b := Stored(oracle, name, m, l, deps);
      (STORE !in m ==> b == Ok((l, deps))) &&
      (STORE in m && b.Ok? ==>
        var u := b.value.0;
        var key := Flatten(STORE, PROPERTIES);
        u.shared == Some(FlagValue(m, Flatten(STORE, SHARED), false)) &&
        u.preload == Some(FlagValue(m, Flatten(STORE, PRELOAD), false)) &&
        u.passivation == Some(FlagValue(m, Flatten(STORE, PASSIVATION), true)) &&
        |u.cacheLoaders| == |l.cacheLoaders| + 1 && u.cacheLoaders[..|l.cacheLoaders|] == l.cacheLoaders &&
        var loader := u.cacheLoaders[|l.cacheLoaders|];
        loader.singleton == FlagValue(m, Flatten(STORE, SINGLETON), false) &&
        loader.fetchPersistentState == FlagValue(m, Flatten(STORE, FETCH_STATE), true) &&
        loader.purgeOnStartup == FlagValue(m, Flatten(STORE, PURGE), true) &&
        if key in m && TakesProperties(loader.kind)
        then AsProperties(m[key]).Some? && loader.properties == Some(PropertyMap(AsProperties(m[key]).value))
        else loader.properties.None?)
  {
    var b := Stored(oracle, name, m, l, deps);
    if STORE in m && b.Ok? {
      var u := b.value.0;
      assert u.cacheLoaders[..|l.cacheLoaders|] == l.cacheLoaders;
    }
  }

  /** The additional dependencies processCacheModelNode leaves: one more,
      on the store's path service, exactly when the model has a store group
      without a class; otherwise the list it was given. */
  lemma CacheConfiguredDependencies(c: Catalog, oracle: StoreOracle, m: Node, s: Settings, deps: seq<ServiceName>)
    ensures var r := CacheConfigured(c, oracle, m, s, deps);
      r.Ok? ==>
        r.value.deps == if STORE in m && Flatten(STORE, CLASS) !in m
                        then deps + [PathNameOf(TextOr(m, Flatten(STORE, RELATIVE_TO), SERVER_DATA_DIR))]
                        else deps
  {
    var r := CacheConfigured(c, oracle, m, s, deps);
    if r.Ok? && STORE in m {
      var name := Require(m, NAME, AsString).value;
      StoreBuiltCases(oracle, name, m, deps);
    }
  }

  /** Every property name of the list is a key of the map, and nothing else is. */
  lemma {:induction false} PropertyMapKeys(ps: seq<(string, string)>, key: string)
    ensures key in PropertyMap(ps) <==> exists i :: 0 <= i < |ps| && ps[i].0 == key
  {
    if ps != [] {
      var init := ps[..|ps| - 1];
      PropertyMapKeys(init, key);
      if key in PropertyMap(init) {
        var i :| 0 <= i < |init| && init[i].0 == key;
        assert ps[i].0 == key;
      }
      if exists i :: 0 <= i < |ps| && ps[i].0 == key {
        var i :| 0 <= i < |ps| && ps[i].0 == key;
        if i < |init| {
          assert init[i].0 == key;
        }
      }
    }
  }

  /** The value of a property is that of its last occurrence in the list. */
  lemma {:induction false} PropertyMapLatest(ps: seq<(string, string)>, i: nat)
    requires i < |ps|
    requires forall j :: i < j < |ps| ==> ps[j].0 != ps[i].0
    ensures ps[i].0 in PropertyMap(ps) && PropertyMap(ps)[ps[i].0] == ps[i].1
  {
    if i < |ps| - 1 {
      var init := ps[..|ps| - 1];
      assert init[i] == ps[i];
      forall j | i < j < |init|
        ensures init[j].0 != init[i].0
      {
        assert init[j] == ps[j];
      }
      PropertyMapLatest(init, i);
    }
  }

  /** processClusteredCacheModelNode (ClusteredCacheAdd lines 64-79): it
      fails exactly when one of its keys is defined but does not convert,
      and otherwise each setting takes its key's value, or keeps its own. */
  lemma ClusteredConfiguredFields(m: Node, cl: ClusteringConfig)
    ensures var r := ClusteredConfigured(m, cl);
      (r.Ok? <==> Convertible(m, QUEUE_SIZE, AsInt) && Convertible(m, QUEUE_FLUSH_INTERVAL, AsLong) &&
                  Convertible(m, REMOTE_TIMEOUT, AsLong)) &&
      (r.Ok? ==>
        r.value.replQueueMaxElements == Converted(m, QUEUE_SIZE, AsInt, cl.replQueueMaxElements) &&
        r.value.replQueueInterval == Converted(m, QUEUE_FLUSH_INTERVAL, AsLong, cl.replQueueInterval) &&
        r.value.replTimeout == Converted(m, REMOTE_TIMEOUT, AsLong, cl.replTimeout))
  {
  }

  /** processDistributedCacheModelNode (DistributedCacheAdd lines 120-151):
      it changes only the clustering, hash and L1 settings; the clustering
      ones are the clustered processing's; owners and virtual nodes take
      their keys' values; a positive L1 lifespan enables L1 with it and any
      other lifespan disables L1; the rehash settings change only under the
      rehashing marker. */
  lemma DistributedConfiguredFields(m: Node, s: Settings)
    ensures var r := DistributedConfigured(m, s);
      r.Ok? ==>
        var t := r.value;
        t == s.(clustering := t.clustering, hash := t.hash, l1 := t.l1) &&
        ClusteredConfigured(m, s.clustering) == Ok(t.clustering) &&
        t.hash.numOwners == Converted(m, OWNERS, AsInt, s.hash.numOwners) &&
        t.hash.numVirtualNodes == Converted(m, VIRTUAL_NODES, AsInt, s.hash.numVirtualNodes) &&
        (L1_LIFESPAN !in m ==> t.l1 == s.l1) &&
        (L1_LIFESPAN in m ==>
          (AsLong(m[L1_LIFESPAN]).Some? &&
           var lifespan := AsLong(m[L1_LIFESPAN]).value;
           t.l1 == Some(if lifespan > 0 then L1Lifespan(lifespan) else L1Disabled))) &&
        (REHASHING !in m ==> t.hash.rehashEnabled == s.hash.rehashEnabled && t.hash.rehashRpcTimeout == s.hash.rehashRpcTimeout) &&
        (REHASHING in m ==>
          t.hash.rehashEnabled == Converted(m, Flatten(REHASHING, ENABLED), AsBoolean, s.hash.rehashEnabled) &&
          t.hash.rehashRpcTimeout == Converted(m, Flatten(REHASHING, TIMEOUT), AsLong, s.hash.rehashRpcTimeout))
  {
  }

  /** processReplicatedCacheModelNode (ReplicatedCacheAdd lines 112-131):
      it changes only the clustering and state-retrieval settings, and the
      state-retrieval ones only under the state-transfer marker. */
  lemma ReplicatedConfiguredFields(m: Node, s: Settings)
    ensures var r := ReplicatedConfigured(m, s);
      r.Ok? ==>
        var t := r.value;
        t == s.(clustering := t.clustering, stateRetrieval := t.stateRetrieval) &&
        ClusteredConfigured(m, s.clustering) == Ok(t.clustering) &&
        (STATE_TRANSFER !in m ==> t.stateRetrieval == s.stateRetrieval) &&
        (STATE_TRANSFER in m ==>
          t.stateRetrieval.fetchInMemoryState == Converted(m, Flatten(STATE_TRANSFER, ENABLED), AsBoolean, s.stateRetrieval.fetchInMemoryState) &&
          t.stateRetrieval.timeout == Converted(m, Flatten(STATE_TRANSFER, TIMEOUT), AsLong, s.stateRetrieval.timeout) &&
          t.stateRetrieval.logFlushTimeout == Converted(m, Flatten(STATE_TRANSFER, FLUSH_TIMEOUT), AsLong, s.stateRetrieval.logFlushTimeout))
  {
  }
}
