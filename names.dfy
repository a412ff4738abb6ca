/** The element, attribute and model-key names of the subsystem. The XML
    local names and the model keys coincide, so one constant serves both. */
module Names {
  const SUBSYSTEM: string := "subsystem"
  const SUBSYSTEM_NAME: string := "infinispan"

  const DEFAULT_CACHE_CONTAINER: string := "default-cache-container"
  const CACHE_CONTAINER: string := "cache-container"
  const NAME: string := "name"
  const DEFAULT_CACHE: string := "default-cache"
  const JNDI_NAME: string := "jndi-name"
  const LISTENER_EXECUTOR: string := "listener-executor"
  const EVICTION_EXECUTOR: string := "eviction-executor"
  const REPLICATION_QUEUE_EXECUTOR: string := "replication-queue-executor"
  const ALIAS: string := "alias"

  const TRANSPORT: string := "transport"
  const STACK: string := "stack"
  const EXECUTOR: string := "executor"
  const LOCK_TIMEOUT: string := "lock-timeout"
  const SITE: string := "site"
  const RACK: string := "rack"
  const MACHINE: string := "machine"

  const LOCAL_CACHE: string := "local-cache"
  const INVALIDATION_CACHE: string := "invalidation-cache"
  const REPLICATED_CACHE: string := "replicated-cache"
  const DISTRIBUTED_CACHE: string := "distributed-cache"

  /** The four cache elements, which are also the four cache resource types. */
  predicate IsCacheKind(name: string) {
    name == LOCAL_CACHE || name == INVALIDATION_CACHE || name == REPLICATED_CACHE || name == DISTRIBUTED_CACHE
  }

  const START: string := "start"
  const BATCHING: string := "batching"
  const INDEXING: string := "indexing"
  const CACHE_MODE: string := "cache-mode"
  const MODE: string := "mode"
  const QUEUE_SIZE: string := "queue-size"
  const QUEUE_FLUSH_INTERVAL: string := "queue-flush-interval"
  const REMOTE_TIMEOUT: string := "remote-timeout"
  const OWNERS: string := "owners"
  const VIRTUAL_NODES: string := "virtual-nodes"
  const L1_LIFESPAN: string := "l1-lifespan"

  const LOCKING: string := "locking"
  const ISOLATION: string := "isolation"
  const STRIPING: string := "striping"
  const ACQUIRE_TIMEOUT: string := "acquire-timeout"
  const CONCURRENCY_LEVEL: string := "concurrency-level"

  const TRANSACTION: string := "transaction"
  const STOP_TIMEOUT: string := "stop-timeout"
  const EAGER_LOCKING: string := "eager-locking"

  const EVICTION: string := "eviction"
  const STRATEGY: string := "strategy"
  const MAX_ENTRIES: string := "max-entries"
  const INTERVAL: string := "interval"

  const EXPIRATION: string := "expiration"
  const MAX_IDLE: string := "max-idle"
  const LIFESPAN: string := "lifespan"

  const STORE: string := "store"
  const FILE_STORE: string := "file-store"
  const CLASS: string := "class"
  const RELATIVE_TO: string := "relative-to"
  const PATH: string := "path"
  const SHARED: string := "shared"
  const PRELOAD: string := "preload"
  const PASSIVATION: string := "passivation"
  const FETCH_STATE: string := "fetch-state"
  const PURGE: string := "purge"
  const SINGLETON: string := "singleton"
  const PROPERTIES: string := "properties"
  const PROPERTY: string := "property"

  const REHASHING: string := "rehashing"
  const STATE_TRANSFER: string := "state-transfer"
  const ENABLED: string := "enabled"
  const TIMEOUT: string := "timeout"
  const FLUSH_TIMEOUT: string := "flush-timeout"
}
