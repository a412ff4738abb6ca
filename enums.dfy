/** The Infinispan and subsystem enumerations the handlers look constants up
    in. Their declarations are not part of this model, so a Catalog carries
    each enumeration's constant names and the properties of a constant that
    the handlers ask for; every statement about the handlers holds for every
    catalog that names the constants the handlers mention by name. */
module Enums {

  /** The start mode of an installed service (ServiceController.Mode); the
      handlers only ever test for ACTIVE and ON_DEMAND. */
  datatype ServiceMode = Active | OnDemand | Lazy | Passive | Never

  /** org.infinispan.transaction.LockingMode: both constants are named in the source. */
  datatype LockingMode = Optimistic | Pessimistic

  const LOCKING_MODES: set<string> := {"OPTIMISTIC", "PESSIMISTIC"}

  /** LockingMode.valueOf */
  function LockingModeOf(name: string): (r: LockingMode)
    requires name in LOCKING_MODES
    ensures name == "PESSIMISTIC" <==> r == Pessimistic
  {
    if name == "OPTIMISTIC" then Optimistic else Pessimistic
  }

  datatype Catalog = Catalog(
    /** StartMode constant names, and StartMode.getMode() */
    startModes: set<string>, startServiceMode: string -> ServiceMode,
    /** Indexing constant names, isEnabled() and isLocalOnly() */
    indexings: set<string>, indexingEnabled: string -> bool, indexingLocalOnly: string -> bool,
    /** IsolationLevel constant names */
    isolationLevels: set<string>,
    /** EvictionStrategy constant names */
    evictionStrategies: set<string>,
    /** the subsystem's TransactionMode: names, isXAEnabled(), isRecoveryEnabled(),
        and getMode() as the name of Infinispan's TransactionMode */
    transactionModes: set<string>, xaEnabled: string -> bool, recoveryEnabled: string -> bool,
    engineTransactionMode: string -> string,
    /** EagerLocking constant names, isEnabled() and isSingleOwner() */
    eagerLockings: set<string>, eagerEnabled: string -> bool, eagerSingleOwner: string -> bool,
    /** Configuration.CacheMode constant names, and Mode.forCacheMode(mode).name() */
    cacheModes: set<string>, modeOfCacheMode: string -> string)
  {
    /** The constants the handlers name in their own code exist. */
    predicate Valid() {
      "LAZY" in startModes && "NON_XA" in transactionModes && "LOCAL" in cacheModes
    }
  }
}
