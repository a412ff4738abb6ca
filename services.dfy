/** The runtime half of the add and remove handlers: the services they
    install into the service target, with their dependencies, initial modes
    and aliases, and the service a cache remove takes away. The service
    container itself is not modelled: a target records what was installed
    and what was removed, in order. */
module Services {
  import opened Failures
  import opened JavaText
  import opened Dmr
  import opened Names
  import opened Enums
  import opened ServiceNames
  import opened Builder

  /** A dependency of a service; an optional one does not keep it from starting. */
  datatype Dependency = Dependency(name: ServiceName, optional: bool)

  /** The Transport configuration of a cache container. */
  datatype TransportConfig = TransportConfig(lockTimeout: Option<int>, site: Option<string>, rack: Option<string>, machine: Option<string>)

  /** What an installed service runs. */
  datatype ServiceValue =
    /** EmbeddedCacheManagerService over the container's configuration */
    | CacheManagerValue(container: string, defaultCache: string, transport: TransportConfig)
    /** BinderService for a JNDI name */
    | BinderValue(jndiName: string)
    /** ChannelService of a container */
    | ChannelValue(container: string)
    /** CacheService of a cache with its configuration overrides */
    | CacheValue(cache: string, overrides: Settings)

  datatype Service = Service(
    name: ServiceName, value: ServiceValue, deps: seq<Dependency>, mode: ServiceMode,
    aliases: seq<ServiceName>,
    /** whether the verification handler listens to it */
    listener: bool)

  /** A service builder: what ServiceTarget.addService returns, filled in step
      by step until it is installed. */
  class ServiceBuilder {
    const name: ServiceName
    var value: ServiceValue
    var deps: seq<Dependency>
    var mode: ServiceMode
    var aliases: seq<ServiceName>
    var listener: bool

    /** A new builder starts ACTIVE, with no dependency, alias or listener. */
    constructor (name: ServiceName, value: ServiceValue)
      ensures this.name == name && this.value == value
      ensures deps == [] && mode == Active && aliases == [] && !listener
    {
      this.name := name;
      this.value := value;
      deps := [];
      mode := Active;
      aliases := [];
      listener := false;
    }

    function Snapshot(): Service
      reads this
    {
      Service(name, value, deps, mode, aliases, listener)
    }

    /** config.setTransport on the container configuration the service
        holds (line 243). */
    method ConfigureTransport(transport: TransportConfig)
      requires value.CacheManagerValue?
      modifies this
      ensures value == old(value).(transport := transport)
      ensures deps == old(deps) && mode == old(mode) && aliases == old(aliases) && listener == old(listener)
    {
      value := value.(transport := transport);
    }

    method AddDependency(d: Dependency)
      modifies this
      ensures deps == old(deps) + [d] && value == old(value)
      ensures mode == old(mode) && aliases == old(aliases) && listener == old(listener)
    {
      deps := deps + [d];
    }

    method AddAliases(names: seq<ServiceName>)
      modifies this
      ensures aliases == old(aliases) + names && value == old(value)
      ensures deps == old(deps) && mode == old(mode) && listener == old(listener)
    {
      aliases := aliases + names;
    }

    method SetInitialMode(m: ServiceMode)
      modifies this
      ensures mode == m && value == old(value)
      ensures deps == old(deps) && aliases == old(aliases) && listener == old(listener)
    {
      mode := m;
    }

    method AddListener()
      modifies this
      ensures listener && value == old(value)
      ensures deps == old(deps) && mode == old(mode) && aliases == old(aliases)
    {
      listener := true;
    }
  }

  /** The service target: the services installed and the names removed. */
  class ServiceTarget {
    var installed: seq<Service>
    var removed: seq<ServiceName>

    constructor ()
      ensures installed == [] && removed == []
    {
      installed := [];
      removed := [];
    }

    /** ServiceBuilder.install */
    method Install(b: ServiceBuilder)
      modifies this
      ensures installed == old(installed) + [b.Snapshot()] && removed == old(removed)
    {
      installed := installed + [b.Snapshot()];
    }

    /** OperationContext.removeService */
    method Remove(name: ServiceName)
      modifies this
      ensures removed == old(removed) + [name] && installed == old(installed)
    {
      removed := removed + [name];
    }
  }

  // ---------------------------------------------------------------------
  // JNDI names (CacheContainerAdd lines 95-107 and 283-285)
  // ---------------------------------------------------------------------

  const JAVA_PREFIX: string := "java:"
  const JBOSS_CONTEXT: string := "java:jboss"

  /** JndiName.of(context).append(segment).getAbsoluteName() */
  function AppendJndi(context: string, segment: string): string {
    context + "/" + segment
  }

  /** toJndiName: a name in the java: namespace is kept; any other becomes
      relative to java:jboss, without one leading slash. */
  function ToJndiName(v: string): (r: string)
    ensures StartsWith(r, JAVA_PREFIX)
  {
    if StartsWith(v, JAVA_PREFIX) then v
    else
      var r := AppendJndi(JBOSS_CONTEXT, if StartsWith(v, "/") then v[1..] else v);
      assert r[..|JAVA_PREFIX|] == JAVA_PREFIX;
      r
  }

  /** A name is kept exactly when it is already in the java: namespace. */
  lemma ToJndiNameKeeps(v: string)
    ensures ToJndiName(v) == v <==> StartsWith(v, JAVA_PREFIX)
  {
  }

  /** Converting twice is converting once. */
  lemma ToJndiNameIdempotent(v: string)
    ensures ToJndiName(ToJndiName(v)) == ToJndiName(v)
  {
  }

  /** One leading slash makes no difference to a relative name. */
  lemma ToJndiNameLeadingSlash(v: string)
    requires !StartsWith(v, JAVA_PREFIX) && !StartsWith(v, "/")
    ensures ToJndiName("/" + v) == ToJndiName(v) == JBOSS_CONTEXT + "/" + v
  {
    assert ("/" + v)[1..] == v;
    assert ("/" + v)[..1] == "/";
  }

  /** getContainerJNDIName: the container's jndi-name converted, or
      java:jboss/infinispan/<container name>. */
  function ContainerJndiName(container: Node, name: string): (r: Result<string>)
    ensures r.Ok? ==> StartsWith(r.value, JAVA_PREFIX)
    ensures JNDI_NAME !in container ==> r == Ok("java:jboss/infinispan/" + name)
    ensures JNDI_NAME in container ==> (r.Ok? <==> AsString(container[JNDI_NAME]).Some?)
    ensures JNDI_NAME in container && r.Ok? ==> r.value == ToJndiName(AsString(container[JNDI_NAME]).value)
  {
    var jndiName :- Lookup(container, JNDI_NAME, AsString);
    if jndiName.Some? then Ok(ToJndiName(jndiName.value))
    else
      var r := AppendJndi(AppendJndi(JBOSS_CONTEXT, SUBSYSTEM_NAME), name);
      assert r == "java:jboss/infinispan/" + name;
      assert r[..|JAVA_PREFIX|] == JAVA_PREFIX;
      Ok(r)
  }

  // ---------------------------------------------------------------------
  // CacheContainerAdd.performRuntime (lines 140-257)
  // ---------------------------------------------------------------------

  /** The dependencies every container service has, lines 161-165: the
      defaults service, and optionally the transaction manager, the
      synchronization registry, the recovery manager and the MBean server. */
  const CONTAINER_BASE_DEPS: seq<Dependency> := [
    Dependency(ServiceName(DefaultsRoot, []), false),
    Dependency(ServiceName(TransactionManagerRoot, []), true),
    Dependency(ServiceName(SynchronizationRegistryRoot, []), true),
    Dependency(ServiceName(RecoveryManagerRoot, []), true),
    Dependency(ServiceName(JbossRoot, ["mbean", "server"]), true)]

  /** Lines 150-154: one container service name per alias, in list order. */
  function AliasNames(items: seq<Value>): Result<seq<ServiceName>> {
    if items == [] then Ok([])
    else
      var init :- AliasNames(items[..|items| - 1]);
      match AsString(items[|items| - 1])
      case None => Err(NotConvertible(ALIAS))
      case Some(alias) => Ok(init + [CacheManagerName(alias)])
  }

  /** Lines 148-155: no aliases when the key is undefined. */
  function ContainerAliases(params: Node): Result<seq<ServiceName>> {
    if ALIAS !in params then Ok([])
    else match AsList(params[ALIAS])
      case None => Err(NotConvertible(ALIAS))
      case Some(items) => AliasNames(items)
  }

  /** addExecutorDependency and addScheduledExecutorDependency (lines
      269-279): a dependency on the named executor, only when defined. */
  function ExecutorDependency(m: Node, key: string): Result<seq<Dependency>> {
    var executor :- Lookup(m, key, AsString);
    Ok(if executor.Some? then [Dependency(ExecutorName(executor.value), false)] else [])
  }

  /** operation.get(TRANSPORT) read as the nested node it is taken to be; a
      value that is not an object defines none of the keys asked of it. */
  function TransportNode(params: Node): Node {
    if TRANSPORT in params && params[TRANSPORT].Obj? then params[TRANSPORT].fields else map[]
  }

  /** What lines 221-241 read from the transport node. */
  datatype TransportRead = TransportRead(stack: Option<string>, executor: seq<Dependency>, config: TransportConfig)

  function TransportReadOf(t: Node): Result<TransportRead> {
    var stack :- Lookup(t, STACK, AsString);
    var executor :- ExecutorDependency(t, EXECUTOR);
    var lockTimeout :- Lookup(t, LOCK_TIMEOUT, AsLong);
    var site :- Lookup(t, SITE, AsString);
    var rack :- Lookup(t, RACK, AsString);
    var machine :- Lookup(t, MACHINE, AsString);
    Ok(TransportRead(stack, executor, TransportConfig(lockTimeout, site, rack, machine)))
  }

  /** Lines 252-254: the listener, eviction and replication-queue executors. */
  function ContainerExecutors(params: Node): Result<seq<Dependency>> {
    var listener :- ExecutorDependency(params, LISTENER_EXECUTOR);
    var eviction :- ExecutorDependency(params, EVICTION_EXECUTOR);
    var queue :- ExecutorDependency(params, REPLICATION_QUEUE_EXECUTOR);
    Ok(listener + eviction + queue)
  }

  /** Lines 169-179: the binder of the container's JNDI name. */
  function BinderService(container: string, jndiName: string): Service {
    Service(BinderName(jndiName), BinderValue(jndiName),
            [Dependency(CacheManagerName(container), false), Dependency(ParentContextName(jndiName), false)],
            OnDemand, [JavaContextName(jndiName)], false)
  }

  /** Lines 245-249: the container's channel, on the channel factory of the stack. */
  function ChannelService(container: string, stack: Option<string>): Service {
    Service(ChannelName(container), ChannelValue(container), [Dependency(ChannelFactoryName(stack), false)],
            OnDemand, [], false)
  }

  /** Lines 157-167, 228, 242 and 252-256: the container service. */
  function ContainerService(container: string, defaultCache: string, aliases: seq<ServiceName>,
                            t: TransportRead, executors: seq<Dependency>): Service {
    Service(CacheManagerName(container), CacheManagerValue(container, defaultCache, t.config),
            CONTAINER_BASE_DEPS + t.executor + [Dependency(ChannelName(container), false)] + executors,
            OnDemand, aliases, false)
  }

  /** What a runtime step leaves: the services it installed, in order, and
      the failure that stopped it, if any. */
  datatype Outcome = Outcome(installed: seq<Service>, failure: Option<Failure>)

  /** What lines 142-155 and 170 read before anything is installed. */
  datatype ContainerPlan = ContainerPlan(name: string, defaultCache: string, aliases: seq<ServiceName>, jndiName: string)

  function ContainerPlanned(op: Operation): Result<ContainerPlan>
    requires |op.address| >= 1
  {
    var name := op.address[|op.address| - 1].1;
    var defaultCache :- Require(op.params, DEFAULT_CACHE, AsString);
    var aliases :- ContainerAliases(op.params);
    var jndiName :- ContainerJndiName(op.params, name);
    Ok(ContainerPlan(name, defaultCache, aliases, jndiName))
  }

  /** Lines 157-256 once the plan is read: the binder is installed first,
      then the channel, then the container; a failure stops it where it
      occurs. */
  function PlanInstalled(p: ContainerPlan, params: Node): Outcome {
    var binder := BinderService(p.name, p.jndiName);
    match TransportReadOf(TransportNode(params))
    case Err(e) => Outcome([binder], Some(e))
    case Ok(t) =>
      var channel := ChannelService(p.name, t.stack);
      match ContainerExecutors(params)
      case Err(e) => Outcome([binder, channel], Some(e))
      case Ok(executors) => Outcome([binder, channel, ContainerService(p.name, p.defaultCache, p.aliases, t, executors)], None)
  }

  /** CacheContainerAdd.performRuntime */
  function ContainerInstalled(op: Operation): Outcome
    requires |op.address| >= 1
  {
    match ContainerPlanned(op)
    case Err(e) => Outcome([], Some(e))
    case Ok(p) => PlanInstalled(p, op.params)
  }

  /** The alias loop of lines 150-154. */
  method CollectAliases(items: seq<Value>) returns (r: Result<seq<ServiceName>>)
    ensures r == AliasNames(items)
  {
    var names: seq<ServiceName> := [];
    for i := 0 to |items|
      invariant AliasNames(items[..i]) == Ok(names)
    {
      assert items[..i + 1][..i] == items[..i];
      var alias := AsString(items[i]);
      if alias.None? {
        assert AliasNames(items[..i + 1]).Err?;
        AliasNamesFailed(items, i + 1);
        return Err(NotConvertible(ALIAS));
      }
      names := names + [CacheManagerName(alias.value)];
    }
    assert items[..|items|] == items;
    return Ok(names);
  }

  /** A prefix that fails makes the whole list fail the same way. */
  lemma {:induction false} AliasNamesFailed(items: seq<Value>, k: nat)
    requires k <= |items| && AliasNames(items[..k]).Err?
    ensures AliasNames(items) == AliasNames(items[..k])
    decreases |items| - k
  {
    if k < |items| {
      assert items[..k + 1][..k] == items[..k];
      AliasNamesFailed(items, k + 1);
    } else {
      assert items[..k] == items;
    }
  }

  method AddExecutorDependency(builder: ServiceBuilder, m: Node, key: string) returns (failure: Option<Failure>)
    modifies builder
    ensures match ExecutorDependency(m, key)
            case Ok(d) => failure.None? && builder.deps == old(builder.deps) + d
            case Err(e) => failure == Some(e) && builder.deps == old(builder.deps)
    ensures builder.value == old(builder.value) && builder.mode == old(builder.mode) && builder.aliases == old(builder.aliases) && builder.listener == old(builder.listener)
  {
    if key in m {
      var executor := AsString(m[key]);
      if executor.None? {
        return Some(NotConvertible(key));
      }
      builder.AddDependency(Dependency(ExecutorName(executor.value), false));
    }
    return None;
  }

  /** CacheContainerAdd.performRuntime, step by step. */
  method ContainerPerformRuntime(op: Operation, target: ServiceTarget) returns (failure: Option<Failure>)
    requires |op.address| >= 1
    modifies target
    ensures target.installed == old(target.installed) + ContainerInstalled(op).installed
    ensures target.removed == old(target.removed)
    ensures failure == ContainerInstalled(op).failure
  {
    var plan := PlanContainer(op);
    if plan.Err? {
      return Some(plan.error);
    }
    failure := InstallContainer(plan.value, op.params, target);
  }

  /** Lines 141-155 and 170: the names, the default cache, the aliases and
      the JNDI name. */
  method PlanContainer(op: Operation) returns (r: Result<ContainerPlan>)
    requires |op.address| >= 1
    ensures r == ContainerPlanned(op)
  {
    var name := op.address[|op.address| - 1].1;
    var params := op.params;
    var defaultCache := Require(params, DEFAULT_CACHE, AsString);
    if defaultCache.Err? {
      return Err(defaultCache.error);
    }
    var aliases: seq<ServiceName> := [];
    if ALIAS in params {
      var list := AsList(params[ALIAS]);
      if list.None? {
        return Err(NotConvertible(ALIAS));
      }
      var collected := CollectAliases(list.value);
      if collected.Err? {
        return Err(collected.error);
      }
      aliases := collected.value;
    }
    var jndiName := ContainerJndiName(params, name);
    if jndiName.Err? {
      return Err(jndiName.error);
    }
    return Ok(ContainerPlan(name, defaultCache.value, aliases, jndiName.value));
  }

  /** Lines 157-256: the container builder is filled in while the binder and
      the channel are installed, and is installed last. */
  method InstallContainer(p: ContainerPlan, params: Node, target: ServiceTarget) returns (failure: Option<Failure>)
    modifies target
    ensures target.installed == old(target.installed) + PlanInstalled(p, params).installed
    ensures target.removed == old(target.removed)
    ensures failure == PlanInstalled(p, params).failure
  {
    var builder := NewContainerBuilder(p);
    InstallBinder(p.name, p.jndiName, target);
    var transport := ReadTransport(builder, TransportNode(params));
    if transport.Err? {
      return Some(transport.error);
    }
    builder.ConfigureTransport(transport.value.config);
    builder.AddDependency(Dependency(ChannelName(p.name), false));
    InstallChannel(p.name, transport.value.stack, target);
    failure := AddContainerExecutors(builder, params);
    if failure.Some? {
      return;
    }
    target.Install(builder);
  }

  /** Lines 159-167: the container builder before the transport is read. */
  method NewContainerBuilder(p: ContainerPlan) returns (builder: ServiceBuilder)
    ensures fresh(builder)
    ensures builder.Snapshot() == Service(CacheManagerName(p.name), CacheManagerValue(p.name, p.defaultCache, TransportConfig(None, None, None, None)),
                                          CONTAINER_BASE_DEPS, OnDemand, p.aliases, false)
  {
    builder := new ServiceBuilder(CacheManagerName(p.name), CacheManagerValue(p.name, p.defaultCache, TransportConfig(None, None, None, None)));
    builder.AddDependency(CONTAINER_BASE_DEPS[0]);
    builder.AddDependency(CONTAINER_BASE_DEPS[1]);
    builder.AddDependency(CONTAINER_BASE_DEPS[2]);
    builder.AddDependency(CONTAINER_BASE_DEPS[3]);
    builder.AddDependency(CONTAINER_BASE_DEPS[4]);
    builder.AddAliases(p.aliases);
    builder.SetInitialMode(OnDemand);
    assert builder.deps == CONTAINER_BASE_DEPS;
  }

  /** Lines 170-179 */
  method InstallBinder(container: string, jndiName: string, target: ServiceTarget)
    modifies target
    ensures target.installed == old(target.installed) + [BinderService(container, jndiName)]
    ensures target.removed == old(target.removed)
  {
    var binder := new ServiceBuilder(BinderName(jndiName), BinderValue(jndiName));
    binder.AddAliases([JavaContextName(jndiName)]);
    binder.AddDependency(Dependency(CacheManagerName(container), false));
    binder.AddDependency(Dependency(ParentContextName(jndiName), false));
    binder.SetInitialMode(OnDemand);
    assert binder.aliases == [JavaContextName(jndiName)];
    assert binder.deps == [Dependency(CacheManagerName(container), false), Dependency(ParentContextName(jndiName), false)];
    target.Install(binder);
  }

  /** Lines 245-249 */
  method InstallChannel(container: string, stack: Option<string>, target: ServiceTarget)
    modifies target
    ensures target.installed == old(target.installed) + [ChannelService(container, stack)]
    ensures target.removed == old(target.removed)
  {
    var channel := new ServiceBuilder(ChannelName(container), ChannelValue(container));
    channel.AddDependency(Dependency(ChannelFactoryName(stack), false));
    channel.SetInitialMode(OnDemand);
    assert channel.deps == [Dependency(ChannelFactoryName(stack), false)];
    target.Install(channel);
  }

  /** Lines 252-254 */
  method AddContainerExecutors(builder: ServiceBuilder, params: Node) returns (failure: Option<Failure>)
    modifies builder
    ensures match ContainerExecutors(params)
            case Ok(d) => failure.None? && builder.Snapshot() == old(builder.Snapshot()).(deps := old(builder.deps) + d)
            case Err(e) => failure == Some(e)
  {
    failure := AddExecutorDependency(builder, params, LISTENER_EXECUTOR);
    if failure.Some? {
      return;
    }
    failure := AddExecutorDependency(builder, params, EVICTION_EXECUTOR);
    if failure.Some? {
      return;
    }
    failure := AddExecutorDependency(builder, params, REPLICATION_QUEUE_EXECUTOR);
  }

  /** Lines 223-241: the stack, the transport executor's dependency, which
      goes on the container builder, and the transport configuration. */
  method ReadTransport(builder: ServiceBuilder, t: Node) returns (r: Result<TransportRead>)
    modifies builder
    ensures r == TransportReadOf(t)
    ensures r.Ok? ==> builder.deps == old(builder.deps) + r.value.executor
    ensures builder.value == old(builder.value) && builder.mode == old(builder.mode)
    ensures builder.aliases == old(builder.aliases) && builder.listener == old(builder.listener)
  {
    var stack := Lookup(t, STACK, AsString);
    if stack.Err? {
      return Err(stack.error);
    }
    var failure := AddExecutorDependency(builder, t, EXECUTOR);
    if failure.Some? {
      return Err(failure.value);
    }
    var lockTimeout := Lookup(t, LOCK_TIMEOUT, AsLong);
    if lockTimeout.Err? {
      return Err(lockTimeout.error);
    }
    var site := Lookup(t, SITE, AsString);
    if site.Err? {
      return Err(site.error);
    }
    var rack := Lookup(t, RACK, AsString);
    if rack.Err? {
      return Err(rack.error);
    }
    var machine := Lookup(t, MACHINE, AsString);
    if machine.Err? {
      return Err(machine.error);
    }
    return Ok(TransportRead(stack.value, ExecutorDependency(t, EXECUTOR).value,
                            TransportConfig(lockTimeout.value, site.value, rack.value, machine.value)));
  }

  // ---------------------------------------------------------------------
  // The cache add runtimes (DistributedCacheAdd lines 57-118,
  // ReplicatedCacheAdd lines 48-110, InvalidationCacheAdd lines 38-100)
  // ---------------------------------------------------------------------

  /** StartMode.LAZY */
  const LAZY: string := "LAZY"

  /** The start mode constant: the operation's when defined, LAZY otherwise. */
  function StartModeOf(c: Catalog, params: Node): Result<string> {
    if START !in params then Ok(LAZY)
    else
      var name :- Require(params, START, AsString);
      ValueOf(c.startModes, START, name)
  }

  /** One required dependency per additional dependency, in list order. */
  function AdditionalDependencies(names: seq<ServiceName>): (r: seq<Dependency>)
    ensures |r| == |names| && forall i :: 0 <= i < |names| ==> r[i] == Dependency(names[i], false)
  {
    seq(|names|, i requires 0 <= i < |names| => Dependency(names[i], false))
  }

  /** The part the three cache runtimes share once the configuration
      overrides are processed: the cache and container names are the last
      two address values. */
  function CacheInstalled(c: Catalog, address: seq<(string, string)>, params: Node, container: Node,
                          overrides: Settings, additional: seq<ServiceName>): Result<Service>
    requires |address| >= 2
  {
    var cacheName := address[|address| - 1].1;
    var containerName := address[|address| - 2].1;
    var defaultCache :- Require(container, DEFAULT_CACHE, AsString);
    var start :- StartModeOf(c, params);
    var jndiName :- ContainerJndiName(container, containerName);
    var mode := c.startServiceMode(start);
    Ok(Service(CacheName(containerName, cacheName), CacheValue(cacheName, overrides),
               [Dependency(BinderName(jndiName), false)] + AdditionalDependencies(additional), mode,
               if cacheName == defaultCache then [DefaultCacheName(containerName)] else [],
               mode == Active))
  }

  /** DistributedCacheAdd.performRuntime: the overrides come from the model. */
  function DistributedInstalled(c: Catalog, op: Operation, model: Node, container: Node): Result<Service>
    requires |op.address| >= 2
  {
    var overrides :- DistributedConfigured(model, UNSET);
    CacheInstalled(c, op.address, op.params, container, overrides, [])
  }

  /** ReplicatedCacheAdd.performRuntime: the overrides come from the operation. */
  function ReplicatedInstalled(c: Catalog, op: Operation, container: Node): Result<Service>
    requires |op.address| >= 2
  {
    var overrides :- ReplicatedConfigured(op.params, UNSET);
    CacheInstalled(c, op.address, op.params, container, overrides, [])
  }

  /** InvalidationCacheAdd.performRuntime: the overrides come from the operation. */
  function InvalidationInstalled(c: Catalog, op: Operation, container: Node): Result<Service>
    requires |op.address| >= 2
  {
    var clustering :- ClusteredConfigured(op.params, UNSET.clustering);
    CacheInstalled(c, op.address, op.params, container, UNSET.(clustering := clustering), [])
  }

  /** A step that installs at most one service did what its specification says. */
  predicate InstalledOne(spec: Result<Service>, before: seq<Service>, after: seq<Service>, failure: Option<Failure>) {
    match spec
    case Ok(service) => failure.None? && after == before + [service]
    case Err(e) => failure == Some(e) && after == before
  }

  /** DistributedCacheAdd lines 68-117 (the same in the other two): the
      cache service is built, depends on the container's binder and on each
      additional dependency in turn, and is installed. */
  method InstallCache(c: Catalog, address: seq<(string, string)>, params: Node, container: Node,
                      overrides: Configuration, additional: DependencyList, target: ServiceTarget) returns (failure: Option<Failure>)
    requires |address| >= 2
    modifies target
    ensures InstalledOne(CacheInstalled(c, address, params, container, overrides.settings, additional.names),
                         old(target.installed), target.installed, failure)
    ensures target.removed == old(target.removed)
  {
    var cacheName := address[|address| - 1].1;
    var containerName := address[|address| - 2].1;
    var defaultCache := Require(container, DEFAULT_CACHE, AsString);
    if defaultCache.Err? {
      return Some(defaultCache.error);
    }
    var start := ReadStartMode(c, params);
    if start.Err? {
      return Some(start.error);
    }
    var jndiName := ContainerJndiName(container, containerName);
    if jndiName.Err? {
      return Some(jndiName.error);
    }
    var builder := NewCacheBuilder(cacheName, containerName, jndiName.value, overrides.settings, additional.names);
    var mode := c.startServiceMode(start.value);
    builder.SetInitialMode(mode);
    if cacheName == defaultCache.value {
      builder.AddAliases([DefaultCacheName(containerName)]);
    }
    if mode == Active {
      builder.AddListener();
    }
    assert builder.Snapshot() == CacheInstalled(c, address, params, container, overrides.settings, additional.names).value;
    target.Install(builder);
    failure := None;
  }

  /** DistributedCacheAdd lines 84-88: the start mode, LAZY when undefined. */
  method ReadStartMode(c: Catalog, params: Node) returns (r: Result<string>)
    ensures r == StartModeOf(c, params)
  {
    r := Ok(LAZY);
    if START in params {
      var name := AsString(params[START]);
      if name.None? {
        return Err(NotConvertible(START));
      }
      if name.value !in c.startModes {
        return Err(UnknownConstant(START, name.value));
      }
      r := Ok(name.value);
    }
  }

  /** DistributedCacheAdd lines 99-105: the cache service builder with its
      binder dependency and then each additional dependency. */
  method NewCacheBuilder(cacheName: string, containerName: string, jndiName: string, overrides: Settings,
                         names: seq<ServiceName>) returns (builder: ServiceBuilder)
    ensures fresh(builder)
    ensures builder.Snapshot() == Service(CacheName(containerName, cacheName), CacheValue(cacheName, overrides),
                                          [Dependency(BinderName(jndiName), false)] + AdditionalDependencies(names), Active, [], false)
  {
    var binderDependency := Dependency(BinderName(jndiName), false);
    builder := new ServiceBuilder(CacheName(containerName, cacheName), CacheValue(cacheName, overrides));
    builder.AddDependency(binderDependency);
    for i := 0 to |names|
      invariant builder.deps == [binderDependency] + AdditionalDependencies(names[..i])
      invariant builder.name == CacheName(containerName, cacheName) && builder.value == CacheValue(cacheName, overrides)
      invariant builder.mode == Active && builder.aliases == [] && !builder.listener
    {
      assert AdditionalDependencies(names[..i + 1]) == AdditionalDependencies(names[..i]) + [Dependency(names[i], false)];
      builder.AddDependency(Dependency(names[i], false));
    }
    assert names[..|names|] == names;
  }

  /** DistributedCacheAdd.performRuntime */
  method DistributedPerformRuntime(c: Catalog, op: Operation, model: Node, container: Node, target: ServiceTarget)
    returns (failure: Option<Failure>)
    requires |op.address| >= 2
    modifies target
    ensures InstalledOne(DistributedInstalled(c, op, model, container), old(target.installed), target.installed, failure)
    ensures target.removed == old(target.removed)
  {
    var overrides := new Configuration();
    var deps := new DependencyList();
    failure := overrides.ProcessDistributedCacheModelNode(model, deps);
    if failure.Some? {
      return;
    }
    failure := InstallCache(c, op.address, op.params, container, overrides, deps, target);
  }

  /** ReplicatedCacheAdd.performRuntime */
  method ReplicatedPerformRuntime(c: Catalog, op: Operation, container: Node, target: ServiceTarget)
    returns (failure: Option<Failure>)
    requires |op.address| >= 2
    modifies target
    ensures InstalledOne(ReplicatedInstalled(c, op, container), old(target.installed), target.installed, failure)
    ensures target.removed == old(target.removed)
  {
    var overrides := new Configuration();
    var deps := new DependencyList();
    failure := overrides.ProcessReplicatedCacheModelNode(op.params, deps);
    if failure.Some? {
      return;
    }
    failure := InstallCache(c, op.address, op.params, container, overrides, deps, target);
  }

  /** InvalidationCacheAdd.performRuntime */
  method InvalidationPerformRuntime(c: Catalog, op: Operation, container: Node, target: ServiceTarget)
    returns (failure: Option<Failure>)
    requires |op.address| >= 2
    modifies target
    ensures InstalledOne(InvalidationInstalled(c, op, container), old(target.installed), target.installed, failure)
    ensures target.removed == old(target.removed)
  {
    var overrides := new Configuration();
    var deps := new DependencyList();
    failure := overrides.ProcessClusteredCacheModelNode(op.params, deps);
    if failure.Some? {
      return;
    }
    failure := InstallCache(c, op.address, op.params, container, overrides, deps, target);
  }

  /** ClusteredCacheAdd.performRuntime is overridden to do nothing: the
      clustered handler on its own installs no service. */
  method ClusteredPerformRuntime(op: Operation, target: ServiceTarget)
    modifies target
    ensures target.installed == old(target.installed) && target.removed == old(target.removed)
  {
  }

  /** LocalCacheAdd has no runtime step of its own (its override is
      commented out, lines 24-39): adding a local cache installs nothing. */
  method LocalPerformRuntime(op: Operation, target: ServiceTarget)
    modifies target
    ensures target.installed == old(target.installed) && target.removed == old(target.removed)
  {
  }

  // ---------------------------------------------------------------------
  // CacheRemove (lines 20-34)
  // ---------------------------------------------------------------------

  /** The service a cache remove takes away: the container's service name
      with the cache name appended, both from the last two address values. */
  function RemovedName(address: seq<(string, string)>): ServiceName
    requires |address| >= 2
  {
    CacheManagerName(address[|address| - 2].1).Append(address[|address| - 1].1)
  }

  /** CacheRemove.performRuntime */
  method CacheRemovePerformRuntime(op: Operation, target: ServiceTarget)
    requires |op.address| >= 2
    modifies target
    ensures target.removed == old(target.removed) + [RemovedName(op.address)]
    ensures target.installed == old(target.installed)
  {
    var cacheName := op.address[|op.address| - 1].1;
    var containerName := op.address[|op.address| - 2].1;
    target.Remove(CacheManagerName(containerName).Append(cacheName));
  }

  /** CacheRemove.recoverServices does nothing: a rolled-back remove does
      not reinstall the cache service. */
  method CacheRemoveRecoverServices(op: Operation, target: ServiceTarget)
    modifies target
    ensures target.installed == old(target.installed) && target.removed == old(target.removed)
  {
  }

  // ---------------------------------------------------------------------
  // What the runtime promises
  // ---------------------------------------------------------------------

  /** The aliases: one per list item, each the container service name of
      the item's text, in order; the list fails exactly when an item has no
      text. */
  lemma {:induction false} AliasNamesSpec(items: seq<Value>)
    ensures var r := AliasNames(items);
      (r.Ok? <==> forall i :: 0 <= i < |items| ==> AsString(items[i]).Some?) &&
      (r.Ok? ==> |r.value| == |items| &&
                 forall i :: 0 <= i < |items| ==> AsString(items[i]).Some? && r.value[i] == CacheManagerName(AsString(items[i]).value))
  {
    if items != [] {
      var init := items[..|items| - 1];
      AliasNamesSpec(init);
      assert forall i :: 0 <= i < |init| ==> init[i] == items[i];
    }
  }

  /** The executor dependencies of lines 252-254: the keys that are defined
      must name an executor as text, and each defined key gives one required
      dependency on its executor. */
  lemma ContainerExecutorsSpec(params: Node)
    ensures var r := ContainerExecutors(params);
      (r.Ok? <==> Convertible(params, LISTENER_EXECUTOR, AsString) && Convertible(params, EVICTION_EXECUTOR, AsString) &&
                  Convertible(params, REPLICATION_QUEUE_EXECUTOR, AsString)) &&
      (r.Ok? ==>
        |r.value| == (if LISTENER_EXECUTOR in params then 1 else 0) + (if EVICTION_EXECUTOR in params then 1 else 0) +
                     (if REPLICATION_QUEUE_EXECUTOR in params then 1 else 0) &&
        (forall i :: 0 <= i < |r.value| ==> r.value[i].name.root == ExecutorRoot && !r.value[i].optional) &&
        (LISTENER_EXECUTOR in params ==> Dependency(ExecutorName(AsString(params[LISTENER_EXECUTOR]).value), false) in r.value) &&
        (EVICTION_EXECUTOR in params ==> Dependency(ExecutorName(AsString(params[EVICTION_EXECUTOR]).value), false) in r.value) &&
        (REPLICATION_QUEUE_EXECUTOR in params ==> Dependency(ExecutorName(AsString(params[REPLICATION_QUEUE_EXECUTOR]).value), false) in r.value))
  {
  }

  /** A cache container add that succeeds installs three services, in
      order: the binder of the container's JNDI name, on demand, depending on
      the container service and on its naming context; the channel, on
      demand; and the container service, on demand, with one alias per alias
      entry and a dependency on the channel. */
  lemma ContainerGraph(op: Operation)
    requires |op.address| >= 1
    ensures var o := ContainerInstalled(op);
      var name := op.address[|op.address| - 1].1;
      o.failure.None? ==>
        ContainerPlanned(op).Ok? && ContainerAliases(op.params).Ok? &&
        var jndiName := ContainerPlanned(op).value.jndiName;
        |o.installed| == 3 &&
        o.installed[0].name == BinderName(jndiName) && o.installed[0].mode == OnDemand &&
        o.installed[0].deps == [Dependency(CacheManagerName(name), false), Dependency(ParentContextName(jndiName), false)] &&
        o.installed[1].name == ChannelName(name) && o.installed[1].mode == OnDemand &&
        o.installed[2].name == CacheManagerName(name) && o.installed[2].mode == OnDemand &&
        o.installed[2].aliases == ContainerAliases(op.params).value &&
        o.installed[2].deps[..|CONTAINER_BASE_DEPS|] == CONTAINER_BASE_DEPS &&
        Dependency(ChannelName(name), false) in o.installed[2].deps
  {
    var o := ContainerInstalled(op);
    if o.failure.None? {
      var deps := o.installed[2].deps;
      var t := TransportReadOf(TransportNode(op.params)).value;
      assert deps[|CONTAINER_BASE_DEPS| + |t.executor|] == Dependency(ChannelName(op.address[|op.address| - 1].1), false);
    }
  }

  /** The failures of a cache container add: nothing is installed when the
      default cache, the aliases or the JNDI name cannot be read; the binder
      alone stays installed when the transport cannot be read. */
  lemma ContainerFailures(op: Operation)
    requires |op.address| >= 1
    ensures var o := ContainerInstalled(op);
      (DEFAULT_CACHE !in op.params ==> o == Outcome([], Some(RequiredUndefined(DEFAULT_CACHE)))) &&
      (ContainerPlanned(op).Err? ==> o == Outcome([], Some(ContainerPlanned(op).error))) &&
      (ContainerPlanned(op).Ok? && TransportReadOf(TransportNode(op.params)).Err? ==>
         |o.installed| == 1 && o.installed[0].name == BinderName(ContainerPlanned(op).value.jndiName) && o.failure.Some?)
  {
  }

  /** The transport marker the parser stores (a boolean, with the transport
      attributes under flattened keys beside it) is not the nested node the
      runtime reads: with it the channel depends on the channel factory of
      no stack, the transport configuration is empty and the transport adds
      no executor dependency, whatever the flattened keys hold. */
  lemma MarkerTransportIgnored(op: Operation)
    requires |op.address| >= 1
    requires TRANSPORT in op.params && !op.params[TRANSPORT].Obj?
    ensures var o := ContainerInstalled(op);
      var name := op.address[|op.address| - 1].1;
      o.failure.None? ==>
        o.installed[1].deps == [Dependency(ChannelFactoryName(None), false)] &&
        o.installed[2].value.transport == TransportConfig(None, None, None, None) &&
        o.installed[2].deps == CONTAINER_BASE_DEPS + [Dependency(ChannelName(name), false)] + ContainerExecutors(op.params).value
  {
    assert TransportNode(op.params) == map[];
  }

  /** A cache add runtime succeeds exactly when the container's default
      cache is text, the operation's start mode, if any, is a StartMode
      constant, and the container's JNDI name, if any, is text. */
  lemma CacheInstalledSucceeds(c: Catalog, address: seq<(string, string)>, params: Node, container: Node,
                               overrides: Settings, additional: seq<ServiceName>)
    requires |address| >= 2
    ensures CacheInstalled(c, address, params, container, overrides, additional).Ok? <==>
      DEFAULT_CACHE in container && AsString(container[DEFAULT_CACHE]).Some? &&
      (START in params ==> AsString(params[START]).Some? && AsString(params[START]).value in c.startModes) &&
      (JNDI_NAME in container ==> AsString(container[JNDI_NAME]).Some?)
  {
  }

  /** The cache service (DistributedCacheAdd lines 96-105 and their
      copies): it is named by the container's service name with the cache
      name appended, carries the cache name and the overrides, and depends on
      the container's JNDI binder and then on each additional dependency, in
      order. */
  lemma CacheInstalledService(c: Catalog, address: seq<(string, string)>, params: Node, container: Node,
                              overrides: Settings, additional: seq<ServiceName>)
    requires |address| >= 2
    ensures var r := CacheInstalled(c, address, params, container, overrides, additional);
      var cacheName := address[|address| - 1].1;
      var containerName := address[|address| - 2].1;
      r.Ok? ==>
        r.value.name == CacheName(containerName, cacheName) &&
        r.value.value == CacheValue(cacheName, overrides) &&
        ContainerJndiName(container, containerName).Ok? &&
        |r.value.deps| == 1 + |additional| &&
        r.value.deps[0] == Dependency(BinderName(ContainerJndiName(container, containerName).value), false) &&
        forall i :: 0 <= i < |additional| ==> r.value.deps[i + 1] == Dependency(additional[i], false)
  {
    var r := CacheInstalled(c, address, params, container, overrides, additional);
    if r.Ok? {
      var containerName := address[|address| - 2].1;
      var jndiName := ContainerJndiName(container, containerName).value;
      var deps := AdditionalDependencies(additional);
      assert r.value.deps == [Dependency(BinderName(jndiName), false)] + deps;
      forall i | 0 <= i < |additional|
        ensures r.value.deps[i + 1] == Dependency(additional[i], false)
      {
        assert r.value.deps[i + 1] == deps[i];
      }
    }
  }

  /** The cache service's start (DistributedCacheAdd lines 84-88 and
      107-115): its initial mode is that of the start mode, LAZY when none is
      given; the verification handler listens exactly when the mode is
      ACTIVE; and it has the default-cache alias exactly when the cache is
      the container's default cache. */
  lemma CacheInstalledStart(c: Catalog, address: seq<(string, string)>, params: Node, container: Node,
                            overrides: Settings, additional: seq<ServiceName>)
    requires |address| >= 2
    ensures var r := CacheInstalled(c, address, params, container, overrides, additional);
      var cacheName := address[|address| - 1].1;
      var containerName := address[|address| - 2].1;
      r.Ok? ==>
        (START !in params ==> r.value.mode == c.startServiceMode(LAZY)) &&
        (START in params ==> AsString(params[START]).Some? && r.value.mode == c.startServiceMode(AsString(params[START]).value)) &&
        (r.value.listener <==> r.value.mode == Active) &&
        (r.value.aliases != [] <==> AsString(container[DEFAULT_CACHE]) == Some(cacheName)) &&
        (r.value.aliases != [] ==> r.value.aliases == [DefaultCacheName(containerName)])
  {
  }

  /** A distributed cache's overrides are only what the distributed
      processing sets (the base cache settings stay unset), and since that
      processing adds no dependency the service depends on the binder alone. */
  lemma DistributedOverrides(c: Catalog, op: Operation, model: Node, container: Node)
    requires |op.address| >= 2
    ensures var r := DistributedInstalled(c, op, model, container);
      r.Ok? ==>
        r.value.value.CacheValue? &&
        var o := r.value.value.overrides;
        o == UNSET.(clustering := o.clustering, hash := o.hash, l1 := o.l1) &&
        DistributedConfigured(model, UNSET) == Ok(o) &&
        |r.value.deps| == 1 && r.value.deps[0].name.root == BinderRoot
  {
    var r := DistributedInstalled(c, op, model, container);
    if r.Ok? {
      var o := DistributedConfigured(model, UNSET).value;
      DistributedConfiguredFields(model, UNSET);
      CacheInstalledService(c, op.address, op.params, container, o, []);
    }
  }

  /** A replicated cache's overrides are only its clustering and state
      retrieval settings, and it depends on the binder alone. */
  lemma ReplicatedOverrides(c: Catalog, op: Operation, container: Node)
    requires |op.address| >= 2
    ensures var r := ReplicatedInstalled(c, op, container);
      r.Ok? ==>
        r.value.value.CacheValue? &&
        var o := r.value.value.overrides;
        o == UNSET.(clustering := o.clustering, stateRetrieval := o.stateRetrieval) &&
        ReplicatedConfigured(op.params, UNSET) == Ok(o) &&
        |r.value.deps| == 1 && r.value.deps[0].name.root == BinderRoot
  {
    var r := ReplicatedInstalled(c, op, container);
    if r.Ok? {
      var o := ReplicatedConfigured(op.params, UNSET).value;
      ReplicatedConfiguredFields(op.params, UNSET);
      CacheInstalledService(c, op.address, op.params, container, o, []);
    }
  }

  /** An invalidation cache's overrides are only its clustering settings,
      and it depends on the binder alone. */
  lemma InvalidationOverrides(c: Catalog, op: Operation, container: Node)
    requires |op.address| >= 2
    ensures var r := InvalidationInstalled(c, op, container);
      r.Ok? ==>
        r.value.value.CacheValue? &&
        var o := r.value.value.overrides;
        o == UNSET.(clustering := o.clustering) &&
        ClusteredConfigured(op.params, UNSET.clustering) == Ok(o.clustering) &&
        |r.value.deps| == 1 && r.value.deps[0].name.root == BinderRoot
  {
    var r := InvalidationInstalled(c, op, container);
    if r.Ok? {
      var o := UNSET.(clustering := ClusteredConfigured(op.params, UNSET.clustering).value);
      CacheInstalledService(c, op.address, op.params, container, o, []);
    }
  }

  /** A cache remove takes away exactly the service the cache's add
      installed, whichever kind of cache it is. */
  lemma RemoveMatchesAdd(c: Catalog, op: Operation, model: Node, container: Node)
    requires |op.address| >= 2
    ensures DistributedInstalled(c, op, model, container).Ok? ==> DistributedInstalled(c, op, model, container).value.name == RemovedName(op.address)
    ensures ReplicatedInstalled(c, op, container).Ok? ==> ReplicatedInstalled(c, op, container).value.name == RemovedName(op.address)
    ensures InvalidationInstalled(c, op, container).Ok? ==> InvalidationInstalled(c, op, container).value.name == RemovedName(op.address)
  {
  }
}
