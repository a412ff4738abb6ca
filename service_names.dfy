/** The names of the MSC services the handlers install, depend on, alias and
    remove. The helpers that build them (EmbeddedCacheManagerService,
    CacheService, ChannelService, ContextNames, ThreadsServices, ...) are not
    part of this model, so each becomes a root of its own, and a name is a
    root followed by the segments appended to it. */
module ServiceNames {
  import opened Failures

  datatype Root =
    /** EmbeddedCacheManagerService.getServiceName */
    | CacheManagerRoot
    /** CacheService.getServiceName(container, null): the container's default cache */
    | DefaultCacheRoot
    /** AbstractPathService.pathNameOf */
    | PathRoot
    /** ChannelService.getServiceName */
    | ChannelRoot
    /** ChannelFactoryService.getServiceName */
    | ChannelFactoryRoot
    /** ThreadsServices.executorName */
    | ExecutorRoot
    /** ContextNames.BindInfo.getBinderServiceName */
    | BinderRoot
    /** ContextNames.BindInfo.getParentContextServiceName */
    | ParentContextRoot
    /** ContextNames.JAVA_CONTEXT_SERVICE_NAME */
    | JavaContextRoot
    /** EmbeddedCacheManagerDefaultsService.SERVICE_NAME */
    | DefaultsRoot
    /** TxnServices.JBOSS_TXN_TRANSACTION_MANAGER */
    | TransactionManagerRoot
    /** TxnServices.JBOSS_TXN_SYNCHRONIZATION_REGISTRY */
    | SynchronizationRegistryRoot
    /** TxnServices.JBOSS_TXN_ARJUNA_RECOVERY_MANAGER */
    | RecoveryManagerRoot
    /** ServiceName.JBOSS */
    | JbossRoot

  datatype ServiceName = ServiceName(root: Root, segments: seq<string>) {
    /** ServiceName.append */
    function Append(segment: string): ServiceName {
      ServiceName(root, segments + [segment])
    }
  }

  /** EmbeddedCacheManagerService.getServiceName(container) */
  function CacheManagerName(container: string): ServiceName {
    ServiceName(CacheManagerRoot, [container])
  }

  /** The service a cache of a container is installed under: the container's
      service name with the cache name appended. */
  function CacheName(container: string, cache: string): ServiceName {
    CacheManagerName(container).Append(cache)
  }

  /** CacheService.getServiceName(container, null) */
  function DefaultCacheName(container: string): ServiceName {
    ServiceName(DefaultCacheRoot, [container])
  }

  /** AbstractPathService.pathNameOf(path) */
  function PathNameOf(path: string): ServiceName {
    ServiceName(PathRoot, [path])
  }

  /** ServerEnvironment.SERVER_DATA_DIR */
  const SERVER_DATA_DIR: string := "jboss.server.data.dir"

  /** ChannelService.getServiceName(container) */
  function ChannelName(container: string): ServiceName {
    ServiceName(ChannelRoot, [container])
  }

  /** ChannelFactoryService.getServiceName(stack), where a null stack
      appends nothing */
  function ChannelFactoryName(stack: Option<string>): ServiceName {
    match stack
    case None => ServiceName(ChannelFactoryRoot, [])
    case Some(s) => ServiceName(ChannelFactoryRoot, [s])
  }

  /** ThreadsServices.executorName(name) */
  function ExecutorName(name: string): ServiceName {
    ServiceName(ExecutorRoot, [name])
  }

  /** ContextNames.bindInfoFor(jndiName).getBinderServiceName() */
  function BinderName(jndiName: string): ServiceName {
    ServiceName(BinderRoot, [jndiName])
  }

  /** ContextNames.bindInfoFor(jndiName).getParentContextServiceName() */
  function ParentContextName(jndiName: string): ServiceName {
    ServiceName(ParentContextRoot, [jndiName])
  }

  /** ContextNames.JAVA_CONTEXT_SERVICE_NAME.append(jndiName) */
  function JavaContextName(jndiName: string): ServiceName {
    ServiceName(JavaContextRoot, [jndiName])
  }
}
