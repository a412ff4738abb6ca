/** The writer half of InfinispanSubsystemParser_1_1: writeContent walks the
    subsystem model in a fixed order and emits XML to a stream, attribute by
    attribute and element by element.

    The stream is the XmlWriter class; each specification function below says
    which tokens one part of writeContent emits, or which failure stops it. */
module Writer {
  import opened Failures
  import opened JavaText
  import opened Dmr
  import opened Enums
  import opened Names
  import opened Sequences

  /** One event of the XML stream writer. */
  datatype Token =
    | Start(name: string)                // writeStartElement
    | Attr(name: string, value: string)  // writeAttribute
    | Chars(text: string)                // writeCharacters
    | End                                // writeEndElement

  /** A cache resource: its name in the parent's child object, and its model. */
  datatype CacheResource = CacheResource(name: string, node: Node)

  /** A container resource, with its cache children of each kind in model order. */
  datatype ContainerResource = ContainerResource(
    name: string, node: Node,
    local: seq<CacheResource>, invalidation: seq<CacheResource>,
    replicated: seq<CacheResource>, distributed: seq<CacheResource>)

  /** The subsystem resource, with its containers in model order; None when
      its cache-container child is undefined. */
  datatype SubsystemResource = SubsystemResource(node: Node, containers: Option<seq<ContainerResource>>)

  // ------------------------------------------------------------ what each part writes

  const CACHE_ATTRIBUTES: seq<string> := [START, BATCHING, INDEXING]
  const LOCKING_ATTRIBUTES: seq<string> := [ISOLATION, STRIPING, ACQUIRE_TIMEOUT, CONCURRENCY_LEVEL]
  const TRANSACTION_ATTRIBUTES: seq<string> := [STOP_TIMEOUT, MODE, LOCKING, EAGER_LOCKING]
  const EVICTION_ATTRIBUTES: seq<string> := [STRATEGY, MAX_ENTRIES]
  const EXPIRATION_ATTRIBUTES: seq<string> := [MAX_IDLE, LIFESPAN, INTERVAL]
  const STORE_FLAGS: seq<string> := [SHARED, PRELOAD, PASSIVATION, FETCH_STATE, PURGE, SINGLETON]
  const FILE_STORE_ATTRIBUTES: seq<string> := [RELATIVE_TO, PATH] + STORE_FLAGS
  const CLUSTERED_ATTRIBUTES: seq<string> := [QUEUE_SIZE, QUEUE_FLUSH_INTERVAL, REMOTE_TIMEOUT]
  const DISTRIBUTED_ATTRIBUTES: seq<string> := [OWNERS, VIRTUAL_NODES, L1_LIFESPAN]
  /** rehashing and state-transfer both write a flush-timeout */
  const REHASHING_ATTRIBUTES: seq<string> := [ENABLED, TIMEOUT, FLUSH_TIMEOUT]
  const STATE_TRANSFER_ATTRIBUTES: seq<string> := [ENABLED, TIMEOUT, FLUSH_TIMEOUT]
  const CONTAINER_ATTRIBUTES: seq<string> := [JNDI_NAME, LISTENER_EXECUTOR, EVICTION_EXECUTOR, REPLICATION_QUEUE_EXECUTOR]
  const TRANSPORT_ATTRIBUTES: seq<string> := [STACK, EXECUTOR, LOCK_TIMEOUT, SITE, RACK, MACHINE]

  /** What ModelNode.asString gives for an undefined node. */
  const UNDEFINED_TEXT: string := "undefined"

  /** writeOptional / writeOptionalFlattened: the attribute, when its key is defined. */
  function OptionalWritten(m: Node, group: Option<string>, attribute: string): Result<seq<Token>> {
    var v :- Lookup(m, Key(group, attribute), AsString);
    Ok(if v.None? then [] else [Attr(attribute, v.value)])
  }

  /** writeRequired / writeRequiredFlattened */
  function RequiredWritten(m: Node, group: Option<string>, attribute: string): Result<seq<Token>> {
    var v :- Require(m, Key(group, attribute), AsString);
    Ok([Attr(attribute, v)])
  }

  /** A run of writeOptional calls, in the order given. */
  function AttributesWritten(m: Node, group: Option<string>, names: seq<string>): Result<seq<Token>>
    decreases |names|
  {
    if names == [] then Ok([])
    else
      var a :- OptionalWritten(m, group, names[0]);
      var rest :- AttributesWritten(m, group, names[1..]);
      Ok(a + rest)
  }

  /** A group element, written only when its marker is defined. */
  function GroupWritten(m: Node, group: string, names: seq<string>): Result<seq<Token>> {
    if group !in m then Ok([])
    else
      var a :- AttributesWritten(m, Some(group), names);
      Ok([Start(group)] + a + [End])
  }

  function PropertyElement(p: (string, string)): seq<Token> {
    [Start(PROPERTY), Attr(NAME, p.0), Chars(p.1), End]
  }

  /** One <property> element per entry of a property list, in order. */
  function PropertiesWritten(ps: seq<(string, string)>): seq<Token>
    decreases |ps|
  {
    if ps == [] then [] else PropertiesWritten(ps[..|ps| - 1]) + PropertyElement(ps[|ps| - 1])
  }

  /** The property list read from `source` when the key `defined` is defined;
      asPropertyList on an undefined or non-list node fails. */
  function PropertyListOf(m: Node, defined: string, source: string): Result<Option<seq<(string, string)>>> {
    if defined !in m then Ok(None)
    else if source !in m then Err(NotConvertible(source))
    else match AsProperties(m[source])
      case None => Err(NotConvertible(source))
      case Some(ps) => Ok(Some(ps))
  }

  /** The opening of the store element: only when store.class is defined. */
  function StoreHeadWritten(m: Node): Result<seq<Token>> {
    if Flatten(STORE, CLASS) !in m then Ok([])
    else
      var a :- RequiredWritten(m, Some(STORE), CLASS);
      Ok([Start(STORE)] + a)
  }

  function StoreWritten(m: Node): Result<seq<Token>> {
    if STORE !in m then Ok([])
    else
      var head :- StoreHeadWritten(m);
      var flags :- AttributesWritten(m, Some(STORE), STORE_FLAGS);
      var ps :- PropertyListOf(m, Flatten(STORE, PROPERTIES), Flatten(STORE, PROPERTIES));
      Ok(head + flags + (if ps.None? then [] else PropertiesWritten(ps.value)) + [End])
  }

  /** The file-store element, its properties read from `source`. */
  function FileStoreElement(m: Node, source: string): Result<seq<Token>> {
    if FILE_STORE !in m then Ok([])
    else
      var attributes :- AttributesWritten(m, Some(FILE_STORE), FILE_STORE_ATTRIBUTES);
      var ps :- PropertyListOf(m, Flatten(FILE_STORE, PROPERTIES), source);
      Ok([Start(FILE_STORE)] + attributes + (if ps.None? then [] else PropertiesWritten(ps.value)) + [End])
  }

  /** The file-store element as the source writes it: the properties are
      tested under file-store.properties but read from the key `property`. */
  function FileStoreWrittenAsIs(m: Node): Result<seq<Token>> {
    FileStoreElement(m, PROPERTY)
  }

  /** The file-store element with its properties read from the key it tests. */
  function FileStoreWritten(m: Node): Result<seq<Token>> {
    FileStoreElement(m, Flatten(FILE_STORE, PROPERTIES))
  }

  /** The cache's own attributes and its locking, transaction, eviction and
      expiration elements. */
  function CacheGroupsWritten(m: Node): Result<seq<Token>> {
    var top :- AttributesWritten(m, None, CACHE_ATTRIBUTES);
    var locking :- GroupWritten(m, LOCKING, LOCKING_ATTRIBUTES);
    var transaction :- GroupWritten(m, TRANSACTION, TRANSACTION_ATTRIBUTES);
    var eviction :- GroupWritten(m, EVICTION, EVICTION_ATTRIBUTES);
    var expiration :- GroupWritten(m, EXPIRATION, EXPIRATION_ATTRIBUTES);
    Ok(top + locking + transaction + eviction + expiration)
  }

  /** writeCacheAttributesAndElements */
  function CacheBodyWritten(m: Node, name: string): Result<seq<Token>> {
    var groups :- CacheGroupsWritten(m);
    var store :- StoreWritten(m);
    var fileStore :- FileStoreWritten(m);
    Ok([Attr(NAME, name)] + groups + store + fileStore)
  }

  /** The cache-mode name writeClusteredCacheAttributes reads: "undefined"
      when the key is undefined. */
  function CacheModeText(m: Node): Result<string> {
    if CACHE_MODE !in m then Ok(UNDEFINED_TEXT)
    else match AsString(m[CACHE_MODE])
      case None => Err(NotConvertible(CACHE_MODE))
      case Some(s) => Ok(s)
  }

  /** writeClusteredCacheAttributes: the mode derived from cache-mode by
      CacheMode.valueOf and Mode.forCacheMode, then the queue attributes. */
  function ClusteredWritten(c: Catalog, m: Node): Result<seq<Token>> {
    var name :- CacheModeText(m);
    if name !in c.cacheModes then Err(UnknownConstant(CACHE_MODE, name))
    else
      var rest :- AttributesWritten(m, None, CLUSTERED_ATTRIBUTES);
      Ok([Attr(MODE, c.modeOfCacheMode(name))] + rest)
  }

  /** The attributes a cache element carries before its name: the
      distributed ones, then the clustered ones. */
  function LeadWritten(c: Catalog, kind: string, m: Node): Result<seq<Token>> {
    if kind == LOCAL_CACHE then Ok([])
    else if kind == INVALIDATION_CACHE || kind == REPLICATED_CACHE then ClusteredWritten(c, m)
    else
      var distributed :- AttributesWritten(m, None, DISTRIBUTED_ATTRIBUTES);
      var clustered :- ClusteredWritten(c, m);
      Ok(distributed + clustered)
  }

  /** The element a cache carries after its body: state-transfer for a
      replicated cache, rehashing for a distributed one. */
  function TailWritten(kind: string, m: Node): Result<seq<Token>> {
    if kind == LOCAL_CACHE || kind == INVALIDATION_CACHE then Ok([])
    else if kind == REPLICATED_CACHE then GroupWritten(m, STATE_TRANSFER, STATE_TRANSFER_ATTRIBUTES)
    else GroupWritten(m, REHASHING, REHASHING_ATTRIBUTES)
  }

  /** The element of one cache of the given kind. */
  function CacheWritten(c: Catalog, kind: string, cache: CacheResource): Result<seq<Token>> {
    var lead :- LeadWritten(c, kind, cache.node);
    var body :- CacheBodyWritten(cache.node, cache.name);
    var tail :- TailWritten(kind, cache.node);
    Ok([Start(kind)] + lead + body + tail + [End])
  }

  /** The caches of one kind, in model order. */
  function CachesWritten(c: Catalog, kind: string, caches: seq<CacheResource>): Result<seq<Token>>
    decreases |caches|
  {
    if caches == [] then Ok([])
    else
      var a :- CacheWritten(c, kind, caches[0]);
      var rest :- CachesWritten(c, kind, caches[1..]);
      Ok(a + rest)
  }

  function AliasElements(aliases: seq<string>): seq<Token>
    decreases |aliases|
  {
    if aliases == [] then [] else AliasElements(aliases[..|aliases| - 1]) + [Start(ALIAS), Chars(aliases[|aliases| - 1]), End]
  }

  function AliasesWritten(m: Node): Result<seq<Token>> {
    if ALIAS !in m then Ok([])
    else
      var aliases :- Require(m, ALIAS, AsStrings);
      Ok(AliasElements(aliases))
  }

  /** The opening of a cache-container element, up to its transport. */
  function ContainerHeadWritten(k: ContainerResource): Result<seq<Token>> {
    var m := k.node;
    var defaultCache :- RequiredWritten(m, None, DEFAULT_CACHE);
    var optional :- AttributesWritten(m, None, CONTAINER_ATTRIBUTES);
    Ok([Start(CACHE_CONTAINER), Attr(NAME, k.name)] + defaultCache + optional)
  }

  /** The caches of a container: local, invalidation, replicated, then
      distributed, each kind in model order. */
  function ContainerCachesWritten(c: Catalog, k: ContainerResource): Result<seq<Token>> {
    var local :- CachesWritten(c, LOCAL_CACHE, k.local);
    var invalidation :- CachesWritten(c, INVALIDATION_CACHE, k.invalidation);
    var replicated :- CachesWritten(c, REPLICATED_CACHE, k.replicated);
    var distributed :- CachesWritten(c, DISTRIBUTED_CACHE, k.distributed);
    Ok(local + invalidation + replicated + distributed)
  }

  /** The cache-container element. */
  function ContainerWritten(c: Catalog, k: ContainerResource): Result<seq<Token>> {
    var head :- ContainerHeadWritten(k);
    var aliases :- AliasesWritten(k.node);
    var transport :- GroupWritten(k.node, TRANSPORT, TRANSPORT_ATTRIBUTES);
    var caches :- ContainerCachesWritten(c, k);
    Ok(head + aliases + transport + caches + [End])
  }

  function ContainersWritten(c: Catalog, ks: seq<ContainerResource>): Result<seq<Token>>
    decreases |ks|
  {
    if ks == [] then Ok([])
    else
      var a :- ContainerWritten(c, ks[0]);
      var rest :- ContainersWritten(c, ks[1..]);
      Ok(a + rest)
  }

  /** writeContent; an undefined model gives an empty subsystem element, and
      an undefined cache-container child fails asPropertyList. */
  function ContentWritten(c: Catalog, model: Option<SubsystemResource>): Result<seq<Token>> {
    if model.None? then Ok([Start(SUBSYSTEM), End])
    else
      var defaultContainer :- RequiredWritten(model.value.node, None, DEFAULT_CACHE_CONTAINER);
      if model.value.containers.None? then Err(NotConvertible(CACHE_CONTAINER))
      else
        var containers :- ContainersWritten(c, model.value.containers.value);
        Ok([Start(SUBSYSTEM)] + defaultContainer + containers + [End])
  }

  // ------------------------------------------------------------ the stream

  /** `done` followed by what `r` writes; a failure stays that failure. */
  function Prepend(done: seq<Token>, r: Result<seq<Token>>): Result<seq<Token>> {
    if r.Err? then r else Ok(done + r.value)
  }

  /** Writing the caches from one onwards is writing that one, then the rest. */
  lemma CachesStep(c: Catalog, kind: string, caches: seq<CacheResource>, done: seq<Token>)
    requires caches != [] && CacheWritten(c, kind, caches[0]).Ok?
    ensures Prepend(done, CachesWritten(c, kind, caches))
         == Prepend(done + CacheWritten(c, kind, caches[0]).value, CachesWritten(c, kind, caches[1..]))
  {
    var rest := CachesWritten(c, kind, caches[1..]);
    if rest.Ok? {
      Assoc(done, CacheWritten(c, kind, caches[0]).value, rest.value);
    }
  }

  /** Writing the containers from one onwards is writing that one, then the rest. */
  lemma ContainersStep(c: Catalog, ks: seq<ContainerResource>, done: seq<Token>)
    requires ks != [] && ContainerWritten(c, ks[0]).Ok?
    ensures Prepend(done, ContainersWritten(c, ks))
         == Prepend(done + ContainerWritten(c, ks[0]).value, ContainersWritten(c, ks[1..]))
  {
    var rest := ContainersWritten(c, ks[1..]);
    if rest.Ok? {
      Assoc(done, ContainerWritten(c, ks[0]).value, rest.value);
    }
  }

  /** The stream went from `before` to `after` by writing what `spec` writes,
      or stopped with the failure of `spec`. */
  predicate Emitted(spec: Result<seq<Token>>, before: seq<Token>, after: seq<Token>, failure: Option<Failure>) {
    match spec
    case Ok(ts) => failure.None? && after == before + ts
    case Err(e) => failure == Some(e)
  }


  /** The XML stream writer: everything written so far. */
  class XmlWriter {
    var written: seq<Token>

    constructor ()
      ensures written == []
    {
      written := [];
    }

    /** Writes one straight-line part of the output, or reports its failure
        without writing. */
    method Emit(part: Result<seq<Token>>) returns (failure: Option<Failure>)
      modifies this
      ensures Emitted(part, old(written), written, failure)
      ensures part.Err? ==> written == old(written)
    {
      if part.Err? {
        failure := Some(part.error);
      } else {
        written := written + part.value;
        failure := None;
      }
    }

    /** The loop over a property list. */
    method WriteProperties(ps: seq<(string, string)>)
      modifies this
      ensures written == old(written) + PropertiesWritten(ps)
    {
      var i := 0;
      while i < |ps|
        invariant 0 <= i <= |ps|
        invariant written == old(written) + PropertiesWritten(ps[..i])
      {
        assert ps[..i + 1][..i] == ps[..i];
        Assoc(old(written), PropertiesWritten(ps[..i]), PropertyElement(ps[i]));
        written := written + PropertyElement(ps[i]);
        i := i + 1;
      }
      assert ps[..|ps|] == ps;
    }

    /** The store element of writeCacheAttributesAndElements. */
    method WriteStore(m: Node) returns (failure: Option<Failure>)
      modifies this
      ensures Emitted(StoreWritten(m), old(written), written, failure)
    {
      failure := None;
      if STORE in m {
        var before := written;
        failure := Emit(StoreHeadWritten(m));
        if failure.Some? { return; }
        ghost var head := StoreHeadWritten(m).value;
        failure := Emit(AttributesWritten(m, Some(STORE), STORE_FLAGS));
        if failure.Some? { return; }
        ghost var flags := AttributesWritten(m, Some(STORE), STORE_FLAGS).value;
        Assoc(before, head, flags);
        var ps := PropertyListOf(m, Flatten(STORE, PROPERTIES), Flatten(STORE, PROPERTIES));
        if ps.Err? {
          failure := Some(ps.error);
          return;
        }
        if ps.value.Some? {
          WriteProperties(ps.value.value);
        }
        ghost var props := if ps.value.None? then [] else PropertiesWritten(ps.value.value);
        Assoc(before, head + flags, props);
        Assoc(before, head + flags + props, [End]);
        written := written + [End];
      }
    }

    /** The file-store element of writeCacheAttributesAndElements. */
    method WriteFileStore(m: Node) returns (failure: Option<Failure>)
      modifies this
      ensures Emitted(FileStoreWritten(m), old(written), written, failure)
    {
      failure := None;
      if FILE_STORE in m {
        var before := written;
        var attributes := AttributesWritten(m, Some(FILE_STORE), FILE_STORE_ATTRIBUTES);
        if attributes.Err? {
          failure := Some(attributes.error);
          return;
        }
        var ps := PropertyListOf(m, Flatten(FILE_STORE, PROPERTIES), Flatten(FILE_STORE, PROPERTIES));
        if ps.Err? {
          failure := Some(ps.error);
          return;
        }
        var open := [Start(FILE_STORE)] + attributes.value;
        written := written + open;
        if ps.value.Some? {
          WriteProperties(ps.value.value);
        }
        ghost var props := if ps.value.None? then [] else PropertiesWritten(ps.value.value);
        Assoc(before, open, props);
        Assoc(before, open + props, [End]);
        written := written + [End];
      }
    }

    /** writeCacheAttributesAndElements */
    method WriteCacheAttributesAndElements(m: Node, name: string) returns (failure: Option<Failure>)
      modifies this
      ensures Emitted(CacheBodyWritten(m, name), old(written), written, failure)
    {
      var groups := CacheGroupsWritten(m);
      if groups.Err? { return Some(groups.error); }
      var before := written;
      var lead := [Attr(NAME, name)] + groups.value;
      written := written + lead;
      failure := WriteStore(m);
      if failure.Some? { return; }
      ghost var store := StoreWritten(m).value;
      Assoc(before, lead, store);
      failure := WriteFileStore(m);
      if failure.Some? { return; }
      Assoc(before, lead + store, FileStoreWritten(m).value);
    }

    /** The element of one cache of the given kind, as one iteration of a
        cache loop of writeContent writes it. */
    method WriteCache(c: Catalog, kind: string, cache: CacheResource) returns (failure: Option<Failure>)
      modifies this
      ensures Emitted(CacheWritten(c, kind, cache), old(written), written, failure)
    {
      var m := cache.node;
      var before := written;
      var lead := LeadWritten(c, kind, m);
      if lead.Err? { return Some(lead.error); }
      var open := [Start(kind)] + lead.value;
      written := written + open;
      failure := WriteCacheAttributesAndElements(m, cache.name);
      if failure.Some? { return; }
      ghost var body := CacheBodyWritten(m, cache.name).value;
      Assoc(before, open, body);
      failure := Emit(TailWritten(kind, m));
      if failure.Some? { return; }
      ghost var tail := TailWritten(kind, m).value;
      Assoc(before, open + body, tail);
      Assoc(before, open + body + tail, [End]);
      written := written + [End];
    }

    /** One cache loop of writeContent: the caches of one kind in model order. */
    method WriteCaches(c: Catalog, kind: string, caches: seq<CacheResource>) returns (failure: Option<Failure>)
      modifies this
      ensures Emitted(CachesWritten(c, kind, caches), old(written), written, failure)
    {
      var before := written;
      ghost var done: seq<Token> := [];
      assert caches[0..] == caches;
      assert CachesWritten(c, kind, caches).Ok? ==> [] + CachesWritten(c, kind, caches).value == CachesWritten(c, kind, caches).value;
      var i := 0;
      while i < |caches|
        invariant 0 <= i <= |caches|
        invariant written == before + done
        invariant CachesWritten(c, kind, caches) == Prepend(done, CachesWritten(c, kind, caches[i..]))
      {
        assert caches[i..][1..] == caches[i + 1..];
        failure := WriteCache(c, kind, caches[i]);
        if failure.Some? {
          return;
        }
        ghost var a := CacheWritten(c, kind, caches[i]).value;
        Assoc(before, done, a);
        CachesStep(c, kind, caches[i..], done);
        done := done + a;
        i := i + 1;
      }
      failure := None;
    }

    /** The alias loop of writeContent. */
    method WriteAliases(m: Node) returns (failure: Option<Failure>)
      modifies this
      ensures Emitted(AliasesWritten(m), old(written), written, failure)
    {
      failure := None;
      if ALIAS in m {
        var aliases := Require(m, ALIAS, AsStrings);
        if aliases.Err? {
          return Some(aliases.error);
        }
        var i := 0;
        while i < |aliases.value|
          invariant 0 <= i <= |aliases.value|
          invariant written == old(written) + AliasElements(aliases.value[..i])
        {
          assert aliases.value[..i + 1][..i] == aliases.value[..i];
          var element := [Start(ALIAS), Chars(aliases.value[i]), End];
          Assoc(old(written), AliasElements(aliases.value[..i]), element);
          written := written + element;
          i := i + 1;
        }
        assert aliases.value[..|aliases.value|] == aliases.value;
      }
    }

    /** The four cache loops of writeContent for one container. */
    method WriteContainerCaches(c: Catalog, k: ContainerResource) returns (failure: Option<Failure>)
      modifies this
      ensures Emitted(ContainerCachesWritten(c, k), old(written), written, failure)
    {
      var before := written;
      failure := WriteCaches(c, LOCAL_CACHE, k.local);
      if failure.Some? { return; }
      ghost var local := CachesWritten(c, LOCAL_CACHE, k.local).value;
      failure := WriteCaches(c, INVALIDATION_CACHE, k.invalidation);
      if failure.Some? { return; }
      ghost var invalidation := CachesWritten(c, INVALIDATION_CACHE, k.invalidation).value;
      Assoc(before, local, invalidation);
      failure := WriteCaches(c, REPLICATED_CACHE, k.replicated);
      if failure.Some? { return; }
      ghost var replicated := CachesWritten(c, REPLICATED_CACHE, k.replicated).value;
      Assoc(before, local + invalidation, replicated);
      failure := WriteCaches(c, DISTRIBUTED_CACHE, k.distributed);
      if failure.Some? { return; }
      ghost var distributed := CachesWritten(c, DISTRIBUTED_CACHE, k.distributed).value;
      Assoc(before, local + invalidation + replicated, distributed);
    }

    /** One iteration of the container loop of writeContent. */
    method WriteContainer(c: Catalog, k: ContainerResource) returns (failure: Option<Failure>)
      modifies this
      ensures Emitted(ContainerWritten(c, k), old(written), written, failure)
    {
      var before := written;
      failure := Emit(ContainerHeadWritten(k));
      if failure.Some? { return; }
      ghost var head := ContainerHeadWritten(k).value;
      failure := WriteAliases(k.node);
      if failure.Some? { return; }
      ghost var aliases := AliasesWritten(k.node).value;
      Assoc(before, head, aliases);
      failure := Emit(GroupWritten(k.node, TRANSPORT, TRANSPORT_ATTRIBUTES));
      if failure.Some? { return; }
      ghost var transport := GroupWritten(k.node, TRANSPORT, TRANSPORT_ATTRIBUTES).value;
      Assoc(before, head + aliases, transport);
      failure := WriteContainerCaches(c, k);
      if failure.Some? { return; }
      ghost var caches := ContainerCachesWritten(c, k).value;
      Assoc(before, head + aliases + transport, caches);
      Assoc(before, head + aliases + transport + caches, [End]);
      written := written + [End];
    }

    /** The container loop of writeContent. */
    method WriteContainers(c: Catalog, ks: seq<ContainerResource>) returns (failure: Option<Failure>)
      modifies this
      ensures Emitted(ContainersWritten(c, ks), old(written), written, failure)
    {
      var before := written;
      ghost var done: seq<Token> := [];
      assert ks[0..] == ks;
      assert ContainersWritten(c, ks).Ok? ==> [] + ContainersWritten(c, ks).value == ContainersWritten(c, ks).value;
      var i := 0;
      while i < |ks|
        invariant 0 <= i <= |ks|
        invariant written == before + done
        invariant ContainersWritten(c, ks) == Prepend(done, ContainersWritten(c, ks[i..]))
      {
        assert ks[i..][1..] == ks[i + 1..];
        failure := WriteContainer(c, ks[i]);
        if failure.Some? {
          return;
        }
        ghost var a := ContainerWritten(c, ks[i]).value;
        Assoc(before, done, a);
        ContainersStep(c, ks[i..], done);
        done := done + a;
        i := i + 1;
      }
      failure := None;
    }

    /** writeContent */
    method WriteContent(c: Catalog, model: Option<SubsystemResource>) returns (failure: Option<Failure>)
      modifies this
      ensures Emitted(ContentWritten(c, model), old(written), written, failure)
    {
      failure := None;
      var before := written;
      if model.None? {
        written := written + [Start(SUBSYSTEM), End];
        return;
      }
      var defaultContainer := RequiredWritten(model.value.node, None, DEFAULT_CACHE_CONTAINER);
      if defaultContainer.Err? {
        return Some(defaultContainer.error);
      }
      var open := [Start(SUBSYSTEM)] + defaultContainer.value;
      written := written + open;
      if model.value.containers.None? {
        return Some(NotConvertible(CACHE_CONTAINER));
      }
      failure := WriteContainers(c, model.value.containers.value);
      if failure.Some? { return; }
      ghost var containers := ContainersWritten(c, model.value.containers.value).value;
      Assoc(before, open, containers);
      Assoc(before, open + containers, [End]);
      written := written + [End];
    }
  }
}
