# Infinispan subsystem configuration pipeline

A Dafny model of how the Infinispan subsystem of the application server turns
its XML configuration into management operations and then into services:

- **Parser** (`parser.dfy`, `parser_properties.dfy`): the `readElement`
  walk of `InfinispanSubsystemParser_1_1`. It reads a tree of elements and
  emits an ordered list of add operations: one for the subsystem, then each
  container followed by its caches. Nested groups (locking, transaction,
  eviction, expiration, store, file-store, rehashing, state-transfer,
  transport) are flattened into `group.attribute` keys beside a boolean
  marker. A store's `<property>` children are packed into one string
  `{"n1"="v1",...}`. Every parse step is a method proved against a
  specification function.
- **Writer** (`writer.dfy`, `writer_properties.dfy`): `writeContent` as a
  class holding the token stream written so far. Each write method appends
  exactly what its specification function gives.
- **Restricted round trip** (`roundtrip.dfy`): the locking, transaction and
  expiration elements, and store property lists, read back to what was
  written.
- **Populators** (`populate.dfy`): the key-by-key copies of the add
  handlers from the operation into the resource model, on a `ModelNode`
  object updated in place. This includes the decoder of the packed store
  properties.
- **Configuration builder** (`builder.dfy`): `processCacheModelNode`,
  `buildCacheStore` and the clustered, distributed and replicated
  processing, on a `Configuration` object whose settings are records of
  optional fields.
- **Services** (`services.dfy`): the runtime steps of the container add and
  the cache adds and removes, as a service target that records installed and
  removed services. Each service carries its name, dependencies, initial
  mode, aliases and whether the verification handler listens. Also the JNDI
  name helpers.
- **Supporting modules**:
  - `dmr.dfy`: the detyped management model. A node is a map from keys to
    defined values: a key is absent or defined, never present but undefined.
    The `asString`/`asBoolean`/`asInt`/`asLong`/`asList`/`asPropertyList`
    conversions are modelled for the value types the parser stores, and
    fail on the others (see "## Left out").
  - `javatext.dfy`: `String.split`, `trim`, `replace`, `parseInt` and
    `parseLong` over ASCII digits (see "## Left out"), and `parseBoolean`,
    with their round-trip lemmas.
  - `names.dfy`: element, attribute and model-key names.
  - `enums.dfy`: the enumerations, as a catalog of constant names.
  - `service_names.dfy`: service names.
  - `failures.dfy`: results and failures.

Five facts are stated as lemmas:

- **The transport marker is ignored at runtime.** The parser stores the
  transport marker as a boolean, with `transport.stack` and the other
  attributes flattened beside it. The container add's runtime step reads
  `transport` as a nested node. For a parsed configuration, the channel
  therefore depends on the channel factory of no stack, and the transport
  settings stay empty (`Services.MarkerTransportIgnored`).
- **The base cache processing never runs.** No live runtime step calls
  `processCacheModelNode`: the local cache's runtime is commented out. A
  distributed, replicated or invalidation cache service therefore carries
  only its clustered overrides and depends only on the container's binder
  (`Services.DistributedOverrides`, `Services.ReplicatedOverrides`,
  `Services.InvalidationOverrides`).
- **Distributed models from scratch cannot be written.** The writer
  requires a cache mode for clustered caches, which the clustered populators
  never set (`Populate.DistributedModelUnwritable`).
- **A file store alone configures no loader.** The store section of
  `processCacheModelNode` tests only the `store` marker. A cache whose only
  store is a `<file-store>` therefore gets no cache loader and no path
  dependency (`Builder.FileStoreAloneLoadsNothing`).
- **The file-store fallback always takes its defaults.** Without a store
  class, `buildCacheStore` reads `store.relative-to` and `store.path`. The
  cache populate copies relative-to and path only under `file-store`, so a
  populated model holds those two store keys only if it held them before
  (`Populate.StorePathNeverPopulated`).

## Model

| member | source | states |
|---|---|---|
| Parser.ReadElement | clustering/infinispan/src/main/java/org/jboss/as/clustering/infinispan/subsystem/InfinispanSubsystemParser_1_1.java:41-98 | the subsystem element parses (attribute loop, required default-cache-container, container loop) exactly as SubsystemParsed says |
| Parser.ParseContainers | clustering/infinispan/src/main/java/org/jboss/as/clustering/infinispan/subsystem/InfinispanSubsystemParser_1_1.java:69-97 | the loop over the cache-container children appends each container operation and then its cache operations, as SubsystemChildrenParsed says |
| Parser.ParseContainer | clustering/infinispan/src/main/java/org/jboss/as/clustering/infinispan/subsystem/InfinispanSubsystemParser_1_1.java:100-214 | the container attributes, the required name and default-cache, a failure on text other than white space, and the child loop, as ContainerParsed says |
| Parser.ParseContainerChild | clustering/infinispan/src/main/java/org/jboss/as/clustering/infinispan/subsystem/InfinispanSubsystemParser_1_1.java:148-210 | one alias, transport or cache child of a container, as ContainerChildParsed says |
| Parser.ParseCache | clustering/infinispan/src/main/java/org/jboss/as/clustering/infinispan/subsystem/InfinispanSubsystemParser_1_1.java:326-424 | a local, invalidation, replicated or distributed cache: attribute switch, required name, a failure on text other than white space, child loop and address, as CacheParsed says |
| Parser.ParseCacheElements | clustering/infinispan/src/main/java/org/jboss/as/clustering/infinispan/subsystem/InfinispanSubsystemParser_1_1.java:337-340 | the child loop of a cache element, as CacheChildrenParsed says |
| Parser.ParseCacheElementAndFlatten | clustering/infinispan/src/main/java/org/jboss/as/clustering/infinispan/subsystem/InfinispanSubsystemParser_1_1.java:426-456 | one child element of a cache dispatched to its group parser, as CacheChildParsed says |
| Parser.ScanAttributes | clustering/infinispan/src/main/java/org/jboss/as/clustering/infinispan/subsystem/InfinispanSubsystemParser_1_1.java:327-332 | the attribute loop with its switch over the rule table, as Scanned says |
| Parser.ParseGroupAndFlatten | clustering/infinispan/src/main/java/org/jboss/as/clustering/infinispan/subsystem/InfinispanSubsystemParser_1_1.java:516-554 | a group element (locking, transaction, eviction, expiration, rehashing, state-transfer, transport): marker when it has attributes, flattened keys, and no content: text other than white space fails, then a child element; as GroupParsed says |
| Parser.ParseCustomStoreAndFlatten | clustering/infinispan/src/main/java/org/jboss/as/clustering/infinispan/subsystem/InfinispanSubsystemParser_1_1.java:670-696 | the store element with its required class and a failure on text other than white space, as CustomStoreParsed says |
| Parser.ParseFileStoreAndFlatten | clustering/infinispan/src/main/java/org/jboss/as/clustering/infinispan/subsystem/InfinispanSubsystemParser_1_1.java:698-724 | the file-store element, with a failure on text other than white space, as FileStoreParsed says |
| Parser.ParseStorePropertiesAndFlatten | clustering/infinispan/src/main/java/org/jboss/as/clustering/infinispan/subsystem/InfinispanSubsystemParser_1_1.java:761-813 | the property loop and the StringBuilder packing, as StorePropertiesParsed says |
| Parser.Entries | clustering/infinispan/src/main/java/org/jboss/as/clustering/infinispan/subsystem/InfinispanSubsystemParser_1_1.java:777-783 | one packed entry per property, in order |
| ParserProperties.OperationsOrdered | clustering/infinispan/src/main/java/org/jboss/as/clustering/infinispan/subsystem/InfinispanSubsystemParser_1_1.java:63-84 | the subsystem operation comes first, and every cache operation follows its own container operation with only cache operations between them |
| ParserProperties.ContainerCachesInDocumentOrder | clustering/infinispan/src/main/java/org/jboss/as/clustering/infinispan/subsystem/InfinispanSubsystemParser_1_1.java:148-210 | a container parses its cache elements, one operation each, in document order |
| ParserProperties.ContainerOperations | clustering/infinispan/src/main/java/org/jboss/as/clustering/infinispan/subsystem/InfinispanSubsystemParser_1_1.java:100-214 | a container gives its own operation and cache operations addressed below it |
| ParserProperties.ContainersGrouped | clustering/infinispan/src/main/java/org/jboss/as/clustering/infinispan/subsystem/InfinispanSubsystemParser_1_1.java:69-97 | the container loop keeps each container's caches right after it |
| ParserProperties.SubsystemNeedsDefaultContainer | clustering/infinispan/src/main/java/org/jboss/as/clustering/infinispan/subsystem/InfinispanSubsystemParser_1_1.java:63-65 | without default-cache-container the parse fails with missing-required |
| ParserProperties.ContainerNeedsNameAndDefaultCache | clustering/infinispan/src/main/java/org/jboss/as/clustering/infinispan/subsystem/InfinispanSubsystemParser_1_1.java:142-144 | without the container name or default-cache the parse fails with missing-required for both |
| ParserProperties.CacheNeedsName | clustering/infinispan/src/main/java/org/jboss/as/clustering/infinispan/subsystem/InfinispanSubsystemParser_1_1.java:333-335 | a cache without a name fails with missing-required |
| ParserProperties.StoreNeedsClass | clustering/infinispan/src/main/java/org/jboss/as/clustering/infinispan/subsystem/InfinispanSubsystemParser_1_1.java:691-693 | a store without a class fails with missing-required unless an earlier store of the cache gave one; otherwise it fails exactly on text other than white space or a failing property list |
| ParserProperties.PropertyNeedsName | clustering/infinispan/src/main/java/org/jboss/as/clustering/infinispan/subsystem/InfinispanSubsystemParser_1_1.java:788-790 | a property without a name fails with missing-required |
| ParserProperties.CacheAddress | clustering/infinispan/src/main/java/org/jboss/as/clustering/infinispan/subsystem/InfinispanSubsystemParser_1_1.java:159-205 | a cache operation's address is the container's address followed by the element kind and the cache name |
| ParserProperties.GroupFlattening | clustering/infinispan/src/main/java/org/jboss/as/clustering/infinispan/subsystem/InfinispanSubsystemParser_1_1.java:219-221 | the group marker is set exactly when the element carries an attribute; attributes go under group.attribute keys; nothing else changes |
| ParserProperties.GroupNeedsNoContent | clustering/infinispan/src/main/java/org/jboss/as/clustering/infinispan/subsystem/InfinispanSubsystemParser_1_1.java:553 | once its attributes are read, a group element succeeds exactly when it has neither text other than white space nor a child element, and fails with the text failure first |
| ParserProperties.EnumeratedAttribute | clustering/infinispan/src/main/java/org/jboss/as/clustering/infinispan/subsystem/InfinispanSubsystemParser_1_1.java:265-286 | an enumerated attribute is stored as the constant's name when it names one, and fails with invalid-attribute-value otherwise |
| ParserProperties.EnumeratedCacheAttributes | clustering/infinispan/src/main/java/org/jboss/as/clustering/infinispan/subsystem/InfinispanSubsystemParser_1_1.java:265-286 | start and indexing are the enumerated cache attributes |
| ParserProperties.EnumeratedGroupAttributes | clustering/infinispan/src/main/java/org/jboss/as/clustering/infinispan/subsystem/InfinispanSubsystemParser_1_1.java:527-593 | isolation, eviction strategy, transaction mode, locking and eager-locking are enumerated |
| ParserProperties.ModeStoredRaw | clustering/infinispan/src/main/java/org/jboss/as/clustering/infinispan/subsystem/InfinispanSubsystemParser_1_1.java:295-306 | the clustered mode attribute is stored as written, unchecked |
| ParserProperties.EvictionIntervalNotStored | clustering/infinispan/src/main/java/org/jboss/as/clustering/infinispan/subsystem/InfinispanSubsystemParser_1_1.java:627-630 | the eviction interval is accepted and never stored |
| ParserProperties.DeprecatedNotStored | clustering/infinispan/src/main/java/org/jboss/as/clustering/infinispan/subsystem/InfinispanSubsystemParser_1_1.java:627-630 | an accepted-but-ignored attribute never reaches the model |
| ParserProperties.StorePropertiesKey | clustering/infinispan/src/main/java/org/jboss/as/clustering/infinispan/subsystem/InfinispanSubsystemParser_1_1.java:761-812 | storeKey.properties is written exactly when there is a property, and holds them packed in document order |
| ParserProperties.PackedShape | clustering/infinispan/src/main/java/org/jboss/as/clustering/infinispan/subsystem/InfinispanSubsystemParser_1_1.java:800-808 | the packed list is the entries joined by commas inside braces, with no trailing comma |
| ParserProperties.PropertiesInOrder | clustering/infinispan/src/main/java/org/jboss/as/clustering/infinispan/subsystem/InfinispanSubsystemParser_1_1.java:768-796 | the properties are collected in document order |
| ParserProperties.PropertiesFailIndependently | clustering/infinispan/src/main/java/org/jboss/as/clustering/infinispan/subsystem/InfinispanSubsystemParser_1_1.java:768-796 | whether the property loop fails does not depend on the node it writes into |
| ParserProperties.GroupKeeps | clustering/infinispan/src/main/java/org/jboss/as/clustering/infinispan/subsystem/InfinispanSubsystemParser_1_1.java:516-554 | a group element leaves every non-flattened key other than its marker alone |
| ParserProperties.CacheChildrenKeep | clustering/infinispan/src/main/java/org/jboss/as/clustering/infinispan/subsystem/InfinispanSubsystemParser_1_1.java:337-340 | the cache child loop leaves every non-flattened, non-marker key alone |
| ParserProperties.ContainerChildrenOrder | clustering/infinispan/src/main/java/org/jboss/as/clustering/infinispan/subsystem/InfinispanSubsystemParser_1_1.java:148-210 | the container loop adds one cache operation per cache element, in order |
| ParserProperties.ScannedText | clustering/infinispan/src/main/java/org/jboss/as/clustering/infinispan/subsystem/InfinispanSubsystemParser_1_1.java:259-291 | a text attribute's key holds one of that attribute's values, or what it held before |
| Writer.XmlWriter.WriteContent | clustering/infinispan/src/main/java/org/jboss/as/clustering/infinispan/subsystem/InfinispanSubsystemParser_1_1.java:825-947 | the stream grows by what ContentWritten gives for the subsystem model, or stops with its failure |
| WriterProperties.ContentNeedsContainerList | clustering/infinispan/src/main/java/org/jboss/as/clustering/infinispan/subsystem/InfinispanSubsystemParser_1_1.java:829-832 | an undefined cache-container child fails the conversion to a property list; an empty one gives a subsystem element with its default-container attribute alone |
| Writer.XmlWriter.WriteContainers | clustering/infinispan/src/main/java/org/jboss/as/clustering/infinispan/subsystem/InfinispanSubsystemParser_1_1.java:832-945 | the container loop, as ContainersWritten says |
| Writer.XmlWriter.WriteContainer | clustering/infinispan/src/main/java/org/jboss/as/clustering/infinispan/subsystem/InfinispanSubsystemParser_1_1.java:833-944 | one cache-container element with aliases, transport and caches, as ContainerWritten says |
| Writer.XmlWriter.WriteAliases | clustering/infinispan/src/main/java/org/jboss/as/clustering/infinispan/subsystem/InfinispanSubsystemParser_1_1.java:845-851 | one alias element per alias, as AliasesWritten says |
| Writer.XmlWriter.WriteContainerCaches | clustering/infinispan/src/main/java/org/jboss/as/clustering/infinispan/subsystem/InfinispanSubsystemParser_1_1.java:864-941 | the four cache loops in the order local, invalidation, replicated, distributed |
| Writer.XmlWriter.WriteCaches | clustering/infinispan/src/main/java/org/jboss/as/clustering/infinispan/subsystem/InfinispanSubsystemParser_1_1.java:867-876 | one cache loop of a kind, in model order, as CachesWritten says |
| Writer.XmlWriter.WriteCache | clustering/infinispan/src/main/java/org/jboss/as/clustering/infinispan/subsystem/InfinispanSubsystemParser_1_1.java:867-940 | one cache element of a kind, as CacheWritten says |
| Writer.XmlWriter.WriteCacheAttributesAndElements | clustering/infinispan/src/main/java/org/jboss/as/clustering/infinispan/subsystem/InfinispanSubsystemParser_1_1.java:949-1046 | the cache attributes and group elements, as CacheBodyWritten says |
| Writer.XmlWriter.WriteStore | clustering/infinispan/src/main/java/org/jboss/as/clustering/infinispan/subsystem/InfinispanSubsystemParser_1_1.java:991-1021 | the store element, as StoreWritten says |
| Writer.XmlWriter.WriteFileStore | clustering/infinispan/src/main/java/org/jboss/as/clustering/infinispan/subsystem/InfinispanSubsystemParser_1_1.java:1023-1042 | the file-store element as FileStoreWritten says, with its properties read from file-store.properties: the corrected read of the Findings row, not the source's read of `property` (FileStoreWrittenAsIs) |
| Writer.XmlWriter.WriteProperties | clustering/infinispan/src/main/java/org/jboss/as/clustering/infinispan/subsystem/InfinispanSubsystemParser_1_1.java:1006-1017 | one property element per entry, in order |
| Writer.XmlWriter.Emit | clustering/infinispan/src/main/java/org/jboss/as/clustering/infinispan/subsystem/InfinispanSubsystemParser_1_1.java:1058-1076 | a straight-line part is appended whole, or the stream is left unchanged with its failure |
| WriterProperties.AttributesWrittenDefined | clustering/infinispan/src/main/java/org/jboss/as/clustering/infinispan/subsystem/InfinispanSubsystemParser_1_1.java:1058-1072 | a run of optional attributes writes an attribute exactly for each listed key that is defined, and nothing else |
| WriterProperties.AttributesWrittenFails | clustering/infinispan/src/main/java/org/jboss/as/clustering/infinispan/subsystem/InfinispanSubsystemParser_1_1.java:1058-1072 | the run fails exactly when a defined key has no text form |
| WriterProperties.GroupWrittenIffMarker | clustering/infinispan/src/main/java/org/jboss/as/clustering/infinispan/subsystem/InfinispanSubsystemParser_1_1.java:957-988 | a group element is written exactly when its marker is defined |
| WriterProperties.ContainerCachesOrder | clustering/infinispan/src/main/java/org/jboss/as/clustering/infinispan/subsystem/InfinispanSubsystemParser_1_1.java:864-941 | a container writes its local, then invalidation, replicated and distributed caches, each kind in model order |
| WriterProperties.CachesHeads | clustering/infinispan/src/main/java/org/jboss/as/clustering/infinispan/subsystem/InfinispanSubsystemParser_1_1.java:867-876 | a cache loop writes the caches of its kind in model order |
| WriterProperties.CacheHeads | clustering/infinispan/src/main/java/org/jboss/as/clustering/infinispan/subsystem/InfinispanSubsystemParser_1_1.java:867-940 | one cache element writes exactly one cache, of its own kind and name |
| WriterProperties.CacheBodyShape | clustering/infinispan/src/main/java/org/jboss/as/clustering/infinispan/subsystem/InfinispanSubsystemParser_1_1.java:949-1046 | a cache body starts with its name and opens no other cache |
| RoundTrip.LockingRoundTrip | clustering/infinispan/src/main/java/org/jboss/as/clustering/infinispan/subsystem/InfinispanSubsystemParser_1_1.java:957-964 | the written locking element reads back into the same flattened keys (against lines 516-554) |
| RoundTrip.TransactionRoundTrip | clustering/infinispan/src/main/java/org/jboss/as/clustering/infinispan/subsystem/InfinispanSubsystemParser_1_1.java:966-973 | the written transaction element reads back into the same flattened keys (against lines 556-601) |
| RoundTrip.ExpirationRoundTrip | clustering/infinispan/src/main/java/org/jboss/as/clustering/infinispan/subsystem/InfinispanSubsystemParser_1_1.java:982-988 | the written expiration element reads back into the same flattened keys (against lines 639-668) |
| RoundTrip.GroupRoundTrip | clustering/infinispan/src/main/java/org/jboss/as/clustering/infinispan/subsystem/InfinispanSubsystemParser_1_1.java:957-988 | a conforming group with its marker and an attribute is written as one flat element that parses back to the model's values |
| RoundTrip.PropertiesRoundTrip | clustering/infinispan/src/main/java/org/jboss/as/clustering/infinispan/subsystem/InfinispanSubsystemParser_1_1.java:1006-1017 | the property elements written parse back to the same list (against lines 768-796) |
| RoundTrip.ConvertWritten | clustering/infinispan/src/main/java/org/jboss/as/clustering/infinispan/subsystem/InfinispanSubsystemParser_1_1.java:1058-1062 | the text written for a conforming value converts back to that value |
| RoundTrip.FileStorePropertiesLost | clustering/infinispan/src/main/java/org/jboss/as/clustering/infinispan/subsystem/InfinispanSubsystemParser_1_1.java:1034-1035 | as written, a file store whose properties are under file-store.properties and not under property cannot be written |
| RoundTrip.FileStorePropertiesLostExample | clustering/infinispan/src/main/java/org/jboss/as/clustering/infinispan/subsystem/InfinispanSubsystemParser_1_1.java:1034-1035 | a concrete such file store |
| RoundTrip.FileStorePropertiesRoundTrip | clustering/infinispan/src/main/java/org/jboss/as/clustering/infinispan/subsystem/InfinispanSubsystemParser_1_1.java:1034-1040 | the corrected writer emits the file store's properties, and they parse back to the same list |
| Populate.CopyFlattenedElementsToModel | clustering/infinispan/src/main/java/org/jboss/as/clustering/infinispan/subsystem/CacheAdd.java:122-127 | each listed attribute of the group defined in the operation is copied, and no other key changes |
| Populate.CopyGroup | clustering/infinispan/src/main/java/org/jboss/as/clustering/infinispan/subsystem/CacheAdd.java:82-117 | a group is copied, marker first, only when the operation defines its marker |
| Populate.CopyDefined | clustering/infinispan/src/main/java/org/jboss/as/clustering/infinispan/subsystem/CacheAdd.java:71-79 | a key is copied only when the operation defines it |
| Populate.CopyFlattenedStorePropertiesToModel | clustering/infinispan/src/main/java/org/jboss/as/clustering/infinispan/subsystem/CacheAdd.java:134-151 | the packed property list is decoded token by token and appended to the model's list, or fails, as StorePropertiesCopied says |
| Populate.StorePropertiesCopied | clustering/infinispan/src/main/java/org/jboss/as/clustering/infinispan/subsystem/CacheAdd.java:134-151 | only the property key changes; a failure means the key was defined and malformed or the target was not a list |
| Populate.Tokens | clustering/infinispan/src/main/java/org/jboss/as/clustering/infinispan/subsystem/CacheAdd.java:137-141 | the packed text fails when shorter than three characters, and otherwise is split at commas after dropping its first and last two characters |
| Populate.TokensCopiedAppend | clustering/infinispan/src/main/java/org/jboss/as/clustering/infinispan/subsystem/CacheAdd.java:142-149 | adding token by token appends the decoded properties in order |
| Populate.TokensCopiedFails | clustering/infinispan/src/main/java/org/jboss/as/clustering/infinispan/subsystem/CacheAdd.java:142-149 | a token that does not decode stops the loop with the decoder's failure |
| Populate.DecodeRoundTrip | clustering/infinispan/src/main/java/org/jboss/as/clustering/infinispan/subsystem/CacheAdd.java:134-151 | decoding the parser's packed text gives back its properties in order, for names and values without quote, comma, equals or surrounding blanks |
| Populate.StorePropertiesCopiedPacked | clustering/infinispan/src/main/java/org/jboss/as/clustering/infinispan/subsystem/CacheAdd.java:134-151 | a packed plain list is decoded and appended to the model's list |
| Populate.PopulateCacheModelNode | clustering/infinispan/src/main/java/org/jboss/as/clustering/infinispan/subsystem/CacheAdd.java:55-120 | the model becomes what CachePopulated gives, or the populate fails with its failure |
| Populate.CopyElements | clustering/infinispan/src/main/java/org/jboss/as/clustering/infinispan/subsystem/CacheAdd.java:71-104 | the three cache flags are copied when defined, then locking, transaction, eviction and expiration, each only under its own marker and with only its listed attributes, as ElementsCopied says |
| Populate.CopyStore | clustering/infinispan/src/main/java/org/jboss/as/clustering/infinispan/subsystem/CacheAdd.java:106-119 | under the store's marker, the marker and its listed attributes are copied and its packed property list is decoded onto the model, or the decoding's failure is reported; without the marker nothing changes (StoreCopied) |
| Populate.NameModel | clustering/infinispan/src/main/java/org/jboss/as/clustering/infinispan/subsystem/CacheAdd.java:60-69 | the name is the last address value, and cache-mode is LOCAL exactly for a local-cache address |
| Populate.CacheKeyPopulated | clustering/infinispan/src/main/java/org/jboss/as/clustering/infinispan/subsystem/CacheAdd.java:55-120 | the value the populate leaves under each key |
| Populate.CachePopulatedKeys | clustering/infinispan/src/main/java/org/jboss/as/clustering/infinispan/subsystem/CacheAdd.java:55-120 | every key but the two property lists ends up as CacheKeyPopulated describes: name and mode from the address, listed keys copied when defined, everything else unchanged |
| Populate.CachePopulatedProperties | clustering/infinispan/src/main/java/org/jboss/as/clustering/infinispan/subsystem/CacheAdd.java:113-119 | the two property lists are decoded and appended |
| Populate.CachePopulatedFails | clustering/infinispan/src/main/java/org/jboss/as/clustering/infinispan/subsystem/CacheAdd.java:113-119 | the populate fails only on a malformed or mistyped store property list |
| Populate.StorePathNeverPopulated | clustering/infinispan/src/main/java/org/jboss/as/clustering/infinispan/subsystem/CacheAdd.java:106-111 | the store's attribute list has no relative-to or path, so after the populate `store.relative-to` and `store.path` hold exactly what the model held before |
| Populate.NamesNotCopied | clustering/infinispan/src/main/java/org/jboss/as/clustering/infinispan/subsystem/CacheAdd.java:60-69 | the name and the cache mode are never copied from the operation |
| Populate.LocalPopulatedNames | clustering/infinispan/src/main/java/org/jboss/as/clustering/infinispan/subsystem/LocalCacheAdd.java:19-22 | a local cache's model has cache-mode LOCAL and the address's name, whatever the operation says |
| Populate.PopulateLocalModel | clustering/infinispan/src/main/java/org/jboss/as/clustering/infinispan/subsystem/LocalCacheAdd.java:19-22 | LocalCacheAdd.populateModel is exactly the base populate |
| Populate.PopulateClusteredCacheModelNode | clustering/infinispan/src/main/java/org/jboss/as/clustering/infinispan/subsystem/ClusteredCacheAdd.java:40-55 | mode, queue-size, queue-flush-interval and remote-timeout are copied when defined; nothing else changes |
| Populate.ClusteredPopulatedKeys | clustering/infinispan/src/main/java/org/jboss/as/clustering/infinispan/subsystem/ClusteredCacheAdd.java:40-55 | each of the four keys is copied verbatim when defined; name and cache-mode are untouched |
| Populate.ClusteredPopulateModel | clustering/infinispan/src/main/java/org/jboss/as/clustering/infinispan/subsystem/ClusteredCacheAdd.java:22-25 | the overridden populateModel changes nothing |
| Populate.PopulateDistributedModel | clustering/infinispan/src/main/java/org/jboss/as/clustering/infinispan/subsystem/DistributedCacheAdd.java:34-54 | the clustered populate, then owners, virtual-nodes and l1-lifespan when defined, then the rehashing group under its marker |
| Populate.DistributedPopulatedKeys | clustering/infinispan/src/main/java/org/jboss/as/clustering/infinispan/subsystem/DistributedCacheAdd.java:34-54 | each key of the distributed set is copied when defined, every other key is unchanged |
| Populate.DistributedModelUnwritable | clustering/infinispan/src/main/java/org/jboss/as/clustering/infinispan/subsystem/DistributedCacheAdd.java:34-54 | a distributed model populated from scratch has no cache mode, so the writer cannot write it (line 1050 of the parser file) |
| Populate.PopulateReplicatedModel | clustering/infinispan/src/main/java/org/jboss/as/clustering/infinispan/subsystem/ReplicatedCacheAdd.java:34-45 | the clustered populate, then the state-transfer group under its marker |
| Populate.ReplicatedPopulatedKeys | clustering/infinispan/src/main/java/org/jboss/as/clustering/infinispan/subsystem/ReplicatedCacheAdd.java:34-45 | each key of the replicated set is copied when defined, every other key is unchanged |
| Populate.PopulateInvalidationModel | clustering/infinispan/src/main/java/org/jboss/as/clustering/infinispan/subsystem/InvalidationCacheAdd.java:32-35 | exactly the clustered populate |
| Populate.ClusteredKeysExcludeNames | clustering/infinispan/src/main/java/org/jboss/as/clustering/infinispan/subsystem/ClusteredCacheAdd.java:40-55 | no clustered populate sets name or cache-mode |
| Populate.Populate | clustering/infinispan/src/main/java/org/jboss/as/clustering/infinispan/subsystem/CacheContainerAdd.java:109-134 | the container model becomes what ContainerPopulated gives, or the populate fails |
| Populate.ContainerDefaultCache | clustering/infinispan/src/main/java/org/jboss/as/clustering/infinispan/subsystem/CacheContainerAdd.java:111 | without default-cache the populate fails; with it the value is copied |
| Populate.ContainerPopulatedKeys | clustering/infinispan/src/main/java/org/jboss/as/clustering/infinispan/subsystem/CacheContainerAdd.java:112-133 | jndi-name, the three executors and the transport are copied when defined; other keys are unchanged |
| Populate.CopyContainerAttributes | clustering/infinispan/src/main/java/org/jboss/as/clustering/infinispan/subsystem/CacheContainerAdd.java:112-123 | jndi-name and the three executor keys are copied when the source defines them; every other key of the target is left as it was |
| Populate.ContainerAliases | clustering/infinispan/src/main/java/org/jboss/as/clustering/infinispan/subsystem/CacheContainerAdd.java:125-130 | the aliases are appended to the target list in source order |
| Populate.AddAliases | clustering/infinispan/src/main/java/org/jboss/as/clustering/infinispan/subsystem/CacheContainerAdd.java:125-130 | the alias loop, as ItemsAdded says |
| Populate.ItemsAddedAppend | clustering/infinispan/src/main/java/org/jboss/as/clustering/infinispan/subsystem/CacheContainerAdd.java:125-130 | adding the aliases one by one appends them in order, and fails on a target that is not a list |
| Populate.ContainerTransportAttributes | clustering/infinispan/src/main/java/org/jboss/as/clustering/infinispan/subsystem/CacheContainerAdd.java:131-133 | only the transport marker is copied, never a transport.attribute key |
| Builder.Configuration.ProcessCacheModelNode | clustering/infinispan/src/main/java/org/jboss/as/clustering/infinispan/subsystem/CacheAdd.java:161-281 | the configuration and the dependency list become what CacheConfigured gives, or the call fails with its failure |
| Builder.Configuration.SetMode | clustering/infinispan/src/main/java/org/jboss/as/clustering/infinispan/subsystem/CacheAdd.java:169-170 | the cache mode is required and must be a CacheMode constant |
| Builder.Configuration.SetBatching | clustering/infinispan/src/main/java/org/jboss/as/clustering/infinispan/subsystem/CacheAdd.java:173-177 | batching is set only by a true flag; nothing else changes |
| Builder.Configuration.SetIndexing | clustering/infinispan/src/main/java/org/jboss/as/clustering/infinispan/subsystem/CacheAdd.java:179-184 | an enabled indexing constant sets its local-only flag; nothing else changes |
| Builder.Configuration.SetLocking | clustering/infinispan/src/main/java/org/jboss/as/clustering/infinispan/subsystem/CacheAdd.java:187-201 | the locking group is applied only under its marker; nothing else changes |
| Builder.Configuration.SetTransaction | clustering/infinispan/src/main/java/org/jboss/as/clustering/infinispan/subsystem/CacheAdd.java:204-229 | the transaction settings, as Transacted says; nothing else changes |
| Builder.Configuration.ReadTransaction | clustering/infinispan/src/main/java/org/jboss/as/clustering/infinispan/subsystem/CacheAdd.java:207-221 | the transaction group's keys read in order, as TxChosen says |
| Builder.Configuration.SetEviction | clustering/infinispan/src/main/java/org/jboss/as/clustering/infinispan/subsystem/CacheAdd.java:232-240 | the eviction group, only under its marker |
| Builder.Configuration.SetExpiration | clustering/infinispan/src/main/java/org/jboss/as/clustering/infinispan/subsystem/CacheAdd.java:243-254 | the expiration group, only under its marker |
| Builder.Configuration.SetStore | clustering/infinispan/src/main/java/org/jboss/as/clustering/infinispan/subsystem/CacheAdd.java:257-278 | the loaders and the store, as Stored says |
| Builder.BuildCacheStore | clustering/infinispan/src/main/java/org/jboss/as/clustering/infinispan/subsystem/CacheAdd.java:286-306 | the store built and the dependency list extended, as StoreBuilt says |
| Builder.CollectProperties | clustering/infinispan/src/main/java/org/jboss/as/clustering/infinispan/subsystem/CacheAdd.java:272-274 | the properties map is PropertyMap of the list |
| Builder.TransactedModes | clustering/infinispan/src/main/java/org/jboss/as/clustering/infinispan/subsystem/CacheAdd.java:204-229 | the transaction mode named (NON_XA by default), pessimistic locking exactly when asked for, synchronization exactly for non-XA, recovery exactly for a recovery mode |
| Builder.CacheConfiguredTransaction | clustering/infinispan/src/main/java/org/jboss/as/clustering/infinispan/subsystem/CacheAdd.java:204-229 | the same facts about the whole processCacheModelNode result, whatever eager-locking says |
| Builder.NoTransactionDefaults | clustering/infinispan/src/main/java/org/jboss/as/clustering/infinispan/subsystem/CacheAdd.java:205-206 | without a transaction group: NON_XA and optimistic locking |
| Builder.CacheConfiguredMode | clustering/infinispan/src/main/java/org/jboss/as/clustering/infinispan/subsystem/CacheAdd.java:163-170 | name and cache-mode are required; the mode must be a constant and is the one set |
| Builder.CacheConfiguredKeepsClustering | clustering/infinispan/src/main/java/org/jboss/as/clustering/infinispan/subsystem/CacheAdd.java:161-281 | the base processing never touches the clustered settings |
| Builder.StoreBuiltCases | clustering/infinispan/src/main/java/org/jboss/as/clustering/infinispan/subsystem/CacheAdd.java:286-306 | a class store loads or fails with invalidCacheStore and adds no dependency; a file store at store.path or the cache name adds exactly one path dependency, on store.relative-to or the server data directory |
| Builder.FileStoreAloneLoadsNothing | clustering/infinispan/src/main/java/org/jboss/as/clustering/infinispan/subsystem/CacheAdd.java:256-280 | without the store marker the processing adds no cache loader and no dependency, whatever file-store keys the model holds |
| Builder.StoredFlags | clustering/infinispan/src/main/java/org/jboss/as/clustering/infinispan/subsystem/CacheAdd.java:257-278 | without the marker nothing changes; with it shared=false, preload=false, passivation=true, singleton=false, fetch-state=true, purge=true by default, and the properties are given when the store takes them |
| Builder.CacheConfiguredDependencies | clustering/infinispan/src/main/java/org/jboss/as/clustering/infinispan/subsystem/CacheAdd.java:286-306 | one more dependency, on the path service, exactly for a store without a class |
| Builder.PropertyMapKeys | clustering/infinispan/src/main/java/org/jboss/as/clustering/infinispan/subsystem/CacheAdd.java:272-274 | the map's keys are exactly the property names |
| Builder.PropertyMapLatest | clustering/infinispan/src/main/java/org/jboss/as/clustering/infinispan/subsystem/CacheAdd.java:272-274 | a repeated property keeps its last value |
| Builder.Configuration.ProcessClusteredCacheModelNode | clustering/infinispan/src/main/java/org/jboss/as/clustering/infinispan/subsystem/ClusteredCacheAdd.java:64-79 | the clustering settings become what ClusteredConfigured gives; the dependency list and every other setting are untouched |
| Builder.ClusteredConfiguredFields | clustering/infinispan/src/main/java/org/jboss/as/clustering/infinispan/subsystem/ClusteredCacheAdd.java:64-79 | it fails exactly when a defined key does not convert; otherwise each setting takes its key's value or stays |
| Builder.Configuration.ProcessDistributedCacheModelNode | clustering/infinispan/src/main/java/org/jboss/as/clustering/infinispan/subsystem/DistributedCacheAdd.java:120-151 | the settings become what DistributedConfigured gives |
| Builder.Configuration.SetRehashing | clustering/infinispan/src/main/java/org/jboss/as/clustering/infinispan/subsystem/DistributedCacheAdd.java:141-149 | the rehashing group, only under its marker |
| Builder.DistributedConfiguredFields | clustering/infinispan/src/main/java/org/jboss/as/clustering/infinispan/subsystem/DistributedCacheAdd.java:120-151 | only clustering, hash and L1 change; a positive L1 lifespan enables L1 with it, any other disables it; rehash settings only under the marker |
| Builder.Configuration.ProcessReplicatedCacheModelNode | clustering/infinispan/src/main/java/org/jboss/as/clustering/infinispan/subsystem/ReplicatedCacheAdd.java:112-131 | the settings become what ReplicatedConfigured gives |
| Builder.ReplicatedConfiguredFields | clustering/infinispan/src/main/java/org/jboss/as/clustering/infinispan/subsystem/ReplicatedCacheAdd.java:112-131 | only clustering and state retrieval change, the latter only under the state-transfer marker |
| Builder.ValueOf | clustering/infinispan/src/main/java/org/jboss/as/clustering/infinispan/subsystem/CacheAdd.java:169-170 | Enum.valueOf succeeds exactly for a constant name |
| Builder.LookupConstant | clustering/infinispan/src/main/java/org/jboss/as/clustering/infinispan/subsystem/CacheAdd.java:179-184 | an optional enumerated key: undefined, a constant, or a failure |
| Builder.FlagOr | clustering/infinispan/src/main/java/org/jboss/as/clustering/infinispan/subsystem/CacheAdd.java:257-268 | a boolean key or its default |
| Services.ToJndiName | clustering/infinispan/src/main/java/org/jboss/as/clustering/infinispan/subsystem/CacheContainerAdd.java:283-285 | the result always starts with java: |
| Services.ToJndiNameKeeps | clustering/infinispan/src/main/java/org/jboss/as/clustering/infinispan/subsystem/CacheContainerAdd.java:283-285 | a value is kept exactly when it starts with java: |
| Services.ToJndiNameLeadingSlash | clustering/infinispan/src/main/java/org/jboss/as/clustering/infinispan/subsystem/CacheContainerAdd.java:283-285 | another value goes under java:jboss after losing one leading slash |
| Services.ToJndiNameIdempotent | clustering/infinispan/src/main/java/org/jboss/as/clustering/infinispan/subsystem/CacheContainerAdd.java:283-285 | normalising twice is normalising once |
| Services.ContainerJndiName | clustering/infinispan/src/main/java/org/jboss/as/clustering/infinispan/subsystem/CacheContainerAdd.java:95-107 | the normalised jndi-name when defined, java:jboss/infinispan/name otherwise |
| Services.ContainerPerformRuntime | clustering/infinispan/src/main/java/org/jboss/as/clustering/infinispan/subsystem/CacheContainerAdd.java:140-257 | the installed services grow by what ContainerInstalled gives, the failure it gives is reported, nothing is removed |
| Services.PlanContainer | clustering/infinispan/src/main/java/org/jboss/as/clustering/infinispan/subsystem/CacheContainerAdd.java:144-167 | default cache, aliases and JNDI name read as ContainerPlanned says |
| Services.InstallContainer | clustering/infinispan/src/main/java/org/jboss/as/clustering/infinispan/subsystem/CacheContainerAdd.java:157-256 | binder, then channel, then container installed as PlanInstalled says |
| Services.NewContainerBuilder | clustering/infinispan/src/main/java/org/jboss/as/clustering/infinispan/subsystem/CacheContainerAdd.java:160-167 | a new builder for the container's service: its configuration holds the name and default cache, it depends on the defaults service (required) and the transaction manager, synchronization registry, recovery manager and MBean server (optional), in that order, carries the aliases and starts on demand |
| Services.InstallBinder | clustering/infinispan/src/main/java/org/jboss/as/clustering/infinispan/subsystem/CacheContainerAdd.java:169-179 | the binder depends on the container and on its naming context, on demand |
| Services.InstallChannel | clustering/infinispan/src/main/java/org/jboss/as/clustering/infinispan/subsystem/CacheContainerAdd.java:220-250 | the channel depends on the channel factory of the stack, on demand |
| Services.ReadTransport | clustering/infinispan/src/main/java/org/jboss/as/clustering/infinispan/subsystem/CacheContainerAdd.java:220-250 | the transport node's stack, executor and settings, as TransportReadOf says |
| Services.AddContainerExecutors | clustering/infinispan/src/main/java/org/jboss/as/clustering/infinispan/subsystem/CacheContainerAdd.java:252-254 | the three executor dependencies, as ContainerExecutors says |
| Services.AddExecutorDependency | clustering/infinispan/src/main/java/org/jboss/as/clustering/infinispan/subsystem/CacheContainerAdd.java:269-279 | an executor dependency only when the key is defined |
| Services.CollectAliases | clustering/infinispan/src/main/java/org/jboss/as/clustering/infinispan/subsystem/CacheContainerAdd.java:148-155 | one alias name per alias entry, as AliasNames says |
| Services.AliasNamesSpec | clustering/infinispan/src/main/java/org/jboss/as/clustering/infinispan/subsystem/CacheContainerAdd.java:148-155 | the aliases fail exactly when an entry has no text; otherwise one container name per entry, in order |
| Services.ContainerGraph | clustering/infinispan/src/main/java/org/jboss/as/clustering/infinispan/subsystem/CacheContainerAdd.java:140-257 | on success: binder, channel and container, in order; binder and container on demand; the container has one alias per entry and depends on the channel |
| Services.ContainerFailures | clustering/infinispan/src/main/java/org/jboss/as/clustering/infinispan/subsystem/CacheContainerAdd.java:140-257 | nothing is installed when default cache, aliases or JNDI name fail; the binder alone stays when the transport fails |
| Services.ContainerExecutorsSpec | clustering/infinispan/src/main/java/org/jboss/as/clustering/infinispan/subsystem/CacheContainerAdd.java:252-254 | an executor dependency for exactly each defined executor key, and a failure exactly when one has no text |
| Services.MarkerTransportIgnored | clustering/infinispan/src/main/java/org/jboss/as/clustering/infinispan/subsystem/CacheContainerAdd.java:220-250 | with the parser's boolean transport marker the channel uses the factory of no stack and the transport is empty |
| Services.InstallCache | clustering/infinispan/src/main/java/org/jboss/as/clustering/infinispan/subsystem/DistributedCacheAdd.java:68-117 | the cache service CacheInstalled gives is installed, or nothing is, with the failure |
| Services.ReadStartMode | clustering/infinispan/src/main/java/org/jboss/as/clustering/infinispan/subsystem/DistributedCacheAdd.java:84-88 | the start mode, LAZY when undefined |
| Services.NewCacheBuilder | clustering/infinispan/src/main/java/org/jboss/as/clustering/infinispan/subsystem/DistributedCacheAdd.java:96-105 | the cache builder depends on the binder and then each additional dependency, in order |
| Services.DistributedPerformRuntime | clustering/infinispan/src/main/java/org/jboss/as/clustering/infinispan/subsystem/DistributedCacheAdd.java:57-118 | the distributed cache service is installed as DistributedInstalled says |
| Services.ReplicatedPerformRuntime | clustering/infinispan/src/main/java/org/jboss/as/clustering/infinispan/subsystem/ReplicatedCacheAdd.java:48-110 | the replicated cache service is installed as ReplicatedInstalled says |
| Services.InvalidationPerformRuntime | clustering/infinispan/src/main/java/org/jboss/as/clustering/infinispan/subsystem/InvalidationCacheAdd.java:38-100 | the invalidation cache service is installed as InvalidationInstalled says |
| Services.LocalPerformRuntime | clustering/infinispan/src/main/java/org/jboss/as/clustering/infinispan/subsystem/LocalCacheAdd.java:24-39 | adding a local cache installs nothing |
| Services.ClusteredPerformRuntime | clustering/infinispan/src/main/java/org/jboss/as/clustering/infinispan/subsystem/ClusteredCacheAdd.java:27-30 | the overridden performRuntime installs nothing |
| Services.CacheInstalledSucceeds | clustering/infinispan/src/main/java/org/jboss/as/clustering/infinispan/subsystem/DistributedCacheAdd.java:68-91 | a cache runtime succeeds exactly when default-cache is text, the start mode is a constant, and jndi-name is text when defined |
| Services.CacheInstalledService | clustering/infinispan/src/main/java/org/jboss/as/clustering/infinispan/subsystem/DistributedCacheAdd.java:96-105 | the service is the container name with the cache name appended, and depends on the binder then each additional dependency, in order |
| Services.CacheInstalledStart | clustering/infinispan/src/main/java/org/jboss/as/clustering/infinispan/subsystem/DistributedCacheAdd.java:84-115 | initial mode from the start mode, LAZY by default; listener exactly when ACTIVE; default-cache alias exactly when the cache is the default one |
| Services.DistributedOverrides | clustering/infinispan/src/main/java/org/jboss/as/clustering/infinispan/subsystem/DistributedCacheAdd.java:63-105 | the overrides are the distributed processing of the model alone, base settings unset, and the only dependency is the binder |
| Services.ReplicatedOverrides | clustering/infinispan/src/main/java/org/jboss/as/clustering/infinispan/subsystem/ReplicatedCacheAdd.java:54-96 | the overrides are the replicated processing of the operation alone, and the only dependency is the binder |
| Services.InvalidationOverrides | clustering/infinispan/src/main/java/org/jboss/as/clustering/infinispan/subsystem/InvalidationCacheAdd.java:41-87 | the overrides are the clustered processing of the operation alone, and the only dependency is the binder |
| Services.CacheRemovePerformRuntime | clustering/infinispan/src/main/java/org/jboss/as/clustering/infinispan/subsystem/CacheRemove.java:20-30 | exactly one service is removed: the container name with the cache name appended, from the last two address values |
| Services.CacheRemoveRecoverServices | clustering/infinispan/src/main/java/org/jboss/as/clustering/infinispan/subsystem/CacheRemove.java:32-34 | recovering a remove does nothing |
| Services.RemoveMatchesAdd | clustering/infinispan/src/main/java/org/jboss/as/clustering/infinispan/subsystem/CacheRemove.java:22-29 | the removed name is the name each cache add installs |
| JavaText.SplitJoin | clustering/infinispan/src/main/java/org/jboss/as/clustering/infinispan/subsystem/CacheAdd.java:141 | String.split undoes joining for pieces without the separator |
| JavaText.TrimPadded | clustering/infinispan/src/main/java/org/jboss/as/clustering/infinispan/subsystem/CacheAdd.java:148 | String.trim removes exactly the blanks around a trimmed string |

## Left out

- I/O: the XML stream reader and writer become an element tree and a token sequence. Namespace checks and `requireNoNamespaceAttribute` are not modelled. An element's text is all of its character data, so the order of text and child elements is lost. Where the source fails on whichever comes first, the model reports text other than white space before any failure of a child element.
- The MSC service container, the controller's rollback of a failed operation, and service start/stop are not modelled. A runtime step records the services it installs or removes, and the services a failing step installed before its failure stay recorded.
- `newControllers` and the verification handler object are not modelled. Each service records only whether the handler listens.
- The Infinispan fluent configuration becomes records of optional fields. Side effects of the configuration that are not settings are left out: `async()`/`sync()` chaining, `classLoader`, and the default configuration service value.
- The naming helpers (`EmbeddedCacheManagerService`, `CacheService`, `ChannelService`, `ChannelFactoryService`, `ThreadsServices`, `ContextNames`, `AbstractPathService`, `TxnServices`) are not part of this model. Each becomes an abstract root of a service name. `CacheService.build` is assumed to name the cache by the container name with the cache name appended, and to add no dependency of its own.
- `BinderService`'s bind name and the injected values (executors, transaction manager, channel, path) are not modelled. Only the dependency names are.
- `JndiName` normalisation is not modelled: a JNDI name is its text.
- The enumerations' declarations (`StartMode`, `Indexing`, `IsolationLevel`, `EvictionStrategy`, the subsystem `TransactionMode`, `EagerLocking`, `Configuration.CacheMode`, `Mode`) are not part of this model. A catalog carries their constant names and the properties the handlers ask for, such as `isXAEnabled` and `isRecoveryEnabled`. Every lemma holds for every catalog.
- The ModelKeys, Attribute and Element constants are not part of this model. Their strings are taken as the XML local names, with "." as the key separator.
- `Class.forName` loading of a store class becomes an oracle that gives a store configuration or nothing.
- Builder.Configuration.ProcessCacheModelNode: on failure it says nothing about the partly updated configuration, because the source throws and the configuration is discarded.
- The runtime steps require an address of the length their handlers are registered for: one element below the subsystem for a container, two for a cache. `rootResource.navigate` to the container becomes a parameter, the container's model node.
- Services.ContainerAliases: the container's `addAliases(null)` without an alias list is read as adding no alias, since the service builder's handling of a null array is not part of this model.
- The dead code of CacheContainerAdd.java lines 183-218 is not modelled, and neither is the unused `createOperation`.
- Full parse/write round trip: only the locking, transaction and expiration groups and the store property lists are proved to round-trip. The writer's `flush-timeout` inside rehashing (parser file line 936), store attributes without a start element (992-1001) and the required cache mode of clustered caches (1050) are modelled as written, not corrected. The file-store property read (1034-1035) is the one writer mismatch modelled corrected, as the Findings row says; the lines below name the members this affects.
- Writer.XmlWriter.WriteFileStore: writes the properties stored under `file-store.properties`. The source reads them from `property` at parser file line 1035 and fails on every populated file store with properties. `Writer.FileStoreWrittenAsIs` is the as-written read, and `RoundTrip.FileStorePropertiesLost` states its failure.
- Writer.XmlWriter.WriteCacheAttributesAndElements: through WriteFileStore, succeeds on a file store with properties where the source fails.
- Writer.XmlWriter.WriteCache: through WriteCacheAttributesAndElements, succeeds on a cache whose file store has properties where the source fails.
- Writer.XmlWriter.WriteCaches: through WriteCache, the same file-store difference.
- Writer.XmlWriter.WriteContainerCaches: through WriteCaches, the same file-store difference.
- Writer.XmlWriter.WriteContainer: through WriteContainerCaches, the same file-store difference.
- Writer.XmlWriter.WriteContainers: through WriteContainer, the same file-store difference.
- Writer.XmlWriter.WriteContent: through WriteContainers, the same file-store difference.
- Populate.StorePropertiesCopied: a key present in the operation but holding an undefined value cannot be expressed, since a model node holds only defined values. The source tests the packed property key with `has`, not `hasDefined` (CacheAdd.java:136), so such a key makes it split the text "undefined" and fail. The model treats that key as absent and copies nothing. The same holds for Populate.CopyFlattenedStorePropertiesToModel.
- Dmr.AsString, Dmr.AsBoolean, Dmr.AsInt, Dmr.AsLong and Dmr.AsStrings accept fewer values than ModelNode does. ModelNode renders a list, object or property list as text, and parses a string as a boolean or a number. Here those conversions fail. The builder's NotConvertible for a string flag or number therefore arises only in the model. The parser never stores such values: it stores flags as booleans, numbers as integers and everything else as strings.
- Parser.ScanAttributes: a number is read with ASCII digits only. Integer.parseInt and Long.parseLong also take the other Unicode decimal digits that Character.digit knows, such as `owners="٣"`. The model rejects these with NumberFormat, because the Unicode digit tables are not part of this model. The same holds for JavaText.ParseDecimal and Parser.Convert.
- Services.AliasNamesSpec: its failure for an alias entry that is a list, an object or a property list arises only in the model, since ModelNode's asString renders such an entry as text.
- InfinispanDescriptions, InfinispanExtension, RpcManagerHandler, RpcManagerComponentResourceDefinition, TransportRequiredService and InfinispanSubsystemParser are not part of this model: they are descriptions, registration, runtime statistics and an empty stub.
- Concurrency: none. Every handler runs in one thread.

## Findings

| source | as written | input that shows it | evidently intended | confidence | as-written member | corrected member |
|---|---|---|---|---|---|---|
| clustering/infinispan/src/main/java/org/jboss/as/clustering/infinispan/subsystem/InfinispanSubsystemParser_1_1.java:1034-1035 | the file-store writer tests `file-store.properties` but reads the property list from `property` | a file store with `file-store.properties = [("location", "/tmp")]` and no `property` key: `asPropertyList` on an undefined node fails | read the properties from `file-store.properties`, as the store writer does at line 1006 | not executed | RoundTrip.FileStorePropertiesLost, RoundTrip.FileStorePropertiesLostExample | RoundTrip.FileStorePropertiesRoundTrip |
