/** The reader half of InfinispanSubsystemParser_1_1: it turns the
    subsystem's XML element tree into the list of add operations, flattening
    each nested configuration group into `group.attribute` keys of its
    cache's or container's operation, with a `group` marker for presence.

    Each parse method that loops is a method proved equal to a specification
    function; the switch statements over attribute names become rule tables. */
module Parser {
  import opened Failures
  import opened JavaText
  import opened Dmr
  import opened Enums
  import opened Names
  import opened Sequences

  /** An XML element as the stream reader presents it: its local name, its
      attributes in document order, its child elements, and its character
      data (all of it, for an element that also has child elements). */
  datatype Element = Element(name: string, attributes: seq<(string, string)>, children: seq<Element>, text: string)

  /** How an attribute's text becomes a model value. */
  datatype Kind =
    | Text                          // stored as it is
    | Flag                          // Boolean.parseBoolean
    | Int32                         // Integer.parseInt
    | Int64                         // Long.parseLong
    | OneOf(constants: set<string>) // Enum.valueOf, storing the constant's name
    | Deprecated                    // accepted and dropped
    | Held                          // kept in a local variable, not stored

  /** One case of an attribute switch. */
  datatype Rule = Rule(attribute: string, kind: Kind)

  /** What an attribute loop has built: the node it writes into, and the
      value it keeps aside for a Held attribute. */
  datatype Scan = Scan(node: Node, held: Option<string>)

  const SUBSYSTEM_ADDRESS: seq<(string, string)> := [(SUBSYSTEM, SUBSYSTEM_NAME)]

  // ------------------------------------------------------------ rule tables

  /** parseCacheAttribute */
  function CacheRules(c: Catalog): seq<Rule> {
    [Rule(NAME, Text), Rule(START, OneOf(c.startModes)), Rule(BATCHING, Flag), Rule(INDEXING, OneOf(c.indexings))]
  }

  /** parseClusteredCacheAttribute, falling through to parseCacheAttribute */
  function ClusteredRules(c: Catalog): seq<Rule> {
    [Rule(MODE, Text), Rule(QUEUE_SIZE, Int32), Rule(QUEUE_FLUSH_INTERVAL, Int64), Rule(REMOTE_TIMEOUT, Int64)]
    + CacheRules(c)
  }

  /** the attribute switch of parseDistributedCache */
  function DistributedRules(c: Catalog): seq<Rule> {
    [Rule(OWNERS, Int32), Rule(VIRTUAL_NODES, Int32), Rule(L1_LIFESPAN, Int64)] + ClusteredRules(c)
  }

  function RulesFor(kind: string, c: Catalog): seq<Rule> {
    if kind == LOCAL_CACHE then CacheRules(c)
    else if kind == DISTRIBUTED_CACHE then DistributedRules(c)
    else ClusteredRules(c)
  }

  function ContainerRules(): seq<Rule> {
    [Rule(NAME, Held), Rule(DEFAULT_CACHE, Text), Rule(JNDI_NAME, Text), Rule(LISTENER_EXECUTOR, Text),
     Rule(EVICTION_EXECUTOR, Text), Rule(REPLICATION_QUEUE_EXECUTOR, Text)]
  }

  function TransportRules(): seq<Rule> {
    [Rule(STACK, Text), Rule(EXECUTOR, Text), Rule(LOCK_TIMEOUT, Int64), Rule(SITE, Text), Rule(RACK, Text),
     Rule(MACHINE, Text)]
  }

  function LockingRules(c: Catalog): seq<Rule> {
    [Rule(ISOLATION, OneOf(c.isolationLevels)), Rule(STRIPING, Flag), Rule(ACQUIRE_TIMEOUT, Int64),
     Rule(CONCURRENCY_LEVEL, Int32)]
  }

  function TransactionRules(c: Catalog): seq<Rule> {
    [Rule(STOP_TIMEOUT, Int64), Rule(MODE, OneOf(c.transactionModes)), Rule(LOCKING, OneOf(LOCKING_MODES)),
     Rule(EAGER_LOCKING, OneOf(c.eagerLockings))]
  }

  function EvictionRules(c: Catalog): seq<Rule> {
    [Rule(STRATEGY, OneOf(c.evictionStrategies)), Rule(MAX_ENTRIES, Int32), Rule(INTERVAL, Deprecated)]
  }

  function ExpirationRules(): seq<Rule> {
    [Rule(MAX_IDLE, Int64), Rule(LIFESPAN, Int64), Rule(INTERVAL, Int64)]
  }

  function RehashingRules(): seq<Rule> {
    [Rule(ENABLED, Flag), Rule(TIMEOUT, Int64)]
  }

  function StateTransferRules(): seq<Rule> {
    [Rule(ENABLED, Flag), Rule(TIMEOUT, Int64), Rule(FLUSH_TIMEOUT, Int64)]
  }

  /** parseStoreAttributeAndFlatten */
  function StoreFlagRules(): seq<Rule> {
    [Rule(SHARED, Flag), Rule(PRELOAD, Flag), Rule(PASSIVATION, Flag), Rule(FETCH_STATE, Flag), Rule(PURGE, Flag),
     Rule(SINGLETON, Flag)]
  }

  function CustomStoreRules(): seq<Rule> {
    [Rule(CLASS, Text)] + StoreFlagRules()
  }

  function FileStoreRules(): seq<Rule> {
    [Rule(RELATIVE_TO, Text), Rule(PATH, Text)] + StoreFlagRules()
  }

  // ------------------------------------------------------------ attributes

  /** The case an attribute name selects; None is the default branch. */
  function Find(rules: seq<Rule>, attribute: string): (r: Option<Kind>)
    ensures r.None? <==> forall i :: 0 <= i < |rules| ==> rules[i].attribute != attribute
    ensures r.Some? ==> exists i :: 0 <= i < |rules| && rules[i] == Rule(attribute, r.value)
  {
    if rules == [] then None
    else if rules[0].attribute == attribute then Some(rules[0].kind)
    else Find(rules[1..], attribute)
  }

  function Convert(element: string, attribute: string, kind: Kind, value: string): Result<Option<Value>> {
    match kind
    case Text => Ok(Some(Str(value)))
    case Flag => Ok(Some(Bool(ParseBoolean(value))))
    case Int32 => var n :- ParseInt(value); Ok(Some(Int(n)))
    case Int64 => var n :- ParseLong(value); Ok(Some(Long(n)))
    case OneOf(constants) =>
      if value in constants then Ok(Some(Str(value))) else Err(InvalidAttributeValue(element, attribute, value))
    case Deprecated => Ok(None)
    case Held => Ok(None)
  }

  /** One turn of an attribute loop. */
  function Step(element: string, group: Option<string>, rules: seq<Rule>, s: Scan, attribute: (string, string)): Result<Scan> {
    match Find(rules, attribute.0)
    case None => Err(UnexpectedAttribute(element, attribute.0))
    case Some(kind) =>
      if kind == Held then Ok(s.(held := Some(attribute.1)))
      else
        var v :- Convert(element, attribute.0, kind, attribute.1);
        match v
        case None => Ok(s)
        case Some(x) => Ok(s.(node := s.node[Key(group, attribute.0) := x]))
  }

  /** The whole attribute loop, attributes in document order. */
  function Scanned(element: string, group: Option<string>, rules: seq<Rule>, attributes: seq<(string, string)>, s: Scan): Result<Scan>
    decreases |attributes|
  {
    if attributes == [] then Ok(s)
    else
      var next :- Step(element, group, rules, s, attributes[0]);
      Scanned(element, group, rules, attributes[1..], next)
  }

  /** The `for (int i = 0; i < reader.getAttributeCount(); i++)` loop. */
  method ScanAttributes(element: string, group: Option<string>, rules: seq<Rule>, attributes: seq<(string, string)>, start: Scan)
    returns (r: Result<Scan>)
    ensures r == Scanned(element, group, rules, attributes, start)
  {
    var s := start;
    var i := 0;
    while i < |attributes|
      invariant 0 <= i <= |attributes|
      invariant Scanned(element, group, rules, attributes, start) == Scanned(element, group, rules, attributes[i..], s)
    {
      assert attributes[i..][1..] == attributes[i + 1..];
      var step := Step(element, group, rules, s, attributes[i]);
      if step.Err? {
        return Err(step.error);
      }
      s := step.value;
      i := i + 1;
    }
    return Ok(s);
  }

  /** XMLStreamReader.getElementText */
  function ElementText(e: Element): Result<string> {
    if e.children != [] then Err(TextOnlyExpected(e.name)) else Ok(e.text)
  }

  /** XML white space (the S production of XML 1.0): the only text nextTag
      and requireNoContent step over. */
  predicate WhiteSpace(text: string) {
    forall i :: 0 <= i < |text| ==> text[i] in " \t\r\n"
  }

  // ------------------------------------------------------------ groups

  /** parseTransportAndFlatten, parseRehashingAndFlatten,
      parseStateTransferAndFlatten, parseLockingAndFlatten,
      parseTransactionAndFlatten, parseEvictionAndFlatten and
      parseExpirationAndFlatten: the marker when the element has attributes,
      the attributes under flattened keys, and no content: neither text
      other than white space nor a child element. */
  function GroupParsed(group: string, rules: seq<Rule>, e: Element, node: Node): Result<Node> {
    var marked := if |e.attributes| > 0 then node[group := Bool(true)] else node;
    var s :- Scanned(group, Some(group), rules, e.attributes, Scan(marked, None));
    if !WhiteSpace(e.text) then Err(UnexpectedText(group))
    else if e.children != [] then Err(UnexpectedElement(e.children[0].name))
    else Ok(s.node)
  }

  method ParseGroupAndFlatten(group: string, rules: seq<Rule>, e: Element, node: Node) returns (r: Result<Node>)
    ensures r == GroupParsed(group, rules, e, node)
  {
    var marked := node;
    if |e.attributes| > 0 {
      marked := marked[group := Bool(true)];
    }
    var s := ScanAttributes(group, Some(group), rules, e.attributes, Scan(marked, None));
    if s.Err? {
      return Err(s.error);
    }
    if !WhiteSpace(e.text) {
      return Err(UnexpectedText(group));
    }
    if e.children != [] {
      return Err(UnexpectedElement(e.children[0].name));
    }
    return Ok(s.value.node);
  }

  // ------------------------------------------------------------ stores

  function Quoted(s: string): string {
    "\"" + s + "\""
  }

  /** How one property is written into the packed list: "name"="value" */
  function Entry(p: (string, string)): string {
    Quoted(p.0) + "=" + Quoted(p.1)
  }

  function Entries(ps: seq<(string, string)>): (r: seq<string>)
    ensures |r| == |ps| && forall i :: 0 <= i < |ps| ==> r[i] == Entry(ps[i])
  {
    seq(|ps|, i requires 0 <= i < |ps| => Entry(ps[i]))
  }

  /** The packed form of the properties: {"n1"="v1","n2"="v2"} */
  function Packed(ps: seq<(string, string)>): string
    requires |ps| >= 1
  {
    "{" + Join(Entries(ps), ',') + "}"
  }

  /** The StringBuilder after the loop has appended each property and a comma. */
  function Appended(ps: seq<(string, string)>): string {
    if ps == [] then "" else Appended(ps[..|ps| - 1]) + Entry(ps[|ps| - 1]) + ","
  }

  /** One <property name="n">v</property> child. */
  function PropertyParsed(p: Element): Result<(string, string)> {
    if p.name != PROPERTY then Err(UnexpectedElement(p.name))
    else
      var s :- Scanned(PROPERTY, None, [Rule(NAME, Held)], p.attributes, Scan(map[], None));
      if s.held.None? then Err(MissingRequired(PROPERTY, [NAME]))
      else
        var v :- ElementText(p);
        Ok((s.held.value, v))
  }

  function PropertiesParsed(children: seq<Element>): Result<seq<(string, string)>>
    decreases |children|
  {
    if children == [] then Ok([])
    else
      var p :- PropertyParsed(children[0]);
      var rest :- PropertiesParsed(children[1..]);
      Ok([p] + rest)
  }

  /** parseStorePropertiesAndFlatten: `storeKey.properties` holds the packed
      properties, and is set only when there is at least one. */
  function StorePropertiesParsed(children: seq<Element>, node: Node, storeKey: string): Result<Node> {
    var ps :- PropertiesParsed(children);
    if ps == [] then Ok(node) else Ok(node[Flatten(storeKey, PROPERTIES) := Str(Packed(ps))])
  }

  function Prepended(found: seq<(string, string)>, r: Result<seq<(string, string)>>): Result<seq<(string, string)>> {
    if r.Ok? then Ok(found + r.value) else r
  }

  lemma {:induction false} AppendedIsJoin(ps: seq<(string, string)>)
    requires |ps| >= 1
    ensures Appended(ps) == Join(Entries(ps), ',') + ","
  {
    if |ps| > 1 {
      var init := ps[..|ps| - 1];
      AppendedIsJoin(init);
      assert Entries(ps)[..|ps| - 1] == Entries(init);
    } else {
      assert ps[..0] == [];
    }
  }

  /** One more property found: the loop's accumulators advance together. */
  lemma PropertiesStep(children: seq<Element>, i: nat, found: seq<(string, string)>, property: (string, string))
    requires i < |children| && PropertyParsed(children[i]) == Ok(property)
    requires PropertiesParsed(children) == Prepended(found, PropertiesParsed(children[i..]))
    ensures PropertiesParsed(children) == Prepended(found + [property], PropertiesParsed(children[i + 1..]))
    ensures Appended(found + [property]) == Appended(found) + Entry(property) + ","
  {
    assert children[i..][1..] == children[i + 1..];
    var rest := PropertiesParsed(children[i + 1..]);
    if rest.Ok? {
      Assoc(found, [property], rest.value);
    }
    assert (found + [property])[..|found|] == found;
  }

  method ParseStorePropertiesAndFlatten(children: seq<Element>, node: Node, storeKey: string) returns (r: Result<Node>)
    ensures r == StorePropertiesParsed(children, node, storeKey)
  {
    var propertyList: string := "";
    var storePropertiesExist := false;
    ghost var found: seq<(string, string)> := [];
    var i := 0;
    assert children[0..] == children;
    ghost var all := PropertiesParsed(children);
    if all.Ok? {
      assert [] + all.value == all.value;
    }
    while i < |children|
      invariant 0 <= i <= |children|
      invariant PropertiesParsed(children) == Prepended(found, PropertiesParsed(children[i..]))
      invariant propertyList == Appended(found)
      invariant storePropertiesExist <==> found != []
    {
      var child := children[i];
      if child.name != PROPERTY {
        return Err(UnexpectedElement(child.name));
      }
      var s := ScanAttributes(PROPERTY, None, [Rule(NAME, Held)], child.attributes, Scan(map[], None));
      if s.Err? {
        return Err(s.error);
      }
      if s.value.held.None? {
        return Err(MissingRequired(PROPERTY, [NAME]));
      }
      var text := ElementText(child);
      if text.Err? {
        return Err(text.error);
      }
      var property := (s.value.held.value, text.value);
      assert PropertyParsed(child) == Ok(property);
      PropertiesStep(children, i, found, property);
      propertyList := propertyList + Entry(property) + ",";
      storePropertiesExist := true;
      found := found + [property];
      i := i + 1;
    }
    assert children[i..] == [];
    assert found + [] == found;
    if storePropertiesExist {
      AppendedIsJoin(found);
      if propertyList[|propertyList| - 1] == ',' {
        propertyList := propertyList[..|propertyList| - 1];
      }
      assert propertyList == Join(Entries(found), ',');
      return Ok(node[Flatten(storeKey, PROPERTIES) := Str("{" + propertyList + "}")]);
    }
    return Ok(node);
  }

  /** parseCustomStoreAndFlatten: a store needs a class, which an earlier
      <store> element of the same cache may already have supplied. */
  function CustomStoreParsed(e: Element, node: Node): Result<Node> {
    var marked := if |e.attributes| > 0 then node[STORE := Bool(true)] else node;
    var s :- Scanned(STORE, Some(STORE), CustomStoreRules(), e.attributes, Scan(marked, None));
    if Flatten(STORE, CLASS) !in s.node then Err(MissingRequired(STORE, [CLASS]))
    else if !WhiteSpace(e.text) then Err(UnexpectedText(STORE))
    else StorePropertiesParsed(e.children, s.node, STORE)
  }

  method ParseCustomStoreAndFlatten(e: Element, node: Node) returns (r: Result<Node>)
    ensures r == CustomStoreParsed(e, node)
  {
    var marked := node;
    if |e.attributes| > 0 {
      marked := marked[STORE := Bool(true)];
    }
    var s := ScanAttributes(STORE, Some(STORE), CustomStoreRules(), e.attributes, Scan(marked, None));
    if s.Err? {
      return Err(s.error);
    }
    if Flatten(STORE, CLASS) !in s.value.node {
      return Err(MissingRequired(STORE, [CLASS]));
    }
    if !WhiteSpace(e.text) {
      return Err(UnexpectedText(STORE));
    }
    r := ParseStorePropertiesAndFlatten(e.children, s.value.node, STORE);
  }

  /** parseFileStoreAndFlatten */
  function FileStoreParsed(e: Element, node: Node): Result<Node> {
    var marked := if |e.attributes| > 0 then node[FILE_STORE := Bool(true)] else node;
    var s :- Scanned(FILE_STORE, Some(FILE_STORE), FileStoreRules(), e.attributes, Scan(marked, None));
    if !WhiteSpace(e.text) then Err(UnexpectedText(FILE_STORE))
    else StorePropertiesParsed(e.children, s.node, FILE_STORE)
  }

  method ParseFileStoreAndFlatten(e: Element, node: Node) returns (r: Result<Node>)
    ensures r == FileStoreParsed(e, node)
  {
    var marked := node;
    if |e.attributes| > 0 {
      marked := marked[FILE_STORE := Bool(true)];
    }
    var s := ScanAttributes(FILE_STORE, Some(FILE_STORE), FileStoreRules(), e.attributes, Scan(marked, None));
    if s.Err? {
      return Err(s.error);
    }
    if !WhiteSpace(e.text) {
      return Err(UnexpectedText(FILE_STORE));
    }
    r := ParseStorePropertiesAndFlatten(e.children, s.value.node, FILE_STORE);
  }

  // ------------------------------------------------------------ caches

  /** parseCacheElementAndFlatten, with the rehashing child of a distributed
      cache and the state-transfer child of a replicated one. */
  function CacheChildParsed(kind: string, c: Catalog, child: Element, node: Node): Result<Node> {
    if kind == DISTRIBUTED_CACHE && child.name == REHASHING then GroupParsed(REHASHING, RehashingRules(), child, node)
    else if kind == REPLICATED_CACHE && child.name == STATE_TRANSFER then GroupParsed(STATE_TRANSFER, StateTransferRules(), child, node)
    else if child.name == LOCKING then GroupParsed(LOCKING, LockingRules(c), child, node)
    else if child.name == TRANSACTION then GroupParsed(TRANSACTION, TransactionRules(c), child, node)
    else if child.name == EVICTION then GroupParsed(EVICTION, EvictionRules(c), child, node)
    else if child.name == EXPIRATION then GroupParsed(EXPIRATION, ExpirationRules(), child, node)
    else if child.name == STORE then CustomStoreParsed(child, node)
    else if child.name == FILE_STORE then FileStoreParsed(child, node)
    else Err(UnexpectedElement(child.name))
  }

  method ParseCacheElementAndFlatten(kind: string, c: Catalog, child: Element, node: Node) returns (r: Result<Node>)
    ensures r == CacheChildParsed(kind, c, child, node)
  {
    if kind == DISTRIBUTED_CACHE && child.name == REHASHING {
      r := ParseGroupAndFlatten(REHASHING, RehashingRules(), child, node);
    } else if kind == REPLICATED_CACHE && child.name == STATE_TRANSFER {
      r := ParseGroupAndFlatten(STATE_TRANSFER, StateTransferRules(), child, node);
    } else if child.name == LOCKING {
      r := ParseGroupAndFlatten(LOCKING, LockingRules(c), child, node);
    } else if child.name == TRANSACTION {
      r := ParseGroupAndFlatten(TRANSACTION, TransactionRules(c), child, node);
    } else if child.name == EVICTION {
      r := ParseGroupAndFlatten(EVICTION, EvictionRules(c), child, node);
    } else if child.name == EXPIRATION {
      r := ParseGroupAndFlatten(EXPIRATION, ExpirationRules(), child, node);
    } else if child.name == STORE {
      r := ParseCustomStoreAndFlatten(child, node);
    } else if child.name == FILE_STORE {
      r := ParseFileStoreAndFlatten(child, node);
    } else {
      r := Err(UnexpectedElement(child.name));
    }
  }

  function CacheChildrenParsed(kind: string, c: Catalog, children: seq<Element>, node: Node): Result<Node>
    decreases |children|
  {
    if children == [] then Ok(node)
    else
      var next :- CacheChildParsed(kind, c, children[0], node);
      CacheChildrenParsed(kind, c, children[1..], next)
  }

  /** The `while (reader.nextTag() != END_ELEMENT)` loop of a cache element. */
  method ParseCacheElements(kind: string, c: Catalog, children: seq<Element>, start: Node) returns (r: Result<Node>)
    ensures r == CacheChildrenParsed(kind, c, children, start)
  {
    var node := start;
    var i := 0;
    while i < |children|
      invariant 0 <= i <= |children|
      invariant CacheChildrenParsed(kind, c, children, start) == CacheChildrenParsed(kind, c, children[i..], node)
    {
      assert children[i..][1..] == children[i + 1..];
      var next := ParseCacheElementAndFlatten(kind, c, children[i], node);
      if next.Err? {
        return Err(next.error);
      }
      node := next.value;
      i := i + 1;
    }
    return Ok(node);
  }

  /** The name value an address element takes from the cache's `name` key. */
  function NameOf(node: Node): string {
    if NAME in node && node[NAME].Str? then node[NAME].s else ""
  }

  /** parseLocalCache, parseInvalidationCache, parseReplicatedCache and
      parseDistributedCache, with the address parseContainer gives the
      operation: the container's address and then (kind, cache name). */
  function CacheParsed(kind: string, c: Catalog, e: Element, containerAddress: seq<(string, string)>): Result<Operation> {
    var s :- Scanned(kind, None, RulesFor(kind, c), e.attributes, Scan(map[], None));
    if NAME !in s.node then Err(MissingRequired(kind, [NAME]))
    else if !WhiteSpace(e.text) then Err(UnexpectedText(kind))
    else
      var node :- CacheChildrenParsed(kind, c, e.children, s.node);
      Ok(Operation(containerAddress + [(kind, NameOf(node))], node))
  }

  method ParseCache(kind: string, c: Catalog, e: Element, containerAddress: seq<(string, string)>) returns (r: Result<Operation>)
    ensures r == CacheParsed(kind, c, e, containerAddress)
  {
    var s := ScanAttributes(kind, None, RulesFor(kind, c), e.attributes, Scan(map[], None));
    if s.Err? {
      return Err(s.error);
    }
    if NAME !in s.value.node {
      return Err(MissingRequired(kind, [NAME]));
    }
    if !WhiteSpace(e.text) {
      return Err(UnexpectedText(kind));
    }
    var node := ParseCacheElements(kind, c, e.children, s.value.node);
    if node.Err? {
      return Err(node.error);
    }
    return Ok(Operation(containerAddress + [(kind, NameOf(node.value))], node.value));
  }

  // ------------------------------------------------------------ containers

  /** A container's operation and the operations of its caches. */
  datatype Parsed = Parsed(container: Operation, caches: seq<Operation>)

  /** `container.get(ALIAS).add(text)`: append to the alias list. */
  function AddAlias(node: Node, alias: string): Node {
    var existing := if ALIAS in node && node[ALIAS].List? then node[ALIAS].items else [];
    node[ALIAS := List(existing + [Str(alias)])]
  }

  /** One child of a <cache-container>. */
  function ContainerChildParsed(c: Catalog, containerAddress: seq<(string, string)>, child: Element, acc: Parsed): Result<Parsed> {
    if child.name == ALIAS then
      var alias :- ElementText(child);
      Ok(acc.(container := acc.container.(params := AddAlias(acc.container.params, alias))))
    else if child.name == TRANSPORT then
      var node :- GroupParsed(TRANSPORT, TransportRules(), child, acc.container.params);
      Ok(acc.(container := acc.container.(params := node)))
    else if IsCacheKind(child.name) then
      var op :- CacheParsed(child.name, c, child, containerAddress);
      Ok(acc.(caches := acc.caches + [op]))
    else Err(UnexpectedElement(child.name))
  }

  function ContainerChildrenParsed(c: Catalog, containerAddress: seq<(string, string)>, children: seq<Element>, acc: Parsed): Result<Parsed>
    decreases |children|
  {
    if children == [] then Ok(acc)
    else
      var next :- ContainerChildParsed(c, containerAddress, children[0], acc);
      ContainerChildrenParsed(c, containerAddress, children[1..], next)
  }

  /** parseContainer: `name` and `default-cache` are required; the name
      goes into the address, not into the parameters. */
  function ContainerParsed(c: Catalog, e: Element, address: seq<(string, string)>): Result<Parsed> {
    var s :- Scanned(CACHE_CONTAINER, None, ContainerRules(), e.attributes, Scan(map[], None));
    if s.held.None? || DEFAULT_CACHE !in s.node then Err(MissingRequired(CACHE_CONTAINER, [NAME, DEFAULT_CACHE]))
    else if !WhiteSpace(e.text) then Err(UnexpectedText(CACHE_CONTAINER))
    else
      var containerAddress := address + [(CACHE_CONTAINER, s.held.value)];
      ContainerChildrenParsed(c, containerAddress, e.children, Parsed(Operation(containerAddress, s.node), []))
  }

  method ParseContainerChild(c: Catalog, containerAddress: seq<(string, string)>, child: Element, acc: Parsed)
    returns (r: Result<Parsed>)
    ensures r == ContainerChildParsed(c, containerAddress, child, acc)
  {
    if child.name == ALIAS {
      var alias := ElementText(child);
      if alias.Err? {
        return Err(alias.error);
      }
      return Ok(acc.(container := acc.container.(params := AddAlias(acc.container.params, alias.value))));
    } else if child.name == TRANSPORT {
      var node := ParseGroupAndFlatten(TRANSPORT, TransportRules(), child, acc.container.params);
      if node.Err? {
        return Err(node.error);
      }
      return Ok(acc.(container := acc.container.(params := node.value)));
    } else if IsCacheKind(child.name) {
      var op := ParseCache(child.name, c, child, containerAddress);
      if op.Err? {
        return Err(op.error);
      }
      return Ok(acc.(caches := acc.caches + [op.value]));
    } else {
      return Err(UnexpectedElement(child.name));
    }
  }

  method ParseContainer(c: Catalog, e: Element, address: seq<(string, string)>) returns (r: Result<Parsed>)
    ensures r == ContainerParsed(c, e, address)
  {
    var s := ScanAttributes(CACHE_CONTAINER, None, ContainerRules(), e.attributes, Scan(map[], None));
    if s.Err? {
      return Err(s.error);
    }
    if s.value.held.None? || DEFAULT_CACHE !in s.value.node {
      return Err(MissingRequired(CACHE_CONTAINER, [NAME, DEFAULT_CACHE]));
    }
    if !WhiteSpace(e.text) {
      return Err(UnexpectedText(CACHE_CONTAINER));
    }
    var containerAddress := address + [(CACHE_CONTAINER, s.value.held.value)];
    var start := Parsed(Operation(containerAddress, s.value.node), []);
    assert ContainerParsed(c, e, address) == ContainerChildrenParsed(c, containerAddress, e.children, start);
    var acc := start;
    var i := 0;
    while i < |e.children|
      invariant 0 <= i <= |e.children|
      invariant ContainerChildrenParsed(c, containerAddress, e.children, start)
             == ContainerChildrenParsed(c, containerAddress, e.children[i..], acc)
    {
      assert e.children[i..][1..] == e.children[i + 1..];
      var next := ParseContainerChild(c, containerAddress, e.children[i], acc);
      if next.Err? {
        return Err(next.error);
      }
      acc := next.value;
      i := i + 1;
    }
    return Ok(acc);
  }

  // ------------------------------------------------------------ subsystem

  function SubsystemChildrenParsed(c: Catalog, children: seq<Element>): Result<seq<Operation>>
    decreases |children|
  {
    if children == [] then Ok([])
    else if children[0].name != CACHE_CONTAINER then Err(UnexpectedElement(children[0].name))
    else
      var p :- ContainerParsed(c, children[0], SUBSYSTEM_ADDRESS);
      var rest :- SubsystemChildrenParsed(c, children[1..]);
      Ok([p.container] + p.caches + rest)
  }

  /** readElement: the subsystem operation, then each container's operation
      followed by its caches' operations. */
  function SubsystemParsed(c: Catalog, e: Element): Result<seq<Operation>> {
    var s :- Scanned(SUBSYSTEM, None, [Rule(DEFAULT_CACHE_CONTAINER, Text)], e.attributes, Scan(map[], None));
    if DEFAULT_CACHE_CONTAINER !in s.node then Err(MissingRequired(SUBSYSTEM, [DEFAULT_CACHE_CONTAINER]))
    else if !WhiteSpace(e.text) then Err(UnexpectedText(SUBSYSTEM))
    else
      var rest :- SubsystemChildrenParsed(c, e.children);
      Ok([Operation(SUBSYSTEM_ADDRESS, s.node)] + rest)
  }

  function Appending(done: seq<Operation>, r: Result<seq<Operation>>): Result<seq<Operation>> {
    if r.Ok? then Ok(done + r.value) else r
  }

  lemma ContainersStep(c: Catalog, children: seq<Element>, i: nat, operations: seq<Operation>, p: Parsed, all: Result<seq<Operation>>)
    requires i < |children| && children[i].name == CACHE_CONTAINER
    requires ContainerParsed(c, children[i], SUBSYSTEM_ADDRESS) == Ok(p)
    requires all == Appending(operations, SubsystemChildrenParsed(c, children[i..]))
    ensures all == Appending(operations + [p.container] + p.caches, SubsystemChildrenParsed(c, children[i + 1..]))
  {
    assert children[i..][1..] == children[i + 1..];
    var rest := SubsystemChildrenParsed(c, children[i + 1..]);
    if rest.Ok? {
      Assoc(operations, [p.container] + p.caches, rest.value);
      Assoc(operations, [p.container], p.caches);
    }
  }

  /** A child that is no cache-container, or one that fails to parse, stops the children there. */
  lemma ContainersStop(c: Catalog, children: seq<Element>, i: nat, failure: Failure)
    requires i < |children|
    requires (children[i].name != CACHE_CONTAINER && failure == UnexpectedElement(children[i].name))
          || (children[i].name == CACHE_CONTAINER && ContainerParsed(c, children[i], SUBSYSTEM_ADDRESS) == Err(failure))
    ensures SubsystemChildrenParsed(c, children[i..]) == Err(failure)
  {
    assert children[i..][0] == children[i];
  }

  /** The loop of readElement over the <cache-container> children. */
  method ParseContainers(c: Catalog, children: seq<Element>) returns (r: Result<seq<Operation>>)
    ensures r == SubsystemChildrenParsed(c, children)
  {
    var operations: seq<Operation> := [];
    var i := 0;
    assert children[0..] == children;
    ghost var all := SubsystemChildrenParsed(c, children);
    if all.Ok? {
      assert [] + all.value == all.value;
    }
    while i < |children|
      invariant 0 <= i <= |children|
      invariant all == Appending(operations, SubsystemChildrenParsed(c, children[i..]))
    {
      var child := children[i];
      if child.name != CACHE_CONTAINER {
        ContainersStop(c, children, i, UnexpectedElement(child.name));
        return Err(UnexpectedElement(child.name));
      }
      var p := ParseContainer(c, child, SUBSYSTEM_ADDRESS);
      if p.Err? {
        ContainersStop(c, children, i, p.error);
        return Err(p.error);
      }
      ContainersStep(c, children, i, operations, p.value, all);
      operations := operations + [p.value.container] + p.value.caches;
      i := i + 1;
    }
    assert children[i..] == [];
    assert operations + [] == operations;
    return Ok(operations);
  }

  method ReadElement(c: Catalog, e: Element) returns (r: Result<seq<Operation>>)
    ensures r == SubsystemParsed(c, e)
  {
    var s := ScanAttributes(SUBSYSTEM, None, [Rule(DEFAULT_CACHE_CONTAINER, Text)], e.attributes, Scan(map[], None));
    if s.Err? {
      return Err(s.error);
    }
    if DEFAULT_CACHE_CONTAINER !in s.value.node {
      return Err(MissingRequired(SUBSYSTEM, [DEFAULT_CACHE_CONTAINER]));
    }
    if !WhiteSpace(e.text) {
      return Err(UnexpectedText(SUBSYSTEM));
    }
    var subsystem := Operation(SUBSYSTEM_ADDRESS, s.value.node);
    var rest := ParseContainers(c, e.children);
    if rest.Err? {
      return Err(rest.error);
    }
    return Ok([subsystem] + rest.value);
  }
}
