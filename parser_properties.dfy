/** What the reader promises: the order of the operations it emits, the
    addresses it gives them, its missing-required and invalid-value failures,
    how groups are flattened, and the packed store properties. */
module ParserProperties {
  import opened Failures
  import opened JavaText
  import opened Dmr
  import opened Enums
  import opened Names
  import opened Parser

  /** A key keeps its presence and value from one node to the next. */
  predicate Keeps(before: Node, after: Node, k: string) {
    (k in before <==> k in after) && (k in before ==> after[k] == before[k])
  }

  // ------------------------------------------------------------ attribute loops

  /** The first rule naming an attribute decides its case. */
  lemma {:induction false} FindAt(rules: seq<Rule>, i: nat, a: string)
    requires i < |rules| && rules[i].attribute == a
    requires forall j :: 0 <= j < i ==> rules[j].attribute != a
    ensures Find(rules, a) == Some(rules[i].kind)
    decreases i
  {
    if i > 0 {
      assert rules[0].attribute != a;
      FindAt(rules[1..], i - 1, a);
    }
  }

  /** A cache attribute has the same case for each kind of cache. */
  lemma CacheRulesDecide(kind: string, c: Catalog, a: string)
    requires a != MODE && a != QUEUE_SIZE && a != QUEUE_FLUSH_INTERVAL && a != REMOTE_TIMEOUT
    requires a != OWNERS && a != VIRTUAL_NODES && a != L1_LIFESPAN
    ensures Find(RulesFor(kind, c), a) == Find(CacheRules(c), a)
  {
    ClusteredSkips(c, a);
    DistributedSkips(c, a);
  }

  /** The clustered attributes ahead of the cache attributes leave the others' case alone. */
  lemma ClusteredSkips(c: Catalog, a: string)
    requires a != MODE && a != QUEUE_SIZE && a != QUEUE_FLUSH_INTERVAL && a != REMOTE_TIMEOUT
    ensures Find(ClusteredRules(c), a) == Find(CacheRules(c), a)
  {
    FindSkips([Rule(MODE, Text), Rule(QUEUE_SIZE, Int32), Rule(QUEUE_FLUSH_INTERVAL, Int64), Rule(REMOTE_TIMEOUT, Int64)],
              CacheRules(c), a);
  }

  /** So do the distributed attributes ahead of the clustered ones. */
  lemma DistributedSkips(c: Catalog, a: string)
    requires a != OWNERS && a != VIRTUAL_NODES && a != L1_LIFESPAN
    ensures Find(DistributedRules(c), a) == Find(ClusteredRules(c), a)
  {
    FindSkips([Rule(OWNERS, Int32), Rule(VIRTUAL_NODES, Int32), Rule(L1_LIFESPAN, Int64)], ClusteredRules(c), a);
  }

  /** Rules ahead that do not name the attribute do not change its case. */
  lemma {:induction false} FindSkips(ahead: seq<Rule>, rules: seq<Rule>, a: string)
    requires forall j :: 0 <= j < |ahead| ==> ahead[j].attribute != a
    ensures Find(ahead + rules, a) == Find(rules, a)
    decreases |ahead|
  {
    if ahead != [] {
      assert (ahead + rules)[0] == ahead[0];
      assert (ahead + rules)[1..] == ahead[1..] + rules;
      FindSkips(ahead[1..], rules, a);
    } else {
      assert ahead + rules == rules;
    }
  }

  /** A key no attribute of the loop maps to is left alone. */
  lemma {:induction false} ScannedKeeps(element: string, group: Option<string>, rules: seq<Rule>,
                                        attributes: seq<(string, string)>, s: Scan, k: string)
    requires forall i :: 0 <= i < |attributes| ==> Key(group, attributes[i].0) != k
    requires Scanned(element, group, rules, attributes, s).Ok?
    ensures Keeps(s.node, Scanned(element, group, rules, attributes, s).value.node, k)
    decreases |attributes|
  {
    if attributes != [] {
      var next := Step(element, group, rules, s, attributes[0]).value;
      assert Keeps(s.node, next.node, k);
      ScannedKeeps(element, group, rules, attributes[1..], next, k);
    }
  }

  /** Inside a group the loop only writes flattened keys, so a key without a
      separator is left alone. */
  lemma GroupScanKeepsPlain(element: string, group: string, rules: seq<Rule>,
                            attributes: seq<(string, string)>, s: Scan, k: string)
    requires SEPARATOR[0] !in k
    requires Scanned(element, Some(group), rules, attributes, s).Ok?
    ensures Keeps(s.node, Scanned(element, Some(group), rules, attributes, s).value.node, k)
  {
    forall i | 0 <= i < |attributes| ensures Key(Some(group), attributes[i].0) != k {
      FlattenHasSeparator(group, attributes[i].0);
    }
    ScannedKeeps(element, Some(group), rules, attributes, s, k);
  }

  /** The value kept aside changes only for an attribute whose case is Held. */
  lemma {:induction false} ScannedHeldKeeps(element: string, group: Option<string>, rules: seq<Rule>,
                                            attributes: seq<(string, string)>, s: Scan)
    requires forall i :: 0 <= i < |attributes| ==> Find(rules, attributes[i].0) != Some(Held)
    requires Scanned(element, group, rules, attributes, s).Ok?
    ensures Scanned(element, group, rules, attributes, s).value.held == s.held
    decreases |attributes|
  {
    if attributes != [] {
      var next := Step(element, group, rules, s, attributes[0]).value;
      ScannedHeldKeeps(element, group, rules, attributes[1..], next);
    }
  }

  /** At top level a Text attribute's key holds one of that attribute's
      values, or what it held before. */
  lemma {:induction false} ScannedText(element: string, rules: seq<Rule>, attributes: seq<(string, string)>, s: Scan, a: string)
    requires Find(rules, a) == Some(Text)
    requires Scanned(element, None, rules, attributes, s).Ok?
    ensures var r := Scanned(element, None, rules, attributes, s).value;
            a in r.node ==>
              (a in s.node && r.node[a] == s.node[a])
              || exists i :: 0 <= i < |attributes| && attributes[i].0 == a && r.node[a] == Str(attributes[i].1)
    decreases |attributes|
  {
    if attributes != [] {
      var next := Step(element, None, rules, s, attributes[0]).value;
      ScannedText(element, rules, attributes[1..], next, a);
      var r := Scanned(element, None, rules, attributes, s).value;
      if a in r.node && !(a in next.node && r.node[a] == next.node[a]) {
        var i :| 0 <= i < |attributes[1..]| && attributes[1..][i].0 == a && r.node[a] == Str(attributes[1..][i].1);
        assert attributes[i + 1] == attributes[1..][i];
      }
    }
  }

  // ------------------------------------------------------------ groups

  /** Once its attributes are read, a group element succeeds exactly when it
      has no content: text other than white space fails first, then a child
      element. */
  lemma GroupNeedsNoContent(group: string, rules: seq<Rule>, e: Element, node: Node)
    requires Scanned(group, Some(group), rules, e.attributes,
                     Scan(if |e.attributes| > 0 then node[group := Bool(true)] else node, None)).Ok?
    ensures GroupParsed(group, rules, e, node).Ok? <==> WhiteSpace(e.text) && e.children == []
    ensures !WhiteSpace(e.text) ==> GroupParsed(group, rules, e, node) == Err(UnexpectedText(group))
    ensures WhiteSpace(e.text) && e.children != [] ==>
              GroupParsed(group, rules, e, node) == Err(UnexpectedElement(e.children[0].name))
  {
  }

  /** A group element sets its marker exactly when it carries an attribute;
      its attributes go under `group.attribute` keys; and every other key of
      the cache is left alone. */
  lemma GroupFlattening(group: string, rules: seq<Rule>, e: Element, node: Node)
    requires SEPARATOR[0] !in group && group !in node
    requires GroupParsed(group, rules, e, node).Ok?
    ensures var r := GroupParsed(group, rules, e, node).value;
            (group in r && r[group] == Bool(true)) <==> |e.attributes| > 0
    ensures var r := GroupParsed(group, rules, e, node).value;
            forall k :: k in r && k !in node ==>
              k == group || exists i :: 0 <= i < |e.attributes| && k == Flatten(group, e.attributes[i].0)
    ensures var r := GroupParsed(group, rules, e, node).value;
            forall k :: k != group && SEPARATOR[0] !in k ==> Keeps(node, r, k)
  {
    var marked := if |e.attributes| > 0 then node[group := Bool(true)] else node;
    var r := GroupParsed(group, rules, e, node).value;
    GroupScanKeepsPlain(group, group, rules, e.attributes, Scan(marked, None), group);
    forall k | k != group && SEPARATOR[0] !in k ensures Keeps(node, r, k) {
      GroupKeeps(group, rules, e, node, k);
    }
    forall k | k in r && k !in node
      ensures k == group || exists i :: 0 <= i < |e.attributes| && k == Flatten(group, e.attributes[i].0)
    {
      if k != group && forall i :: 0 <= i < |e.attributes| ==> k != Flatten(group, e.attributes[i].0) {
        ScannedKeeps(group, Some(group), rules, e.attributes, Scan(marked, None), k);
      }
    }
  }

  /** The eviction interval is accepted and never stored. */
  lemma {:induction false} DeprecatedNotStored(element: string, group: Option<string>, rules: seq<Rule>,
                                               attributes: seq<(string, string)>, s: Scan, a: string)
    requires Find(rules, a) == Some(Deprecated)
    requires forall i :: 0 <= i < |attributes| && attributes[i].0 != a ==> Key(group, attributes[i].0) != Key(group, a)
    requires Scanned(element, group, rules, attributes, s).Ok?
    ensures Keeps(s.node, Scanned(element, group, rules, attributes, s).value.node, Key(group, a))
    decreases |attributes|
  {
    if attributes != [] {
      var next := Step(element, group, rules, s, attributes[0]).value;
      assert Keeps(s.node, next.node, Key(group, a));
      DeprecatedNotStored(element, group, rules, attributes[1..], next, a);
    }
  }

  lemma EvictionIntervalNotStored(c: Catalog, e: Element, node: Node)
    requires GroupParsed(EVICTION, EvictionRules(c), e, node).Ok?
    ensures Keeps(node, GroupParsed(EVICTION, EvictionRules(c), e, node).value, Flatten(EVICTION, INTERVAL))
  {
    var marked := if |e.attributes| > 0 then node[EVICTION := Bool(true)] else node;
    forall i | 0 <= i < |e.attributes| && e.attributes[i].0 != INTERVAL
      ensures Key(Some(EVICTION), e.attributes[i].0) != Key(Some(EVICTION), INTERVAL)
    {
      if Flatten(EVICTION, e.attributes[i].0) == Flatten(EVICTION, INTERVAL) {
        FlattenInjective(EVICTION, e.attributes[i].0, INTERVAL);
      }
    }
    FindAt(EvictionRules(c), 2, INTERVAL);
    DeprecatedNotStored(EVICTION, Some(EVICTION), EvictionRules(c), e.attributes, Scan(marked, None), INTERVAL);
    assert Flatten(EVICTION, INTERVAL) != EVICTION;
  }

  // ------------------------------------------------------------ enumerations

  /** An enumerated attribute is stored as the constant's name when it names
      a constant, and fails with invalid-attribute-value otherwise. */
  lemma EnumeratedAttribute(element: string, group: Option<string>, rules: seq<Rule>, s: Scan, a: string, v: string)
    requires Find(rules, a).Some? && Find(rules, a).value.OneOf?
    ensures var constants := Find(rules, a).value.constants;
            Step(element, group, rules, s, (a, v))
            == if v in constants then Ok(s.(node := s.node[Key(group, a) := Str(v)]))
               else Err(InvalidAttributeValue(element, a, v))
  {
  }

  /** start, indexing, isolation, eviction strategy, transaction mode,
      transaction locking and eager-locking are the enumerated attributes. */
  lemma EnumeratedCacheAttributes(c: Catalog, kind: string)
    requires IsCacheKind(kind)
    ensures Find(RulesFor(kind, c), START) == Some(OneOf(c.startModes))
    ensures Find(RulesFor(kind, c), INDEXING) == Some(OneOf(c.indexings))
  {
    FindAt(CacheRules(c), 1, START);
    FindAt(CacheRules(c), 3, INDEXING);
    CacheRulesDecide(kind, c, START);
    CacheRulesDecide(kind, c, INDEXING);
  }

  lemma EnumeratedGroupAttributes(c: Catalog)
    ensures Find(LockingRules(c), ISOLATION) == Some(OneOf(c.isolationLevels))
    ensures Find(EvictionRules(c), STRATEGY) == Some(OneOf(c.evictionStrategies))
    ensures Find(TransactionRules(c), MODE) == Some(OneOf(c.transactionModes))
    ensures Find(TransactionRules(c), LOCKING) == Some(OneOf(LOCKING_MODES))
    ensures Find(TransactionRules(c), EAGER_LOCKING) == Some(OneOf(c.eagerLockings))
  {
    FindAt(LockingRules(c), 0, ISOLATION);
    FindAt(EvictionRules(c), 0, STRATEGY);
    FindAt(TransactionRules(c), 1, MODE);
    FindAt(TransactionRules(c), 2, LOCKING);
    FindAt(TransactionRules(c), 3, EAGER_LOCKING);
  }

  /** The clustered `mode` attribute is stored as written, with no check. */
  lemma ModeStoredRaw(kind: string, c: Catalog, s: Scan, v: string)
    requires kind == INVALIDATION_CACHE || kind == REPLICATED_CACHE || kind == DISTRIBUTED_CACHE
    ensures Step(kind, None, RulesFor(kind, c), s, (MODE, v)) == Ok(s.(node := s.node[MODE := Str(v)]))
  {
    FindAt(RulesFor(kind, c), if kind == DISTRIBUTED_CACHE then 3 else 0, MODE);
  }

  // ------------------------------------------------------------ missing required

  lemma SubsystemNeedsDefaultContainer(c: Catalog, e: Element)
    requires forall i :: 0 <= i < |e.attributes| ==> e.attributes[i].0 != DEFAULT_CACHE_CONTAINER
    ensures SubsystemParsed(c, e)
         == Err(if e.attributes == [] then MissingRequired(SUBSYSTEM, [DEFAULT_CACHE_CONTAINER])
                else UnexpectedAttribute(SUBSYSTEM, e.attributes[0].0))
  {
  }

  /** Of the cache-container attributes only `name` is held back. */
  lemma ContainerHeldIsName(a: string)
    ensures Find(ContainerRules(), a) == Some(Held) ==> a == NAME
  {
    var rules := ContainerRules();
    if Find(rules, a) == Some(Held) {
      var i :| 0 <= i < |rules| && rules[i] == Rule(a, Held);
      assert forall j :: 0 < j < |rules| ==> rules[j].kind == Text;
      assert i == 0;
    }
  }

  /** Without a `name` attribute nothing is held once the container's attributes are scanned. */
  lemma ContainerNameMissing(e: Element)
    requires Scanned(CACHE_CONTAINER, None, ContainerRules(), e.attributes, Scan(map[], None)).Ok?
    requires forall i :: 0 <= i < |e.attributes| ==> e.attributes[i].0 != NAME
    ensures Scanned(CACHE_CONTAINER, None, ContainerRules(), e.attributes, Scan(map[], None)).value.held.None?
  {
    forall i | 0 <= i < |e.attributes| ensures Find(ContainerRules(), e.attributes[i].0) != Some(Held) {
      ContainerHeldIsName(e.attributes[i].0);
    }
    ScannedHeldKeeps(CACHE_CONTAINER, None, ContainerRules(), e.attributes, Scan(map[], None));
  }

  lemma ContainerNeedsNameAndDefaultCache(c: Catalog, e: Element, address: seq<(string, string)>)
    requires Scanned(CACHE_CONTAINER, None, ContainerRules(), e.attributes, Scan(map[], None)).Ok?
    requires (forall i :: 0 <= i < |e.attributes| ==> e.attributes[i].0 != NAME)
          || (forall i :: 0 <= i < |e.attributes| ==> e.attributes[i].0 != DEFAULT_CACHE)
    ensures ContainerParsed(c, e, address) == Err(MissingRequired(CACHE_CONTAINER, [NAME, DEFAULT_CACHE]))
  {
    var s := Scanned(CACHE_CONTAINER, None, ContainerRules(), e.attributes, Scan(map[], None)).value;
    if forall i :: 0 <= i < |e.attributes| ==> e.attributes[i].0 != NAME {
      ContainerNameMissing(e);
    } else {
      ScannedKeeps(CACHE_CONTAINER, None, ContainerRules(), e.attributes, Scan(map[], None), DEFAULT_CACHE);
    }
    assert s.held.None? || DEFAULT_CACHE !in s.node;
  }

  lemma CacheNeedsName(kind: string, c: Catalog, e: Element, containerAddress: seq<(string, string)>)
    requires Scanned(kind, None, RulesFor(kind, c), e.attributes, Scan(map[], None)).Ok?
    requires forall i :: 0 <= i < |e.attributes| ==> e.attributes[i].0 != NAME
    ensures CacheParsed(kind, c, e, containerAddress) == Err(MissingRequired(kind, [NAME]))
  {
    ScannedKeeps(kind, None, RulesFor(kind, c), e.attributes, Scan(map[], None), NAME);
  }

  /** A <store> needs a class: from its own attributes, or from an earlier
      <store> of the same cache. */
  lemma StoreNeedsClass(e: Element, node: Node)
    requires Scanned(STORE, Some(STORE), CustomStoreRules(), e.attributes,
                     Scan(if |e.attributes| > 0 then node[STORE := Bool(true)] else node, None)).Ok?
    requires forall i :: 0 <= i < |e.attributes| ==> e.attributes[i].0 != CLASS
    ensures CustomStoreParsed(e, node).Err? <==>
            Flatten(STORE, CLASS) !in node || !WhiteSpace(e.text) || StorePropertiesParsed(e.children, map[], STORE).Err?
    ensures Flatten(STORE, CLASS) !in node ==> CustomStoreParsed(e, node) == Err(MissingRequired(STORE, [CLASS]))
  {
    var marked := if |e.attributes| > 0 then node[STORE := Bool(true)] else node;
    forall i | 0 <= i < |e.attributes| ensures Key(Some(STORE), e.attributes[i].0) != Flatten(STORE, CLASS) {
      if Flatten(STORE, e.attributes[i].0) == Flatten(STORE, CLASS) {
        FlattenInjective(STORE, e.attributes[i].0, CLASS);
      }
    }
    ScannedKeeps(STORE, Some(STORE), CustomStoreRules(), e.attributes, Scan(marked, None), Flatten(STORE, CLASS));
    assert Flatten(STORE, CLASS) != STORE;
    var s := Scanned(STORE, Some(STORE), CustomStoreRules(), e.attributes, Scan(marked, None)).value;
    PropertiesFailIndependently(e.children, s.node, map[], STORE);
  }

  lemma PropertiesFailIndependently(children: seq<Element>, a: Node, b: Node, storeKey: string)
    ensures StorePropertiesParsed(children, a, storeKey).Err? == StorePropertiesParsed(children, b, storeKey).Err?
  {
  }

  lemma PropertyNeedsName(p: Element)
    requires p.name == PROPERTY
    requires forall i :: 0 <= i < |p.attributes| ==> p.attributes[i].0 != NAME
    ensures PropertyParsed(p)
         == Err(if p.attributes == [] then MissingRequired(PROPERTY, [NAME])
                else UnexpectedAttribute(PROPERTY, p.attributes[0].0))
  {
  }

  // ------------------------------------------------------------ store properties

  /** The properties are collected in document order. */
  lemma {:induction false} PropertiesInOrder(children: seq<Element>)
    requires PropertiesParsed(children).Ok?
    ensures var ps := PropertiesParsed(children).value;
            |ps| == |children| && forall i :: 0 <= i < |children| ==> PropertyParsed(children[i]) == Ok(ps[i])
    decreases |children|
  {
    if children != [] {
      PropertiesInOrder(children[1..]);
      var ps := PropertiesParsed(children).value;
      forall i | 0 <= i < |children| ensures PropertyParsed(children[i]) == Ok(ps[i]) {
        if i > 0 { assert children[i] == children[1..][i - 1]; }
      }
    }
  }

  /** The packed list is {"n1"="v1",...,"nk"="vk"}: the entries joined by
      commas, so the character before the closing brace is a quote and never
      a comma. */
  lemma PackedShape(ps: seq<(string, string)>)
    requires |ps| >= 1
    ensures var t := Packed(ps);
            |t| >= 2 && t[0] == '{' && t[|t| - 1] == '}' && t[|t| - 2] == '"'
            && t[1..|t| - 1] == Join(Entries(ps), ',')
  {
    JoinEndsWithLast(Entries(ps), ',');
    var j := Join(Entries(ps), ',');
    var last := Entry(ps[|ps| - 1]);
    assert last[|last| - 1] == '"';
    var t := Packed(ps);
    assert t == "{" + j + "}";
    assert t[1..|t| - 1] == j;
  }

  lemma {:induction false} JoinEndsWithLast(ps: seq<string>, sep: char)
    requires |ps| >= 1
    ensures var j := Join(ps, sep); var l := ps[|ps| - 1];
            |j| >= |l| && j[|j| - |l|..] == l
  {
  }

  /** The key `storeKey.properties` is written exactly when there is a
      property, and holds them packed in document order. */
  lemma StorePropertiesKey(children: seq<Element>, node: Node, storeKey: string)
    requires StorePropertiesParsed(children, node, storeKey).Ok?
    ensures var r := StorePropertiesParsed(children, node, storeKey).value;
            var ps := PropertiesParsed(children).value;
            (children == [] ==> r == node)
            && (children != [] ==> r == node[Flatten(storeKey, PROPERTIES) := Str(Packed(ps))])
  {
    PropertiesInOrder(children);
  }

  // ------------------------------------------------------------ cache addresses

  predicate IsMarker(k: string) {
    k == LOCKING || k == TRANSACTION || k == EVICTION || k == EXPIRATION || k == STORE || k == FILE_STORE
    || k == REHASHING || k == STATE_TRANSFER
  }

  /** A group element leaves alone every key other than its marker that has
      no separator. */
  lemma GroupKeeps(group: string, rules: seq<Rule>, e: Element, node: Node, k: string)
    requires SEPARATOR[0] !in k && k != group
    requires GroupParsed(group, rules, e, node).Ok?
    ensures Keeps(node, GroupParsed(group, rules, e, node).value, k)
  {
    var marked := if |e.attributes| > 0 then node[group := Bool(true)] else node;
    GroupScanKeepsPlain(group, group, rules, e.attributes, Scan(marked, None), k);
  }

  lemma CacheChildKeeps(kind: string, c: Catalog, child: Element, node: Node, k: string)
    requires SEPARATOR[0] !in k && !IsMarker(k)
    requires CacheChildParsed(kind, c, child, node).Ok?
    ensures Keeps(node, CacheChildParsed(kind, c, child, node).value, k)
  {
    if kind == DISTRIBUTED_CACHE && child.name == REHASHING {
      GroupKeeps(REHASHING, RehashingRules(), child, node, k);
    } else if kind == REPLICATED_CACHE && child.name == STATE_TRANSFER {
      GroupKeeps(STATE_TRANSFER, StateTransferRules(), child, node, k);
    } else if child.name == LOCKING {
      GroupKeeps(LOCKING, LockingRules(c), child, node, k);
    } else if child.name == TRANSACTION {
      GroupKeeps(TRANSACTION, TransactionRules(c), child, node, k);
    } else if child.name == EVICTION {
      GroupKeeps(EVICTION, EvictionRules(c), child, node, k);
    } else if child.name == EXPIRATION {
      GroupKeeps(EXPIRATION, ExpirationRules(), child, node, k);
    } else if child.name == STORE {
      var marked := if |child.attributes| > 0 then node[STORE := Bool(true)] else node;
      GroupScanKeepsPlain(STORE, STORE, CustomStoreRules(), child.attributes, Scan(marked, None), k);
      FlattenHasSeparator(STORE, PROPERTIES);
    } else {
      var marked := if |child.attributes| > 0 then node[FILE_STORE := Bool(true)] else node;
      GroupScanKeepsPlain(FILE_STORE, FILE_STORE, FileStoreRules(), child.attributes, Scan(marked, None), k);
      FlattenHasSeparator(FILE_STORE, PROPERTIES);
    }
  }

  lemma {:induction false} CacheChildrenKeep(kind: string, c: Catalog, children: seq<Element>, node: Node, k: string)
    requires SEPARATOR[0] !in k && !IsMarker(k)
    requires CacheChildrenParsed(kind, c, children, node).Ok?
    ensures Keeps(node, CacheChildrenParsed(kind, c, children, node).value, k)
    decreases |children|
  {
    if children != [] {
      CacheChildKeeps(kind, c, children[0], node, k);
      CacheChildrenKeep(kind, c, children[1..], CacheChildParsed(kind, c, children[0], node).value, k);
    }
  }

  /** A cache operation's address is the container's address followed by
      (element name, cache name), and the cache name is the value of one of
      the element's `name` attributes, kept in the parameters. */
  lemma CacheAddress(kind: string, c: Catalog, e: Element, containerAddress: seq<(string, string)>)
    requires IsCacheKind(kind)
    requires CacheParsed(kind, c, e, containerAddress).Ok?
    ensures var op := CacheParsed(kind, c, e, containerAddress).value;
            var name := NameOf(op.params);
            op.address == containerAddress + [(kind, name)]
            && NAME in op.params && op.params[NAME] == Str(name)
            && exists i :: 0 <= i < |e.attributes| && e.attributes[i] == (NAME, name)
  {
    var rules := RulesFor(kind, c);
    FindAt(CacheRules(c), 0, NAME);
    CacheRulesDecide(kind, c, NAME);
    var s := Scanned(kind, None, rules, e.attributes, Scan(map[], None)).value;
    assert NAME in s.node;
    ScannedText(kind, rules, e.attributes, Scan(map[], None), NAME);
    var i :| 0 <= i < |e.attributes| && e.attributes[i].0 == NAME && s.node[NAME] == Str(e.attributes[i].1);
    var node := CacheChildrenParsed(kind, c, e.children, s.node).value;
    CacheChildrenKeep(kind, c, e.children, s.node, NAME);
    assert node[NAME] == Str(e.attributes[i].1);
    assert NameOf(node) == e.attributes[i].1;
    assert e.attributes[i] == (NAME, NameOf(node));
  }

  // ------------------------------------------------------------ containers

  /** What the container loop has built so far has the container's own address
      and only cache operations addressed below it. */
  predicate Below(containerAddress: seq<(string, string)>, acc: Parsed) {
    acc.container.address == containerAddress
    && forall k :: 0 <= k < |acc.caches| ==>
         |acc.caches[k].address| == |containerAddress| + 1
         && acc.caches[k].address[..|containerAddress|] == containerAddress
         && IsCacheKind(acc.caches[k].address[|containerAddress|].0)
  }

  /** The cache elements among a container's children, in document order. */
  function CacheElements(children: seq<Element>): (r: seq<Element>)
    ensures forall k :: 0 <= k < |r| ==> IsCacheKind(r[k].name)
  {
    if children == [] then []
    else (if IsCacheKind(children[0].name) then [children[0]] else []) + CacheElements(children[1..])
  }

  lemma ContainerChildCaches(c: Catalog, containerAddress: seq<(string, string)>, child: Element, acc: Parsed)
    requires ContainerChildParsed(c, containerAddress, child, acc).Ok?
    ensures ContainerChildParsed(c, containerAddress, child, acc).value.caches
         == acc.caches + (if IsCacheKind(child.name) then [CacheParsed(child.name, c, child, containerAddress).value] else [])
  {
  }

  lemma ContainerChildStep(c: Catalog, containerAddress: seq<(string, string)>, child: Element, acc: Parsed)
    requires Below(containerAddress, acc)
    requires ContainerChildParsed(c, containerAddress, child, acc).Ok?
    ensures var next := ContainerChildParsed(c, containerAddress, child, acc).value;
            Below(containerAddress, next)
            && next.caches == acc.caches + (if IsCacheKind(child.name) then [CacheParsed(child.name, c, child, containerAddress).value] else [])
  {
    var next := ContainerChildParsed(c, containerAddress, child, acc).value;
    if IsCacheKind(child.name) {
      CacheAddress(child.name, c, child, containerAddress);
      var op := CacheParsed(child.name, c, child, containerAddress).value;
      assert next.caches == acc.caches + [op];
      assert op.address[..|containerAddress|] == containerAddress;
      forall k | 0 <= k < |next.caches|
        ensures |next.caches[k].address| == |containerAddress| + 1
             && next.caches[k].address[..|containerAddress|] == containerAddress
             && IsCacheKind(next.caches[k].address[|containerAddress|].0)
      {
        if k == |acc.caches| { assert next.caches[k] == op; } else { assert next.caches[k] == acc.caches[k]; }
      }
    } else {
      assert next.caches == acc.caches;
    }
  }

  /** The container loop keeps every operation addressed below the container. */
  lemma {:induction false} ContainerChildrenBelow(c: Catalog, containerAddress: seq<(string, string)>,
                                                  children: seq<Element>, acc: Parsed)
    requires Below(containerAddress, acc)
    requires ContainerChildrenParsed(c, containerAddress, children, acc).Ok?
    ensures Below(containerAddress, ContainerChildrenParsed(c, containerAddress, children, acc).value)
    decreases |children|
  {
    if children != [] {
      var next := ContainerChildParsed(c, containerAddress, children[0], acc).value;
      ContainerChildStep(c, containerAddress, children[0], acc);
      ContainerChildrenBelow(c, containerAddress, children[1..], next);
    }
  }

  /** The cache elements parsed one after the other, below one container. */
  function CachesParsed(c: Catalog, containerAddress: seq<(string, string)>, cs: seq<Element>): Result<seq<Operation>>
    decreases |cs|
  {
    if cs == [] then Ok([])
    else
      var op :- CacheParsed(cs[0].name, c, cs[0], containerAddress);
      var rest :- CachesParsed(c, containerAddress, cs[1..]);
      Ok([op] + rest)
  }

  /** The k-th cache operation is the parse of the k-th cache element. */
  lemma {:induction false} CachesParsedPointwise(c: Catalog, containerAddress: seq<(string, string)>, cs: seq<Element>)
    requires CachesParsed(c, containerAddress, cs).Ok?
    ensures var ops := CachesParsed(c, containerAddress, cs).value;
            |ops| == |cs| && forall k :: 0 <= k < |cs| ==> CacheParsed(cs[k].name, c, cs[k], containerAddress) == Ok(ops[k])
    decreases |cs|
  {
    if cs != [] {
      CachesParsedPointwise(c, containerAddress, cs[1..]);
      var ops := CachesParsed(c, containerAddress, cs).value;
      var rest := CachesParsed(c, containerAddress, cs[1..]).value;
      assert ops == [ops[0]] + rest;
      forall k | 0 <= k < |cs| ensures CacheParsed(cs[k].name, c, cs[k], containerAddress) == Ok(ops[k]) {
        if k > 0 { assert cs[k] == cs[1..][k - 1] && ops[k] == rest[k - 1]; }
      }
    }
  }

  lemma CacheElementsStep(children: seq<Element>)
    requires children != []
    ensures CacheElements(children)
         == (if IsCacheKind(children[0].name) then [children[0]] else []) + CacheElements(children[1..])
  {
  }

  lemma CachesParsedCons(c: Catalog, containerAddress: seq<(string, string)>, e: Element, cs: seq<Element>)
    requires CacheParsed(e.name, c, e, containerAddress).Ok?
    requires CachesParsed(c, containerAddress, cs).Ok?
    ensures CachesParsed(c, containerAddress, [e] + cs)
         == Ok([CacheParsed(e.name, c, e, containerAddress).value] + CachesParsed(c, containerAddress, cs).value)
  {
    assert ([e] + cs)[0] == e && ([e] + cs)[1..] == cs;
  }

  /** What the container loop adds from `children` onwards, starting from `acc`. */
  predicate AddsCachesInOrder(c: Catalog, containerAddress: seq<(string, string)>, children: seq<Element>, acc: Parsed)
    requires ContainerChildrenParsed(c, containerAddress, children, acc).Ok?
  {
    CachesParsed(c, containerAddress, CacheElements(children)).Ok?
    && ContainerChildrenParsed(c, containerAddress, children, acc).value.caches
       == acc.caches + CachesParsed(c, containerAddress, CacheElements(children)).value
  }

  /** One step of the container loop over a cache element. */
  lemma CacheChildInOrder(c: Catalog, containerAddress: seq<(string, string)>, children: seq<Element>, acc: Parsed)
    requires children != [] && IsCacheKind(children[0].name)
    requires ContainerChildrenParsed(c, containerAddress, children, acc).Ok?
    requires ContainerChildParsed(c, containerAddress, children[0], acc).Ok?
    requires var next := ContainerChildParsed(c, containerAddress, children[0], acc).value;
             ContainerChildrenParsed(c, containerAddress, children[1..], next).Ok?
             && AddsCachesInOrder(c, containerAddress, children[1..], next)
    ensures AddsCachesInOrder(c, containerAddress, children, acc)
  {
    var child := children[0];
    var next := ContainerChildParsed(c, containerAddress, child, acc).value;
    var op := CacheParsed(child.name, c, child, containerAddress).value;
    ContainerChildCaches(c, containerAddress, child, acc);
    var total := ContainerChildrenParsed(c, containerAddress, children[1..], next).value.caches;
    assert ContainerChildrenParsed(c, containerAddress, children, acc).value.caches == total;
    CacheElementsStep(children);
    var cs' := CacheElements(children[1..]);
    var rest := CachesParsed(c, containerAddress, cs').value;
    CachesParsedCons(c, containerAddress, child, cs');
    AppendStep(acc.caches, next.caches, op, rest, total);
  }

  lemma AppendStep(before: seq<Operation>, next: seq<Operation>, op: Operation, rest: seq<Operation>, total: seq<Operation>)
    requires next == before + [op] && total == next + rest
    ensures total == before + ([op] + rest)
  {
  }

  /** One step of the container loop over an alias or transport element. */
  lemma OtherChildInOrder(c: Catalog, containerAddress: seq<(string, string)>, children: seq<Element>, acc: Parsed)
    requires children != [] && !IsCacheKind(children[0].name)
    requires ContainerChildrenParsed(c, containerAddress, children, acc).Ok?
    requires ContainerChildParsed(c, containerAddress, children[0], acc).Ok?
    requires var next := ContainerChildParsed(c, containerAddress, children[0], acc).value;
             ContainerChildrenParsed(c, containerAddress, children[1..], next).Ok?
             && AddsCachesInOrder(c, containerAddress, children[1..], next)
    ensures AddsCachesInOrder(c, containerAddress, children, acc)
  {
    var next := ContainerChildParsed(c, containerAddress, children[0], acc).value;
    assert next.caches == acc.caches;
    CacheElementsStep(children);
    var cs' := CacheElements(children[1..]);
    assert [] + cs' == cs';
    assert CacheElements(children) == cs';
  }

  /** The container loop adds one cache operation per cache element, in
      document order. */
  lemma {:induction false} ContainerChildrenOrder(c: Catalog, containerAddress: seq<(string, string)>,
                                                  children: seq<Element>, acc: Parsed)
    requires ContainerChildrenParsed(c, containerAddress, children, acc).Ok?
    ensures AddsCachesInOrder(c, containerAddress, children, acc)
    decreases |children|
  {
    if children == [] {
      assert CacheElements(children) == [];
      assert acc.caches + [] == acc.caches;
    } else {
      var next := ContainerChildParsed(c, containerAddress, children[0], acc).value;
      ContainerChildrenOrder(c, containerAddress, children[1..], next);
      if IsCacheKind(children[0].name) {
        CacheChildInOrder(c, containerAddress, children, acc);
      } else {
        OtherChildInOrder(c, containerAddress, children, acc);
      }
    }
  }

  predicate IsContainerOp(op: Operation) {
    |op.address| == 2 && op.address[0] == (SUBSYSTEM, SUBSYSTEM_NAME) && op.address[1].0 == CACHE_CONTAINER
  }

  predicate IsCacheOp(op: Operation) {
    |op.address| == 3 && op.address[0] == (SUBSYSTEM, SUBSYSTEM_NAME) && op.address[1].0 == CACHE_CONTAINER
    && IsCacheKind(op.address[2].0)
  }

  /** Each document container gives its own operation and cache operations
      addressed below it. */
  lemma ContainerOperations(c: Catalog, e: Element)
    requires ContainerParsed(c, e, SUBSYSTEM_ADDRESS).Ok?
    ensures var p := ContainerParsed(c, e, SUBSYSTEM_ADDRESS).value;
            IsContainerOp(p.container)
            && (forall k :: 0 <= k < |p.caches| ==> IsCacheOp(p.caches[k]) && p.caches[k].address[..2] == p.container.address)
  {
    var s := Scanned(CACHE_CONTAINER, None, ContainerRules(), e.attributes, Scan(map[], None)).value;
    var ca := SUBSYSTEM_ADDRESS + [(CACHE_CONTAINER, s.held.value)];
    var start := Parsed(Operation(ca, s.node), []);
    ContainerChildrenBelow(c, ca, e.children, start);
    var p := ContainerParsed(c, e, SUBSYSTEM_ADDRESS).value;
    assert p == ContainerChildrenParsed(c, ca, e.children, start).value;
    forall k | 0 <= k < |p.caches| ensures IsCacheOp(p.caches[k]) && p.caches[k].address[..2] == p.container.address {
      var a := p.caches[k].address;
      assert a[..2] == ca;
      assert a[0] == ca[0] && a[1] == ca[1];
    }
  }

  /** A container's cache operations are the parses of its cache elements,
      one each, in document order. */
  lemma ContainerCachesInDocumentOrder(c: Catalog, e: Element)
    requires ContainerParsed(c, e, SUBSYSTEM_ADDRESS).Ok?
    ensures var p := ContainerParsed(c, e, SUBSYSTEM_ADDRESS).value;
            var cs := CacheElements(e.children);
            |p.caches| == |cs|
            && forall k :: 0 <= k < |cs| ==> CacheParsed(cs[k].name, c, cs[k], p.container.address) == Ok(p.caches[k])
  {
    var s := Scanned(CACHE_CONTAINER, None, ContainerRules(), e.attributes, Scan(map[], None)).value;
    var ca := SUBSYSTEM_ADDRESS + [(CACHE_CONTAINER, s.held.value)];
    var start := Parsed(Operation(ca, s.node), []);
    ContainerChildrenOrder(c, ca, e.children, start);
    ContainerChildrenBelow(c, ca, e.children, start);
    var p := ContainerParsed(c, e, SUBSYSTEM_ADDRESS).value;
    assert p == ContainerChildrenParsed(c, ca, e.children, start).value;
    CachesParsedPointwise(c, ca, CacheElements(e.children));
    assert p.caches == CachesParsed(c, ca, CacheElements(e.children)).value;
  }

  /** The i-th operation is a container's, or a cache's that follows its own
      container's operation with only cache operations between them. */
  predicate GroupedAt(ops: seq<Operation>, i: int)
    requires 0 <= i < |ops|
  {
    IsContainerOp(ops[i])
    || (IsCacheOp(ops[i])
        && exists j :: 0 <= j < i && IsContainerOp(ops[j]) && ops[i].address[..2] == ops[j].address
                       && forall k :: j < k < i ==> IsCacheOp(ops[k]))
  }

  /** Every cache operation follows its own container's operation, with only
      cache operations between them. */
  predicate Grouped(ops: seq<Operation>) {
    forall i :: 0 <= i < |ops| ==> GroupedAt(ops, i)
  }

  lemma GroupedInFirst(p: Parsed, rest: seq<Operation>, i: int)
    requires IsContainerOp(p.container)
    requires forall k :: 0 <= k < |p.caches| ==> IsCacheOp(p.caches[k]) && p.caches[k].address[..2] == p.container.address
    requires 0 < i <= |p.caches|
    ensures GroupedAt([p.container] + p.caches + rest, i)
  {
    var ops := [p.container] + p.caches + rest;
    assert ops[i] == p.caches[i - 1];
    forall k | 0 < k < i ensures IsCacheOp(ops[k]) { assert ops[k] == p.caches[k - 1]; }
    assert ops[0] == p.container;
  }

  lemma GroupedInRest(p: Parsed, rest: seq<Operation>, i: int)
    requires 0 <= i < |rest| && GroupedAt(rest, i)
    ensures GroupedAt([p.container] + p.caches + rest, i + 1 + |p.caches|)
  {
    var ops := [p.container] + p.caches + rest;
    var n := 1 + |p.caches|;
    assert ops[i + n] == rest[i];
    if !IsContainerOp(rest[i]) {
      var j :| 0 <= j < i && IsContainerOp(rest[j]) && rest[i].address[..2] == rest[j].address
               && forall k :: j < k < i ==> IsCacheOp(rest[k]);
      assert ops[j + n] == rest[j];
      forall k | j + n < k < i + n ensures IsCacheOp(ops[k]) { assert ops[k] == rest[k - n]; }
    }
  }

  lemma GroupedCons(p: Parsed, rest: seq<Operation>)
    requires IsContainerOp(p.container)
    requires forall k :: 0 <= k < |p.caches| ==> IsCacheOp(p.caches[k]) && p.caches[k].address[..2] == p.container.address
    requires Grouped(rest)
    ensures Grouped([p.container] + p.caches + rest)
  {
    var ops := [p.container] + p.caches + rest;
    var n := 1 + |p.caches|;
    forall i | 0 <= i < |ops| ensures GroupedAt(ops, i) {
      if i == 0 {
        assert ops[0] == p.container;
      } else if i < n {
        GroupedInFirst(p, rest, i);
      } else {
        GroupedInRest(p, rest, i - n);
      }
    }
  }

  lemma {:induction false} ContainersGrouped(c: Catalog, children: seq<Element>)
    requires SubsystemChildrenParsed(c, children).Ok?
    ensures Grouped(SubsystemChildrenParsed(c, children).value)
    decreases |children|
  {
    if children != [] {
      var p := ContainerParsed(c, children[0], SUBSYSTEM_ADDRESS).value;
      ContainerOperations(c, children[0]);
      ContainersGrouped(c, children[1..]);
      GroupedCons(p, SubsystemChildrenParsed(c, children[1..]).value);
    }
  }

  /** readElement emits the subsystem operation first, then each container's
      operation before the operations of its caches. */
  lemma OperationsOrdered(c: Catalog, e: Element)
    requires SubsystemParsed(c, e).Ok?
    ensures var ops := SubsystemParsed(c, e).value;
            |ops| >= 1 && ops[0].address == SUBSYSTEM_ADDRESS && DEFAULT_CACHE_CONTAINER in ops[0].params
            && Grouped(ops[1..])
  {
    ContainersGrouped(c, e.children);
    var ops := SubsystemParsed(c, e).value;
    assert ops[1..] == SubsystemChildrenParsed(c, e.children).value;
  }
}
