/** What the writer promises: an attribute only when its key is defined, a
    group element only when its marker is defined, and the caches of a
    container grouped by kind in a fixed order, each kind in model order. */
module WriterProperties {
  import opened Failures
  import opened Dmr
  import opened Names
  import opened Sequences
  import opened Writer

  // ------------------------------------------------------------ attributes

  /** Every token is an attribute named in `names`. */
  ghost predicate AttributesOnly(ts: seq<Token>, names: seq<string>) {
    forall t :: t in ts ==> t.Attr? && t.name in names
  }

  /** The attribute (n, v) is written exactly when n is one of the listed
      attributes and its key is defined with the text v. */
  ghost predicate WritesDefined(ts: seq<Token>, m: Node, group: Option<string>, names: seq<string>) {
    forall n, v :: Attr(n, v) in ts <==> n in names && Key(group, n) in m && AsString(m[Key(group, n)]) == Some(v)
  }

  /** A run of writeOptional calls writes nothing but the listed attributes,
      and of those exactly the defined ones, with their values. */
  lemma {:induction false} AttributesWrittenDefined(m: Node, group: Option<string>, names: seq<string>)
    requires AttributesWritten(m, group, names).Ok?
    ensures AttributesOnly(AttributesWritten(m, group, names).value, names)
    ensures WritesDefined(AttributesWritten(m, group, names).value, m, group, names)
    decreases |names|
  {
    if names != [] {
      var a := OptionalWritten(m, group, names[0]).value;
      var rest := AttributesWritten(m, group, names[1..]).value;
      AttributesWrittenDefined(m, group, names[1..]);
      assert AttributesWritten(m, group, names).value == a + rest;
      assert forall n :: n in names <==> n == names[0] || n in names[1..];
    }
  }

  /** A run of writeOptional calls fails exactly when a defined key holds a
      value with no text form. */
  lemma {:induction false} AttributesWrittenFails(m: Node, group: Option<string>, names: seq<string>)
    ensures AttributesWritten(m, group, names).Err?
        <==> exists n :: n in names && Key(group, n) in m && AsString(m[Key(group, n)]).None?
    decreases |names|
  {
    if names != [] {
      AttributesWrittenFails(m, group, names[1..]);
      assert forall n :: n in names <==> n == names[0] || n in names[1..];
    }
  }

  /** A group element is written exactly when its marker is defined; it
      holds exactly the defined attributes of the group. */
  lemma GroupWrittenIffMarker(m: Node, group: string, names: seq<string>)
    requires GroupWritten(m, group, names).Ok?
    ensures var ts := GroupWritten(m, group, names).value;
            (ts != [] <==> group in m)
            && (group in m ==>
                  |ts| >= 2 && ts[0] == Start(group) && ts[|ts| - 1] == End
                  && AttributesOnly(ts[1..|ts| - 1], names)
                  && WritesDefined(ts, m, Some(group), names))
  {
    if group in m {
      var a := AttributesWritten(m, Some(group), names).value;
      AttributesWrittenDefined(m, Some(group), names);
      var ts := GroupWritten(m, group, names).value;
      assert ts == [Start(group)] + a + [End];
      assert ts[1..|ts| - 1] == a;
      assert forall t :: t in ts <==> t == Start(group) || t in a || t == End;
    }
  }

  // ------------------------------------------------------------ cache order

  /** The caches a token stream writes, as (element, name) pairs: a cache
      element's name is the first `name` attribute after its start. */
  function Heads(ts: seq<Token>, pending: Option<string>): seq<(string, string)>
    decreases |ts|
  {
    if ts == [] then []
    else match ts[0]
      case Start(n) => Heads(ts[1..], if IsCacheKind(n) then Some(n) else pending)
      case Attr(n, v) =>
        if n == NAME && pending.Some? then [(pending.value, v)] + Heads(ts[1..], None)
        else Heads(ts[1..], pending)
      case _ => Heads(ts[1..], pending)
  }

  /** The cache element still waiting for its name after the stream. */
  function Pending(ts: seq<Token>, pending: Option<string>): Option<string>
    decreases |ts|
  {
    if ts == [] then pending
    else match ts[0]
      case Start(n) => Pending(ts[1..], if IsCacheKind(n) then Some(n) else pending)
      case Attr(n, v) => Pending(ts[1..], if n == NAME && pending.Some? then None else pending)
      case _ => Pending(ts[1..], pending)
  }

  lemma {:induction false} HeadsAppend(a: seq<Token>, b: seq<Token>, pending: Option<string>)
    ensures Heads(a + b, pending) == Heads(a, pending) + Heads(b, Pending(a, pending))
    ensures Pending(a + b, pending) == Pending(b, Pending(a, pending))
    decreases |a|
  {
    if a == [] {
      assert a + b == b;
    } else {
      assert (a + b)[0] == a[0] && (a + b)[1..] == a[1..] + b;
      match a[0]
      case Start(n) =>
        HeadsAppend(a[1..], b, if IsCacheKind(n) then Some(n) else pending);
      case Attr(n, v) =>
        if n == NAME && pending.Some? {
          HeadsAppend(a[1..], b, None);
          Assoc([(pending.value, v)], Heads(a[1..], None), Heads(b, Pending(a[1..], None)));
        } else {
          HeadsAppend(a[1..], b, pending);
        }
      case Chars(_) => HeadsAppend(a[1..], b, pending);
      case End => HeadsAppend(a[1..], b, pending);
    }
  }

  /** Tokens that open no cache element. */
  ghost predicate OpensNoCache(ts: seq<Token>) {
    forall t :: t in ts ==> t.Start? ==> !IsCacheKind(t.name)
  }

  /** Tokens that open no cache element and carry no name attribute. */
  ghost predicate Quiet(ts: seq<Token>) {
    OpensNoCache(ts) && forall t :: t in ts ==> t.Attr? ==> t.name != NAME
  }

  /** A stream that opens no cache leaves the pending element waiting. */
  lemma {:induction false} QuietHeads(ts: seq<Token>, pending: Option<string>)
    requires Quiet(ts)
    ensures Heads(ts, pending) == [] && Pending(ts, pending) == pending
    decreases |ts|
  {
    if ts != [] {
      assert ts[0] in ts;
      assert forall t :: t in ts[1..] ==> t in ts;
      QuietHeads(ts[1..], pending);
    }
  }

  /** After a cache's name, the rest of its element names no other cache. */
  lemma {:induction false} OpensNoCacheHeads(ts: seq<Token>)
    requires OpensNoCache(ts)
    ensures Heads(ts, None) == [] && Pending(ts, None) == None
    decreases |ts|
  {
    if ts != [] {
      assert ts[0] in ts;
      assert forall t :: t in ts[1..] ==> t in ts;
      OpensNoCacheHeads(ts[1..]);
    }
  }

  lemma AttributesQuiet(m: Node, group: Option<string>, names: seq<string>)
    requires AttributesWritten(m, group, names).Ok?
    requires NAME !in names
    ensures Quiet(AttributesWritten(m, group, names).value)
  {
    AttributesWrittenDefined(m, group, names);
  }

  lemma GroupOpensNoCache(m: Node, group: string, names: seq<string>)
    requires GroupWritten(m, group, names).Ok?
    requires !IsCacheKind(group)
    ensures OpensNoCache(GroupWritten(m, group, names).value)
  {
    if group in m {
      AttributesWrittenDefined(m, Some(group), names);
      var a := AttributesWritten(m, Some(group), names).value;
      assert forall t :: t in [Start(group)] + a + [End] ==> t == Start(group) || t in a || t == End;
    }
  }

  lemma {:induction false} PropertiesOpenNoCache(ps: seq<(string, string)>)
    ensures OpensNoCache(PropertiesWritten(ps))
    decreases |ps|
  {
    if ps != [] {
      PropertiesOpenNoCache(ps[..|ps| - 1]);
    }
  }

  lemma StoreOpensNoCache(m: Node)
    requires StoreWritten(m).Ok?
    ensures OpensNoCache(StoreWritten(m).value)
  {
    if STORE in m {
      AttributesWrittenDefined(m, Some(STORE), STORE_FLAGS);
      var ps := PropertyListOf(m, Flatten(STORE, PROPERTIES), Flatten(STORE, PROPERTIES)).value;
      if ps.Some? {
        PropertiesOpenNoCache(ps.value);
      }
    }
  }

  lemma FileStoreOpensNoCache(m: Node)
    requires FileStoreWritten(m).Ok?
    ensures OpensNoCache(FileStoreWritten(m).value)
  {
    if FILE_STORE in m {
      AttributesWrittenDefined(m, Some(FILE_STORE), FILE_STORE_ATTRIBUTES);
      var ps := PropertyListOf(m, Flatten(FILE_STORE, PROPERTIES), Flatten(FILE_STORE, PROPERTIES)).value;
      if ps.Some? {
        PropertiesOpenNoCache(ps.value);
      }
    }
  }

  lemma OpensNoCacheAppend(a: seq<Token>, b: seq<Token>)
    requires OpensNoCache(a) && OpensNoCache(b)
    ensures OpensNoCache(a + b)
  {
    assert forall t :: t in a + b ==> t in a || t in b;
  }

  lemma CacheGroupsOpenNoCache(m: Node)
    requires CacheGroupsWritten(m).Ok?
    ensures OpensNoCache(CacheGroupsWritten(m).value)
  {
    AttributesWrittenDefined(m, None, CACHE_ATTRIBUTES);
    GroupOpensNoCache(m, LOCKING, LOCKING_ATTRIBUTES);
    GroupOpensNoCache(m, TRANSACTION, TRANSACTION_ATTRIBUTES);
    GroupOpensNoCache(m, EVICTION, EVICTION_ATTRIBUTES);
    GroupOpensNoCache(m, EXPIRATION, EXPIRATION_ATTRIBUTES);
    var top := AttributesWritten(m, None, CACHE_ATTRIBUTES).value;
    var locking := GroupWritten(m, LOCKING, LOCKING_ATTRIBUTES).value;
    var transaction := GroupWritten(m, TRANSACTION, TRANSACTION_ATTRIBUTES).value;
    var eviction := GroupWritten(m, EVICTION, EVICTION_ATTRIBUTES).value;
    var expiration := GroupWritten(m, EXPIRATION, EXPIRATION_ATTRIBUTES).value;
    OpensNoCacheAppend(top, locking);
    OpensNoCacheAppend(top + locking, transaction);
    OpensNoCacheAppend(top + locking + transaction, eviction);
    OpensNoCacheAppend(top + locking + transaction + eviction, expiration);
  }

  /** The body of a cache element starts with its name and opens no cache. */
  lemma CacheBodyShape(m: Node, name: string)
    requires CacheBodyWritten(m, name).Ok?
    ensures var ts := CacheBodyWritten(m, name).value;
            |ts| >= 1 && ts[0] == Attr(NAME, name) && OpensNoCache(ts[1..])
  {
    var groups := CacheGroupsWritten(m).value;
    var store := StoreWritten(m).value;
    var fileStore := FileStoreWritten(m).value;
    CacheGroupsOpenNoCache(m);
    StoreOpensNoCache(m);
    FileStoreOpensNoCache(m);
    OpensNoCacheAppend(groups, store);
    OpensNoCacheAppend(groups + store, fileStore);
    var ts := CacheBodyWritten(m, name).value;
    assert ts == [Attr(NAME, name)] + groups + store + fileStore;
    Assoc([Attr(NAME, name)], groups, store);
    Assoc([Attr(NAME, name)], groups + store, fileStore);
    assert ts[1..] == groups + store + fileStore;
  }

  /** What a cache element carries before its name. */
  lemma LeadQuiet(c: Enums.Catalog, kind: string, m: Node)
    requires LeadWritten(c, kind, m).Ok?
    ensures Quiet(LeadWritten(c, kind, m).value)
  {
    if kind != LOCAL_CACHE {
      if ClusteredWritten(c, m).Ok? {
        AttributesQuiet(m, None, CLUSTERED_ATTRIBUTES);
      }
      if !(kind == INVALIDATION_CACHE || kind == REPLICATED_CACHE) {
        AttributesQuiet(m, None, DISTRIBUTED_ATTRIBUTES);
      }
    }
  }

  lemma TailOpensNoCache(kind: string, m: Node)
    requires TailWritten(kind, m).Ok?
    ensures OpensNoCache(TailWritten(kind, m).value)
  {
    if kind == REPLICATED_CACHE {
      GroupOpensNoCache(m, STATE_TRANSFER, STATE_TRANSFER_ATTRIBUTES);
    } else if kind != LOCAL_CACHE && kind != INVALIDATION_CACHE {
      GroupOpensNoCache(m, REHASHING, REHASHING_ATTRIBUTES);
    }
  }

  /** A cache element's tokens: its kind's start, what comes before the
      name, the name, then the rest, which opens no other cache. */
  lemma ElementHeads(kind: string, lead: seq<Token>, name: string, after: seq<Token>)
    requires IsCacheKind(kind) && Quiet(lead) && OpensNoCache(after)
    ensures Heads([Start(kind)] + lead + ([Attr(NAME, name)] + after), None) == [(kind, name)]
    ensures Pending([Start(kind)] + lead + ([Attr(NAME, name)] + after), None) == None
  {
    OpensNoCacheHeads(after);
    HeadsAppend([Start(kind)], lead + ([Attr(NAME, name)] + after), None);
    HeadsAppend(lead, [Attr(NAME, name)] + after, Some(kind));
    QuietHeads(lead, Some(kind));
    HeadsAppend([Attr(NAME, name)], after, Some(kind));
    Assoc([Start(kind)], lead, [Attr(NAME, name)] + after);
  }

  /** One cache element writes one cache: its own kind and name. */
  lemma CacheHeads(c: Enums.Catalog, kind: string, cache: CacheResource)
    requires IsCacheKind(kind)
    requires CacheWritten(c, kind, cache).Ok?
    ensures Heads(CacheWritten(c, kind, cache).value, None) == [(kind, cache.name)]
    ensures Pending(CacheWritten(c, kind, cache).value, None) == None
  {
    var lead := LeadWritten(c, kind, cache.node).value;
    var body := CacheBodyWritten(cache.node, cache.name).value;
    var tail := TailWritten(kind, cache.node).value;
    LeadQuiet(c, kind, cache.node);
    CacheBodyShape(cache.node, cache.name);
    TailOpensNoCache(kind, cache.node);
    var after := body[1..] + tail + [End];
    OpensNoCacheAppend(body[1..], tail);
    assert OpensNoCache([End]);
    OpensNoCacheAppend(body[1..] + tail, [End]);
    ElementHeads(kind, lead, cache.name, after);
    assert body == [Attr(NAME, cache.name)] + body[1..];
    CacheShape([Start(kind)] + lead, body, tail, [Attr(NAME, cache.name)], body[1..]);
  }

  /** Regrouping a cache element around its name. */
  lemma CacheShape(open: seq<Token>, body: seq<Token>, tail: seq<Token>, name: seq<Token>, rest: seq<Token>)
    requires body == name + rest
    ensures open + body + tail + [End] == open + (name + (rest + tail + [End]))
  {
    Assoc(open, body, tail);
    Assoc(open, body + tail, [End]);
    Assoc(name, rest, tail);
    Assoc(name, rest + tail, [End]);
  }

  /** The (kind, name) pairs of a kind's caches, in model order. */
  function Named(kind: string, caches: seq<CacheResource>): (r: seq<(string, string)>)
    ensures |r| == |caches| && forall i :: 0 <= i < |caches| ==> r[i] == (kind, caches[i].name)
  {
    seq(|caches|, i requires 0 <= i < |caches| => (kind, caches[i].name))
  }

  /** A cache loop writes the caches of its kind in model order. */
  lemma {:induction false} CachesHeads(c: Enums.Catalog, kind: string, caches: seq<CacheResource>)
    requires IsCacheKind(kind)
    requires CachesWritten(c, kind, caches).Ok?
    ensures Heads(CachesWritten(c, kind, caches).value, None) == Named(kind, caches)
    ensures Pending(CachesWritten(c, kind, caches).value, None) == None
    decreases |caches|
  {
    if caches != [] {
      assert Named(kind, caches) == [(kind, caches[0].name)] + Named(kind, caches[1..]);
      var a := CacheWritten(c, kind, caches[0]).value;
      var rest := CachesWritten(c, kind, caches[1..]).value;
      assert CachesWritten(c, kind, caches).value == a + rest;
      CacheHeads(c, kind, caches[0]);
      CachesHeads(c, kind, caches[1..]);
      HeadsAppend(a, rest, None);
    }
  }

  /** A container writes its local caches, then its invalidation, replicated
      and distributed caches, each kind in model order. */
  lemma ContainerCachesOrder(c: Enums.Catalog, k: ContainerResource)
    requires ContainerCachesWritten(c, k).Ok?
    ensures Heads(ContainerCachesWritten(c, k).value, None)
         == Named(LOCAL_CACHE, k.local) + Named(INVALIDATION_CACHE, k.invalidation)
            + Named(REPLICATED_CACHE, k.replicated) + Named(DISTRIBUTED_CACHE, k.distributed)
  {
    var l := CachesWritten(c, LOCAL_CACHE, k.local).value;
    var i := CachesWritten(c, INVALIDATION_CACHE, k.invalidation).value;
    var r := CachesWritten(c, REPLICATED_CACHE, k.replicated).value;
    var d := CachesWritten(c, DISTRIBUTED_CACHE, k.distributed).value;
    CachesHeads(c, LOCAL_CACHE, k.local);
    CachesHeads(c, INVALIDATION_CACHE, k.invalidation);
    CachesHeads(c, REPLICATED_CACHE, k.replicated);
    CachesHeads(c, DISTRIBUTED_CACHE, k.distributed);
    HeadsAppend(l, i, None);
    HeadsAppend(l + i, r, None);
    HeadsAppend(l + i + r, d, None);
  }

  // ------------------------------------------------------------ the subsystem

  /** With its default-container attribute written, a subsystem whose
      cache-container child is undefined fails, and one whose child holds no
      container writes an element with that attribute alone. */
  lemma ContentNeedsContainerList(c: Enums.Catalog, m: SubsystemResource)
    requires RequiredWritten(m.node, None, DEFAULT_CACHE_CONTAINER).Ok?
    ensures m.containers.None? ==> ContentWritten(c, Some(m)) == Err(NotConvertible(CACHE_CONTAINER))
    ensures m.containers == Some([]) ==>
              ContentWritten(c, Some(m))
              == Ok([Start(SUBSYSTEM)] + RequiredWritten(m.node, None, DEFAULT_CACHE_CONTAINER).value + [End])
  {
    if m.containers == Some([]) {
      var a := RequiredWritten(m.node, None, DEFAULT_CACHE_CONTAINER).value;
      assert [Start(SUBSYSTEM)] + a + [] + [End] == [Start(SUBSYSTEM)] + a + [End];
    }
  }
}
