/** The model populators of the add handlers: populateCacheModelNode and
    its helpers in CacheAdd, populateClusteredCacheModelNode, the
    populateModel overrides of the four cache handlers, and the container's
    populate. Each copies keys of an add operation into the resource's model
    node; the node is updated in place, so every populator is a method on a
    Dmr.ModelNode, proved against a specification function of the operation
    and the node's old entries. */
module Populate {
  import opened Failures
  import opened JavaText
  import opened Dmr
  import opened Names
  import opened Parser
  import Writer
  import opened Enums
  import opened Sequences

  /** What a model-changing method leaves: the specification's node when it
      succeeds, and the specification's failure when it fails (the node is
      then left part-way, as the source leaves it). */
  predicate Applied(spec: Result<Node>, after: Node, failure: Option<Failure>) {
    match spec
    case Ok(n) => failure.None? && after == n
    case Err(e) => failure == Some(e)
  }

  // ------------------------------------------------------------ copying keys

  lemma OverlayNothing(node: Node, m: Node)
    ensures Overlay(node, m, {}) == node
  {
  }

  /** Copying one more key. */
  lemma OverlayAdd(node: Node, m: Node, keys: set<string>, k: string)
    ensures Overlay(node, m, keys + {k}) == if k in m then Overlay(node, m, keys)[k := m[k]] else Overlay(node, m, keys)
  {
  }

  /** Copying one set of keys and then another is copying both. */
  lemma OverlayUnion(node: Node, m: Node, a: set<string>, b: set<string>)
    ensures Overlay(Overlay(node, m, a), m, b) == Overlay(node, m, a + b)
  {
  }

  lemma FlatKeysSnoc(group: string, names: seq<string>, i: nat)
    requires i < |names|
    ensures FlatKeys(group, names[..i + 1]) == FlatKeys(group, names[..i]) + {Flatten(group, names[i])}
  {
    var a, b := FlatKeys(group, names[..i + 1]), FlatKeys(group, names[..i]) + {Flatten(group, names[i])};
    forall k | k in a ensures k in b {
      var n :| n in names[..i + 1] && k == Flatten(group, n);
      var j :| 0 <= j <= i && names[j] == n;
      if j < i {
        assert n in names[..i];
      }
    }
    forall k | k in b ensures k in a {
      if k in FlatKeys(group, names[..i]) {
        var n :| n in names[..i] && k == Flatten(group, n);
        var j :| 0 <= j < i && names[j] == n;
        assert n == names[..i + 1][j];
      } else {
        assert names[i] == names[..i + 1][i];
      }
    }
  }

  /** copyFlattenedElementsToModel: each listed attribute of the group that
      the operation defines is copied under its flattened key, and no other
      key changes. */
  method CopyFlattenedElementsToModel(operation: Node, model: ModelNode, element: string, attributes: seq<string>)
    modifies model
    ensures model.entries == Overlay(old(model.entries), operation, FlatKeys(element, attributes))
  {
    ghost var start := model.entries;
    assert FlatKeys(element, attributes[..0]) == {};
    OverlayNothing(start, operation);
    for i := 0 to |attributes|
      invariant model.entries == Overlay(start, operation, FlatKeys(element, attributes[..i]))
    {
      var key := Flatten(element, attributes[i]);
      FlatKeysSnoc(element, attributes, i);
      OverlayAdd(start, operation, FlatKeys(element, attributes[..i]), key);
      if key in operation {
        model.entries := model.entries[key := operation[key]];
      }
    }
    assert attributes[..|attributes|] == attributes;
  }

  /** `if (operation.hasDefined(key)) model.get(key).set(operation.get(key))` */
  method CopyDefined(operation: Node, model: ModelNode, key: string)
    modifies model
    ensures model.entries == Overlay(old(model.entries), operation, {key})
  {
    OverlayNothing(model.entries, operation);
    OverlayAdd(model.entries, operation, {}, key);
    assert {} + {key} == {key};
    if key in operation {
      model.entries := model.entries[key := operation[key]];
    }
  }

  /** The keys a group element's copy may write: its marker and its
      flattened attributes. */
  function GroupKeys(group: string, names: seq<string>): set<string> {
    {group} + FlatKeys(group, names)
  }

  /** A group is copied, marker first, only when the operation defines its marker. */
  function GroupCopied(op: Node, m: Node, group: string, names: seq<string>): Node {
    if group in op then Overlay(m, op, GroupKeys(group, names)) else m
  }

  /** The marker, then the attributes: `model.get(group).set(...)` followed
      by copyFlattenedElementsToModel. */
  method CopyGroup(operation: Node, model: ModelNode, group: string, names: seq<string>)
    modifies model
    ensures model.entries == GroupCopied(operation, old(model.entries), group, names)
  {
    if group in operation {
      ghost var before := model.entries;
      model.entries := model.entries[group := operation[group]];
      CopyFlattenedElementsToModel(operation, model, group, names);
      OverlayNothing(before, operation);
      OverlayAdd(before, operation, {}, group);
      assert {} + {group} == {group};
      OverlayUnion(before, operation, {group}, FlatKeys(group, names));
    }
  }

  // ------------------------------------------------------------ store properties

  /** The tokens of a packed property list: the text without its first
      character and its last two (substring(1, length - 2)), split at each
      comma. A text shorter than three characters makes substring throw. */
  function Tokens(text: string): (r: Result<seq<string>>)
    ensures r.Err? <==> |text| < 3
    ensures r.Ok? ==> r.value == Split(text[1..|text| - 2], ',')
  {
    if |text| < 3 then Err(MalformedProperties(text)) else Ok(Split(text[1..|text| - 2], ','))
  }

  /** One token: quotes become spaces, the token is split at '=', and the
      first two pieces, trimmed, are the name and the value; a token with no
      second piece makes the array index throw. */
  function TokenDecoded(text: string, token: string): (r: Result<(string, string)>)
    ensures r.Err? ==> r.error == MalformedProperties(text)
  {
    var pair := Split(Replace(token, '"', ' '), '=');
    if |pair| < 2 then Err(MalformedProperties(text)) else Ok((Trim(pair[0]), Trim(pair[1])))
  }

  /** The property list a packed text stands for: every token decoded, in order. */
  function DecodedTokens(text: string, tokens: seq<string>): (r: Result<seq<(string, string)>>)
    ensures r.Ok? ==> |r.value| == |tokens|
    decreases |tokens|
  {
    if tokens == [] then Ok([])
    else
      var p :- TokenDecoded(text, tokens[0]);
      var rest :- DecodedTokens(text, tokens[1..]);
      Ok([p] + rest)
  }

  function Decoded(text: string): Result<seq<(string, string)>> {
    var tokens :- Tokens(text);
    DecodedTokens(text, tokens)
  }

  /** The property list a model key holds: none yet when undefined. */
  function Existing(m: Node, element: string): Option<seq<(string, string)>> {
    if element !in m then Some([])
    else match m[element]
      case Props(ps) => Some(ps)
      case _ => None
  }

  /** `model.get(element).add(name, value)`: append to the property list;
      adding to a defined value that is not a list throws. */
  function PropertyAdded(m: Node, element: string, p: (string, string)): (r: Result<Node>)
    ensures r.Ok? <==> Existing(m, element).Some?
    ensures r.Ok? ==> r.value == m[element := Props(Existing(m, element).value + [p])]
  {
    match Existing(m, element)
    case None => Err(NotConvertible(element))
    case Some(ps) => Ok(m[element := Props(ps + [p])])
  }

  /** The token loop: decode one token, add it, go on with the next. */
  function TokensCopied(text: string, tokens: seq<string>, m: Node, element: string): (r: Result<Node>)
    ensures r.Ok? ==> forall k :: k != element ==> (k in r.value <==> k in m) && (k in m ==> r.value[k] == m[k])
    ensures r.Err? ==> r.error == MalformedProperties(text) || r.error == NotConvertible(element)
    decreases |tokens|
  {
    if tokens == [] then Ok(m)
    else
      var p :- TokenDecoded(text, tokens[0]);
      var next :- PropertyAdded(m, element, p);
      TokensCopied(text, tokens[1..], next, element)
  }

  /** copyFlattenedStorePropertiesToModel */
  function StorePropertiesCopied(op: Node, m: Node, element: string): (r: Result<Node>)
    ensures r.Ok? ==> forall k :: k != element ==> (k in r.value <==> k in m) && (k in m ==> r.value[k] == m[k])
    ensures r.Err? ==> element in op && (r.error == NotConvertible(element) || r.error.MalformedProperties?)
  {
    if element !in op then Ok(m)
    else match AsString(op[element])
      case None => Err(NotConvertible(element))
      case Some(text) =>
        var tokens :- Tokens(text);
        TokensCopied(text, tokens, m, element)
  }

  /** The first token decoded and added. */
  lemma TokensCopiedHead(text: string, tokens: seq<string>, m: Node, element: string)
    requires tokens != [] && Existing(m, element).Some? && TokenDecoded(text, tokens[0]).Ok?
    ensures TokensCopied(text, tokens, m, element)
         == TokensCopied(text, tokens[1..], m[element := Props(Existing(m, element).value + [TokenDecoded(text, tokens[0]).value])], element)
  {
  }

  /** Token by token adding to a property list is appending the decoded
      list to it at once; the key stays as it was when there is no token. */
  lemma {:induction false} TokensCopiedAppend(text: string, tokens: seq<string>, m: Node, element: string, ps: seq<(string, string)>)
    requires Existing(m, element).Some? && DecodedTokens(text, tokens) == Ok(ps)
    ensures TokensCopied(text, tokens, m, element) == Ok(if ps == [] then m else m[element := Props(Existing(m, element).value + ps)])
    decreases |tokens|
  {
    if tokens != [] {
      var before := Existing(m, element).value;
      var p := TokenDecoded(text, tokens[0]).value;
      var rest := DecodedTokens(text, tokens[1..]).value;
      assert ps == [p] + rest;
      var next := m[element := Props(before + [p])];
      TokensCopiedHead(text, tokens, m, element);
      assert Existing(next, element) == Some(before + [p]);
      TokensCopiedAppend(text, tokens[1..], next, element, rest);
      var after := if rest == [] then next else next[element := Props((before + [p]) + rest)];
      assert TokensCopied(text, tokens, m, element) == Ok(after);
      Assoc(before, [p], rest);
      if rest == [] {
        assert ps == [p];
      } else {
        UpdateTwice(m, element, Props(before + [p]), Props(before + ps));
      }
    } else {
      assert ps == [];
    }
  }

  lemma UpdateTwice(m: Node, k: string, a: Value, b: Value)
    ensures m[k := a][k := b] == m[k := b]
  {
  }

  /** A token that does not decode stops the loop with the decoder's failure. */
  lemma {:induction false} TokensCopiedFails(text: string, tokens: seq<string>, m: Node, element: string)
    requires Existing(m, element).Some? && DecodedTokens(text, tokens).Err?
    ensures TokensCopied(text, tokens, m, element) == Err(MalformedProperties(text))
    decreases |tokens|
  {
    var p := TokenDecoded(text, tokens[0]);
    if p.Ok? {
      TokensCopiedHead(text, tokens, m, element);
      TokensCopiedFails(text, tokens[1..], m[element := Props(Existing(m, element).value + [p.value])], element);
    }
  }

  /** The method: the same steps, on the model node. */
  method CopyFlattenedStorePropertiesToModel(operation: Node, model: ModelNode, element: string) returns (failure: Option<Failure>)
    modifies model
    ensures Applied(StorePropertiesCopied(operation, old(model.entries), element), model.entries, failure)
  {
    if element in operation {
      var text := AsString(operation[element]);
      if text.None? {
        return Some(NotConvertible(element));
      }
      var propertyList := text.value;
      if |propertyList| < 3 {
        return Some(MalformedProperties(propertyList));
      }
      var tokens := Split(propertyList[1..|propertyList| - 2], ',');
      ghost var start := model.entries;
      var i := 0;
      while i < |tokens|
        invariant 0 <= i <= |tokens|
        invariant TokensCopied(propertyList, tokens, start, element) == TokensCopied(propertyList, tokens[i..], model.entries, element)
      {
        assert tokens[i..][1..] == tokens[i + 1..];
        var token := Replace(tokens[i], '"', ' ');
        var keyValuePair := Split(token, '=');
        if |keyValuePair| < 2 {
          return Some(MalformedProperties(propertyList));
        }
        var added := PropertyAdded(model.entries, element, (Trim(keyValuePair[0]), Trim(keyValuePair[1])));
        if added.Err? {
          return Some(added.error);
        }
        model.entries := added.value;
        i := i + 1;
      }
    }
    return None;
  }

  // ------------------------------------------------------------ the decoder undoes the packing

  /** A name or value the packed form carries over: no quote, comma or
      equals sign in it, and nothing String.trim would remove. */
  predicate PlainText(s: string) {
    '"' !in s && ',' !in s && '=' !in s && Trimmed(s)
  }

  predicate Plain(ps: seq<(string, string)>) {
    forall i :: 0 <= i < |ps| ==> PlainText(ps[i].0) && PlainText(ps[i].1)
  }

  /** A text between two blanks. */
  function Padded(s: string): string {
    " " + s + " "
  }

  function Dropped(s: string): string
    requires |s| >= 1
  {
    s[..|s| - 1]
  }

  lemma ReplacedQuoted(s: string)
    requires '"' !in s
    ensures Replace(Quoted(s), '"', ' ') == Padded(s)
    ensures Replace("\"" + s, '"', ' ') == " " + s
  {
    ReplaceConcat("\"" + s, "\"", '"', ' ');
    ReplaceConcat("\"", s, '"', ' ');
    ReplaceAbsent(s, '"', ' ');
  }

  /** The entry without its last character: what substring leaves of the
      last entry of the packed text. */
  lemma DroppedEntry(p: (string, string))
    ensures |Entry(p)| >= 1
    ensures Dropped(Entry(p)) == Quoted(p.0) + "=" + ("\"" + p.1)
  {
    var e := Entry(p);
    assert e == Quoted(p.0) + "=" + ("\"" + p.1) + "\"";
  }

  lemma ReplacedEntry(p: (string, string))
    requires '"' !in p.0 && '"' !in p.1
    ensures Replace(Entry(p), '"', ' ') == Padded(p.0) + "=" + Padded(p.1)
    ensures Replace(Dropped(Entry(p)), '"', ' ') == Padded(p.0) + "=" + (" " + p.1)
  {
    ReplacedQuoted(p.0);
    ReplacedQuoted(p.1);
    ReplaceConcat(Quoted(p.0), "=", '"', ' ');
    ReplaceConcat(Quoted(p.0) + "=", Quoted(p.1), '"', ' ');
    DroppedEntry(p);
    ReplaceConcat(Quoted(p.0) + "=", "\"" + p.1, '"', ' ');
  }

  /** A token whose unquoted form is `a=b` decodes to the trimmed halves. */
  lemma TokenHalves(text: string, token: string, a: string, b: string)
    requires Replace(token, '"', ' ') == a + "=" + b
    requires '=' !in a && '=' !in b && b != ""
    ensures TokenDecoded(text, token) == Ok((Trim(a), Trim(b)))
  {
    assert Join([a, b], '=') == a + "=" + b by {
      assert [a, b][..1] == [a];
    }
    SplitJoin([a, b], '=');
  }

  lemma TrimOfPadded(s: string)
    requires Trimmed(s)
    ensures Trim(Padded(s)) == s && Trim(" " + s) == s
  {
    TrimPadded(" ", s, " ");
    assert " " + s + "" == " " + s;
    TrimPadded(" ", s, "");
  }

  lemma TokenOfEntry(text: string, p: (string, string))
    requires PlainText(p.0) && PlainText(p.1)
    ensures TokenDecoded(text, Entry(p)) == Ok(p)
  {
    ReplacedEntry(p);
    TokenHalves(text, Entry(p), Padded(p.0), Padded(p.1));
    TrimOfPadded(p.0);
    TrimOfPadded(p.1);
  }

  lemma TokenOfLastEntry(text: string, p: (string, string))
    requires PlainText(p.0) && PlainText(p.1)
    ensures |Entry(p)| >= 1 && TokenDecoded(text, Dropped(Entry(p))) == Ok(p)
  {
    ReplacedEntry(p);
    TokenHalves(text, Dropped(Entry(p)), Padded(p.0), " " + p.1);
    TrimOfPadded(p.0);
    TrimOfPadded(p.1);
  }

  lemma NoCommaInEntry(p: (string, string))
    requires ',' !in p.0 && ',' !in p.1
    ensures ',' !in Entry(p) && ',' !in Dropped(Entry(p))
  {
    DroppedEntry(p);
  }

  /** Tokens that each decode to their property decode, together, to the list. */
  lemma {:induction false} DecodedAll(text: string, ts: seq<string>, qs: seq<(string, string)>)
    requires |ts| == |qs|
    requires forall i :: 0 <= i < |ts| ==> TokenDecoded(text, ts[i]) == Ok(qs[i])
    ensures DecodedTokens(text, ts) == Ok(qs)
    decreases |ts|
  {
    if ts != [] {
      var head := TokenDecoded(text, ts[0]);
      assert head == Ok(qs[0]);
      forall i | 0 <= i < |ts| - 1 ensures TokenDecoded(text, ts[1..][i]) == Ok(qs[1..][i]) {
        assert ts[1..][i] == ts[i + 1] && qs[1..][i] == qs[i + 1];
      }
      DecodedAll(text, ts[1..], qs[1..]);
      assert [qs[0]] + qs[1..] == qs;
    }
  }

  /** The tokens substring and split find in the packed text: the entries,
      the last one without its closing quote. */
  function PackedTokenList(ps: seq<(string, string)>): seq<string>
    requires |ps| >= 1
  {
    DroppedEntry(ps[|ps| - 1]);
    Entries(ps[..|ps| - 1]) + [Dropped(Entry(ps[|ps| - 1]))]
  }

  lemma PackedInner(ps: seq<(string, string)>)
    requires |ps| >= 1
    ensures var text := Packed(ps);
            |text| >= 3 && text[1..|text| - 2] == Join(PackedTokenList(ps), ',')
  {
    var es := Entries(ps);
    var j := Join(es, ',');
    var text := Packed(ps);
    DroppedEntry(ps[|ps| - 1]);
    JoinDropLast(es, ',');
    Unbraced(j);
    assert es[..|es| - 1] == Entries(ps[..|ps| - 1]);
  }

  lemma Unbraced(j: string)
    requires |j| >= 1
    ensures var text := "{" + j + "}"; text[1..|text| - 2] == j[..|j| - 1]
  {
  }

  lemma PackedTokensPlain(ps: seq<(string, string)>)
    requires |ps| >= 1 && Plain(ps)
    ensures var ts := PackedTokenList(ps);
            (forall i :: 0 <= i < |ts| ==> ',' !in ts[i]) && ts[|ts| - 1] != ""
  {
    var ts := PackedTokenList(ps);
    forall i | 0 <= i < |ts| ensures ',' !in ts[i] {
      assert PlainText(ps[i].0) && PlainText(ps[i].1);
      NoCommaInEntry(ps[i]);
      if i < |ts| - 1 {
        assert ts[i] == Entry(ps[i]);
      }
    }
    var p := ps[|ps| - 1];
    DroppedEntry(p);
    assert |Quoted(p.0) + "=" + ("\"" + p.1)| >= 1;
  }

  lemma PackedTokens(ps: seq<(string, string)>)
    requires |ps| >= 1 && Plain(ps)
    ensures Tokens(Packed(ps)) == Ok(PackedTokenList(ps))
  {
    PackedInner(ps);
    PackedTokensPlain(ps);
    SplitJoin(PackedTokenList(ps), ',');
  }

  /** Every packed token decodes to its property. */
  lemma PackedTokensDecoded(text: string, ps: seq<(string, string)>)
    requires |ps| >= 1 && Plain(ps)
    ensures var ts := PackedTokenList(ps);
            |ts| == |ps| && forall i :: 0 <= i < |ts| ==> TokenDecoded(text, ts[i]) == Ok(ps[i])
  {
    var n := |ps| - 1;
    var ts := PackedTokenList(ps);
    forall i | 0 <= i < |ts| ensures TokenDecoded(text, ts[i]) == Ok(ps[i]) {
      if i < n {
        assert ts[i] == Entry(ps[i]);
        TokenOfEntry(text, ps[i]);
      } else {
        TokenOfLastEntry(text, ps[n]);
      }
    }
  }

  /** Decoding the packed text the parser stores gives back its property
      list, in order, when no name or value holds a quote, a comma or an
      equals sign or starts or ends with a blank. */
  lemma DecodeRoundTrip(ps: seq<(string, string)>)
    requires |ps| >= 1 && Plain(ps)
    ensures Decoded(Packed(ps)) == Ok(ps)
  {
    PackedTokens(ps);
    PackedTokensDecoded(Packed(ps), ps);
    DecodedAll(Packed(ps), PackedTokenList(ps), ps);
  }

  /** A packed list of plain properties is decoded and appended to the
      list the key already holds. */
  lemma StorePropertiesCopiedPacked(op: Node, m: Node, element: string, ps: seq<(string, string)>)
    requires |ps| >= 1 && Plain(ps) && Existing(m, element).Some?
    requires element in op && op[element] == Str(Packed(ps))
    ensures StorePropertiesCopied(op, m, element) == Ok(m[element := Props(Existing(m, element).value + ps)])
  {
    DecodeRoundTrip(ps);
    PackedTokens(ps);
    TokensCopiedAppend(Packed(ps), PackedTokenList(ps), m, element, ps);
  }

  // ------------------------------------------------------------ populateCacheModelNode

  /** Configuration.CacheMode.LOCAL.name() */
  const LOCAL_MODE: string := "LOCAL"

  /** The attribute lists populateCacheModelNode copies for each group. */
  const CACHE_FLAGS: set<string> := {START, BATCHING, INDEXING}
  const LOCKING_COPIED: seq<string> := [ISOLATION, STRIPING, ACQUIRE_TIMEOUT, CONCURRENCY_LEVEL]
  const TRANSACTION_COPIED: seq<string> := [STOP_TIMEOUT, MODE, LOCKING, EAGER_LOCKING]
  const EVICTION_COPIED: seq<string> := [STRATEGY, MAX_ENTRIES, INTERVAL]
  const EXPIRATION_COPIED: seq<string> := [MAX_IDLE, LIFESPAN, INTERVAL]
  const STORE_COPIED: seq<string> := [CLASS, SHARED, PRELOAD, PASSIVATION, FETCH_STATE, PURGE, SINGLETON]
  const FILE_STORE_COPIED: seq<string> := [RELATIVE_TO, PATH, SHARED, PRELOAD, PASSIVATION, FETCH_STATE, PURGE, SINGLETON]

  /** The value a node holds under a key, if any. */
  function ValueAt(m: Node, k: string): Option<Value> {
    if k in m then Some(m[k]) else None
  }

  /** The name and, for a local cache, the cache mode, both taken from the
      last element of the operation's address. */
  function Named(op: Operation, m: Node): Node
    requires |op.address| >= 1
  {
    var last := op.address[|op.address| - 1];
    var named := m[NAME := Str(last.1)];
    if last.0 == LOCAL_CACHE then named[CACHE_MODE := Str(LOCAL_MODE)] else named
  }

  /** The three cache attributes and the four plain groups, in the source's order. */
  function ElementsCopied(p: Node, m: Node): Node {
    var flags := Overlay(m, p, CACHE_FLAGS);
    var locking := GroupCopied(p, flags, LOCKING, LOCKING_COPIED);
    var transaction := GroupCopied(p, locking, TRANSACTION, TRANSACTION_COPIED);
    var eviction := GroupCopied(p, transaction, EVICTION, EVICTION_COPIED);
    GroupCopied(p, eviction, EXPIRATION, EXPIRATION_COPIED)
  }

  /** A store group: marker and attributes, then its packed properties. */
  function StoreCopied(p: Node, m: Node, group: string, names: seq<string>): Result<Node> {
    if group in p then StorePropertiesCopied(p, Overlay(m, p, GroupKeys(group, names)), Flatten(group, PROPERTIES))
    else Ok(m)
  }

  /** The store, then the file store. */
  function StoresCopied(p: Node, m: Node): Result<Node> {
    var stored :- StoreCopied(p, m, STORE, STORE_COPIED);
    StoreCopied(p, stored, FILE_STORE, FILE_STORE_COPIED)
  }

  /** populateCacheModelNode */
  function CachePopulated(op: Operation, m: Node): Result<Node>
    requires |op.address| >= 1
  {
    StoresCopied(op.params, ElementsCopied(op.params, Named(op, m)))
  }

  method CopyStore(operation: Node, model: ModelNode, group: string, names: seq<string>) returns (failure: Option<Failure>)
    modifies model
    ensures Applied(StoreCopied(operation, old(model.entries), group, names), model.entries, failure)
  {
    failure := None;
    if group in operation {
      CopyGroup(operation, model, group, names);
      failure := CopyFlattenedStorePropertiesToModel(operation, model, Flatten(group, PROPERTIES));
    }
  }

  method NameModel(operation: Operation, model: ModelNode)
    requires |operation.address| >= 1
    modifies model
    ensures model.entries == Named(operation, old(model.entries))
  {
    var last := operation.address[|operation.address| - 1];
    model.entries := model.entries[NAME := Str(last.1)];
    if last.0 == LOCAL_CACHE {
      model.entries := model.entries[CACHE_MODE := Str(LOCAL_MODE)];
    }
  }

  method CopyElements(p: Node, model: ModelNode)
    modifies model
    ensures model.entries == ElementsCopied(p, old(model.entries))
  {
    ghost var start := model.entries;
    CopyDefined(p, model, START);
    CopyDefined(p, model, BATCHING);
    CopyDefined(p, model, INDEXING);
    OverlayUnion(start, p, {START}, {BATCHING});
    OverlayUnion(start, p, {START} + {BATCHING}, {INDEXING});
    assert {START} + {BATCHING} + {INDEXING} == CACHE_FLAGS;
    CopyGroup(p, model, LOCKING, LOCKING_COPIED);
    CopyGroup(p, model, TRANSACTION, TRANSACTION_COPIED);
    CopyGroup(p, model, EVICTION, EVICTION_COPIED);
    CopyGroup(p, model, EXPIRATION, EXPIRATION_COPIED);
  }

  method PopulateCacheModelNode(operation: Operation, model: ModelNode) returns (failure: Option<Failure>)
    requires |operation.address| >= 1
    modifies model
    ensures Applied(CachePopulated(operation, old(model.entries)), model.entries, failure)
  {
    NameModel(operation, model);
    CopyElements(operation.params, model);
    failure := CopyStore(operation.params, model, STORE, STORE_COPIED);
    if failure.Some? {
      return;
    }
    failure := CopyStore(operation.params, model, FILE_STORE, FILE_STORE_COPIED);
  }

  // ------------------------------------------------------------ what the cache populator writes, key by key

  /** The keys a group's copy may write, when the operation defines the group. */
  function Marked(p: Node, group: string, names: seq<string>): set<string> {
    if group in p then GroupKeys(group, names) else {}
  }

  function ElementKeys(p: Node): set<string> {
    CACHE_FLAGS + Marked(p, LOCKING, LOCKING_COPIED) + Marked(p, TRANSACTION, TRANSACTION_COPIED)
      + Marked(p, EVICTION, EVICTION_COPIED) + Marked(p, EXPIRATION, EXPIRATION_COPIED)
  }

  function StoreKeys(p: Node): set<string> {
    Marked(p, STORE, STORE_COPIED) + Marked(p, FILE_STORE, FILE_STORE_COPIED)
  }

  /** Every key populateCacheModelNode copies from the operation when defined there. */
  function CopiedKeys(p: Node): set<string> {
    ElementKeys(p) + StoreKeys(p)
  }

  /** The value populateCacheModelNode leaves under a key other than the two
      property lists: the cache name, the local mode, a copied key, or what the
      node held before. */
  function CacheKeyPopulated(op: Operation, m: Node, k: string): Option<Value>
    requires |op.address| >= 1
  {
    var last := op.address[|op.address| - 1];
    if k == NAME then Some(Str(last.1))
    else if k == CACHE_MODE && last.0 == LOCAL_CACHE then Some(Str(LOCAL_MODE))
    else if k in CopiedKeys(op.params) && k in op.params then Some(op.params[k])
    else ValueAt(m, k)
  }

  lemma OverlayAt(node: Node, m: Node, keys: set<string>, k: string)
    ensures ValueAt(Overlay(node, m, keys), k) == if k in keys && k in m then Some(m[k]) else ValueAt(node, k)
  {
  }

  lemma GroupCopiedOverlay(p: Node, m: Node, group: string, names: seq<string>)
    ensures GroupCopied(p, m, group, names) == Overlay(m, p, Marked(p, group, names))
  {
    if group !in p {
      OverlayNothing(m, p);
    }
  }

  lemma ElementsOverlay(p: Node, m: Node)
    ensures ElementsCopied(p, m) == Overlay(m, p, ElementKeys(p))
  {
    var flags := Overlay(m, p, CACHE_FLAGS);
    var k1 := CACHE_FLAGS + Marked(p, LOCKING, LOCKING_COPIED);
    var k2 := k1 + Marked(p, TRANSACTION, TRANSACTION_COPIED);
    var k3 := k2 + Marked(p, EVICTION, EVICTION_COPIED);
    GroupCopiedOverlay(p, flags, LOCKING, LOCKING_COPIED);
    OverlayUnion(m, p, CACHE_FLAGS, Marked(p, LOCKING, LOCKING_COPIED));
    var locking := Overlay(m, p, k1);
    GroupCopiedOverlay(p, locking, TRANSACTION, TRANSACTION_COPIED);
    OverlayUnion(m, p, k1, Marked(p, TRANSACTION, TRANSACTION_COPIED));
    var transaction := Overlay(m, p, k2);
    GroupCopiedOverlay(p, transaction, EVICTION, EVICTION_COPIED);
    OverlayUnion(m, p, k2, Marked(p, EVICTION, EVICTION_COPIED));
    var eviction := Overlay(m, p, k3);
    GroupCopiedOverlay(p, eviction, EXPIRATION, EXPIRATION_COPIED);
    OverlayUnion(m, p, k3, Marked(p, EXPIRATION, EXPIRATION_COPIED));
  }

  /** Off its property key, a store's copy is a group copy. */
  lemma StoreCopiedAt(p: Node, m: Node, group: string, names: seq<string>, k: string)
    requires StoreCopied(p, m, group, names).Ok? && k != Flatten(group, PROPERTIES)
    ensures ValueAt(StoreCopied(p, m, group, names).value, k) == ValueAt(Overlay(m, p, Marked(p, group, names)), k)
  {
    if group !in p {
      OverlayNothing(m, p);
    }
  }

  /** Off the two property keys, the stores' copies are group copies. */
  lemma StoresAt(p: Node, x: Node, k: string)
    requires StoresCopied(p, x).Ok?
    requires k != Flatten(STORE, PROPERTIES) && k != Flatten(FILE_STORE, PROPERTIES)
    ensures ValueAt(StoresCopied(p, x).value, k) == ValueAt(Overlay(x, p, StoreKeys(p)), k)
  {
    var ms, mf := Marked(p, STORE, STORE_COPIED), Marked(p, FILE_STORE, FILE_STORE_COPIED);
    var stored := StoreCopied(p, x, STORE, STORE_COPIED).value;
    StoreCopiedAt(p, x, STORE, STORE_COPIED, k);
    StoreCopiedAt(p, stored, FILE_STORE, FILE_STORE_COPIED, k);
    OverlayAt(stored, p, mf, k);
    OverlayAt(x, p, ms, k);
    OverlayAt(x, p, ms + mf, k);
  }

  /** Keys whose name holds the separator are told apart by their group and attribute. */
  lemma FlattenDistinct(g1: string, n1: string, g2: string, n2: string)
    requires SEPARATOR[0] !in g1 && SEPARATOR[0] !in g2
    requires g1 != g2 || n1 != n2
    ensures Flatten(g1, n1) != Flatten(g2, n2)
  {
    var f1, f2 := Flatten(g1, n1), Flatten(g2, n2);
    if |g1| < |g2| {
      assert f1[|g1|] != f2[|g1|] by {
        assert f1[|g1|] == SEPARATOR[0] && f2[|g1|] == g2[|g1|];
      }
    } else if |g2| < |g1| {
      assert f1[|g2|] != f2[|g2|] by {
        assert f2[|g2|] == SEPARATOR[0] && f1[|g2|] == g1[|g2|];
      }
    } else if g1 != g2 {
      assert f1[..|g1|] != f2[..|g2|] by {
        assert f1[..|g1|] == g1 && f2[..|g2|] == g2;
      }
    } else if f1 == f2 {
      FlattenInjective(g1, n1, n2);
    }
  }

  /** A key without the separator is no flattened key. */
  lemma PlainKeyOutside(k: string, group: string, names: seq<string>)
    requires SEPARATOR[0] !in k
    ensures k !in FlatKeys(group, names)
  {
    forall n | n in names ensures k != Flatten(group, n) {
      FlattenHasSeparator(group, n);
    }
  }

  /** A property key is written by no group copy: no attribute list holds
      `properties`, and the groups' names differ. */
  lemma PropertiesKeyOutside(g: string, group: string, names: seq<string>)
    requires SEPARATOR[0] !in g && SEPARATOR[0] !in group
    requires PROPERTIES !in names
    ensures Flatten(g, PROPERTIES) !in GroupKeys(group, names)
  {
    FlattenHasSeparator(g, PROPERTIES);
    forall n | n in names ensures Flatten(g, PROPERTIES) != Flatten(group, n) {
      FlattenDistinct(g, PROPERTIES, group, n);
    }
  }

  /** A plain key that is no cache flag and names no group is never copied. */
  lemma PlainKeyNotCopied(p: Node, k: string)
    requires SEPARATOR[0] !in k && k !in CACHE_FLAGS
    requires k != LOCKING && k != TRANSACTION && k != EVICTION && k != EXPIRATION && k != STORE && k != FILE_STORE
    ensures k !in CopiedKeys(p)
  {
    PlainKeyOutside(k, LOCKING, LOCKING_COPIED);
    PlainKeyOutside(k, TRANSACTION, TRANSACTION_COPIED);
    PlainKeyOutside(k, EVICTION, EVICTION_COPIED);
    PlainKeyOutside(k, EXPIRATION, EXPIRATION_COPIED);
    PlainKeyOutside(k, STORE, STORE_COPIED);
    PlainKeyOutside(k, FILE_STORE, FILE_STORE_COPIED);
  }

  /** The name and the cache mode are never copied from the operation. */
  lemma NamesNotCopied(p: Node)
    ensures NAME !in CopiedKeys(p) && CACHE_MODE !in CopiedKeys(p)
  {
    PlainKeyNotCopied(p, NAME);
    PlainKeyNotCopied(p, CACHE_MODE);
  }

  /** Nor are the two property lists. */
  lemma PropertiesNotInElements(p: Node, g: string)
    requires g == STORE || g == FILE_STORE
    ensures Flatten(g, PROPERTIES) !in ElementKeys(p)
  {
    FlattenHasSeparator(g, PROPERTIES);
    PropertiesKeyOutside(g, LOCKING, LOCKING_COPIED);
    PropertiesKeyOutside(g, TRANSACTION, TRANSACTION_COPIED);
    PropertiesKeyOutside(g, EVICTION, EVICTION_COPIED);
    PropertiesKeyOutside(g, EXPIRATION, EXPIRATION_COPIED);
  }

  lemma PropertiesNotInStores(p: Node, g: string)
    requires g == STORE || g == FILE_STORE
    ensures Flatten(g, PROPERTIES) !in StoreKeys(p)
  {
    PropertiesKeyOutside(g, STORE, STORE_COPIED);
    PropertiesKeyOutside(g, FILE_STORE, FILE_STORE_COPIED);
  }

  lemma PropertiesNotCopied(p: Node, g: string)
    requires g == STORE || g == FILE_STORE
    ensures Flatten(g, PROPERTIES) !in CopiedKeys(p)
  {
    PropertiesNotInElements(p, g);
    PropertiesNotInStores(p, g);
  }

  /** Every key but the two property lists ends up as CacheKeyPopulated
      says: the cache name from the address, LOCAL for a local cache, the
      operation's value for a copied key it defines, and otherwise what the
      node held. */
  lemma CachePopulatedKeys(op: Operation, m: Node, k: string)
    requires |op.address| >= 1 && CachePopulated(op, m).Ok?
    requires k != Flatten(STORE, PROPERTIES) && k != Flatten(FILE_STORE, PROPERTIES)
    ensures ValueAt(CachePopulated(op, m).value, k) == CacheKeyPopulated(op, m, k)
  {
    var p, named := op.params, Named(op, m);
    var e := ElementKeys(p);
    ElementsOverlay(p, named);
    StoresAt(p, ElementsCopied(p, named), k);
    OverlayUnion(named, p, e, StoreKeys(p));
    OverlayAt(named, p, CopiedKeys(p), k);
    NamesNotCopied(p);
  }

  /** A flattened key is in a group's keys only when it is one of that group's listed attributes. */
  lemma FlatKeyOutside(g: string, a: string, group: string, names: seq<string>)
    requires SEPARATOR[0] !in g && SEPARATOR[0] !in group
    requires g != group || a !in names
    ensures Flatten(g, a) !in GroupKeys(group, names)
  {
    FlattenHasSeparator(g, a);
    forall n | n in names ensures Flatten(g, a) != Flatten(group, n) {
      FlattenDistinct(g, a, group, n);
    }
  }

  /** No cache flag or element group holds a flattened store key. */
  lemma StoreKeyNotInElements(p: Node, a: string)
    ensures Flatten(STORE, a) !in ElementKeys(p)
  {
    FlattenHasSeparator(STORE, a);
    assert SEPARATOR[0] !in START && SEPARATOR[0] !in BATCHING && SEPARATOR[0] !in INDEXING;
    FlatKeyOutside(STORE, a, LOCKING, LOCKING_COPIED);
    FlatKeyOutside(STORE, a, TRANSACTION, TRANSACTION_COPIED);
    FlatKeyOutside(STORE, a, EVICTION, EVICTION_COPIED);
    FlatKeyOutside(STORE, a, EXPIRATION, EXPIRATION_COPIED);
  }

  /** populateCacheModelNode copies relative-to and path only for the file
      store, never under the store group. */
  lemma StorePathKeyNotCopied(p: Node, a: string)
    requires a == RELATIVE_TO || a == PATH
    ensures Flatten(STORE, a) !in CopiedKeys(p)
  {
    StoreKeyNotInElements(p, a);
    FlatKeyOutside(STORE, a, STORE, STORE_COPIED);
    FlatKeyOutside(STORE, a, FILE_STORE, FILE_STORE_COPIED);
  }

  /** So the store's relative-to and path, which buildCacheStore's file-store
      fallback reads, hold after the populate exactly what they held before:
      from an empty model, that fallback always takes its defaults. */
  lemma StorePathNeverPopulated(op: Operation, m: Node, a: string)
    requires |op.address| >= 1 && CachePopulated(op, m).Ok?
    requires a == RELATIVE_TO || a == PATH
    ensures ValueAt(CachePopulated(op, m).value, Flatten(STORE, a)) == ValueAt(m, Flatten(STORE, a))
  {
    var k := Flatten(STORE, a);
    StorePathKeyNotCopied(op.params, a);
    FlattenHasSeparator(STORE, a);
    FlattenDistinct(STORE, a, STORE, PROPERTIES);
    FlattenDistinct(STORE, a, FILE_STORE, PROPERTIES);
    assert SEPARATOR[0] !in NAME && SEPARATOR[0] !in CACHE_MODE;
    CachePopulatedKeys(op, m, k);
  }

  /** One store group over a node without its property list: it succeeds
      and leaves the packed list decoded, when the operation carries one. */
  lemma StorePacked(p: Node, x: Node, g: string, names: seq<string>, ps: seq<(string, string)>)
    requires SEPARATOR[0] !in g && PROPERTIES !in names
    requires |ps| >= 1 && Plain(ps) && Flatten(g, PROPERTIES) !in x
    requires Flatten(g, PROPERTIES) in p ==> p[Flatten(g, PROPERTIES)] == Str(Packed(ps))
    ensures var r := StoreCopied(p, x, g, names); var key := Flatten(g, PROPERTIES);
            r.Ok? && ValueAt(r.value, key) == if g in p && key in p then Some(Props(ps)) else None
  {
    var key := Flatten(g, PROPERTIES);
    if g in p {
      var y := Overlay(x, p, GroupKeys(g, names));
      PropertiesKeyOutside(g, g, names);
      OverlayAt(x, p, GroupKeys(g, names), key);
      assert Existing(y, key) == Some([]);
      if key in p {
        StorePropertiesCopiedPacked(p, y, key, ps);
        assert [] + ps == ps;
      }
    }
  }

  /** Both stores over a node without property lists. */
  lemma StoresPacked(p: Node, x: Node, storeProps: seq<(string, string)>, fileStoreProps: seq<(string, string)>)
    requires |storeProps| >= 1 && Plain(storeProps) && |fileStoreProps| >= 1 && Plain(fileStoreProps)
    requires Flatten(STORE, PROPERTIES) !in x && Flatten(FILE_STORE, PROPERTIES) !in x
    requires Flatten(STORE, PROPERTIES) in p ==> p[Flatten(STORE, PROPERTIES)] == Str(Packed(storeProps))
    requires Flatten(FILE_STORE, PROPERTIES) in p ==> p[Flatten(FILE_STORE, PROPERTIES)] == Str(Packed(fileStoreProps))
    ensures var r := StoresCopied(p, x);
            var storeKey, fileStoreKey := Flatten(STORE, PROPERTIES), Flatten(FILE_STORE, PROPERTIES);
            r.Ok?
            && ValueAt(r.value, storeKey) == (if STORE in p && storeKey in p then Some(Props(storeProps)) else None)
            && ValueAt(r.value, fileStoreKey) == (if FILE_STORE in p && fileStoreKey in p then Some(Props(fileStoreProps)) else None)
  {
    var storeKey, fileStoreKey := Flatten(STORE, PROPERTIES), Flatten(FILE_STORE, PROPERTIES);
    StorePacked(p, x, STORE, STORE_COPIED, storeProps);
    var stored := StoreCopied(p, x, STORE, STORE_COPIED).value;
    FlattenDistinct(STORE, PROPERTIES, FILE_STORE, PROPERTIES);
    PropertiesKeyOutside(FILE_STORE, STORE, STORE_COPIED);
    PropertiesKeyOutside(STORE, FILE_STORE, FILE_STORE_COPIED);
    StoreCopiedAt(p, x, STORE, STORE_COPIED, fileStoreKey);
    OverlayAt(x, p, Marked(p, STORE, STORE_COPIED), fileStoreKey);
    StorePacked(p, stored, FILE_STORE, FILE_STORE_COPIED, fileStoreProps);
    StoreCopiedAt(p, stored, FILE_STORE, FILE_STORE_COPIED, storeKey);
    OverlayAt(stored, p, Marked(p, FILE_STORE, FILE_STORE_COPIED), storeKey);
  }

  /** For an operation whose property lists are packed plain lists, as the
      parser leaves them, population succeeds and the model holds each list
      decoded as a property list. */
  lemma CachePopulatedProperties(op: Operation, m: Node, storeProps: seq<(string, string)>, fileStoreProps: seq<(string, string)>)
    requires |op.address| >= 1
    requires |storeProps| >= 1 && Plain(storeProps) && |fileStoreProps| >= 1 && Plain(fileStoreProps)
    requires Flatten(STORE, PROPERTIES) !in m && Flatten(FILE_STORE, PROPERTIES) !in m
    requires Flatten(STORE, PROPERTIES) in op.params ==> op.params[Flatten(STORE, PROPERTIES)] == Str(Packed(storeProps))
    requires Flatten(FILE_STORE, PROPERTIES) in op.params ==> op.params[Flatten(FILE_STORE, PROPERTIES)] == Str(Packed(fileStoreProps))
    ensures var r := CachePopulated(op, m); var p := op.params;
            var storeKey, fileStoreKey := Flatten(STORE, PROPERTIES), Flatten(FILE_STORE, PROPERTIES);
            r.Ok?
            && ValueAt(r.value, storeKey) == (if STORE in p && storeKey in p then Some(Props(storeProps)) else None)
            && ValueAt(r.value, fileStoreKey) == (if FILE_STORE in p && fileStoreKey in p then Some(Props(fileStoreProps)) else None)
  {
    var p, named := op.params, Named(op, m);
    var storeKey, fileStoreKey := Flatten(STORE, PROPERTIES), Flatten(FILE_STORE, PROPERTIES);
    FlattenHasSeparator(STORE, PROPERTIES);
    FlattenHasSeparator(FILE_STORE, PROPERTIES);
    PropertiesNotInElements(p, STORE);
    PropertiesNotInElements(p, FILE_STORE);
    ElementsOverlay(p, named);
    OverlayAt(named, p, ElementKeys(p), storeKey);
    OverlayAt(named, p, ElementKeys(p), fileStoreKey);
    StoresPacked(p, ElementsCopied(p, named), storeProps, fileStoreProps);
  }

  /** The cache populator fails only on a store's property list: one that is
      not a string, or one the decoder cannot cut up. */
  lemma CachePopulatedFails(op: Operation, m: Node)
    requires |op.address| >= 1 && CachePopulated(op, m).Err?
    ensures var e := CachePopulated(op, m).error; var p := op.params;
            (STORE in p && Flatten(STORE, PROPERTIES) in p && (e == NotConvertible(Flatten(STORE, PROPERTIES)) || e.MalformedProperties?))
            || (FILE_STORE in p && Flatten(FILE_STORE, PROPERTIES) in p && (e == NotConvertible(Flatten(FILE_STORE, PROPERTIES)) || e.MalformedProperties?))
  {
  }

  // ------------------------------------------------------------ the clustered populators

  /** The attributes populateClusteredCacheModelNode copies. */
  const CLUSTERED_COPIED: set<string> := {MODE, QUEUE_SIZE, QUEUE_FLUSH_INTERVAL, REMOTE_TIMEOUT}
  const DISTRIBUTED_COPIED: set<string> := {OWNERS, VIRTUAL_NODES, L1_LIFESPAN}
  const REHASHING_COPIED: seq<string> := [ENABLED, TIMEOUT]
  const STATE_TRANSFER_COPIED: seq<string> := [ENABLED, TIMEOUT, FLUSH_TIMEOUT]

  /** populateClusteredCacheModelNode */
  function ClusteredPopulated(p: Node, m: Node): Node {
    Overlay(m, p, CLUSTERED_COPIED)
  }

  /** DistributedCacheAdd.populateModel */
  function DistributedPopulated(p: Node, m: Node): Node {
    GroupCopied(p, Overlay(ClusteredPopulated(p, m), p, DISTRIBUTED_COPIED), REHASHING, REHASHING_COPIED)
  }

  /** ReplicatedCacheAdd.populateModel */
  function ReplicatedPopulated(p: Node, m: Node): Node {
    GroupCopied(p, ClusteredPopulated(p, m), STATE_TRANSFER, STATE_TRANSFER_COPIED)
  }

  method PopulateClusteredCacheModelNode(operation: Operation, model: ModelNode)
    modifies model
    ensures model.entries == ClusteredPopulated(operation.params, old(model.entries))
  {
    var p := operation.params;
    ghost var start := model.entries;
    CopyDefined(p, model, MODE);
    CopyDefined(p, model, QUEUE_SIZE);
    CopyDefined(p, model, QUEUE_FLUSH_INTERVAL);
    CopyDefined(p, model, REMOTE_TIMEOUT);
    OverlayUnion(start, p, {MODE}, {QUEUE_SIZE});
    OverlayUnion(start, p, {MODE} + {QUEUE_SIZE}, {QUEUE_FLUSH_INTERVAL});
    OverlayUnion(start, p, {MODE} + {QUEUE_SIZE} + {QUEUE_FLUSH_INTERVAL}, {REMOTE_TIMEOUT});
    assert {MODE} + {QUEUE_SIZE} + {QUEUE_FLUSH_INTERVAL} + {REMOTE_TIMEOUT} == CLUSTERED_COPIED;
  }

  method PopulateDistributedModel(operation: Operation, model: ModelNode)
    modifies model
    ensures model.entries == DistributedPopulated(operation.params, old(model.entries))
  {
    var p := operation.params;
    PopulateClusteredCacheModelNode(operation, model);
    ghost var clustered := model.entries;
    CopyDefined(p, model, OWNERS);
    CopyDefined(p, model, VIRTUAL_NODES);
    CopyDefined(p, model, L1_LIFESPAN);
    OverlayUnion(clustered, p, {OWNERS}, {VIRTUAL_NODES});
    OverlayUnion(clustered, p, {OWNERS} + {VIRTUAL_NODES}, {L1_LIFESPAN});
    assert {OWNERS} + {VIRTUAL_NODES} + {L1_LIFESPAN} == DISTRIBUTED_COPIED;
    CopyGroup(p, model, REHASHING, REHASHING_COPIED);
  }

  method PopulateReplicatedModel(operation: Operation, model: ModelNode)
    modifies model
    ensures model.entries == ReplicatedPopulated(operation.params, old(model.entries))
  {
    PopulateClusteredCacheModelNode(operation, model);
    CopyGroup(operation.params, model, STATE_TRANSFER, STATE_TRANSFER_COPIED);
  }

  /** InvalidationCacheAdd.populateModel: the clustered populate and nothing else. */
  method PopulateInvalidationModel(operation: Operation, model: ModelNode)
    modifies model
    ensures model.entries == ClusteredPopulated(operation.params, old(model.entries))
  {
    PopulateClusteredCacheModelNode(operation, model);
  }

  /** ClusteredCacheAdd.populateModel is overridden to do nothing, so it
      does not run the base cache populate either. */
  method ClusteredPopulateModel(operation: Operation, model: ModelNode)
    modifies model
    ensures model.entries == old(model.entries)
  {
  }

  /** LocalCacheAdd.populateModel: the base populate and nothing else. */
  method PopulateLocalModel(operation: Operation, model: ModelNode) returns (failure: Option<Failure>)
    requires |operation.address| >= 1
    modifies model
    ensures Applied(CachePopulated(operation, old(model.entries)), model.entries, failure)
  {
    failure := PopulateCacheModelNode(operation, model);
  }

  /** The clustered populate writes each of its four attributes the
      operation defines, verbatim, and no other key: in particular neither
      the name nor the cache mode. */
  lemma ClusteredPopulatedKeys(p: Node, m: Node, k: string)
    ensures ValueAt(ClusteredPopulated(p, m), k) == if k in CLUSTERED_COPIED && k in p then Some(p[k]) else ValueAt(m, k)
    ensures k == NAME || k == CACHE_MODE ==> ValueAt(ClusteredPopulated(p, m), k) == ValueAt(m, k)
  {
    OverlayAt(m, p, CLUSTERED_COPIED, k);
  }

  /** The keys the distributed populate may write. */
  function DistributedKeys(p: Node): set<string> {
    CLUSTERED_COPIED + DISTRIBUTED_COPIED + Marked(p, REHASHING, REHASHING_COPIED)
  }

  function ReplicatedKeys(p: Node): set<string> {
    CLUSTERED_COPIED + Marked(p, STATE_TRANSFER, STATE_TRANSFER_COPIED)
  }

  /** The distributed populate copies each key of DistributedKeys the
      operation defines and changes nothing else; the rehashing attributes
      come only with the rehashing marker. */
  lemma DistributedPopulatedKeys(p: Node, m: Node, k: string)
    ensures ValueAt(DistributedPopulated(p, m), k) == if k in DistributedKeys(p) && k in p then Some(p[k]) else ValueAt(m, k)
  {
    var clustered := ClusteredPopulated(p, m);
    OverlayUnion(m, p, CLUSTERED_COPIED, DISTRIBUTED_COPIED);
    GroupCopiedOverlay(p, Overlay(clustered, p, DISTRIBUTED_COPIED), REHASHING, REHASHING_COPIED);
    OverlayUnion(m, p, CLUSTERED_COPIED + DISTRIBUTED_COPIED, Marked(p, REHASHING, REHASHING_COPIED));
    OverlayAt(m, p, DistributedKeys(p), k);
  }

  lemma ReplicatedPopulatedKeys(p: Node, m: Node, k: string)
    ensures ValueAt(ReplicatedPopulated(p, m), k) == if k in ReplicatedKeys(p) && k in p then Some(p[k]) else ValueAt(m, k)
  {
    GroupCopiedOverlay(p, ClusteredPopulated(p, m), STATE_TRANSFER, STATE_TRANSFER_COPIED);
    OverlayUnion(m, p, CLUSTERED_COPIED, Marked(p, STATE_TRANSFER, STATE_TRANSFER_COPIED));
    OverlayAt(m, p, ReplicatedKeys(p), k);
  }

  /** None of the clustered populates sets the name or the cache mode. */
  lemma ClusteredKeysExcludeNames(p: Node)
    ensures NAME !in DistributedKeys(p) && CACHE_MODE !in DistributedKeys(p)
    ensures NAME !in ReplicatedKeys(p) && CACHE_MODE !in ReplicatedKeys(p)
  {
    PlainKeyOutside(NAME, REHASHING, REHASHING_COPIED);
    PlainKeyOutside(CACHE_MODE, REHASHING, REHASHING_COPIED);
    PlainKeyOutside(NAME, STATE_TRANSFER, STATE_TRANSFER_COPIED);
    PlainKeyOutside(CACHE_MODE, STATE_TRANSFER, STATE_TRANSFER_COPIED);
  }

  /** A distributed cache's model populated from scratch has no cache mode,
      so the writer, which looks the mode up by name, writes `undefined`
      and fails unless the catalog knows a constant of that name. */
  lemma DistributedModelUnwritable(c: Catalog, p: Node, m: Node)
    requires CACHE_MODE !in m && Writer.UNDEFINED_TEXT !in c.cacheModes
    ensures Writer.ClusteredWritten(c, DistributedPopulated(p, m)) == Err(UnknownConstant(CACHE_MODE, Writer.UNDEFINED_TEXT))
  {
    DistributedPopulatedKeys(p, m, CACHE_MODE);
    ClusteredKeysExcludeNames(p);
  }

  /** A local cache's model always has cache mode LOCAL and the address's name. */
  lemma LocalPopulatedNames(op: Operation, m: Node)
    requires |op.address| >= 1 && op.address[|op.address| - 1].0 == LOCAL_CACHE
    requires CachePopulated(op, m).Ok?
    ensures var r := CachePopulated(op, m).value;
            ValueAt(r, CACHE_MODE) == Some(Str(LOCAL_MODE)) && ValueAt(r, NAME) == Some(Str(op.address[|op.address| - 1].1))
  {
    FlattenHasSeparator(STORE, PROPERTIES);
    FlattenHasSeparator(FILE_STORE, PROPERTIES);
    CachePopulatedKeys(op, m, CACHE_MODE);
    CachePopulatedKeys(op, m, NAME);
  }

  // ------------------------------------------------------------ CacheContainerAdd.populate

  /** The container attributes populate copies when defined. */
  const CONTAINER_COPIED: set<string> := {JNDI_NAME, LISTENER_EXECUTOR, EVICTION_EXECUTOR, REPLICATION_QUEUE_EXECUTOR}

  /** The list a key holds: an empty one when undefined, none when it holds another kind of value. */
  function ExistingItems(m: Node, key: string): Option<seq<Value>> {
    if key !in m then Some([]) else AsList(m[key])
  }

  /** `model.get(key).add(v)`: an undefined key becomes a one-element list,
      a list grows by one, and any other value cannot take an element. */
  function ItemAdded(m: Node, key: string, v: Value): Result<Node> {
    match ExistingItems(m, key)
    case None => Err(NotConvertible(key))
    case Some(xs) => Ok(m[key := List(xs + [v])])
  }

  /** The alias loop, one element after the other. */
  function ItemsAdded(m: Node, key: string, items: seq<Value>): Result<Node>
    decreases |items|
  {
    if items == [] then Ok(m)
    else
      var before :- ItemsAdded(m, key, items[..|items| - 1]);
      ItemAdded(before, key, items[|items| - 1])
  }

  /** populate: default-cache is required; the four attributes and the
      transport marker are copied when defined; the aliases are appended. */
  function ContainerPopulated(source: Node, target: Node): Result<Node> {
    if DEFAULT_CACHE !in source then Err(RequiredUndefined(DEFAULT_CACHE))
    else
      var copied := Overlay(target[DEFAULT_CACHE := source[DEFAULT_CACHE]], source, CONTAINER_COPIED);
      var aliased :-
        if ALIAS !in source then Ok(copied)
        else match AsList(source[ALIAS])
          case None => Err(NotConvertible(ALIAS))
          case Some(items) => ItemsAdded(copied, ALIAS, items);
      Ok(Overlay(aliased, source, {TRANSPORT}))
  }

  method AddAliases(items: seq<Value>, target: ModelNode) returns (failure: Option<Failure>)
    modifies target
    ensures Applied(ItemsAdded(old(target.entries), ALIAS, items), target.entries, failure)
  {
    ghost var start := target.entries;
    for i := 0 to |items|
      invariant ItemsAdded(start, ALIAS, items[..i]) == Ok(target.entries)
    {
      assert items[..i + 1][..i] == items[..i];
      var added := ItemAdded(target.entries, ALIAS, items[i]);
      if added.Err? {
        ItemsAddedAppend(start, ALIAS, items[..i]);
        ItemsAddedAppend(start, ALIAS, items);
        return Some(added.error);
      }
      target.entries := added.value;
    }
    assert items[..|items|] == items;
    return None;
  }

  method CopyContainerAttributes(source: Node, target: ModelNode)
    modifies target
    ensures target.entries == Overlay(old(target.entries), source, CONTAINER_COPIED)
  {
    ghost var start := target.entries;
    CopyDefined(source, target, JNDI_NAME);
    CopyDefined(source, target, LISTENER_EXECUTOR);
    CopyDefined(source, target, EVICTION_EXECUTOR);
    CopyDefined(source, target, REPLICATION_QUEUE_EXECUTOR);
    OverlayUnion(start, source, {JNDI_NAME}, {LISTENER_EXECUTOR});
    OverlayUnion(start, source, {JNDI_NAME} + {LISTENER_EXECUTOR}, {EVICTION_EXECUTOR});
    OverlayUnion(start, source, {JNDI_NAME} + {LISTENER_EXECUTOR} + {EVICTION_EXECUTOR}, {REPLICATION_QUEUE_EXECUTOR});
    assert {JNDI_NAME} + {LISTENER_EXECUTOR} + {EVICTION_EXECUTOR} + {REPLICATION_QUEUE_EXECUTOR} == CONTAINER_COPIED;
  }

  method Populate(source: Node, target: ModelNode) returns (failure: Option<Failure>)
    modifies target
    ensures Applied(ContainerPopulated(source, old(target.entries)), target.entries, failure)
  {
    if DEFAULT_CACHE !in source {
      return Some(RequiredUndefined(DEFAULT_CACHE));
    }
    target.entries := target.entries[DEFAULT_CACHE := source[DEFAULT_CACHE]];
    CopyContainerAttributes(source, target);
    if ALIAS in source {
      var items := AsList(source[ALIAS]);
      if items.None? {
        return Some(NotConvertible(ALIAS));
      }
      failure := AddAliases(items.value, target);
      if failure.Some? {
        return;
      }
    }
    CopyDefined(source, target, TRANSPORT);
    return None;
  }

  /** Adding the aliases one by one appends them, in order, to the list the
      key holds; a key holding anything but a list refuses the first one. */
  lemma {:induction false} ItemsAddedAppend(m: Node, key: string, items: seq<Value>)
    ensures ExistingItems(m, key).Some? ==>
              ItemsAdded(m, key, items) == Ok(if items == [] then m else m[key := List(ExistingItems(m, key).value + items)])
    ensures ExistingItems(m, key).None? && items != [] ==> ItemsAdded(m, key, items) == Err(NotConvertible(key))
    decreases |items|
  {
    if items != [] {
      var init, last := items[..|items| - 1], items[|items| - 1];
      ItemsAddedAppend(m, key, init);
      if ExistingItems(m, key).Some? {
        var xs := ExistingItems(m, key).value;
        var before := if init == [] then m else m[key := List(xs + init)];
        assert ExistingItems(before, key) == Some(xs + init) by {
          if init == [] {
            assert xs + init == xs;
          }
        }
        assert ItemsAdded(m, key, items) == ItemAdded(before, key, last);
        assert xs + init + [last] == xs + items by {
          assert init + [last] == items;
          Assoc(xs, init, [last]);
        }
        UpdateTwice(m, key, List(xs + init), List(xs + items));
      } else if init != [] {
        assert ItemsAdded(m, key, items) == Err(NotConvertible(key));
      }
    }
  }

  /** default-cache is required: without it populate fails, with it the
      target holds the source's value. */
  lemma ContainerDefaultCache(source: Node, target: Node)
    ensures ContainerPopulated(source, target).Err? && ContainerPopulated(source, target).error == RequiredUndefined(DEFAULT_CACHE)
            <== DEFAULT_CACHE !in source
    ensures ContainerPopulated(source, target).Ok? ==> DEFAULT_CACHE in source && ValueAt(ContainerPopulated(source, target).value, DEFAULT_CACHE) == Some(source[DEFAULT_CACHE])
  {
    if DEFAULT_CACHE in source && ContainerPopulated(source, target).Ok? {
      var copied := Overlay(target[DEFAULT_CACHE := source[DEFAULT_CACHE]], source, CONTAINER_COPIED);
      OverlayAt(target[DEFAULT_CACHE := source[DEFAULT_CACHE]], source, CONTAINER_COPIED, DEFAULT_CACHE);
      if ALIAS in source {
        ItemsAddedAppend(copied, ALIAS, AsList(source[ALIAS]).value);
      }
    }
  }

  /** Off the alias list, populate leaves each key as the source's value
      when copied and defined there, and as it was otherwise. */
  lemma ContainerPopulatedKeys(source: Node, target: Node, k: string)
    requires ContainerPopulated(source, target).Ok? && k != ALIAS && k != DEFAULT_CACHE
    ensures ValueAt(ContainerPopulated(source, target).value, k)
         == if k in CONTAINER_COPIED + {TRANSPORT} && k in source then Some(source[k]) else ValueAt(target, k)
  {
    var named := target[DEFAULT_CACHE := source[DEFAULT_CACHE]];
    var copied := Overlay(named, source, CONTAINER_COPIED);
    OverlayAt(named, source, CONTAINER_COPIED, k);
    var aliased := if ALIAS !in source then copied else ItemsAdded(copied, ALIAS, AsList(source[ALIAS]).value).value;
    if ALIAS in source {
      ItemsAddedAppend(copied, ALIAS, AsList(source[ALIAS]).value);
    }
    assert ValueAt(aliased, k) == ValueAt(copied, k);
    OverlayAt(aliased, source, {TRANSPORT}, k);
  }

  /** The aliases land in the target's list in source order. */
  lemma ContainerAliases(source: Node, target: Node, items: seq<Value>)
    requires DEFAULT_CACHE in source && ALIAS in source && source[ALIAS] == List(items) && items != []
    requires ExistingItems(target, ALIAS).Some?
    ensures ContainerPopulated(source, target).Ok?
    ensures ValueAt(ContainerPopulated(source, target).value, ALIAS) == Some(List(ExistingItems(target, ALIAS).value + items))
  {
    var named := target[DEFAULT_CACHE := source[DEFAULT_CACHE]];
    var copied := Overlay(named, source, CONTAINER_COPIED);
    OverlayAt(named, source, CONTAINER_COPIED, ALIAS);
    assert ExistingItems(copied, ALIAS) == ExistingItems(target, ALIAS);
    ItemsAddedAppend(copied, ALIAS, items);
    var aliased := copied[ALIAS := List(ExistingItems(target, ALIAS).value + items)];
    OverlayAt(aliased, source, {TRANSPORT}, ALIAS);
  }

  /** Only the transport marker is copied: the transport's flattened
      attributes stay as the target had them. */
  lemma ContainerTransportAttributes(source: Node, target: Node, name: string)
    requires ContainerPopulated(source, target).Ok?
    ensures ValueAt(ContainerPopulated(source, target).value, Flatten(TRANSPORT, name)) == ValueAt(target, Flatten(TRANSPORT, name))
  {
    var k := Flatten(TRANSPORT, name);
    assert k[0] == 't' && |k| > |TRANSPORT|;
    ContainerPopulatedKeys(source, target, k);
  }
}
