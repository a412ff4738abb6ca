/** The writer and the reader agree on the plain configuration groups: for
    the locking, transaction and expiration elements of a cache, reading back
    what the writer emits gives exactly the flattened keys the model holds. */
module RoundTrip {
  import opened Failures
  import opened JavaText
  import opened Dmr
  import opened Enums
  import opened Names
  import opened Parser
  import opened Writer
  import opened WriterProperties
  import opened ParserProperties

  // ------------------------------------------------------------ reading the stream back

  /** The attribute tokens at the front of a stream, as (name, value) pairs,
      and what follows them. */
  function ReadAttributes(ts: seq<Token>): (r: (seq<(string, string)>, seq<Token>))
    ensures |r.1| <= |ts|
    decreases |ts|
  {
    if ts != [] && ts[0].Attr? then
      var (pairs, rest) := ReadAttributes(ts[1..]);
      ([(ts[0].name, ts[0].value)] + pairs, rest)
    else ([], ts)
  }

  /** An element without child elements, as an XML reader presents it:
      start, attributes, optional text, end. */
  function ReadElement(ts: seq<Token>): (r: Option<(Element, seq<Token>)>)
    ensures r.Some? ==> |r.value.1| < |ts|
  {
    if ts == [] || !ts[0].Start? then None
    else
      var (attributes, afterAttributes) := ReadAttributes(ts[1..]);
      var text := if afterAttributes != [] && afterAttributes[0].Chars? then afterAttributes[0].text else "";
      var afterText := if afterAttributes != [] && afterAttributes[0].Chars? then afterAttributes[1..] else afterAttributes;
      if afterText != [] && afterText[0] == End then Some((Element(ts[0].name, attributes, [], text), afterText[1..]))
      else None
  }

  /** A run of such elements. */
  function ReadElements(ts: seq<Token>): Option<seq<Element>>
    decreases |ts|
  {
    if ts == [] then Some([])
    else match ReadElement(ts)
      case None => None
      case Some((e, rest)) =>
        match ReadElements(rest)
        case None => None
        case Some(es) => Some([e] + es)
  }

  // ------------------------------------------------------------ values that survive the text form

  /** A model value the writer's text form and the reader's conversion of
      that kind carry over unchanged. */
  ghost predicate Conforms(kind: Kind, v: Value) {
    match kind
    case Text => v.Str?
    case Flag => v.Bool?
    case Int32 => v.Int? && INT_MIN <= v.i <= INT_MAX
    case Int64 => v.Long? && LONG_MIN <= v.l <= LONG_MAX
    case OneOf(constants) => v.Str? && v.s in constants
    case Deprecated => false
    case Held => false
  }

  /** Reading back the written text of a conforming value gives the value. */
  lemma ConvertWritten(element: string, attribute: string, kind: Kind, v: Value)
    requires Conforms(kind, v)
    ensures AsString(v).Some? && Convert(element, attribute, kind, AsString(v).value) == Ok(Some(v))
  {
    match kind
    case Text =>
    case Flag => ParseBooleanOfToString(v.b);
    case Int32 => ParseOfToString(v.i, INT_MIN, INT_MAX);
    case Int64 => ParseOfToString(v.l, LONG_MIN, LONG_MAX);
    case OneOf(_) =>
  }

  /** Every defined attribute of the group conforms to the kind the reader's
      rule table gives it. */
  ghost predicate GroupConforms(m: Node, group: string, rules: seq<Rule>, names: seq<string>) {
    forall n :: n in names && Flatten(group, n) in m ==>
      Find(rules, n).Some? && Conforms(Find(rules, n).value, m[Flatten(group, n)])
  }

  /** Attribute tokens followed by something else read as their pairs. */
  lemma {:induction false} ReadAttributeTokens(ts: seq<Token>, rest: seq<Token>)
    requires forall t :: t in ts ==> t.Attr?
    requires rest == [] || !rest[0].Attr?
    ensures ReadAttributes(ts + rest) == (ReadAttributes(ts).0, rest)
    ensures |ReadAttributes(ts).0| == |ts|
    decreases |ts|
  {
    if ts == [] {
      assert ts + rest == rest;
    } else {
      assert ts[0] in ts;
      assert forall t :: t in ts[1..] ==> t in ts;
      ReadAttributeTokens(ts[1..], rest);
      assert (ts + rest)[1..] == ts[1..] + rest;
    }
  }

  /** One defined attribute: the writer's text, read back, is stored under
      the attribute's flattened key. */
  lemma StepWritten(group: string, rules: seq<Rule>, m: Node, n: string, node: Node)
    requires Flatten(group, n) in m
    requires Find(rules, n).Some? && Conforms(Find(rules, n).value, m[Flatten(group, n)])
    ensures OptionalWritten(m, Some(group), n) == Ok([Attr(n, AsString(m[Flatten(group, n)]).value)])
    ensures Step(group, Some(group), rules, Scan(node, None), (n, AsString(m[Flatten(group, n)]).value))
         == Ok(Scan(node[Flatten(group, n) := m[Flatten(group, n)]], None))
  {
    ConvertWritten(group, n, Find(rules, n).value, m[Flatten(group, n)]);
  }

  /** The reader's attribute loop over the attributes the writer emitted
      stores each defined attribute's value under its own key. */
  lemma {:induction false} ScannedWritten(group: string, rules: seq<Rule>, m: Node, names: seq<string>, node: Node)
    requires GroupConforms(m, group, rules, names)
    ensures AttributesWritten(m, Some(group), names).Ok?
    ensures Scanned(group, Some(group), rules, ReadAttributes(AttributesWritten(m, Some(group), names).value).0, Scan(node, None))
         == Ok(Scan(Overlay(node, m, FlatKeys(group, names)), None))
    decreases |names|
  {
    if names == [] {
      assert Overlay(node, m, FlatKeys(group, names)) == node;
    } else {
      var n := names[0];
      var k := Flatten(group, n);
      assert GroupConforms(m, group, rules, names[1..]);
      if k in m {
        StepWritten(group, rules, m, n, node);
        ScannedWritten(group, rules, m, names[1..], node[k := m[k]]);
        var rest := AttributesWritten(m, Some(group), names[1..]).value;
        var ts := AttributesWritten(m, Some(group), names).value;
        assert ts == [Attr(n, AsString(m[k]).value)] + rest;
        assert ts[1..] == rest;
        OverlayDefined(node, m, group, names);
      } else {
        ScannedWritten(group, rules, m, names[1..], node);
        var rest := AttributesWritten(m, Some(group), names[1..]).value;
        assert OptionalWritten(m, Some(group), n) == Ok([]);
        assert [] + rest == rest;
        assert AttributesWritten(m, Some(group), names).value == rest;
        OverlayUndefined(node, m, group, names);
      }
    }
  }

  /** A flat element reads back as its name and attributes. */
  lemma ReadFlatElement(name: string, a: seq<Token>)
    requires forall t :: t in a ==> t.Attr?
    ensures ReadElements([Start(name)] + a + [End]) == Some([Element(name, ReadAttributes(a).0, [], "")])
    ensures |ReadAttributes(a).0| == |a|
  {
    var ts := [Start(name)] + a + [End];
    assert ts[1..] == a + [End];
    ReadAttributeTokens(a, [End]);
    var e := Element(name, ReadAttributes(a).0, [], "");
    assert ReadElement(ts) == Some((e, []));
    assert ReadElements([]) == Some([]);
    assert [e] + [] == [e];
  }

  /** Setting the marker first is laying the model's marker over the node. */
  lemma OverlayMarker(base: Node, m: Node, group: string, keys: set<string>)
    requires group in m && m[group] == Bool(true)
    ensures Overlay(base[group := Bool(true)], m, keys) == Overlay(base, m, {group} + keys)
  {
  }

  lemma GroupParsedFlat(group: string, rules: seq<Rule>, e: Element, base: Node, scanned: Node)
    requires |e.attributes| > 0 && e.children == [] && e.text == ""
    requires Scanned(group, Some(group), rules, e.attributes, Scan(base[group := Bool(true)], None)) == Ok(Scan(scanned, None))
    ensures GroupParsed(group, rules, e, base) == Ok(scanned)
  {
  }

  /** A group element whose marker is defined and which has at least one
      defined attribute reads back, through the reader's group parser, as
      exactly the marker and the group's defined keys, laid over the node
      the reader started from. */
  lemma GroupRoundTrip(group: string, rules: seq<Rule>, names: seq<string>, m: Node, base: Node)
    requires GroupConforms(m, group, rules, names)
    requires group in m && m[group] == Bool(true)
    requires exists n :: n in names && Flatten(group, n) in m
    ensures GroupWritten(m, group, names).Ok?
    ensures var es := ReadElements(GroupWritten(m, group, names).value);
            es.Some? && |es.value| == 1
            && GroupParsed(group, rules, es.value[0], base) == Ok(Overlay(base, m, {group} + FlatKeys(group, names)))
  {
    var marked := base[group := Bool(true)];
    ScannedWritten(group, rules, m, names, marked);
    var a := AttributesWritten(m, Some(group), names).value;
    GroupReadBack(group, names, m);
    var e := Element(group, ReadAttributes(a).0, [], "");
    var scanned := Overlay(marked, m, FlatKeys(group, names));
    GroupParsedFlat(group, rules, e, base, scanned);
    OverlayMarker(base, m, group, FlatKeys(group, names));
  }

  /** A defined attribute is written. */
  lemma DefinedWritten(group: string, names: seq<string>, m: Node)
    requires AttributesWritten(m, Some(group), names).Ok?
    requires exists n :: n in names && Flatten(group, n) in m
    ensures AttributesWritten(m, Some(group), names).value != []
  {
    AttributesWrittenFails(m, Some(group), names);
    AttributesWrittenDefined(m, Some(group), names);
    var n :| n in names && Flatten(group, n) in m;
    assert Attr(n, AsString(m[Flatten(group, n)]).value) in AttributesWritten(m, Some(group), names).value;
  }

  /** A group element with a defined attribute reads back as one flat
      element carrying the attributes written. */
  lemma GroupReadBack(group: string, names: seq<string>, m: Node)
    requires group in m && AttributesWritten(m, Some(group), names).Ok?
    requires exists n :: n in names && Flatten(group, n) in m
    ensures GroupWritten(m, group, names) == Ok([Start(group)] + AttributesWritten(m, Some(group), names).value + [End])
    ensures ReadElements([Start(group)] + AttributesWritten(m, Some(group), names).value + [End])
         == Some([Element(group, ReadAttributes(AttributesWritten(m, Some(group), names).value).0, [], "")])
    ensures |ReadAttributes(AttributesWritten(m, Some(group), names).value).0| > 0
  {
    var a := AttributesWritten(m, Some(group), names).value;
    AttributesWrittenDefined(m, Some(group), names);
    ReadFlatElement(group, a);
    DefinedWritten(group, names, m);
  }

  /** The key, when defined, holds a value of the kind. */
  ghost predicate Holds(m: Node, key: string, kind: Kind) {
    key in m ==> Conforms(kind, m[key])
  }

  /** The locking attributes conform to the locking rule table. */
  lemma LockingConforms(c: Catalog, m: Node)
    requires Holds(m, Flatten(LOCKING, ISOLATION), OneOf(c.isolationLevels))
    requires Holds(m, Flatten(LOCKING, STRIPING), Flag)
    requires Holds(m, Flatten(LOCKING, ACQUIRE_TIMEOUT), Int64)
    requires Holds(m, Flatten(LOCKING, CONCURRENCY_LEVEL), Int32)
    ensures GroupConforms(m, LOCKING, LockingRules(c), LOCKING_ATTRIBUTES)
  {
    var rules := LockingRules(c);
    FindAt(rules, 0, ISOLATION);
    FindAt(rules, 1, STRIPING);
    FindAt(rules, 2, ACQUIRE_TIMEOUT);
    FindAt(rules, 3, CONCURRENCY_LEVEL);
    forall n | n in LOCKING_ATTRIBUTES
      ensures Find(rules, n).Some? && (Flatten(LOCKING, n) in m ==> Conforms(Find(rules, n).value, m[Flatten(LOCKING, n)]))
    {
      assert n == ISOLATION || n == STRIPING || n == ACQUIRE_TIMEOUT || n == CONCURRENCY_LEVEL;
    }
  }

  /** The locking element round-trips. */
  lemma LockingRoundTrip(c: Catalog, m: Node, base: Node)
    requires LOCKING in m && m[LOCKING] == Bool(true)
    requires exists n :: n in LOCKING_ATTRIBUTES && Flatten(LOCKING, n) in m
    requires Holds(m, Flatten(LOCKING, ISOLATION), OneOf(c.isolationLevels))
    requires Holds(m, Flatten(LOCKING, STRIPING), Flag)
    requires Holds(m, Flatten(LOCKING, ACQUIRE_TIMEOUT), Int64)
    requires Holds(m, Flatten(LOCKING, CONCURRENCY_LEVEL), Int32)
    ensures GroupWritten(m, LOCKING, LOCKING_ATTRIBUTES).Ok?
    ensures var es := ReadElements(GroupWritten(m, LOCKING, LOCKING_ATTRIBUTES).value);
            es.Some? && |es.value| == 1
            && GroupParsed(LOCKING, LockingRules(c), es.value[0], base)
               == Ok(Overlay(base, m, {LOCKING} + FlatKeys(LOCKING, LOCKING_ATTRIBUTES)))
  {
    LockingConforms(c, m);
    GroupRoundTrip(LOCKING, LockingRules(c), LOCKING_ATTRIBUTES, m, base);
  }

  /** The transaction attributes conform to the transaction rule table. */
  lemma TransactionConforms(c: Catalog, m: Node)
    requires Holds(m, Flatten(TRANSACTION, STOP_TIMEOUT), Int64)
    requires Holds(m, Flatten(TRANSACTION, MODE), OneOf(c.transactionModes))
    requires Holds(m, Flatten(TRANSACTION, LOCKING), OneOf(LOCKING_MODES))
    requires Holds(m, Flatten(TRANSACTION, EAGER_LOCKING), OneOf(c.eagerLockings))
    ensures GroupConforms(m, TRANSACTION, TransactionRules(c), TRANSACTION_ATTRIBUTES)
  {
    var rules := TransactionRules(c);
    FindAt(rules, 0, STOP_TIMEOUT);
    FindAt(rules, 1, MODE);
    FindAt(rules, 2, LOCKING);
    FindAt(rules, 3, EAGER_LOCKING);
    forall n | n in TRANSACTION_ATTRIBUTES
      ensures Find(rules, n).Some? && (Flatten(TRANSACTION, n) in m ==> Conforms(Find(rules, n).value, m[Flatten(TRANSACTION, n)]))
    {
      assert n == STOP_TIMEOUT || n == MODE || n == LOCKING || n == EAGER_LOCKING;
    }
  }

  /** The transaction element round-trips. */
  lemma TransactionRoundTrip(c: Catalog, m: Node, base: Node)
    requires TRANSACTION in m && m[TRANSACTION] == Bool(true)
    requires exists n :: n in TRANSACTION_ATTRIBUTES && Flatten(TRANSACTION, n) in m
    requires Holds(m, Flatten(TRANSACTION, STOP_TIMEOUT), Int64)
    requires Holds(m, Flatten(TRANSACTION, MODE), OneOf(c.transactionModes))
    requires Holds(m, Flatten(TRANSACTION, LOCKING), OneOf(LOCKING_MODES))
    requires Holds(m, Flatten(TRANSACTION, EAGER_LOCKING), OneOf(c.eagerLockings))
    ensures GroupWritten(m, TRANSACTION, TRANSACTION_ATTRIBUTES).Ok?
    ensures var es := ReadElements(GroupWritten(m, TRANSACTION, TRANSACTION_ATTRIBUTES).value);
            es.Some? && |es.value| == 1
            && GroupParsed(TRANSACTION, TransactionRules(c), es.value[0], base)
               == Ok(Overlay(base, m, {TRANSACTION} + FlatKeys(TRANSACTION, TRANSACTION_ATTRIBUTES)))
  {
    TransactionConforms(c, m);
    GroupRoundTrip(TRANSACTION, TransactionRules(c), TRANSACTION_ATTRIBUTES, m, base);
  }

  /** The expiration attributes conform to the expiration rule table. */
  lemma ExpirationConforms(m: Node)
    requires Holds(m, Flatten(EXPIRATION, MAX_IDLE), Int64)
    requires Holds(m, Flatten(EXPIRATION, LIFESPAN), Int64)
    requires Holds(m, Flatten(EXPIRATION, INTERVAL), Int64)
    ensures GroupConforms(m, EXPIRATION, ExpirationRules(), EXPIRATION_ATTRIBUTES)
  {
    var rules := ExpirationRules();
    FindAt(rules, 0, MAX_IDLE);
    FindAt(rules, 1, LIFESPAN);
    FindAt(rules, 2, INTERVAL);
    forall n | n in EXPIRATION_ATTRIBUTES
      ensures Find(rules, n).Some? && (Flatten(EXPIRATION, n) in m ==> Conforms(Find(rules, n).value, m[Flatten(EXPIRATION, n)]))
    {
      assert n == MAX_IDLE || n == LIFESPAN || n == INTERVAL;
    }
  }

  /** The expiration element round-trips. */
  lemma ExpirationRoundTrip(m: Node, base: Node)
    requires EXPIRATION in m && m[EXPIRATION] == Bool(true)
    requires exists n :: n in EXPIRATION_ATTRIBUTES && Flatten(EXPIRATION, n) in m
    requires Holds(m, Flatten(EXPIRATION, MAX_IDLE), Int64)
    requires Holds(m, Flatten(EXPIRATION, LIFESPAN), Int64)
    requires Holds(m, Flatten(EXPIRATION, INTERVAL), Int64)
    ensures GroupWritten(m, EXPIRATION, EXPIRATION_ATTRIBUTES).Ok?
    ensures var es := ReadElements(GroupWritten(m, EXPIRATION, EXPIRATION_ATTRIBUTES).value);
            es.Some? && |es.value| == 1
            && GroupParsed(EXPIRATION, ExpirationRules(), es.value[0], base)
               == Ok(Overlay(base, m, {EXPIRATION} + FlatKeys(EXPIRATION, EXPIRATION_ATTRIBUTES)))
  {
    ExpirationConforms(m);
    GroupRoundTrip(EXPIRATION, ExpirationRules(), EXPIRATION_ATTRIBUTES, m, base);
  }

  // ------------------------------------------------------------ store properties

  /** The property elements, peeled from the front. */
  lemma {:induction false} PropertiesWrittenCons(p: (string, string), ps: seq<(string, string)>)
    ensures PropertiesWritten([p] + ps) == PropertyElement(p) + PropertiesWritten(ps)
    decreases |ps|
  {
    if ps == [] {
      assert [p] + ps == [p];
      assert [p][..0] == [];
    } else {
      var init, last := ps[..|ps| - 1], ps[|ps| - 1];
      PropertiesWrittenCons(p, init);
      assert ([p] + ps)[..|ps|] == [p] + init;
      assert ([p] + ps)[|ps|] == last;
      Sequences.Assoc(PropertyElement(p), PropertiesWritten(init), PropertyElement(last));
    }
  }

  /** One written property reads back as the element the parser expects. */
  lemma PropertyElementRead(p: (string, string), rest: seq<Token>)
    ensures ReadElement(PropertyElement(p) + rest) == Some((Element(PROPERTY, [(NAME, p.0)], [], p.1), rest))
  {
    var ts := PropertyElement(p) + rest;
    assert ts[1..] == [Attr(NAME, p.0)] + ([Chars(p.1), End] + rest);
    ReadAttributeTokens([Attr(NAME, p.0)], [Chars(p.1), End] + rest);
    assert ReadAttributes([Attr(NAME, p.0)]).0 == [(NAME, p.0)];
  }

  /** The element read back parses as the property written. */
  lemma PropertyParsedRead(p: (string, string))
    ensures PropertyParsed(Element(PROPERTY, [(NAME, p.0)], [], p.1)) == Ok(p)
  {
    var rules := [Rule(NAME, Held)];
    assert Find(rules, NAME) == Some(Held);
    var s := Scan(map[], Some(p.0));
    assert Step(PROPERTY, None, rules, Scan(map[], None), (NAME, p.0)) == Ok(s);
    assert [(NAME, p.0)][1..] == [];
    assert Scanned(PROPERTY, None, rules, [], s) == Ok(s);
  }

  /** The <property> elements the writer emits parse back to the same list,
      in the same order. */
  lemma {:induction false} PropertiesRoundTrip(ps: seq<(string, string)>)
    ensures ReadElements(PropertiesWritten(ps)).Some?
    ensures PropertiesParsed(ReadElements(PropertiesWritten(ps)).value) == Ok(ps)
    decreases |ps|
  {
    if ps == [] {
    } else {
      var p, rest := ps[0], ps[1..];
      assert ps == [p] + rest;
      PropertiesWrittenCons(p, rest);
      PropertyElementRead(p, PropertiesWritten(rest));
      PropertiesRoundTrip(rest);
      var e := Element(PROPERTY, [(NAME, p.0)], [], p.1);
      assert PropertiesWritten(ps) != [];
      var es := ReadElements(PropertiesWritten(rest)).value;
      assert ReadElements(PropertiesWritten(ps)) == Some([e] + es);
      assert ([e] + es)[1..] == es;
      PropertyParsedRead(p);
    }
  }

  /** As the source writes file-store: a file store whose properties are
      defined under file-store.properties, and no `property` key, fails to
      be written at all. */
  lemma FileStorePropertiesLost(m: Node)
    requires FILE_STORE in m && Flatten(FILE_STORE, PROPERTIES) in m && PROPERTY !in m
    requires AttributesWritten(m, Some(FILE_STORE), FILE_STORE_ATTRIBUTES).Ok?
    ensures FileStoreWrittenAsIs(m) == Err(NotConvertible(PROPERTY))
  {
  }

  /** A concrete file store the source's writer cannot write and the
      corrected writer writes. */
  lemma FileStorePropertiesLostExample()
    ensures var m := map[FILE_STORE := Bool(true), Flatten(FILE_STORE, PROPERTIES) := Props([("location", "/tmp")])];
            FileStoreWrittenAsIs(m).Err? && FileStoreWritten(m).Ok?
  {
    var m := map[FILE_STORE := Bool(true), Flatten(FILE_STORE, PROPERTIES) := Props([("location", "/tmp")])];
    AttributesWrittenFails(m, Some(FILE_STORE), FILE_STORE_ATTRIBUTES);
    forall n | n in FILE_STORE_ATTRIBUTES
      ensures Key(Some(FILE_STORE), n) !in m
    {
    }
  }

  /** The corrected file-store writer emits the properties the model holds
      under file-store.properties, and they parse back to the same list. */
  lemma FileStorePropertiesRoundTrip(m: Node, ps: seq<(string, string)>)
    requires FILE_STORE in m && Flatten(FILE_STORE, PROPERTIES) in m && m[Flatten(FILE_STORE, PROPERTIES)] == Props(ps)
    requires AttributesWritten(m, Some(FILE_STORE), FILE_STORE_ATTRIBUTES).Ok?
    ensures FileStoreWritten(m).Ok?
    ensures FileStoreWritten(m).value
         == [Start(FILE_STORE)] + AttributesWritten(m, Some(FILE_STORE), FILE_STORE_ATTRIBUTES).value + PropertiesWritten(ps) + [End]
    ensures ReadElements(PropertiesWritten(ps)).Some?
    ensures PropertiesParsed(ReadElements(PropertiesWritten(ps)).value) == Ok(ps)
  {
    PropertiesRoundTrip(ps);
  }
}
