/** The detyped management model: a ModelNode is a tree of values; an object
    node is a map from keys to values, and an undefined key is an absent one. */
module Dmr {
  import opened Failures
  import opened JavaText

  datatype Value =
    | Str(s: string)
    | Bool(b: bool)
    | Int(i: int)
    | Long(l: int)
    | List(items: seq<Value>)
    | Props(props: seq<(string, string)>)
    | Obj(fields: map<string, Value>)

  type Node = map<string, Value>

  /** An operation: the address of the resource it applies to, and its parameters. */
  datatype Operation = Operation(address: seq<(string, string)>, params: Node)

  /** A model node the handlers update in place. */
  class ModelNode {
    var entries: Node

    constructor (initial: Node)
      ensures entries == initial
    {
      entries := initial;
    }
  }

  const SEPARATOR: string := "."

  /** The key a grouped attribute is stored under in a flat node. */
  function Flatten(group: string, key: string): string {
    group + SEPARATOR + key
  }

  /** The key an attribute is stored under: itself at top level, flattened
      inside a group. */
  function Key(group: Option<string>, attribute: string): string {
    match group
    case None => attribute
    case Some(g) => Flatten(g, attribute)
  }

  /** The group's flattened keys for the listed attributes. */
  function FlatKeys(group: string, names: seq<string>): set<string> {
    set n | n in names :: Flatten(group, n)
  }

  /** `node` with the entries of `m` under `keys` laid over it: what copying
      each of those keys that `m` defines into `node` leaves. */
  function Overlay(node: Node, m: Node, keys: set<string>): (r: Node)
    ensures forall k :: k in r <==> k in node || (k in keys && k in m)
    ensures forall k :: k in r ==> r[k] == if k in keys && k in m then m[k] else node[k]
  {
    map k | k in node.Keys + (keys * m.Keys) :: if k in keys && k in m then m[k] else node[k]
  }

  /** Copying the first listed attribute, then the rest. */
  lemma OverlayDefined(node: Node, m: Node, group: string, names: seq<string>)
    requires names != [] && Flatten(group, names[0]) in m
    ensures Overlay(node[Flatten(group, names[0]) := m[Flatten(group, names[0])]], m, FlatKeys(group, names[1..]))
         == Overlay(node, m, FlatKeys(group, names))
  {
    var k0 := Flatten(group, names[0]);
    assert FlatKeys(group, names) == {k0} + FlatKeys(group, names[1..]) by {
      forall k | k in FlatKeys(group, names) ensures k in {k0} + FlatKeys(group, names[1..]) {
        var n :| n in names && k == Flatten(group, n);
        if n != names[0] {
          assert n in names[1..];
        }
      }
    }
  }

  /** Skipping an undefined first attribute. */
  lemma OverlayUndefined(node: Node, m: Node, group: string, names: seq<string>)
    requires names != [] && Flatten(group, names[0]) !in m
    ensures Overlay(node, m, FlatKeys(group, names[1..])) == Overlay(node, m, FlatKeys(group, names))
  {
    var k0 := Flatten(group, names[0]);
    assert FlatKeys(group, names) == {k0} + FlatKeys(group, names[1..]) by {
      forall k | k in FlatKeys(group, names) ensures k in {k0} + FlatKeys(group, names[1..]) {
        var n :| n in names && k == Flatten(group, n);
        if n != names[0] {
          assert n in names[1..];
        }
      }
    }
  }

  /** Within one group, different attributes get different keys. */
  lemma FlattenInjective(group: string, a: string, b: string)
    requires Flatten(group, a) == Flatten(group, b)
    ensures a == b
  {
    var fa, fb := Flatten(group, a), Flatten(group, b);
    assert |a| == |b|;
    forall i | 0 <= i < |a| ensures a[i] == b[i] {
      assert fa[|group| + 1 + i] == a[i];
      assert fb[|group| + 1 + i] == b[i];
    }
  }

  /** A flattened key is never a key without a separator in it. */
  lemma FlattenHasSeparator(group: string, key: string)
    ensures SEPARATOR[0] in Flatten(group, key)
  {
    assert Flatten(group, key)[|group|] == SEPARATOR[0];
  }

  /** ModelNode.asString */
  function AsString(v: Value): Option<string> {
    match v
    case Str(s) => Some(s)
    case Bool(b) => Some(BoolToString(b))
    case Int(i) => Some(IntToString(i))
    case Long(l) => Some(IntToString(l))
    case _ => None
  }

  /** ModelNode.asBoolean */
  function AsBoolean(v: Value): Option<bool> {
    match v
    case Bool(b) => Some(b)
    case _ => None
  }

  /** ModelNode.asInt; a long value is narrowed as the (int) cast does. */
  function AsInt(v: Value): Option<int> {
    match v
    case Int(i) => Some(i)
    case Long(l) => Some(ToInt32(l))
    case _ => None
  }

  /** ModelNode.asLong */
  function AsLong(v: Value): Option<int> {
    match v
    case Int(i) => Some(i)
    case Long(l) => Some(l)
    case _ => None
  }

  /** ModelNode.asList */
  function AsList(v: Value): Option<seq<Value>> {
    match v
    case List(items) => Some(items)
    case _ => None
  }

  /** ModelNode.asList over a list of strings */
  function AsStrings(v: Value): Option<seq<string>> {
    match v
    case List(items) => if forall i :: 0 <= i < |items| ==> items[i].Str? then Some(seq(|items|, i requires 0 <= i < |items| => items[i].s)) else None
    case _ => None
  }

  /** ModelNode.asPropertyList */
  function AsProperties(v: Value): Option<seq<(string, string)>> {
    match v
    case Props(ps) => Some(ps)
    case _ => None
  }

  /** Reading an optional key of a node through a conversion: absent gives
      None, a value the conversion refuses gives NotConvertible. */
  function Lookup<T>(m: Node, key: string, convert: Value -> Option<T>): Result<Option<T>> {
    if key !in m then Ok(None)
    else match convert(m[key])
      case None => Err(NotConvertible(key))
      case Some(x) => Ok(Some(x))
  }

  /** ModelNode.require followed by a conversion */
  function Require<T>(m: Node, key: string, convert: Value -> Option<T>): Result<T> {
    if key !in m then Err(RequiredUndefined(key))
    else match convert(m[key])
      case None => Err(NotConvertible(key))
      case Some(x) => Ok(x)
  }
}
