/**
 * The slice of the JavaScript object model that the deep clone reads and builds:
 * primitive values, heap objects of the six kinds the clone distinguishes
 * (Date, RegExp, Map, Set, Array, plain object), the built-in operations it
 * uses to fill a fresh container (Map.prototype.set, Set.prototype.add,
 * ordinary property assignment, Map.prototype.get) and the WeakMap it memoises in.
 */
module JsHeap {

  datatype Option<T> = None | Some(value: T)

  /**
   * A value whose `typeof` is not "object", or `null`. Compared by identity
   * (the === of the source); numbers are opaque tokens, functions and symbols
   * carry an identity number.
   */
  datatype Primitive =
    | Undefined
    | Null
    | Boolean(b: bool)
    | Number(n: int)
    | Text(s: string)
    | Symbol(id: nat)
    | Function(id: nat)

  /** A JavaScript value: a primitive, or a reference to a heap object. */
  datatype Value = Prim(p: Primitive) | Ref(obj: JsObject)

  /** A property key of a plain object: a string, or a symbol identified by its number. */
  datatype Key = StrKey(name: string) | SymKey(id: nat)

  /** An own data property of a plain object. */
  datatype Prop = Prop(key: Key, enumerable: bool, value: Value)

  /**
   * What `instanceof` / `Array.isArray` tell the clone about an object. A Date
   * carries its timestamp (getTime()), a RegExp its `source` and `flags`; both
   * are fixed when the object is constructed.
   */
  datatype Kind =
    | DateKind(time: int)
    | RegExpKind(source: string, flags: string)
    | MapKind
    | SetKind
    | ArrayKind
    | PlainKind

  /** The kinds with contents of their own, which the clone memoises. */
  predicate IsComposite(k: Kind)
  {
    k.MapKind? || k.SetKind? || k.ArrayKind? || k.PlainKind?
  }

  /** What an object holds, as a value: its entries, elements and own properties. */
  datatype Contents = Contents(entries: seq<(Value, Value)>, elems: seq<Value>, props: seq<Prop>)

  /**
   * A heap object. Which fields are in use depends on the kind: a Map keeps its
   * entries in insertion order, a Set its elements in insertion order, an
   * Array its elements in index order, a plain object its own properties in
   * the order `Reflect.ownKeys` lists them.
   */
  class JsObject {
    const kind: Kind
    var entries: seq<(Value, Value)>
    var elems: seq<Value>
    var props: seq<Prop>

    /** `new Map()`, `new Set()`, `[]`, `{}`, `new Date(t)`, `new RegExp(s, f)`: an empty object. */
    constructor (kind: Kind)
      ensures this.kind == kind
      ensures entries == [] && elems == [] && props == []
    {
      this.kind := kind;
      entries := [];
      elems := [];
      props := [];
    }

    function Snapshot(): Contents
      reads this
    {
      Contents(entries, elems, props)
    }
  }

  /** The identity-keyed WeakMap that records the clone of every composite seen so far. */
  class WeakMemo {
    var table: map<JsObject, JsObject>
    /** Proof bookkeeping: every object the clone has allocated so far. */
    ghost var made: set<JsObject>

    constructor ()
      ensures table == map[] && made == {}
    {
      table := map[];
      made := {};
    }
  }

  /** No two positions of `s` hold the same value (the elements of a Set). */
  predicate Distinct(s: seq<Value>)
  {
    forall i, j | 0 <= i < j < |s| :: s[i] != s[j]
  }

  /** No two entries of a Map share a key. */
  predicate KeysDistinct(entries: seq<(Value, Value)>)
  {
    forall i, j | 0 <= i < j < |entries| :: entries[i].0 != entries[j].0
  }

  /** No two own properties share a key. */
  predicate PropKeysDistinct(props: seq<Prop>)
  {
    forall i, j | 0 <= i < j < |props| :: props[i].key != props[j].key
  }

  /** Map.prototype.get: the value stored under `k`, if `k` is a key. */
  function MapGet(entries: seq<(Value, Value)>, k: Value): (r: Option<Value>)
    ensures r.Some? <==> exists i | 0 <= i < |entries| :: entries[i].0 == k
    ensures KeysDistinct(entries) ==>
              forall i | 0 <= i < |entries| && entries[i].0 == k :: r == Some(entries[i].1)
  {
    if entries == [] then None
    else if entries[0].0 == k then Some(entries[0].1)
    else MapGet(entries[1..], k)
  }

  /**
   * Map.prototype.set: an existing entry for `k` keeps its position and gets
   * the new value; a new key is appended after every existing entry.
   */
  function MapSet(entries: seq<(Value, Value)>, k: Value, v: Value): (r: seq<(Value, Value)>)
    ensures |r| == if MapGet(entries, k).Some? then |entries| else |entries| + 1
    ensures MapGet(entries, k).None? ==> r == entries + [(k, v)]
  {
    if entries == [] then [(k, v)]
    else if entries[0].0 == k then [(k, v)] + entries[1..]
    else
      [entries[0]] + MapSet(entries[1..], k, v)
  }

  /** After `map.set(k, v)`, `map.get(k)` is `v`. */
  lemma {:induction false} MapSetGet(entries: seq<(Value, Value)>, k: Value, v: Value)
    ensures MapGet(MapSet(entries, k, v), k) == Some(v)
  {
    if entries != [] && entries[0].0 != k {
      MapSetGet(entries[1..], k, v);
      assert MapSet(entries, k, v)[1..] == MapSet(entries[1..], k, v);
    }
  }

  /** Map.prototype.set adds no key other than `k`, so a Map's keys stay distinct. */
  lemma {:induction false} MapSetKeys(entries: seq<(Value, Value)>, k: Value, v: Value)
    ensures forall i | 0 <= i < |MapSet(entries, k, v)| ::
              MapSet(entries, k, v)[i].0 == k || MapGet(entries, MapSet(entries, k, v)[i].0).Some?
    ensures KeysDistinct(entries) ==> KeysDistinct(MapSet(entries, k, v))
  {
    if entries != [] && entries[0].0 != k {
      MapSetKeys(entries[1..], k, v);
      assert MapSet(entries, k, v)[1..] == MapSet(entries[1..], k, v);
    }
  }

  /** Map.prototype.set leaves the entry of every other key as it was. */
  lemma {:induction false} MapSetKeepsOthers(entries: seq<(Value, Value)>, k: Value, v: Value, k': Value)
    requires k' != k
    ensures MapGet(MapSet(entries, k, v), k') == MapGet(entries, k')
  {
    if entries != [] && entries[0].0 != k && entries[0].0 != k' {
      MapSetKeepsOthers(entries[1..], k, v, k');
      assert MapSet(entries, k, v)[1..] == MapSet(entries[1..], k, v);
    }
  }

  /** Set.prototype.add: `x` is appended unless it is already an element. */
  function SetAdd(elems: seq<Value>, x: Value): (r: seq<Value>)
    ensures x in r && forall i | 0 <= i < |elems| :: elems[i] in r
    ensures forall i | 0 <= i < |r| :: r[i] in elems || r[i] == x
    ensures Distinct(elems) ==> Distinct(r)
    ensures x !in elems ==> r == elems + [x]
  {
    if x in elems then elems else elems + [x]
  }

  /** The own property with key `k`, if there is one. */
  function GetProp(props: seq<Prop>, k: Key): (r: Option<Prop>)
    ensures r.Some? <==> exists i | 0 <= i < |props| :: props[i].key == k
    ensures r.Some? ==> r.value in props && r.value.key == k
  {
    if props == [] then None
    else if props[0].key == k then Some(props[0])
    else GetProp(props[1..], k)
  }

  /**
   * `o[k] = v` on an ordinary object: an existing own property keeps its
   * position and its enumerability and gets the new value; a new key becomes
   * an enumerable own property after every existing one.
   */
  function PutProp(props: seq<Prop>, k: Key, v: Value): (r: seq<Prop>)
    ensures |r| == if GetProp(props, k).Some? then |props| else |props| + 1
    ensures GetProp(props, k).None? ==> r == props + [Prop(k, true, v)]
  {
    if props == [] then [Prop(k, true, v)]
    else if props[0].key == k then [props[0].(value := v)] + props[1..]
    else [props[0]] + PutProp(props[1..], k, v)
  }

  /** After `o[k] = v`, `o[k]` is `v`. */
  lemma {:induction false} PutPropGet(props: seq<Prop>, k: Key, v: Value)
    ensures GetProp(PutProp(props, k, v), k).Some? && GetProp(PutProp(props, k, v), k).value.value == v
  {
    if props != [] && props[0].key != k {
      PutPropGet(props[1..], k, v);
      assert PutProp(props, k, v)[1..] == PutProp(props[1..], k, v);
    }
  }

  /** Property assignment adds no key other than `k`, so property keys stay distinct. */
  lemma {:induction false} PutPropKeys(props: seq<Prop>, k: Key, v: Value)
    ensures forall i | 0 <= i < |PutProp(props, k, v)| ::
              PutProp(props, k, v)[i].key == k || GetProp(props, PutProp(props, k, v)[i].key).Some?
    ensures PropKeysDistinct(props) ==> PropKeysDistinct(PutProp(props, k, v))
  {
    if props != [] && props[0].key != k {
      PutPropKeys(props[1..], k, v);
      assert PutProp(props, k, v)[1..] == PutProp(props[1..], k, v);
    }
  }

  /** Property assignment leaves every property with another key as it was. */
  lemma {:induction false} PutPropKeepsOthers(props: seq<Prop>, k: Key, v: Value, k': Key)
    requires k' != k
    ensures GetProp(PutProp(props, k, v), k') == GetProp(props, k')
  {
    if props != [] && props[0].key != k && props[0].key != k' {
      PutPropKeepsOthers(props[1..], k, v, k');
      assert PutProp(props, k, v)[1..] == PutProp(props[1..], k, v);
    }
  }
}
