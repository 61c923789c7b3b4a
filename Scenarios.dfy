/**
 * Concrete object graphs, built the way the app package's test script builds
 * them, and what the clone is proved to return for each.
 */
module Scenarios {
  import opened JsHeap
  import opened Cloning

  /** `const circular = { a: 1 }; circular.self = circular;` then deepClone: the copy's `self` is the copy. */
  method CircularObject() returns (original: JsObject, copy: JsObject)
    ensures copy != original && copy.kind == PlainKind
    ensures copy.props == [Prop(StrKey("a"), true, Prim(Number(1))), Prop(StrKey("self"), true, Ref(copy))]
  {
    original := new JsObject(PlainKind);
    original.props := [Prop(StrKey("a"), true, Prim(Number(1))), Prop(StrKey("self"), true, Ref(original))];
    ghost var graph := map[original := original.Snapshot()];
    assert WellFormed(graph, original);
    var r, table, made := DeepClone(graph, Ref(original));
    copy := r.obj;
    assert Done(OwnEnumerableStrings, graph, table, made, original);
    var ps := original.props;
    OrdinaryPropsAllCopied(OwnEnumerableStrings, ps);
    assert Mirrors(graph, table, made, ps[1].value, copy.props[1].value);
  }

  /** `circularMap.set('self', circularMap)` then deepClone: the copy maps 'self' to the copy. */
  method CircularMap() returns (original: JsObject, copy: JsObject)
    ensures copy != original && copy.kind == MapKind
    ensures copy.entries == [(Prim(Text("self")), Ref(copy))]
    ensures MapGet(copy.entries, Prim(Text("self"))) == Some(Ref(copy))
  {
    original := new JsObject(MapKind);
    original.entries := [(Prim(Text("self")), Ref(original))];
    ghost var graph := map[original := original.Snapshot()];
    assert WellFormed(graph, original);
    var r, table, made := DeepClone(graph, Ref(original));
    copy := r.obj;
    assert Done(OwnEnumerableStrings, graph, table, made, original);
    var es := original.entries;
    assert Mirrors(graph, table, made, es[0].0, copy.entries[0].0);
    assert Mirrors(graph, table, made, es[0].1, copy.entries[0].1);
  }

  /** `[1, 2]` with itself pushed, then deepClone: element 2 of the copy is the copy. */
  method ArrayWithSelf() returns (original: JsObject, copy: JsObject)
    ensures copy != original && copy.kind == ArrayKind
    ensures copy.elems == [Prim(Number(1)), Prim(Number(2)), Ref(copy)]
  {
    original := new JsObject(ArrayKind);
    original.elems := [Prim(Number(1)), Prim(Number(2)), Ref(original)];
    ghost var graph := map[original := original.Snapshot()];
    assert WellFormed(graph, original);
    var r, table, made := DeepClone(graph, Ref(original));
    copy := r.obj;
    assert Done(OwnEnumerableStrings, graph, table, made, original);
    var es := original.elems;
    assert Mirrors(graph, table, made, es[0], copy.elems[0]);
    assert Mirrors(graph, table, made, es[1], copy.elems[1]);
    assert Mirrors(graph, table, made, es[2], copy.elems[2]);
  }

  /**
   * The app's deepClone drops the symbol key: for...in lists string keys
   * only, so `clonedObjWithSym[symKey]` is undefined.
   */
  method SymbolKeyDropped() returns (original: JsObject, copy: JsObject)
    ensures copy.props == [Prop(StrKey("a"), true, Prim(Number(1)))]
    ensures GetProp(copy.props, SymKey(0)).None?
  {
    // const objWithSym = { a: 1 }; objWithSym[symKey] = 'symbol value';
    original := new JsObject(PlainKind);
    original.props := [Prop(StrKey("a"), true, Prim(Number(1))), Prop(SymKey(0), true, Prim(Text("symbol value")))];
    ghost var graph := map[original := original.Snapshot()];
    assert WellFormed(graph, original);
    var ps := original.props;
    var r, table, made := DeepClone(graph, Ref(original));
    copy := r.obj;
    assert Done(OwnEnumerableStrings, graph, table, made, original);
    assert CopiedProps(OwnEnumerableStrings, ps) == [ps[0]] by {
      assert CopiedProps(OwnEnumerableStrings, ps[1..]) == [];
    }
    assert Mirrors(graph, table, made, ps[0].value, copy.props[0].value);
  }

  /** customDeepClone walks Reflect.ownKeys, so the symbol key and its value survive. */
  method SymbolKeyKept() returns (original: JsObject, copy: JsObject)
    ensures copy.props == [Prop(StrKey("a"), true, Prim(Number(1))), Prop(SymKey(0), true, Prim(Text("symbol value")))]
    ensures GetProp(copy.props, SymKey(0)) == Some(Prop(SymKey(0), true, Prim(Text("symbol value"))))
  {
    // const objWithSym = { a: 1 }; objWithSym[symKey] = 'symbol value';
    original := new JsObject(PlainKind);
    original.props := [Prop(StrKey("a"), true, Prim(Number(1))), Prop(SymKey(0), true, Prim(Text("symbol value")))];
    ghost var graph := map[original := original.Snapshot()];
    assert WellFormed(graph, original);
    var ps := original.props;
    var r, table, made := CustomDeepClone(graph, Ref(original));
    copy := r.obj;
    assert Done(AllOwnKeys, graph, table, made, original);
    assert Mirrors(graph, table, made, ps[0].value, copy.props[0].value);
    assert Mirrors(graph, table, made, ps[1].value, copy.props[1].value);
  }

  /**
   * `{ x: shared, y: shared }`: the two properties of the copy hold one and
   * the same copy of `shared`, which is not `shared` itself.
   */
  method SharedChild() returns (original: JsObject, shared: JsObject, copy: JsObject)
    ensures |copy.props| == 2
    ensures copy.props[0].value == copy.props[1].value
    ensures copy.props[0].value.Ref? && copy.props[0].value.obj != shared
  {
    shared := new JsObject(PlainKind);
    original := new JsObject(PlainKind);
    original.props := [Prop(StrKey("x"), true, Ref(shared)), Prop(StrKey("y"), true, Ref(shared))];
    ghost var graph := map[original := original.Snapshot(), shared := shared.Snapshot()];
    assert WellFormed(graph, original) && WellFormed(graph, shared);
    var r, table, made := DeepClone(graph, Ref(original));
    copy := r.obj;
    assert Done(OwnEnumerableStrings, graph, table, made, original);
    var ps := original.props;
    OrdinaryPropsAllCopied(OwnEnumerableStrings, ps);
    assert Mirrors(graph, table, made, ps[0].value, copy.props[0].value);
    assert Mirrors(graph, table, made, ps[1].value, copy.props[1].value);
  }

  /**
   * A Set of two objects: the copy has two elements, neither of them an
   * element of the source, and they differ (Set size is preserved).
   */
  method SetOfObjects() returns (original: JsObject, a: JsObject, b: JsObject, copy: JsObject)
    ensures |copy.elems| == 2 && copy.elems[0] != copy.elems[1]
    ensures forall i | 0 <= i < 2 :: copy.elems[i] != Ref(a) && copy.elems[i] != Ref(b)
  {
    a := new JsObject(PlainKind);
    a.props := [Prop(StrKey("a"), true, Prim(Number(1)))];
    b := new JsObject(PlainKind);
    b.props := [Prop(StrKey("b"), true, Prim(Number(2)))];
    original := new JsObject(SetKind);
    original.elems := [Ref(a), Ref(b)];
    ghost var graph := map[original := original.Snapshot(), a := a.Snapshot(), b := b.Snapshot()];
    assert WellFormed(graph, original) && WellFormed(graph, a) && WellFormed(graph, b);
    var r, table, made := DeepClone(graph, Ref(original));
    copy := r.obj;
    assert Done(OwnEnumerableStrings, graph, table, made, original);
    var es := original.elems;
    assert Mirrors(graph, table, made, es[0], copy.elems[0]);
    assert Mirrors(graph, table, made, es[1], copy.elems[1]);
  }

  /**
   * Dates are not memoised: cloning one Date twice through the same WeakMap
   * yields two distinct copies with the same timestamp, and the WeakMap stays empty.
   */
  method DateCopiedEachTime() returns (date: JsObject, first: Value, second: Value, ghost table: Memo)
    ensures first.Ref? && second.Ref? && first != second
    ensures first.obj.kind == DateKind(1705795200000) && second.obj.kind == DateKind(1705795200000)
    ensures first.obj != date && second.obj != date
    ensures table == map[]
  {
    date := new JsObject(DateKind(1705795200000));
    ghost var graph := map[date := date.Snapshot()];
    assert WellFormed(graph, date);
    var memo := new WeakMemo();
    first := CloneValue(OwnEnumerableStrings, graph, {}, Ref(date), memo);
    second := CloneValue(OwnEnumerableStrings, graph, {}, Ref(date), memo);
    table := memo.table;
  }

  /** `{}`, `[]`, `new Map()` and `new Set()` clone to an empty object, array, Map and Set. */
  method EmptyStructures() returns (objCopy: JsObject, arrCopy: JsObject, mapCopy: JsObject, setCopy: JsObject)
    ensures objCopy.kind == PlainKind && objCopy.props == []
    ensures arrCopy.kind == ArrayKind && arrCopy.elems == []
    ensures mapCopy.kind == MapKind && mapCopy.entries == []
    ensures setCopy.kind == SetKind && setCopy.elems == []
  {
    objCopy := CloneEmpty(PlainKind);
    arrCopy := CloneEmpty(ArrayKind);
    mapCopy := CloneEmpty(MapKind);
    setCopy := CloneEmpty(SetKind);
  }

  /** deepClone of a new, empty container of kind `kind`. */
  method CloneEmpty(kind: Kind) returns (copy: JsObject)
    requires IsComposite(kind)
    ensures copy.kind == kind && copy.entries == [] && copy.elems == [] && copy.props == []
  {
    var source := new JsObject(kind);
    ghost var graph := map[source := source.Snapshot()];
    assert WellFormed(graph, source);
    var r, table, made := DeepClone(graph, Ref(source));
    copy := r.obj;
    assert Done(OwnEnumerableStrings, graph, table, made, source);
  }
}
