/**
 * The cycle-safe deep clone, in both of its versions: `deepClone` of the app
 * package and `customDeepClone` of the custom-series package. They share the
 * dispatch and the memo scheme and differ only in which own properties of a
 * plain object they copy, which is the KeyPolicy parameter here.
 *
 * The clone dispatches on the kind of its input: a primitive is returned as
 * it is, a Date or RegExp is copied afresh every time, and a composite (Map,
 * Set, Array, plain object) goes through the memo: a hit returns the earlier
 * clone, a miss allocates an empty container, registers it, and only then
 * clones the children into it.
 *
 * Two ghost parameters carry the proof. `graph` is the source object graph:
 * every object the input reaches, with what it holds; the clone never writes
 * any of them, so what they hold stays `graph`. `pending` is the set of
 * source composites whose clones are still being filled further up the call
 * stack. The memo's ghost field `made` collects every object the clone
 * allocates, so that the entry points can state that the whole clone is new.
 */
module Cloning {
  import opened JsHeap

  /** Which own properties of a plain object are copied. */
  datatype KeyPolicy =
    | OwnEnumerableStrings  // app: for...in filtered by hasOwnProperty
    | AllOwnKeys            // custom-series: Reflect.ownKeys

  predicate Selected(policy: KeyPolicy, p: Prop)
  {
    policy.AllOwnKeys? || (p.key.StrKey? && p.enumerable)
  }

  /** The own properties the clone visits, in the order it visits them. */
  function CopiedProps(policy: KeyPolicy, props: seq<Prop>): (r: seq<Prop>)
    ensures |r| <= |props|
    ensures policy.AllOwnKeys? ==> r == props
  {
    if props == [] then []
    else if Selected(policy, props[0]) then [props[0]] + CopiedProps(policy, props[1..])
    else CopiedProps(policy, props[1..])
  }

  /**
   * The clone visits exactly the own properties the policy selects, each once:
   * for the app, the enumerable string-keyed ones, and for custom-series, all.
   */
  lemma {:induction false} CopiedPropsSelects(policy: KeyPolicy, props: seq<Prop>)
    ensures forall i | 0 <= i < |CopiedProps(policy, props)| ::
              CopiedProps(policy, props)[i] in props && Selected(policy, CopiedProps(policy, props)[i])
    ensures forall i | 0 <= i < |props| && Selected(policy, props[i]) :: props[i] in CopiedProps(policy, props)
    ensures PropKeysDistinct(props) ==> PropKeysDistinct(CopiedProps(policy, props))
  {
    if props != [] {
      CopiedPropsSelects(policy, props[1..]);
      var rest := CopiedProps(policy, props[1..]);
      assert forall i | 1 <= i < |props| :: props[i] == props[1..][i-1];
      if Selected(policy, props[0]) {
        assert CopiedProps(policy, props) == [props[0]] + rest;
      }
    }
  }

  /** Visiting `[p] + ps` visits `p` first, if the policy selects it, and then what visiting `ps` visits. */
  lemma CopiedPropsCons(policy: KeyPolicy, p: Prop, ps: seq<Prop>)
    ensures CopiedProps(policy, [p] + ps) == (if Selected(policy, p) then [p] else []) + CopiedProps(policy, ps)
  {
    assert ([p] + ps)[0] == p && ([p] + ps)[1..] == ps;
  }

  /**
   * The selection distributes over concatenation: the properties copied from
   * an earlier stretch of the own keys all come before those copied from a
   * later one, so the clone keeps the source's key order.
   */
  lemma {:induction false} CopiedPropsKeepOrder(policy: KeyPolicy, front: seq<Prop>, back: seq<Prop>)
    ensures CopiedProps(policy, front + back) == CopiedProps(policy, front) + CopiedProps(policy, back)
  {
    if front == [] {
      assert front + back == back;
    } else {
      var p, rest := front[0], front[1..];
      assert front == [p] + rest && front + back == [p] + (rest + back);
      var head := if Selected(policy, p) then [p] else [];
      CopiedPropsKeepOrder(policy, rest, back);
      CopiedPropsCons(policy, p, rest + back);
      CopiedPropsCons(policy, p, rest);
      assert head + (CopiedProps(policy, rest) + CopiedProps(policy, back))
          == (head + CopiedProps(policy, rest)) + CopiedProps(policy, back);
    }
  }

  /**
   * On an object whose own properties are all enumerable and string-keyed
   * (every object literal without symbols), both versions copy every property.
   */
  lemma {:induction false} OrdinaryPropsAllCopied(policy: KeyPolicy, props: seq<Prop>)
    requires forall i | 0 <= i < |props| :: props[i].key.StrKey? && props[i].enumerable
    ensures CopiedProps(policy, props) == props
  {
    if props != [] {
      OrdinaryPropsAllCopied(policy, props[1..]);
    }
  }

  type Graph = map<JsObject, Contents>
  type Memo = map<JsObject, JsObject>

  /** Every object `v` refers to is in the graph. */
  predicate Within(graph: Graph, v: Value)
  {
    v.Ref? ==> v.obj in graph
  }

  /**
   * What JavaScript guarantees of a live object: a Map's keys and a Set's
   * elements are distinct, property keys are distinct; and, for a graph,
   * every object it refers to is in the graph.
   */
  ghost predicate WellFormed(graph: Graph, o: JsObject)
    requires o in graph
  {
    var c := graph[o];
    && KeysDistinct(c.entries)
    && (o.kind.SetKind? ==> Distinct(c.elems))
    && PropKeysDistinct(c.props)
    && (forall i | 0 <= i < |c.entries| :: Within(graph, c.entries[i].0) && Within(graph, c.entries[i].1))
    && (forall i | 0 <= i < |c.elems| :: Within(graph, c.elems[i]))
    && (forall i | 0 <= i < |c.props| :: Within(graph, c.props[i].value))
  }

  /** The graph is closed under references and every object in it is well formed. */
  ghost predicate Closed(graph: Graph)
  {
    forall o {:trigger WellFormed(graph, o)} | o in graph :: WellFormed(graph, o)
  }

  /** The heap holds what the graph says the source objects hold. */
  ghost predicate Agrees(graph: Graph)
    reads graph.Keys
  {
    forall o {:trigger o.Snapshot()} | o in graph :: o.Snapshot() == graph[o]
  }

  /**
   * `cv` is what cloning `sv` yields under the memo table `m`: a primitive is
   * itself; an object becomes an object outside the source graph of the same
   * kind (so a Date keeps its timestamp, a RegExp its source and flags), and a
   * composite becomes precisely the clone the memo records for it.
   */
  ghost predicate Mirrors(graph: Graph, m: Memo, made: set<JsObject>, sv: Value, cv: Value)
  {
    match sv
    case Prim(_) => cv == sv
    case Ref(o) =>
      && cv.Ref?
      && cv.obj !in graph && cv.obj in made
      && cv.obj.kind == o.kind
      && (IsComposite(o.kind) ==> o in m && cv.obj == m[o])
  }

  /** Element by element, `cs` mirrors `ss` (Set elements, Array elements). */
  ghost predicate ElemsMirror(graph: Graph, m: Memo, made: set<JsObject>, ss: seq<Value>, cs: seq<Value>)
  {
    |cs| == |ss| && forall i | 0 <= i < |ss| :: Mirrors(graph, m, made, ss[i], cs[i])
  }

  /** Entry by entry, key and value, `cs` mirrors `ss` (Map entries). */
  ghost predicate EntriesMirror(graph: Graph, m: Memo, made: set<JsObject>, ss: seq<(Value, Value)>, cs: seq<(Value, Value)>)
  {
    && |cs| == |ss|
    && forall i | 0 <= i < |ss| :: Mirrors(graph, m, made, ss[i].0, cs[i].0) && Mirrors(graph, m, made, ss[i].1, cs[i].1)
  }

  /**
   * Property by property, `cs` has the keys of `ss` in the same order, each an
   * enumerable property whose value mirrors the source's.
   */
  ghost predicate PropsMirror(graph: Graph, m: Memo, made: set<JsObject>, ss: seq<Prop>, cs: seq<Prop>)
  {
    && |cs| == |ss|
    && forall i | 0 <= i < |ss| ::
         cs[i].key == ss[i].key && cs[i].enumerable && Mirrors(graph, m, made, ss[i].value, cs[i].value)
  }

  /**
   * The memo table maps source composites to clones of the same kind outside
   * the source graph, and no two composites share a clone.
   */
  ghost predicate MemoInv(graph: Graph, m: Memo, made: set<JsObject>)
  {
    && (forall o | o in m :: o in graph && IsComposite(o.kind) && m[o] !in graph && m[o] in made && m[o].kind == o.kind)
    && (forall a, b | a in m && b in m && a != b :: m[a] != m[b])
  }

  /**
   * The clone `c` of a composite of kind `kind` that holds `s` is complete:
   * it holds exactly the clones of what `s` holds, and nothing else.
   */
  ghost predicate Complete(policy: KeyPolicy, graph: Graph, m: Memo, made: set<JsObject>, kind: Kind, s: Contents, c: Contents)
  {
    match kind
    case MapKind => c.elems == [] && c.props == [] && EntriesMirror(graph, m, made, s.entries, c.entries)
    case SetKind => c.entries == [] && c.props == [] && ElemsMirror(graph, m, made, s.elems, c.elems)
    case ArrayKind => c.entries == [] && c.props == [] && ElemsMirror(graph, m, made, s.elems, c.elems)
    case PlainKind => c.entries == [] && c.elems == [] && PropsMirror(graph, m, made, CopiedProps(policy, s.props), c.props)
    case _ => true
  }

  /** Every memoised composite not on the call stack has a complete clone. */
  ghost predicate Inv(policy: KeyPolicy, graph: Graph, m: Memo, made: set<JsObject>, pending: set<JsObject>)
    reads m.Values
  {
    && MemoInv(graph, m, made)
    && pending <= m.Keys
    && forall o {:trigger Done(policy, graph, m, made, o)} | o in m && o !in pending :: Done(policy, graph, m, made, o)
  }

  /** The clone of memoised composite `o` is complete. */
  ghost predicate Done(policy: KeyPolicy, graph: Graph, m: Memo, made: set<JsObject>, o: JsObject)
    requires o in m && o in graph
    reads m[o]
  {
    Complete(policy, graph, m, made, o.kind, graph[o], m[o].Snapshot())
  }

  /** `m'` keeps every entry of `m`: the memo only grows. */
  ghost predicate Grows(m: Memo, m': Memo)
  {
    forall o | o in m :: o in m' && m'[o] == m[o]
  }

  lemma GrowsTransitive(m0: Memo, m1: Memo, m2: Memo)
    requires Grows(m0, m1) && Grows(m1, m2)
    ensures Grows(m0, m2)
  {
  }

  lemma ElemsMirrorGrows(graph: Graph, m: Memo, m': Memo, made: set<JsObject>, made': set<JsObject>, ss: seq<Value>, cs: seq<Value>)
    requires Grows(m, m') && made <= made' && ElemsMirror(graph, m, made, ss, cs)
    ensures ElemsMirror(graph, m', made', ss, cs)
  {
    forall i | 0 <= i < |ss| ensures Mirrors(graph, m', made', ss[i], cs[i]) {
      assert Mirrors(graph, m, made, ss[i], cs[i]);
    }
  }

  lemma EntriesMirrorGrows(graph: Graph, m: Memo, m': Memo, made: set<JsObject>, made': set<JsObject>, ss: seq<(Value, Value)>, cs: seq<(Value, Value)>)
    requires Grows(m, m') && made <= made' && EntriesMirror(graph, m, made, ss, cs)
    ensures EntriesMirror(graph, m', made', ss, cs)
  {
    forall i | 0 <= i < |ss| ensures Mirrors(graph, m', made', ss[i].0, cs[i].0) && Mirrors(graph, m', made', ss[i].1, cs[i].1) {
      assert Mirrors(graph, m, made, ss[i].0, cs[i].0) && Mirrors(graph, m, made, ss[i].1, cs[i].1);
    }
  }

  lemma PropsMirrorGrows(graph: Graph, m: Memo, m': Memo, made: set<JsObject>, made': set<JsObject>, ss: seq<Prop>, cs: seq<Prop>)
    requires Grows(m, m') && made <= made' && PropsMirror(graph, m, made, ss, cs)
    ensures PropsMirror(graph, m', made', ss, cs)
  {
    forall i | 0 <= i < |ss| ensures Mirrors(graph, m', made', ss[i].value, cs[i].value) {
      assert Mirrors(graph, m, made, ss[i].value, cs[i].value);
    }
  }

  /** A clone stays a clone as the memo grows. */
  lemma MirrorsGrows(graph: Graph, m: Memo, m': Memo, made: set<JsObject>, made': set<JsObject>, sv: Value, cv: Value)
    requires Grows(m, m') && made <= made' && Mirrors(graph, m, made, sv, cv)
    ensures Mirrors(graph, m', made', sv, cv)
  {
  }

  /** Cloning entry `i` of `ss` into `(ck, cv)` extends the mirrored prefix by one. */
  lemma EntriesMirrorStep(graph: Graph, m: Memo, made: set<JsObject>, ss: seq<(Value, Value)>, i: nat, cs: seq<(Value, Value)>, ck: Value, cv: Value)
    requires i < |ss| && EntriesMirror(graph, m, made, ss[..i], cs)
    requires Mirrors(graph, m, made, ss[i].0, ck) && Mirrors(graph, m, made, ss[i].1, cv)
    ensures EntriesMirror(graph, m, made, ss[..i+1], cs + [(ck, cv)])
  {
    assert ss[..i+1] == ss[..i] + [ss[i]];
  }

  /** Cloning element `i` of `ss` into `cv` extends the mirrored prefix by one. */
  lemma ElemsMirrorStep(graph: Graph, m: Memo, made: set<JsObject>, ss: seq<Value>, i: nat, cs: seq<Value>, cv: Value)
    requires i < |ss| && ElemsMirror(graph, m, made, ss[..i], cs) && Mirrors(graph, m, made, ss[i], cv)
    ensures ElemsMirror(graph, m, made, ss[..i+1], cs + [cv])
  {
    assert ss[..i+1] == ss[..i] + [ss[i]];
  }

  /** Copying property `i` of `ss` with the cloned value `cv` extends the mirrored prefix by one. */
  lemma PropsMirrorStep(graph: Graph, m: Memo, made: set<JsObject>, ss: seq<Prop>, i: nat, cs: seq<Prop>, cv: Value)
    requires i < |ss| && PropsMirror(graph, m, made, ss[..i], cs) && Mirrors(graph, m, made, ss[i].value, cv)
    ensures PropsMirror(graph, m, made, ss[..i+1], cs + [Prop(ss[i].key, true, cv)])
  {
    assert ss[..i+1] == ss[..i] + [ss[i]];
  }

  /**
   * The clone of a Map key is not yet a key of the partial clone: the source
   * keys are distinct, cloning is injective on primitives and composites, and
   * a Date or RegExp copy is new (the last requirement).
   */
  lemma NewMapKey(graph: Graph, m: Memo, made: set<JsObject>, ss: seq<(Value, Value)>, i: nat, cs: seq<(Value, Value)>, ck: Value)
    requires MemoInv(graph, m, made) && KeysDistinct(ss) && i < |ss|
    requires EntriesMirror(graph, m, made, ss[..i], cs) && Mirrors(graph, m, made, ss[i].0, ck)
    requires ss[i].0.Ref? && !IsComposite(ss[i].0.obj.kind) ==> forall j | 0 <= j < |cs| :: cs[j].0 != ck
    ensures MapGet(cs, ck).None?
  {
    if ss[i].0.Prim? || IsComposite(ss[i].0.obj.kind) {
      forall j | 0 <= j < |cs| ensures cs[j].0 != ck {
        assert Mirrors(graph, m, made, ss[j].0, cs[j].0);
        if cs[j].0 == ck {
          MirrorsInjective(graph, m, made, ss[i].0, ck, ss[j].0, cs[j].0);
        }
      }
    }
  }

  /** The clone of a Set element is not yet an element of the partial clone, as for Map keys. */
  lemma NewSetElem(graph: Graph, m: Memo, made: set<JsObject>, ss: seq<Value>, i: nat, cs: seq<Value>, cv: Value)
    requires MemoInv(graph, m, made) && Distinct(ss) && i < |ss|
    requires ElemsMirror(graph, m, made, ss[..i], cs) && Mirrors(graph, m, made, ss[i], cv)
    requires ss[i].Ref? && !IsComposite(ss[i].obj.kind) ==> cv !in cs
    ensures cv !in cs
  {
    if ss[i].Prim? || IsComposite(ss[i].obj.kind) {
      forall j | 0 <= j < |cs| ensures cs[j] != cv {
        assert Mirrors(graph, m, made, ss[j], cs[j]);
        if cs[j] == cv {
          MirrorsInjective(graph, m, made, ss[i], cv, ss[j], cs[j]);
        }
      }
    }
  }

  /** The key of the next property to copy is not yet a key of the partial clone. */
  lemma NewPropKey(graph: Graph, m: Memo, made: set<JsObject>, ss: seq<Prop>, i: nat, cs: seq<Prop>)
    requires PropKeysDistinct(ss) && i < |ss| && PropsMirror(graph, m, made, ss[..i], cs)
    ensures GetProp(cs, ss[i].key).None?
  {
  }

  /**
   * One call `deepClone(obj, map)` / `customDeepClone(source, map)` with the
   * memo `map` passed down by the caller.
   */
  method CloneValue(policy: KeyPolicy, ghost graph: Graph, ghost pending: set<JsObject>,
                    v: Value, memo: WeakMemo) returns (r: Value)
    requires Closed(graph) && Agrees(graph) && Within(graph, v)
    requires Inv(policy, graph, memo.table, memo.made, pending)
    modifies memo
    decreases graph.Keys - memo.table.Keys, 2
    ensures Agrees(graph)
    ensures Inv(policy, graph, memo.table, memo.made, pending)
    ensures Grows(old(memo.table), memo.table)
    ensures old(memo.made) <= memo.made && fresh(memo.made - old(memo.made))
    ensures Mirrors(graph, memo.table, memo.made, v, r)
    ensures r.Ref? && !IsComposite(r.obj.kind) ==> fresh(r.obj)
    ensures v.Ref? && v.obj in old(memo.table) ==> r == Ref(old(memo.table)[v.obj])
    ensures v.Prim? || !IsComposite(v.obj.kind) || v.obj in old(memo.table) ==> memo.table == old(memo.table)
    ensures v.Ref? && IsComposite(v.obj.kind) && v.obj !in old(memo.table) ==> fresh(r.obj)
  {
    match v
    case Prim(_) =>
      r := v;
    case Ref(o) =>
      match o.kind
      case DateKind(t) =>
        var copy := new JsObject(DateKind(t));
        Allocated(policy, graph, pending, memo, copy);
        r := Ref(copy);
      case RegExpKind(s, f) =>
        var copy := new JsObject(RegExpKind(s, f));
        Allocated(policy, graph, pending, memo, copy);
        r := Ref(copy);
      case _ =>
        if o in memo.table {
          r := Ref(memo.table[o]);
        } else {
          var result := CloneComposite(policy, graph, pending, o, memo);
          r := Ref(result);
        }
  }

  /**
   * A composite the memo has not seen: allocate an empty container of the
   * same kind, register it in the memo, and only then fill it.
   */
  method CloneComposite(policy: KeyPolicy, ghost graph: Graph, ghost pending: set<JsObject>,
                        o: JsObject, memo: WeakMemo) returns (result: JsObject)
    requires Closed(graph) && Agrees(graph) && o in graph && IsComposite(o.kind) && o !in memo.table
    requires Inv(policy, graph, memo.table, memo.made, pending)
    modifies memo
    decreases graph.Keys - memo.table.Keys, 1
    ensures Agrees(graph)
    ensures Inv(policy, graph, memo.table, memo.made, pending)
    ensures Grows(old(memo.table), memo.table)
    ensures old(memo.made) <= memo.made && fresh(memo.made - old(memo.made))
    ensures o in memo.table && memo.table[o] == result && fresh(result)
  {
    result := new JsObject(o.kind);
    memo.table := memo.table[o := result];
    memo.made := memo.made + {result};
    Register(policy, graph, pending, old(memo.table), old(memo.made), o, result);
    ghost var registered, made1 := memo.table, memo.made;
    assert Grows(old(memo.table), registered);
    Fill(policy, graph, pending, o, result, memo);
    GrowsTransitive(old(memo.table), registered, memo.table);
    assert memo.made - old(memo.made) <= (memo.made - made1) + {result};
  }

  /** The branch of the container's kind fills the registered, still empty clone. */
  method Fill(policy: KeyPolicy, ghost graph: Graph, ghost pending: set<JsObject>,
              o: JsObject, result: JsObject, memo: WeakMemo)
    requires Closed(graph) && Agrees(graph) && o in graph && IsComposite(o.kind)
    requires o in memo.table && memo.table[o] == result && o !in pending
    requires Inv(policy, graph, memo.table, memo.made, pending + {o})
    requires result.entries == [] && result.elems == [] && result.props == []
    modifies memo, result
    decreases graph.Keys - memo.table.Keys, 5
    ensures Agrees(graph)
    ensures Inv(policy, graph, memo.table, memo.made, pending)
    ensures Grows(old(memo.table), memo.table)
    ensures old(memo.made) <= memo.made && fresh(memo.made - old(memo.made))
  {
    match o.kind {
      case MapKind => FillMap(policy, graph, pending, o, result, memo);
      case SetKind => FillSet(policy, graph, pending, o, result, memo);
      case ArrayKind => FillArray(policy, graph, pending, o, result, memo);
      case PlainKind => FillPlain(policy, graph, pending, o, result, memo);
    }
  }

  /** Registering a fresh empty clone of an unseen composite keeps the invariant, with it pending. */
  lemma Register(policy: KeyPolicy, graph: Graph, pending: set<JsObject>, m: Memo, made: set<JsObject>,
                 o: JsObject, result: JsObject)
    requires Inv(policy, graph, m, made, pending)
    requires o in graph && IsComposite(o.kind) && o !in m
    requires result !in graph && result.kind == o.kind && result !in m.Values
    ensures Inv(policy, graph, m[o := result], made + {result}, pending + {o})
  {
    var m', made' := m[o := result], made + {result};
    forall x | x in m' && x !in pending + {o}
      ensures Done(policy, graph, m', made', x)
    {
      assert Done(policy, graph, m, made, x);
      CompleteGrows(policy, graph, m, m', made, made', x.kind, graph[x], m[x].Snapshot());
    }
  }

  /** A clone stays complete as the memo grows and more objects are allocated. */
  lemma CompleteGrows(policy: KeyPolicy, graph: Graph, m: Memo, m': Memo, made: set<JsObject>, made': set<JsObject>,
                      kind: Kind, s: Contents, c: Contents)
    requires Grows(m, m') && made <= made' && Complete(policy, graph, m, made, kind, s, c)
    ensures Complete(policy, graph, m', made', kind, s, c)
  {
    match kind
    case MapKind => EntriesMirrorGrows(graph, m, m', made, made', s.entries, c.entries);
    case SetKind => ElemsMirrorGrows(graph, m, m', made, made', s.elems, c.elems);
    case ArrayKind => ElemsMirrorGrows(graph, m, m', made, made', s.elems, c.elems);
    case PlainKind => PropsMirrorGrows(graph, m, m', made, made', CopiedProps(policy, s.props), c.props);
    case _ =>
  }

  /** Recording a new Date or RegExp copy among the allocated objects keeps the invariant. */
  ghost method Allocated(policy: KeyPolicy, graph: Graph, pending: set<JsObject>,
                         memo: WeakMemo, copy: JsObject)
    requires Inv(policy, graph, memo.table, memo.made, pending)
    modifies memo
    ensures memo.table == old(memo.table) && memo.made == old(memo.made) + {copy}
    ensures Inv(policy, graph, memo.table, memo.made, pending)
  {
    ghost var made := memo.made;
    memo.made := memo.made + {copy};
    forall x | x in memo.table && x !in pending
      ensures Done(policy, graph, memo.table, memo.made, x)
    {
      assert Done(policy, graph, memo.table, made, x);
      CompleteGrows(policy, graph, memo.table, memo.table, made, memo.made, x.kind, graph[x], memo.table[x].Snapshot());
    }
  }

  /**
   * Cloning is injective on primitives and composites: a clone of either is
   * the clone of nothing else. (Date and RegExp copies are told apart by
   * their freshness instead.)
   */
  lemma MirrorsInjective(graph: Graph, m: Memo, made: set<JsObject>, s1: Value, c1: Value, s2: Value, c2: Value)
    requires MemoInv(graph, m, made)
    requires Mirrors(graph, m, made, s1, c1) && Mirrors(graph, m, made, s2, c2)
    requires s1.Prim? || IsComposite(s1.obj.kind)
    requires c1 == c2
    ensures s1 == s2
  {
  }

  /**
   * The four ways the clone writes into a container it is still filling:
   * `result.set(k, v)`, `result.add(v)`, `result[i] = v` with `i` the current
   * length, and `result[key] = v`. Only the pending clone changes, so the
   * source graph and every finished clone stay as they were.
   */
  method MapSetOn(ghost policy: KeyPolicy, ghost graph: Graph, ghost pending: set<JsObject>, ghost m: Memo, ghost made: set<JsObject>,
                  ghost o: JsObject, result: JsObject, k: Value, v: Value)
    requires Agrees(graph) && Inv(policy, graph, m, made, pending) && o in pending && o in m && m[o] == result
    modifies result
    ensures result.entries == MapSet(old(result.entries), k, v)
    ensures result.elems == old(result.elems) && result.props == old(result.props)
    ensures Agrees(graph) && Inv(policy, graph, m, made, pending)
  {
    result.entries := MapSet(result.entries, k, v);
  }

  method SetAddOn(ghost policy: KeyPolicy, ghost graph: Graph, ghost pending: set<JsObject>, ghost m: Memo, ghost made: set<JsObject>,
                  ghost o: JsObject, result: JsObject, v: Value)
    requires Agrees(graph) && Inv(policy, graph, m, made, pending) && o in pending && o in m && m[o] == result
    modifies result
    ensures result.elems == SetAdd(old(result.elems), v)
    ensures result.entries == old(result.entries) && result.props == old(result.props)
    ensures Agrees(graph) && Inv(policy, graph, m, made, pending)
  {
    result.elems := SetAdd(result.elems, v);
  }

  method ArrayPushOn(ghost policy: KeyPolicy, ghost graph: Graph, ghost pending: set<JsObject>, ghost m: Memo, ghost made: set<JsObject>,
                     ghost o: JsObject, result: JsObject, v: Value)
    requires Agrees(graph) && Inv(policy, graph, m, made, pending) && o in pending && o in m && m[o] == result
    modifies result
    ensures result.elems == old(result.elems) + [v]
    ensures result.entries == old(result.entries) && result.props == old(result.props)
    ensures Agrees(graph) && Inv(policy, graph, m, made, pending)
  {
    result.elems := result.elems + [v];
  }

  method PutPropOn(ghost policy: KeyPolicy, ghost graph: Graph, ghost pending: set<JsObject>, ghost m: Memo, ghost made: set<JsObject>,
                   ghost o: JsObject, result: JsObject, k: Key, v: Value)
    requires Agrees(graph) && Inv(policy, graph, m, made, pending) && o in pending && o in m && m[o] == result
    modifies result
    ensures result.props == PutProp(old(result.props), k, v)
    ensures result.entries == old(result.entries) && result.elems == old(result.elems)
    ensures Agrees(graph) && Inv(policy, graph, m, made, pending)
  {
    result.props := PutProp(result.props, k, v);
  }

  /**
   * Sharing and cycles survive the clone: two primitives or composites have
   * the same clone exactly when they are the same value.
   */
  lemma SharingPreserved(graph: Graph, m: Memo, made: set<JsObject>, s1: Value, c1: Value, s2: Value, c2: Value)
    requires MemoInv(graph, m, made)
    requires Mirrors(graph, m, made, s1, c1) && Mirrors(graph, m, made, s2, c2)
    requires s1.Prim? || IsComposite(s1.obj.kind)
    requires s2.Prim? || IsComposite(s2.obj.kind)
    ensures c1 == c2 <==> s1 == s2
  {
    if c1 == c2 {
      MirrorsInjective(graph, m, made, s1, c1, s2, c2);
    }
  }

  /** The properties copied from a well-formed object have distinct keys and values inside the graph. */
  lemma CopiedPropsWellFormed(policy: KeyPolicy, graph: Graph, o: JsObject)
    requires o in graph && WellFormed(graph, o)
    ensures PropKeysDistinct(CopiedProps(policy, graph[o].props))
    ensures forall i | 0 <= i < |CopiedProps(policy, graph[o].props)| ::
              Within(graph, CopiedProps(policy, graph[o].props)[i].value)
  {
    CopiedPropsSelects(policy, graph[o].props);
  }

  /** The index loop of the array branch: element by element, the clone of each element is stored at the same index. */
  method FillArray(policy: KeyPolicy, ghost graph: Graph, ghost pending: set<JsObject>,
                   o: JsObject, result: JsObject, memo: WeakMemo)
    requires Closed(graph) && Agrees(graph) && o in graph && o.kind == ArrayKind
    requires o in memo.table && memo.table[o] == result && o !in pending
    requires Inv(policy, graph, memo.table, memo.made, pending + {o})
    requires result.entries == [] && result.elems == [] && result.props == []
    modifies memo, result
    decreases graph.Keys - memo.table.Keys, 3
    ensures Agrees(graph)
    ensures Inv(policy, graph, memo.table, memo.made, pending)
    ensures Grows(old(memo.table), memo.table)
    ensures old(memo.made) <= memo.made && fresh(memo.made - old(memo.made))
    ensures ElemsMirror(graph, memo.table, memo.made, o.elems, result.elems)
  {
    assert o.Snapshot() == graph[o] && WellFormed(graph, o);
    var elems := o.elems;
    var i := 0;
    while i < |elems|
      invariant 0 <= i <= |elems|
      invariant Agrees(graph)
      invariant Inv(policy, graph, memo.table, memo.made, pending + {o})
      invariant Grows(old(memo.table), memo.table)
      invariant old(memo.made) <= memo.made && fresh(memo.made - old(memo.made))
      invariant result.entries == [] && result.props == []
      invariant ElemsMirror(graph, memo.table, memo.made, elems[..i], result.elems)
    {
      ghost var m0, f0 := memo.table, memo.made;
      var c := CloneValue(policy, graph, pending + {o}, elems[i], memo);
      ElemsMirrorGrows(graph, m0, memo.table, f0, memo.made, elems[..i], result.elems);
      ElemsMirrorStep(graph, memo.table, memo.made, elems, i, result.elems, c);
      // result[i] = c, with i the current length: the array grows by one
      ArrayPushOn(policy, graph, pending + {o}, memo.table, memo.made, o, result, c);
      i := i + 1;
    }
    assert elems[..i] == elems;
    assert o.Snapshot() == graph[o];
  }

  /**
   * One entry of a Map: `deepClone(key, map)` and then `deepClone(value, map)`,
   * in the order the arguments of `result.set` are evaluated. `cs` is the
   * partial clone holding entries `..i`.
   */
  method CloneEntry(policy: KeyPolicy, ghost graph: Graph, ghost pending: set<JsObject>,
                    ghost ss: seq<(Value, Value)>, ghost i: nat, ghost cs: seq<(Value, Value)>,
                    key: Value, value: Value, memo: WeakMemo) returns (ck: Value, cv: Value)
    requires Closed(graph) && Agrees(graph) && Within(graph, key) && Within(graph, value)
    requires i < |ss| && ss[i] == (key, value) && KeysDistinct(ss)
    requires Inv(policy, graph, memo.table, memo.made, pending)
    requires EntriesMirror(graph, memo.table, memo.made, ss[..i], cs)
    modifies memo
    decreases graph.Keys - memo.table.Keys, 3
    ensures Agrees(graph)
    ensures Inv(policy, graph, memo.table, memo.made, pending)
    ensures Grows(old(memo.table), memo.table)
    ensures old(memo.made) <= memo.made && fresh(memo.made - old(memo.made))
    ensures EntriesMirror(graph, memo.table, memo.made, ss[..i+1], cs + [(ck, cv)])
    ensures MapGet(cs, ck).None?
  {
    ghost var m0, f0 := memo.table, memo.made;
    ck := CloneValue(policy, graph, pending, key, memo);
    EntriesMirrorGrows(graph, m0, memo.table, f0, memo.made, ss[..i], cs);
    NewMapKey(graph, memo.table, memo.made, ss, i, cs, ck);
    ghost var m1, f1 := memo.table, memo.made;
    cv := CloneValue(policy, graph, pending, value, memo);
    EntriesMirrorGrows(graph, m1, memo.table, f1, memo.made, ss[..i], cs);
    MirrorsGrows(graph, m1, memo.table, f1, memo.made, key, ck);
    EntriesMirrorStep(graph, memo.table, memo.made, ss, i, cs, ck, cv);
    GrowsTransitive(m0, m1, memo.table);
  }

  /** The forEach of the Map branch: each entry, in insertion order, is cloned and set on the new Map. */
  method FillMap(policy: KeyPolicy, ghost graph: Graph, ghost pending: set<JsObject>,
                 o: JsObject, result: JsObject, memo: WeakMemo)
    requires Closed(graph) && Agrees(graph) && o in graph && o.kind == MapKind
    requires o in memo.table && memo.table[o] == result && o !in pending
    requires Inv(policy, graph, memo.table, memo.made, pending + {o})
    requires result.entries == [] && result.elems == [] && result.props == []
    modifies memo, result
    decreases graph.Keys - memo.table.Keys, 4
    ensures Agrees(graph)
    ensures Inv(policy, graph, memo.table, memo.made, pending)
    ensures Grows(old(memo.table), memo.table)
    ensures old(memo.made) <= memo.made && fresh(memo.made - old(memo.made))
    ensures EntriesMirror(graph, memo.table, memo.made, o.entries, result.entries)
  {
    assert o.Snapshot() == graph[o] && WellFormed(graph, o);
    var entries := o.entries;
    var i := 0;
    while i < |entries|
      invariant 0 <= i <= |entries|
      invariant Agrees(graph)
      invariant Inv(policy, graph, memo.table, memo.made, pending + {o})
      invariant Grows(old(memo.table), memo.table)
      invariant old(memo.made) <= memo.made && fresh(memo.made - old(memo.made))
      invariant result.elems == [] && result.props == []
      invariant EntriesMirror(graph, memo.table, memo.made, entries[..i], result.entries)
    {
      var ck, cv := CloneEntry(policy, graph, pending + {o}, entries, i, result.entries, entries[i].0, entries[i].1, memo);
      // ck is not yet a key of the clone, so Map.set appends
      MapSetOn(policy, graph, pending + {o}, memo.table, memo.made, o, result, ck, cv);
      i := i + 1;
    }
    assert entries[..i] == entries;
    assert o.Snapshot() == graph[o];
  }

  /** The forEach of the Set branch: each element, in insertion order, is cloned and added to the new Set. */
  method FillSet(policy: KeyPolicy, ghost graph: Graph, ghost pending: set<JsObject>,
                 o: JsObject, result: JsObject, memo: WeakMemo)
    requires Closed(graph) && Agrees(graph) && o in graph && o.kind == SetKind
    requires o in memo.table && memo.table[o] == result && o !in pending
    requires Inv(policy, graph, memo.table, memo.made, pending + {o})
    requires result.entries == [] && result.elems == [] && result.props == []
    modifies memo, result
    decreases graph.Keys - memo.table.Keys, 3
    ensures Agrees(graph)
    ensures Inv(policy, graph, memo.table, memo.made, pending)
    ensures Grows(old(memo.table), memo.table)
    ensures old(memo.made) <= memo.made && fresh(memo.made - old(memo.made))
    ensures ElemsMirror(graph, memo.table, memo.made, o.elems, result.elems)
  {
    assert o.Snapshot() == graph[o] && WellFormed(graph, o);
    var elems := o.elems;
    var i := 0;
    while i < |elems|
      invariant 0 <= i <= |elems|
      invariant Agrees(graph)
      invariant Inv(policy, graph, memo.table, memo.made, pending + {o})
      invariant Grows(old(memo.table), memo.table)
      invariant old(memo.made) <= memo.made && fresh(memo.made - old(memo.made))
      invariant result.entries == [] && result.props == []
      invariant ElemsMirror(graph, memo.table, memo.made, elems[..i], result.elems)
    {
      ghost var m0, f0 := memo.table, memo.made;
      var c := CloneValue(policy, graph, pending + {o}, elems[i], memo);
      ElemsMirrorGrows(graph, m0, memo.table, f0, memo.made, elems[..i], result.elems);
      NewSetElem(graph, memo.table, memo.made, elems, i, result.elems, c);
      ElemsMirrorStep(graph, memo.table, memo.made, elems, i, result.elems, c);
      // c is not yet an element of the clone, so Set.add appends
      SetAddOn(policy, graph, pending + {o}, memo.table, memo.made, o, result, c);
      i := i + 1;
    }
    assert elems[..i] == elems;
    assert o.Snapshot() == graph[o];
  }

  /**
   * The value of one copied property: `deepClone(obj[key], map)`. `cs` is
   * the partial clone holding the properties `..i`.
   */
  method CloneProp(policy: KeyPolicy, ghost graph: Graph, ghost pending: set<JsObject>,
                   ghost ss: seq<Prop>, ghost i: nat, ghost cs: seq<Prop>,
                   value: Value, memo: WeakMemo) returns (c: Value)
    requires Closed(graph) && Agrees(graph) && Within(graph, value)
    requires i < |ss| && ss[i].value == value && PropKeysDistinct(ss)
    requires Inv(policy, graph, memo.table, memo.made, pending)
    requires PropsMirror(graph, memo.table, memo.made, ss[..i], cs)
    modifies memo
    decreases graph.Keys - memo.table.Keys, 3
    ensures Agrees(graph)
    ensures Inv(policy, graph, memo.table, memo.made, pending)
    ensures Grows(old(memo.table), memo.table)
    ensures old(memo.made) <= memo.made && fresh(memo.made - old(memo.made))
    ensures PropsMirror(graph, memo.table, memo.made, ss[..i+1], cs + [Prop(ss[i].key, true, c)])
    ensures GetProp(cs, ss[i].key).None?
  {
    ghost var m0, f0 := memo.table, memo.made;
    c := CloneValue(policy, graph, pending, value, memo);
    PropsMirrorGrows(graph, m0, memo.table, f0, memo.made, ss[..i], cs);
    NewPropKey(graph, memo.table, memo.made, ss, i, cs);
    PropsMirrorStep(graph, memo.table, memo.made, ss, i, cs, c);
  }

  /** The key loop of the plain-object branch: each copied key is assigned the clone of its value. */
  method FillPlain(policy: KeyPolicy, ghost graph: Graph, ghost pending: set<JsObject>,
                   o: JsObject, result: JsObject, memo: WeakMemo)
    requires Closed(graph) && Agrees(graph) && o in graph && o.kind == PlainKind
    requires o in memo.table && memo.table[o] == result && o !in pending
    requires Inv(policy, graph, memo.table, memo.made, pending + {o})
    requires result.entries == [] && result.elems == [] && result.props == []
    modifies memo, result
    decreases graph.Keys - memo.table.Keys, 4
    ensures Agrees(graph)
    ensures Inv(policy, graph, memo.table, memo.made, pending)
    ensures Grows(old(memo.table), memo.table)
    ensures old(memo.made) <= memo.made && fresh(memo.made - old(memo.made))
    ensures PropsMirror(graph, memo.table, memo.made, CopiedProps(policy, o.props), result.props)
  {
    assert o.Snapshot() == graph[o] && WellFormed(graph, o);
    var keys := CopiedProps(policy, o.props);
    CopiedPropsWellFormed(policy, graph, o);
    var i := 0;
    while i < |keys|
      invariant 0 <= i <= |keys|
      invariant Agrees(graph)
      invariant Inv(policy, graph, memo.table, memo.made, pending + {o})
      invariant Grows(old(memo.table), memo.table)
      invariant old(memo.made) <= memo.made && fresh(memo.made - old(memo.made))
      invariant result.entries == [] && result.elems == []
      invariant PropsMirror(graph, memo.table, memo.made, keys[..i], result.props)
    {
      var c := CloneProp(policy, graph, pending + {o}, keys, i, result.props, keys[i].value, memo);
      // keys[i].key is not yet a key of the clone, so the assignment appends
      PutPropOn(policy, graph, pending + {o}, memo.table, memo.made, o, result, keys[i].key, c);
      i := i + 1;
    }
    assert keys[..i] == keys;
    assert o.Snapshot() == graph[o];
  }

  /**
   * `deepClone(obj)` of the app package: a new WeakMap, then one call. Only
   * objects the call allocates change (there is no modifies clause), so the
   * source graph is left as it was. The result is a clone of `obj` in the
   * sense of `Mirrors`, and every composite the source reaches has a complete
   * clone recorded in `table`, which is the WeakMap after the call.
   */
  method DeepClone(ghost graph: Graph, obj: Value) returns (r: Value, ghost table: Memo, ghost made: set<JsObject>)
    requires Closed(graph) && Agrees(graph) && Within(graph, obj)
    ensures Agrees(graph)
    ensures Inv(OwnEnumerableStrings, graph, table, made, {})
    ensures Mirrors(graph, table, made, obj, r)
    ensures fresh(made)
    ensures forall o | o in table :: fresh(table[o])
    ensures obj.Ref? ==> fresh(r.obj)
  {
    var memo := new WeakMemo();
    r := CloneValue(OwnEnumerableStrings, graph, {}, obj, memo);
    table, made := memo.table, memo.made;
  }

  /** `customDeepClone(source)` of the custom-series package: as DeepClone, copying every own key. */
  method CustomDeepClone(ghost graph: Graph, source: Value) returns (r: Value, ghost table: Memo, ghost made: set<JsObject>)
    requires Closed(graph) && Agrees(graph) && Within(graph, source)
    ensures Agrees(graph)
    ensures Inv(AllOwnKeys, graph, table, made, {})
    ensures Mirrors(graph, table, made, source, r)
    ensures fresh(made)
    ensures forall o | o in table :: fresh(table[o])
    ensures source.Ref? ==> fresh(r.obj)
  {
    var memo := new WeakMemo();
    r := CloneValue(AllOwnKeys, graph, {}, source, memo);
    table, made := memo.table, memo.made;
  }
}
