# Cycle-safe deep clone

This project models the two deep-clone functions of the repository and
proves properties about them:

- `deepClone` in `packages/app/src/deepClone.ts`;
- `customDeepClone` in `packages/custom-series/src/deepClone.ts`.

Both work the same way:

- A non-object or `null` comes back unchanged.
- A `Date` or `RegExp` gets a fresh copy with the same timestamp, or the
  same source and flags, on every visit.
- A `Map`, `Set`, array or other object goes through a `WeakMap`. A second
  visit returns the clone made on the first visit. On the first visit an
  empty container of the same sort is created and registered in the
  `WeakMap`. Only then are the children cloned into it, so cycles and
  shared sub-objects survive the copy.

The two versions differ only for plain objects:

- `deepClone` walks `for...in` filtered by `hasOwnProperty`, so it copies
  own enumerable string-keyed properties.
- `customDeepClone` walks `Reflect.ownKeys`, so it copies every own key,
  symbols included.

The model runs both versions through one worker with a `KeyPolicy`
parameter.

Files:

- `JsHeap.dfy` covers the part of the JavaScript object model the clone
  touches:
  - values;
  - heap objects (`class JsObject`) whose entries, elements and properties
    are mutable fields;
  - the `WeakMap` (`class WeakMemo`);
  - `Map.prototype.set`/`get`, `Set.prototype.add` and property assignment,
    each with its overwrite/deduplicate behaviour.
- `Cloning.dfy` holds the clone itself as imperative Dafny. `CloneValue` is
  one call `deepClone(obj, map)`. It dispatches to `CloneComposite`, which
  allocates, registers and fills, and to one fill loop per container sort.
  The proof carries two ghost parameters:
  - `graph` is a snapshot of the source objects;
  - `pending` is the set of source composites whose clones are still being
    filled further up the call stack.

  The `WeakMap` also carries a ghost set `made` of every object the clone has
  allocated; each method proves that what it adds to `made` is newly
  allocated. The main invariant `Inv` says:
  - the `WeakMap` maps source composites injectively to objects of the same
    sort that are in `made`;
  - every object a clone refers to in place of a source object is in `made`;
  - every clone that is not pending is complete: it holds exactly the
    clones of what its source holds (for a plain object: of the own
    properties its key policy selects), in the same order (`Complete`).
- `Scenarios.dfy` builds the object graphs of the app package's test
  script and states what the clone returns for each.

The clone never writes the source. `CloneValue` and the fill methods may
modify only the `WeakMap` and the clone under construction. `DeepClone` and
`CustomDeepClone` have no `modifies` clause at all, so no object that
existed before the call changes.

The test script and the code disagree on symbol keys.
`packages/app/src/deepClone.test.ts:108-114` reports that the app's
`deepClone` preserves a symbol-keyed property. The app code copies only
what `for...in` lists, and `for...in` never lists symbol keys. The model
follows the code:

- `Scenarios.SymbolKeyDropped` proves the app clone loses the symbol key;
- `Scenarios.SymbolKeyKept` proves `customDeepClone` keeps it.

## Model

| member | source | states |
|---|---|---|
| JsHeap.JsObject.constructor | packages/app/src/deepClone.ts:16-62 | `new Date(t)`, `new RegExp(s, f)`, `new Map()`, `new Set()`, `[]` and `{}`: a new object of the given kind with no entries, elements or properties. |
| JsHeap.WeakMemo.constructor | packages/app/src/deepClone.ts:10 | The default `new WeakMap()` of both entry points starts empty. |
| JsHeap.GetProp | packages/app/src/deepClone.test.ts:114 | The own-property read `obj[key]` finds a property exactly when some own property has that key, and what it finds has that key and is one of the object's properties. |
| JsHeap.MapGet | packages/app/src/deepClone.test.ts:81 | `Map.prototype.get` finds a value exactly when some entry has the key. With distinct keys, it returns that entry's value. |
| JsHeap.MapSet | packages/app/src/deepClone.ts:30 | `result.set(k, v)`: the size grows by one exactly when `k` was not yet a key, and a new key is appended after every existing entry. |
| JsHeap.MapSetGet | packages/app/src/deepClone.ts:30 | After `result.set(k, v)`, `result.get(k)` is `v`. |
| JsHeap.MapSetKeys | packages/app/src/deepClone.ts:30 | `result.set(k, v)` adds no key other than `k`, so the keys of a Map stay distinct. |
| JsHeap.MapSetKeepsOthers | packages/app/src/deepClone.ts:30 | `result.set(k, v)` leaves the value of every other key unchanged. |
| JsHeap.SetAdd | packages/app/src/deepClone.ts:42 | `result.add(x)`: afterwards `x` and every old element are members and nothing else is; elements stay distinct; a new `x` is appended. |
| JsHeap.PutProp | packages/app/src/deepClone.ts:66 | `result[key] = v`: the property count grows by one exactly when `key` was new, and a new key becomes an enumerable property after every existing one. |
| JsHeap.PutPropGet | packages/app/src/deepClone.ts:66 | After `result[key] = v`, the property `key` holds `v`. |
| JsHeap.PutPropKeys | packages/app/src/deepClone.ts:66 | `result[key] = v` adds no key other than `key`, so property keys stay distinct. |
| JsHeap.PutPropKeepsOthers | packages/app/src/deepClone.ts:66 | Assigning `result[key]` leaves every property with another key unchanged. |
| Cloning.CopiedProps | packages/custom-series/src/deepClone.ts:60 | The properties the clone visits. Under custom-series' `Reflect.ownKeys` that is every own property, unchanged and in order; under either policy the clone visits no more properties than the object has. |
| Cloning.CopiedPropsSelects | packages/app/src/deepClone.ts:64-65 | The clone visits exactly the own properties its policy selects, and nothing else. For the app these are the enumerable string-keyed properties (`for...in` + `hasOwnProperty`); for custom-series, all of them. Distinct keys stay distinct. |
| Cloning.OrdinaryPropsAllCopied | packages/app/src/deepClone.ts:64-66 | If every own property is enumerable and string-keyed, both versions copy every property, in order. |
| Cloning.CopiedPropsKeepOrder | packages/app/src/deepClone.ts:64-66 | The selection distributes over concatenation. Properties from an earlier stretch of the own keys are copied before those from a later stretch, so the app clone keeps the source's key order, minus the keys it skips. |
| Cloning.CloneValue | packages/app/src/deepClone.ts:10-70 | One call `deepClone(obj, map)`. See the bullets after this table. |
| Cloning.CloneComposite | packages/app/src/deepClone.ts:23-69 | On a memo miss: a fresh container is registered in the `WeakMap` before it is filled, and the invariant holds again once it is full. |
| Cloning.Fill | packages/app/src/deepClone.ts:23-69 | The branch of the container's kind fills the registered clone. Afterwards the clone is complete, the `WeakMap` has only grown, and everything the fill allocated is new. |
| Cloning.Register | packages/app/src/deepClone.ts:27-28 | Registering an empty clone of an unseen composite keeps the `WeakMap` injective. The clone counts as pending until it is filled. |
| Cloning.FillMap | packages/app/src/deepClone.ts:29-31 | The `forEach` over a Map: the clone ends with one entry per source entry, in order, with cloned key and cloned value. This proves size is preserved. |
| Cloning.CloneEntry | packages/app/src/deepClone.ts:30 | Clones the key and then the value of one Map entry. The cloned key is not yet a key of the partial clone. |
| Cloning.CloneProp | packages/app/src/deepClone.ts:66 | Clones the value of one copied property. The property's key is not yet a key of the partial clone. |
| Cloning.FillSet | packages/app/src/deepClone.ts:41-43 | The `forEach` over a Set: the clone ends with the clones of the source elements, in order. No two collapse, so size is preserved. |
| Cloning.FillArray | packages/app/src/deepClone.ts:53-55 | The index loop: element `i` of the clone is the clone of element `i`, and the length is preserved. |
| Cloning.FillPlain | packages/app/src/deepClone.ts:62-68 | The property loop: the clone has the selected keys in source order, each enumerable and holding the clone of the source value. |
| Cloning.MapSetOn | packages/app/src/deepClone.ts:30 | `result.set` on the pending clone changes only that clone. The source and every finished clone are untouched. |
| Cloning.SetAddOn | packages/app/src/deepClone.ts:42 | `result.add` on the pending clone changes only that clone. |
| Cloning.ArrayPushOn | packages/app/src/deepClone.ts:54 | `result[i] = ...` with `i` the current length appends, and changes only the pending clone. |
| Cloning.PutPropOn | packages/app/src/deepClone.ts:66 | `result[key] = ...` changes only the pending clone. |
| Cloning.MirrorsInjective | packages/app/src/deepClone.ts:24-28 | The clone of a primitive or a memoised composite is the clone of nothing else. |
| Cloning.SharingPreserved | packages/app/src/deepClone.ts:24-28 | Two primitives or composites have the same clone if and only if they are the same value, so sharing and cycles among them are kept and no two of them come to share a clone. Date and RegExp copies are outside this lemma. |
| Cloning.NewMapKey | packages/app/src/deepClone.ts:30 | A cloned Map key never equals the clone of an earlier key, so `result.set` always appends. |
| Cloning.NewSetElem | packages/app/src/deepClone.ts:42 | A cloned Set element never equals the clone of an earlier element, so `result.add` always appends. |
| Cloning.NewPropKey | packages/app/src/deepClone.ts:66 | The next key to copy is never already a key of the partial clone, so the assignment appends. |
| Cloning.DeepClone | packages/app/src/deepClone.ts:10-70 | `deepClone(obj)` with a new `WeakMap`: the source graph is unchanged; the result mirrors `obj`; every reachable composite has a complete clone. Every object the clone allocated is new: the result, every clone in the `WeakMap`, and every Date or RegExp copy inside a clone. |
| Cloning.CustomDeepClone | packages/custom-series/src/deepClone.ts:9-64 | The same guarantees for `customDeepClone(source)`, with every own key copied. |
| Scenarios.CircularObject | packages/app/src/deepClone.test.ts:66-70 | `{a: 1, self}` clones to a different object whose props are exactly `a: 1` and `self` pointing at the clone. |
| Scenarios.CircularMap | packages/app/src/deepClone.test.ts:95-98 | A Map holding itself under `'self'` clones to a Map whose only entry maps `'self'` to the clone. |
| Scenarios.ArrayWithSelf | packages/app/src/deepClone.test.ts:102-106 | `[1, 2, self]` clones to `[1, 2, clone]`. |
| Scenarios.SymbolKeyDropped | packages/app/src/deepClone.test.ts:108-114 | The app clone of that object has only `a: 1`; the symbol key is gone. |
| Scenarios.SymbolKeyKept | packages/custom-series/src/deepClone.ts:60-61 | The custom-series clone of that object has both properties, including the symbol key and its value. |
| Scenarios.SharedChild | packages/app/src/deepClone.ts:59-60 | `{x: s, y: s}` clones to an object whose `x` and `y` hold one and the same copy of `s`, and that copy is not `s`. |
| Scenarios.SetOfObjects | packages/app/src/deepClone.test.ts:85-91 | A Set of two objects clones to a Set of two distinct elements, neither of them a source element. |
| Scenarios.DateCopiedEachTime | packages/app/src/deepClone.ts:15-17 | Cloning one Date twice through one `WeakMap` gives two distinct copies with the same timestamp, and the `WeakMap` stays empty. |
| Scenarios.EmptyStructures | packages/app/src/deepClone.test.ts:118-121 | `{}`, `[]`, an empty Map and an empty Set each clone to an empty container of the same sort. |
| Scenarios.CloneEmpty | packages/app/src/deepClone.ts:23-69 | A new, empty Map, Set, array or plain object clones to an empty container of the same sort. |

`Cloning.CloneValue` ensures that:

- the result mirrors the input (`Mirrors`):
  - a primitive or `null` comes back unchanged and the `WeakMap` is untouched;
  - a Date or RegExp becomes a fresh object with the same timestamp, or the same source and flags, and is not memoised;
  - a memo hit returns the stored clone;
  - a miss returns a fresh, complete clone;
- the `WeakMap` only grows and stays injective;
- every object added to `made` is newly allocated;
- the source is not written.

Each counterpart in `packages/custom-series/src/deepClone.ts` is modelled by
the same member under the `AllOwnKeys` policy. The line numbers are:

- dispatch 9-64;
- Map 22-30;
- Set 32-40;
- array 42-52;
- plain object 54-63.

## Left out

- Cloning.DeepClone: does not prove that two occurrences of one nested Date or RegExp get two different copies. It proves that every copy is newly allocated, and that two calls on one Date through the same `WeakMap` give two different copies (`Scenarios.DateCopiedEachTime`). Stating distinctness across all positions of all clones needs an invariant over every pair of positions, which the model does not carry.
- Cloning.CustomDeepClone: the same gap as `Cloning.DeepClone` for nested Date and RegExp copies.
- Cloning.CloneValue: a caller-supplied `map` is modelled only when it satisfies `Inv`. The source accepts any `WeakMap` as its second argument and returns whatever that map holds for a composite it finds there. The entry points always start from a new, empty `WeakMap`.

- `packages/custom-series/src/customNew.ts` (the re-implementation of `new`) is not part of this model. It is one conditional over the prototype machinery, which is not modelled.
- Prototypes, property descriptors, getters and setters are not modelled. A plain object is its ordered list of own data properties, and the clone's prototype is not modelled. This includes the `__proto__` setter on ordinary assignment.
- Own-key order is left out. JavaScript lists integer-like keys first, then strings in insertion order, then symbols. The model takes the order as a given sequence, and the clone preserves it.
- Numbers are opaque integers. IEEE doubles, NaN and the SameValueZero comparison of `Map`/`Set` are not modelled. Primitives compare by value, symbols and functions by an identity number.
- Dates and RegExps are left out beyond construction. A Date is its timestamp and a RegExp its source and flags, both fixed when it is built. `RegExp.lastIndex`, Date string parsing and extra properties on these objects are left out.
- Weak references are left out. The `WeakMap` is an ordinary identity-keyed map; garbage collection is not modelled.
- Arrays are dense. Holes, extra non-index properties, typed arrays, class instances with internal slots and other exotic objects are left out. Such objects fall into the plain-object branch, as in the source.
- Stack depth is not modelled: the recursion is unbounded in the model, while the source can overflow the call stack on very deep inputs.
