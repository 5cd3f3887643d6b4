# stored-component: the state store, in Dafny

This project models and proves properties of the `storage` namespace of
stored-component. The library lets UI components save their local state to a
pluggable key-value backend and restore it. The namespace holds two
module-level variables:

- `defaults`: a registry from a component id to its default state.
- `component_store`: the active backend.

It offers five operations: `setStore`, `registerDefault`, `getState`,
`resetState` and `setState`. Beneath them sits `serializer`, a replacer for
`JSON.stringify` that keeps only JSON-safe values.

Files:

- `values.dfy` (module `JsValues`): JavaScript values as a datatype, plus
  `className` and `shouldSerialize`. `className` throws on `null` and
  `undefined`.
- `serializer.dfy` (module `Serializer`): `JSON.stringify(v, serializer)` as a
  pure recursive function, `Filter`. JSON.stringify calls the replacer on the
  top-level value and again on every property and element of what the
  replacer returned, so `Filter` applies the replacer at every depth.
- `storage.dfy` (module `Storage`): the five operations as pure functions of
  the registry and the backend contents (`ResetSpec`, `SetSpec`, `GetSpec`),
  and lemmas relating them. There are two classes:
  - `Backend`: a mutable key-value object.
  - `Store`: holds the `defaults` map and a reference to the active `Backend`.
    Its methods change both in place. `ResetState`, `SetState` and `GetState`
    are proved equal to their pure functions. `SetStore` and `RegisterDefault`
    state their new state directly.

How the model treats the backend and errors:

- The backend stores strings. An `Entry` is either `Snapshot(v)` or `Text(t)`.
  `Snapshot(v)` stands for the JSON text of a value, kept as the value `v`
  that `JSON.parse` returns for it. `Text(t)` is a string that is not JSON
  text.
- `JSON.stringify` can return `undefined`: for `undefined` itself, or for a
  value of a class not on the whitelist. `setItem` then stores the string
  "undefined". The next `getState` fails to parse that string and throws a
  SyntaxError (`GetAfterOmittedSetThrows`, `UnregisteredGetTwice`).
- Exceptions are explicit outcomes. A TypeError comes from `className` on
  `null`/`undefined` inside an array, and from `Object.assign` onto an
  unregistered (`undefined`) default. A SyntaxError comes from `JSON.parse`.

Behaviour of the code that the model makes explicit:

- The replacer runs at every key, so object properties are filtered at every
  depth, not only array elements.
- An array holding `null` or `undefined` throws (`ThrowsIffNullInArray`),
  while a `null` value or `null` property passes through
  (`NullOnlyThrowsInArrays`).
- The registry is the object literal `{}`, so `defaults[id]` also finds the
  methods it inherits from `Object.prototype` (`toString`, `valueOf`, …).
  For an id that is neither registered nor such a method, `resetState` (and a
  first `getState`) returns `undefined` and stores "undefined", and a
  `getState` with a stored snapshot throws a TypeError. For an id naming an
  inherited method, `resetState` returns that function and stores
  "undefined". A `getState` with a stored object snapshot copies the snapshot
  onto the function, unless the snapshot has a key a function does not let
  `Object.assign` set (`name`, `length`, `caller`, `arguments`); then it
  throws a TypeError (`GetInheritedMethod`, `MergeOntoInheritedMethod`,
  `MergeOntoInheritedMethodThrows`).

## Model

| member | source | states |
|---|---|---|
| `JsValues.ClassName` | src/index.ts:53 | fails exactly on `null` and `undefined`; arrays are "Array", plain objects "Object" |
| `JsValues.ShouldSerialize` | src/index.ts:64-67 | fails exactly on `null`/`undefined`; true exactly for booleans, numbers, strings, arrays, plain objects and objects whose class name is on the whitelist |
| `Serializer.Filter` | src/index.ts:58-74 | every output is clean: no `undefined`, no non-plain object, no `null` array element. The output is omitted exactly for `undefined` and for values whose class is off the whitelist |
| `Serializer.SerializeElems` | src/index.ts:69-70 | a serialized array is no longer than the input, and its elements are clean and non-null |
| `Serializer.SerializeFields` | src/index.ts:58-74 | serializing an object's properties throws exactly when some property's serialization throws. Otherwise a property is kept exactly when it is not `undefined` and its class is not off the whitelist, and its value is that property's own serialization, which is clean |
| `Serializer.SerializeObject` | src/index.ts:71-72 | a kept object is never omitted. It throws exactly when some property throws, and otherwise it is a plain object that keeps exactly the properties with output, each with its serialized value |
| `Serializer.CleanIsFixpoint` | src/index.ts:58-74 | a clean value is written back unchanged |
| `Serializer.CleanElemsFixpoint` | src/index.ts:69-70 | an array of clean non-null elements is written back unchanged |
| `Serializer.CleanFieldsFixpoint` | src/index.ts:71-72 | a clean plain object's properties are written back unchanged |
| `Serializer.FilterIdempotent` | src/index.ts:58-74 | filtering an already-filtered value yields the same value |
| `Serializer.FixpointIffClean` | src/index.ts:58-74 | the filter leaves a value unchanged if and only if the value is clean |
| `Serializer.ThrowsIffNullInArray` | src/index.ts:53-70 | serialization throws if and only if some array it reaches holds `null` or `undefined` |
| `Serializer.ElemsThrowIff` | src/index.ts:69-70 | serializing the kept elements throws if and only if some kept element reaches such an array |
| `Serializer.FieldsThrowIff` | src/index.ts:71-72 | serializing an object's properties throws if and only if some property reaches such an array |
| `Serializer.FilterArrayAppend` | src/index.ts:69-70 | the array filter keeps order: filtering `a + b` gives the result for `a` followed by the result for `b`, and throws if either throws |
| `Serializer.ElemsAppend` | src/index.ts:70 | element serialization distributes over concatenation |
| `Serializer.HasNullish` | src/index.ts:70 | `val.filter(shouldSerialize)` throws exactly when some element is `null` or `undefined` |
| `Serializer.NullishAppend` | src/index.ts:70 | `filter(shouldSerialize)` throws on `a + b` exactly when it throws on `a` or on `b` |
| `Serializer.FilterArraySingleton` | src/index.ts:64-70 | a one-element array: a nullish element throws, an element off the whitelist is dropped, any other element is serialized |
| `Serializer.FilterDropsFunctionAndDate` | src/index.ts:58-74 | `{a: 1, b: function, c: [1, "x", Date]}` becomes `{a: 1, c: [1, "x"]}` |
| `Serializer.FilterDropsDate` | src/index.ts:69-70 | `[1, "x", Date]` becomes `[1, "x"]` |
| `Serializer.FilterNestedFunction` | src/index.ts:58-74 | `{a: {b: function}}` becomes `{a: {}}`: a function nested in a property is omitted from the inner object, which is kept |
| `Serializer.NullOnlyThrowsInArrays` | src/index.ts:59-70 | `null` is kept as a value and as a property and `undefined` is omitted, but either one inside an array throws |
| `Storage.Get` | src/index.ts:82-83 | `getItem` gives `null` exactly for an absent key, and otherwise the stored entry |
| `Storage.Truthy` | src/index.ts:82 | the `if` test on `getItem`'s result holds exactly for a present entry that is not the empty string |
| `Storage.Parse` | src/index.ts:83 | `JSON.parse` throws a SyntaxError exactly on non-JSON text, and otherwise gives back the stored value |
| `Storage.Lookup` | src/index.ts:84-97 | `defaults[component]` is the registered default if there is one, else the inherited `Object.prototype` method of that name, else `undefined` |
| `Storage.Stringify` | src/index.ts:96 | throws exactly when the filter throws. Otherwise the entry written is the filtered value as a snapshot, which is clean and truthy, or the text "undefined" exactly when the filter leaves no output |
| `Storage.Assign` | src/index.ts:84 | throws a TypeError exactly on an `undefined`/`null` target, and on a function target when the snapshot has a key among `name`, `length`, `caller` and `arguments`. Otherwise every snapshot field overrides the same-named field, every other default field is kept, and a non-object snapshot leaves the target as it is |
| `Storage.ResetSpec` | src/index.ts:95-98 | returns the unfiltered default and writes its filtered form under `id`. The registry and every other key stay unchanged; on a throw nothing is written |
| `Storage.SetSpec` | src/index.ts:106-108 | writes the filtered state under `id` whatever was there; every other key stays unchanged; on a throw nothing is written |
| `Storage.GetSpec` | src/index.ts:81-88 | with an absent or empty entry it is exactly `resetState`. Otherwise it never writes the backend: unparsable text is a SyntaxError, and a snapshot is merged onto the default, which the registry entry then becomes |
| `Storage.FirstGetReturnsDefault` | src/index.ts:81-98 | with nothing stored, `getState` returns the registered default itself and stores its filtered form |
| `Storage.GetAfterSet` | src/index.ts:81-108 | after `setState(id, s)`, `getState(id)` returns the default object with the filtered `s`'s fields overriding its own, and the registry holds that merged object |
| `Storage.GetAfterOmittedSetThrows` | src/index.ts:82-108 | after storing a state the filter omits, the next `getState` throws a SyntaxError and changes nothing |
| `Storage.GetAfterReset` | src/index.ts:81-98 | reading back a reset merges the filtered default onto the default |
| `Storage.GetAfterResetClean` | src/index.ts:81-98 | for a clean object default, a read after a reset returns exactly the default and leaves the registry as it was |
| `Storage.GetIsStable` | src/index.ts:82-84 | once a snapshot is stored, a second `getState` returns the same value and leaves the same state |
| `Storage.ResetAfterGetReturnsMerged` | src/index.ts:84-97 | after a merging `getState` the registry entry is the merged object, so `resetState` returns it and stores its filtered form |
| `Storage.UnregisteredGetTwice` | src/index.ts:81-98 | for an unregistered id that names no inherited method, with nothing stored, `getState` returns `undefined` and stores "undefined"; the next `getState` throws a SyntaxError |
| `Storage.GetWithoutDefaultThrows` | src/index.ts:83-84 | a stored snapshot with no registered default (and no inherited method of that name) throws a TypeError and changes nothing |
| `Storage.GetInheritedMethod` | src/index.ts:45-98 | for an unregistered id naming an inherited method, with nothing stored, `getState` returns that function and stores "undefined" |
| `Storage.MergeOntoInheritedMethod` | src/index.ts:45-84 | for an unregistered id naming an inherited method, an object snapshot with none of a function's read-only keys is copied onto that function, which is returned and which the registry then yields |
| `Storage.MergeOntoInheritedMethodThrows` | src/index.ts:45-84 | for an unregistered id naming an inherited method, an object snapshot with a read-only function key such as `name` makes `getState` throw a TypeError and changes nothing |
| `Storage.SetLastWriteWins` | src/index.ts:106-108 | two `setState` calls on one id leave what the second alone leaves |
| `Storage.Backend.constructor` | src/index.ts:46 | a backend starts with the given contents |
| `Storage.Backend.GetItem` | src/index.ts:82-83 | `getItem` gives `null` exactly for an absent key, and otherwise the stored entry |
| `Storage.Backend.SetItem` | src/index.ts:96-107 | `setItem` replaces the entry under one key and nothing else |
| `Storage.Store.constructor` | src/index.ts:45-46 | starts with an empty registry and the given backend |
| `Storage.Store.SetStore` | src/index.ts:51 | later operations use the new backend; the registry and every backend's contents stay unchanged |
| `Storage.Store.RegisterDefault` | src/index.ts:116-118 | the registry entry for `id` becomes the new default, overwriting any earlier one; nothing else changes |
| `Storage.Store.ResetState` | src/index.ts:95-98 | result and new backend contents are those of `ResetSpec`; the registry is untouched |
| `Storage.Store.SetState` | src/index.ts:106-108 | new backend contents are those of `SetSpec`; a throw writes nothing |
| `Storage.Store.GetState` | src/index.ts:81-88 | result, new registry and new backend contents are those of `GetSpec` |
| `Storage.SwitchThenSet` | src/index.ts:51 | after `setStore(b)`, a `setState` writes to `b` only, and leaves `b` as it was when it throws. The registry is unchanged, and a previous backend other than `b` keeps its contents. `b` may be the current backend |

## Left out

- `StoredComponent` (src/index.ts:6-39): React lifecycle integration. Its id comes from `constructor.name` at run time.
- The default backend `window.sessionStorage` is browser I/O. The `Store` constructor takes the initial backend as a parameter. Exceptions a backend may throw itself, such as a full quota, are not modelled.
- Numbers are mathematical integers. Floating point, NaN and Infinity (which JSON writes as `null`) and JSON's number formatting are not modelled.
- JSON text is not modelled: an entry is the value its text parses to. Per-character encoding and parsing of JSON are not modelled.
- `toJSON` conversion (a Date property becoming a string) is not modelled. Boxed primitives (`new Number(1)`), symbols, BigInt, getters and array holes are not modelled either. An object whose class name happens to be on the whitelist is serialized as a plain object of its own properties.
- An object that is not an array but whose constructor is named "Array" is not modelled. The source would call `filter` on it; the model serializes it as a plain object.
- Prototype-less objects (`Object.create(null)`, on which `className` throws) are not modelled.
- Storage.Assign: requires `Mergeable`, so it covers only an `undefined`/`null` target (which throws) or an object or function target with a source that has no index properties. Spreading a non-empty string or array into indices, and assigning onto a primitive or array target, are JavaScript engine behaviour outside this model.
- Storage.Assign: `Mergeable` also excludes a snapshot key "__proto__". `Object.assign` passes it to the `Object.prototype.__proto__` setter, which changes the target's prototype (for an object or `null` value) and adds no own property. The model has no prototypes to change. `Mergeable` likewise excludes a "prototype" key on a function target, because that property is writable on some functions and read-only on others (such as `Object`, the inherited `constructor`).
- Storage.Assign: objects other than functions are taken to have only writable data properties, so accessors and read-only properties of class instances are not modelled. When `Object.assign` throws part-way, the source has already copied the keys before the failing one onto the target. The model keeps no key order and leaves the target unchanged.
- Storage.GetAfterSet, Storage.GetAfterReset, Storage.GetAfterResetClean: require the stored object to have no "__proto__" key, for the reason given for `Assign`.
- Storage.GetSpec: requires `MergeModelled`, which restricts `Object.assign` to a default that is an object, an inherited method or absent, and a snapshot without index properties. Spreading a non-empty string or array into indices, and assigning onto a primitive or array default, are JavaScript engine behaviour outside this model.
- Storage.Store.GetState: carries the same `MergeModelled` requirement as `GetSpec`, for the same reason.
- The id "__proto__" is not modelled. On the registry `{}`, `defaults["__proto__"]` is `Object.prototype` itself, `className` of which throws, and `registerDefault("__proto__", d)` replaces the registry's prototype instead of adding an entry. The model treats "__proto__" like any other id.
- Changes that `Object.assign` makes to an inherited method are global in the source: they alter `Object.prototype`, which every object sees. The model records the extended function in the registry only.
- Storage.UnregisteredGetTwice: requires the id to name no inherited `Object.prototype` method, because `GetInheritedMethod` covers those ids. It also requires the id not to be "__proto__", which is not modelled.
- Storage.GetWithoutDefaultThrows: requires the id to name no inherited `Object.prototype` method, because `MergeOntoInheritedMethod` and `MergeOntoInheritedMethodThrows` cover those ids. It also requires the id not to be "__proto__", which is not modelled.
- A `Text` entry stands for a string that is not JSON text. The model does not check this for a backend's initial contents: a `Backend` built holding `Text("{}")` would make `GetSpec` report a SyntaxError where `JSON.parse` succeeds. Initial `Text` entries are assumed not to be JSON text.
- Cyclic values are not modelled: the `Value` datatype cannot express a cycle. In the source, `JSON.stringify` throws a TypeError on a state or default that contains one (src/index.ts:96, 107).
- Aliasing is not modelled. `Object.assign` mutates the default object in place, and other holders of that object would see the change (for example a component's earlier `this.state`). The model keeps values, and only the registry entry is shown to change.
- `getState` calls `getItem` twice, and nothing runs between the two calls. `GetSpec` therefore reads the entry once.
- dist/index.js is a compiled duplicate of src/index.ts and dist/index.d.ts holds only type declarations. Neither is part of this model.
