/** The `storage` namespace of src/index.ts: a registry of default states and a
    pluggable key-value backend, with the operations `setStore`,
    `registerDefault`, `getState`, `resetState` and `setState`. */
module Storage {
  import opened JsValues
  import opened Serializer

  /** The two JavaScript exceptions these operations can throw. */
  datatype Error = TypeError | SyntaxError

  datatype Result<+T> = Ok(value: T) | Err(error: Error)

  /** The string a backend holds under a key, abstracted: the JSON text of a
      value (kept as the value JSON.parse gives back for it), or any string
      that is not JSON text, such as "undefined" or the empty string. */
  datatype Entry = Snapshot(json: Value) | Text(text: string)

  /** What `setItem` stores when JSON.stringify returns `undefined`. */
  const UndefinedText: string := "undefined"

  /** `getItem(key)`: `None` stands for `null`. */
  function Get(items: map<string, Entry>, key: string): (r: Option<Entry>)
    ensures r.Some? <==> key in items
    ensures r.Some? ==> r.value == items[key]
  {
    if key in items then Some(items[key]) else None
  }

  /** `JSON.stringify(v, serializer)` followed by the string conversion that
      `setItem` applies to its argument. */
  function Stringify(v: Value): (r: Result<Entry>)
    ensures r.Err? <==> Filter(v).Throws?
    ensures r.Err? ==> r.error == TypeError
    ensures r.Ok? ==> Truthy(Some(r.value))
    ensures r.Ok? && r.value.Snapshot? ==> Clean(r.value.json)
    ensures r.Ok? && r.value.Text? <==> Filter(v).Omitted?
    ensures Filter(v).Kept? ==> r == Ok(Snapshot(Filter(v).value))
    ensures Filter(v).Omitted? ==> r == Ok(Text(UndefinedText))
  {
    match Filter(v)
    case Throws => Err(TypeError)
    case Omitted => Ok(Text(UndefinedText))
    case Kept(w) => Ok(Snapshot(w))
  }

  /** Truthiness of the string `getItem` returned: `null` and "" are falsy,
      and JSON text is never empty. */
  function Truthy(item: Option<Entry>): (r: bool)
    ensures r <==> item.Some? && item.value != Text("")
  {
    match item
    case None => false
    case Some(Snapshot(_)) => true
    case Some(Text(t)) => t != ""
  }

  /** `JSON.parse`: a string that is not JSON text is a SyntaxError. */
  function Parse(e: Entry): (r: Result<Value>)
    ensures r.Err? <==> e.Text?
    ensures r.Err? ==> r.error == SyntaxError
    ensures r.Ok? ==> r.value == e.json
  {
    match e
    case Snapshot(j) => Ok(j)
    case Text(_) => Err(SyntaxError)
  }

  /** The methods a plain object such as the registry `{}` inherits from
      `Object.prototype`; each of them is a function. */
  const ObjectPrototypeMethods: set<string> :=
    {"constructor", "hasOwnProperty", "isPrototypeOf", "propertyIsEnumerable",
     "toLocaleString", "toString", "valueOf",
     "__defineGetter__", "__defineSetter__", "__lookupGetter__", "__lookupSetter__"}

  /** An inherited method as a value: a function with no enumerable own properties. */
  const InheritedMethod: Value := Other("Function", map[])

  /** `defaults[component]`: the registered default, else the method the
      registry inherits under that name, else `undefined`. */
  function Lookup(defaults: map<string, Value>, id: string): (r: Value)
    ensures id in defaults ==> r == defaults[id]
    ensures id !in defaults && id in ObjectPrototypeMethods ==> r == InheritedMethod
    ensures r.Undefined? <==> (id in defaults && defaults[id].Undefined?) || (id !in defaults && id !in ObjectPrototypeMethods)
  {
    if id in defaults then defaults[id]
    else if id in ObjectPrototypeMethods then InheritedMethod
    else Undefined
  }

  /** The class names of JavaScript's function objects. */
  const FunctionClasses: set<string> := {"Function", "AsyncFunction", "GeneratorFunction", "AsyncGeneratorFunction"}

  predicate IsFunction(v: Value)
  {
    v.Other? && v.cls in FunctionClasses
  }

  /** Keys that no assignment onto a function can set: its own `name` and
      `length` are read-only, and `caller` and `arguments` are either read-only
      own properties or accessors of `Function.prototype` whose setter throws. */
  const ReadOnlyFunctionKeys: set<string> := {"name", "length", "caller", "arguments"}

  /** `Object.assign(target, source)` reaches a property it cannot set, which
      makes it throw a TypeError. */
  predicate WritesReadOnly(target: Value, source: Value)
  {
    IsFunction(target) && source.Obj? && source.fields.Keys * ReadOnlyFunctionKeys != {}
  }

  /** A source whose own enumerable properties the model covers: an object,
      or a value that has none (`null`, booleans, numbers, "" and []). */
  predicate NoIndexedProps(source: Value)
  {
    match source
    case Str(s) => s == ""
    case Arr(es) => es == []
    case Other(_, _) => false
    case _ => true
  }

  /** Source keys whose assignment the model covers: not "__proto__", which
      goes through the prototype setter, and on a function not "prototype",
      which is writable on some functions and read-only on others. */
  predicate CoveredKeys(target: Value, source: Value)
  {
    source.Obj? ==> "__proto__" !in source.fields && (IsFunction(target) ==> "prototype" !in source.fields)
  }

  /** The `Object.assign(target, source)` calls the model covers: a target
      that is `undefined` or `null` (which throws), or an object target with a
      source whose properties are covered. */
  predicate Mergeable(target: Value, source: Value)
  {
    target.Nullish() || ((target.Obj? || target.Other?) && NoIndexedProps(source) && CoveredKeys(target, source))
  }

  /** `Object.assign(target, source)`: copies the source's own properties
      onto the target, overriding same-named ones, and returns the target. */
  function Assign(target: Value, source: Value): (r: Result<Value>)
    requires Mergeable(target, source)
    ensures r.Err? <==> target.Nullish() || WritesReadOnly(target, source)
    ensures r.Err? ==> r.error == TypeError
    ensures r.Ok? && !source.Obj? ==> r.value == target
    ensures r.Ok? && source.Obj? ==>
      && (r.value.Obj? || r.value.Other?)
      && r.value.Obj? == target.Obj?
      && (r.value.Other? ==> r.value.cls == target.cls)
      && OwnProps(r.value).Keys == OwnProps(target).Keys + source.fields.Keys
      && forall k | k in OwnProps(r.value) ::
           OwnProps(r.value)[k] == if k in source.fields then source.fields[k] else OwnProps(target)[k]
  {
    if target.Nullish() || WritesReadOnly(target, source) then Err(TypeError)
    else
      match source
      case Obj(g) => if target.Obj? then Ok(Obj(target.fields + g)) else Ok(Other(target.cls, target.props + g))
      case _ => Ok(target)
  }

  /** The merge `getState` would do on this state is one the model covers. */
  predicate MergeModelled(defaults: map<string, Value>, items: map<string, Entry>, id: string)
  {
    id in items && items[id].Snapshot? ==> Mergeable(Lookup(defaults, id), items[id].json)
  }

  /** The result of an operation and the registry and backend contents after it. */
  datatype Outcome = Outcome(result: Result<Value>, defaults: map<string, Value>, items: map<string, Entry>)

  // ---------------------------------------------------------------------
  // The operations as functions of the registry and the backend contents

  /** `resetState(id)`: writes the filtered default under `id` and returns the
      default itself; on a throw nothing is written. */
  function ResetSpec(defaults: map<string, Value>, items: map<string, Entry>, id: string): (o: Outcome)
    ensures o.defaults == defaults
    ensures o.result.Ok? <==> !Filter(Lookup(defaults, id)).Throws?
    ensures o.result.Ok? ==>
      o.result.value == Lookup(defaults, id) && id in o.items && Stringify(Lookup(defaults, id)) == Ok(o.items[id])
    ensures o.result.Err? ==> o.result.error == TypeError && o.items == items
    ensures o.items - {id} == items - {id}
  {
    var d := Lookup(defaults, id);
    match Stringify(d)
    case Err(e) => Outcome(Err(e), defaults, items)
    case Ok(text) => Outcome(Ok(d), defaults, items[id := text])
  }

  /** `setState(id, s)`: the backend contents afterwards, with the filtered
      `s` under `id` whatever was there before. */
  function SetSpec(items: map<string, Entry>, id: string, s: Value): (r: Result<map<string, Entry>>)
    ensures r.Ok? <==> !Filter(s).Throws?
    ensures r.Err? ==> r.error == TypeError
    ensures r.Ok? ==> id in r.value && Stringify(s) == Ok(r.value[id]) && r.value - {id} == items - {id}
  {
    match Stringify(s)
    case Err(e) => Err(e)
    case Ok(text) => Ok(items[id := text])
  }

  /** `getState(id)`: with no stored entry (or an empty one) it is `resetState`;
      otherwise the parsed snapshot is merged onto the registered default in
      place, the registry entry becoming the merged object. */
  function GetSpec(defaults: map<string, Value>, items: map<string, Entry>, id: string): (o: Outcome)
    requires MergeModelled(defaults, items, id)
    ensures !Truthy(Get(items, id)) ==> o == ResetSpec(defaults, items, id)
    ensures Truthy(Get(items, id)) ==> o.items == items
    ensures o.result.Err? ==> o.defaults == defaults
    ensures Truthy(Get(items, id)) && o.result.Ok? ==> o.defaults == defaults[id := o.result.value]
    ensures Truthy(Get(items, id)) && items[id].Text? ==> o.result == Err(SyntaxError)
    ensures Truthy(Get(items, id)) && items[id].Snapshot? ==> o.result == Assign(Lookup(defaults, id), items[id].json)
  {
    if Truthy(Get(items, id)) then
      match Parse(items[id])
      case Err(e) => Outcome(Err(e), defaults, items)
      case Ok(snapshot) =>
        match Assign(Lookup(defaults, id), snapshot)
        case Err(e) => Outcome(Err(e), defaults, items)
        case Ok(merged) => Outcome(Ok(merged), defaults[id := merged], items)
    else
      ResetSpec(defaults, items, id)
  }

  // ---------------------------------------------------------------------
  // Properties of the operations

  /** A component's first read, with nothing stored for it: the registered
      default comes back as it is, and its filtered form is stored. */
  lemma FirstGetReturnsDefault(defaults: map<string, Value>, items: map<string, Entry>, id: string, d: Value)
    requires !Truthy(Get(items, id))
    requires !Filter(d).Throws?
    ensures MergeModelled(defaults[id := d], items, id)
    ensures GetSpec(defaults[id := d], items, id)
         == Outcome(Ok(d), defaults[id := d], items[id := Stringify(d).value])
  {
    assert Lookup(defaults[id := d], id) == d;
  }

  /** After `setState(id, s)`, `getState(id)` returns the registered default
      with every field of the filtered `s` overriding the same-named field and
      the other default fields kept; the registry entry becomes that object. */
  lemma GetAfterSet(defaults: map<string, Value>, items: map<string, Entry>, id: string,
                    s: Value, f: map<string, Value>, g: map<string, Value>)
    requires Lookup(defaults, id) == Obj(f)
    requires Filter(s) == Kept(Obj(g))
    requires "__proto__" !in g
    ensures SetSpec(items, id, s).Ok?
    ensures MergeModelled(defaults, SetSpec(items, id, s).value, id)
    ensures GetSpec(defaults, SetSpec(items, id, s).value, id)
         == Outcome(Ok(Obj(f + g)), defaults[id := Obj(f + g)], SetSpec(items, id, s).value)
  {
    var written := SetSpec(items, id, s).value;
    assert written[id] == Snapshot(Obj(g));
  }

  /** A state the filter leaves no output for is stored as the text
      "undefined", and the next `getState` fails to parse it. */
  lemma GetAfterOmittedSetThrows(defaults: map<string, Value>, items: map<string, Entry>, id: string, s: Value)
    requires Filter(s).Omitted?
    ensures SetSpec(items, id, s).Ok?
    ensures MergeModelled(defaults, SetSpec(items, id, s).value, id)
    ensures GetSpec(defaults, SetSpec(items, id, s).value, id)
         == Outcome(Err(SyntaxError), defaults, SetSpec(items, id, s).value)
  {
    var written := SetSpec(items, id, s).value;
    assert written[id] == Text(UndefinedText);
  }

  /** Reading back what `resetState` stored merges the filtered default onto
      the default itself. */
  lemma GetAfterReset(defaults: map<string, Value>, items: map<string, Entry>, id: string,
                      f: map<string, Value>, g: map<string, Value>)
    requires Lookup(defaults, id) == Obj(f)
    requires Filter(Obj(f)) == Kept(Obj(g))
    requires "__proto__" !in g
    ensures MergeModelled(defaults, ResetSpec(defaults, items, id).items, id)
    ensures GetSpec(defaults, ResetSpec(defaults, items, id).items, id)
         == Outcome(Ok(Obj(f + g)), defaults[id := Obj(f + g)], ResetSpec(defaults, items, id).items)
  {
    var written := ResetSpec(defaults, items, id).items;
    assert written[id] == Snapshot(Obj(g));
  }

  /** For a default the filter leaves as it is, a read after `resetState`
      returns exactly the default and leaves the registry as it was. */
  lemma GetAfterResetClean(defaults: map<string, Value>, items: map<string, Entry>, id: string)
    requires Lookup(defaults, id).Obj? && Clean(Lookup(defaults, id))
    requires "__proto__" !in Lookup(defaults, id).fields
    ensures MergeModelled(defaults, ResetSpec(defaults, items, id).items, id)
    ensures GetSpec(defaults, ResetSpec(defaults, items, id).items, id)
         == Outcome(Ok(Lookup(defaults, id)), defaults, ResetSpec(defaults, items, id).items)
  {
    var f := Lookup(defaults, id).fields;
    CleanIsFixpoint(Obj(f));
    GetAfterReset(defaults, items, id, f, f);
    assert f + f == f;
    assert defaults[id := Obj(f)] == defaults;
  }

  /** Once a snapshot is stored, reading it again changes and returns nothing new. */
  lemma GetIsStable(defaults: map<string, Value>, items: map<string, Entry>, id: string)
    requires MergeModelled(defaults, items, id)
    requires Truthy(Get(items, id))
    requires GetSpec(defaults, items, id).result.Ok?
    ensures MergeModelled(GetSpec(defaults, items, id).defaults, items, id)
    ensures GetSpec(GetSpec(defaults, items, id).defaults, items, id) == GetSpec(defaults, items, id)
  {
    var o := GetSpec(defaults, items, id);
    var t := Lookup(defaults, id);
    var j := items[id].json;
    assert Lookup(o.defaults, id) == o.result.value;
    if j.Obj? {
      if t.Obj? {
        assert (t.fields + j.fields) + j.fields == t.fields + j.fields;
      } else {
        assert (t.props + j.fields) + j.fields == t.props + j.fields;
      }
    }
    assert o.defaults[id := o.result.value] == o.defaults;
  }

  /** A merging `getState` leaves the merged object in the registry, so a
      later `resetState` returns it and stores its filtered form. */
  lemma ResetAfterGetReturnsMerged(defaults: map<string, Value>, items: map<string, Entry>, id: string)
    requires MergeModelled(defaults, items, id)
    requires Truthy(Get(items, id))
    requires GetSpec(defaults, items, id).result.Ok?
    ensures Lookup(GetSpec(defaults, items, id).defaults, id) == GetSpec(defaults, items, id).result.value
    ensures !Filter(GetSpec(defaults, items, id).result.value).Throws? ==>
      ResetSpec(GetSpec(defaults, items, id).defaults, items, id)
        == Outcome(GetSpec(defaults, items, id).result, GetSpec(defaults, items, id).defaults,
                   items[id := Stringify(GetSpec(defaults, items, id).result.value).value])
  {
    var o := GetSpec(defaults, items, id);
    assert o.defaults == defaults[id := o.result.value];
  }

  /** `getState` of an id that has no registered default and nothing stored
      returns `undefined` and stores "undefined"; the next `getState` of it
      then throws a SyntaxError. */
  lemma UnregisteredGetTwice(defaults: map<string, Value>, items: map<string, Entry>, id: string)
    requires id !in defaults && id !in ObjectPrototypeMethods && id != "__proto__"
    requires !Truthy(Get(items, id))
    ensures GetSpec(defaults, items, id) == Outcome(Ok(Undefined), defaults, items[id := Text(UndefinedText)])
    ensures MergeModelled(defaults, items[id := Text(UndefinedText)], id)
    ensures GetSpec(defaults, items[id := Text(UndefinedText)], id).result == Err(SyntaxError)
  {
    assert Filter(Undefined) == Omitted;
  }

  /** With a stored snapshot but no registered default, `Object.assign` on
      `undefined` throws and nothing changes. */
  lemma GetWithoutDefaultThrows(defaults: map<string, Value>, items: map<string, Entry>, id: string, j: Value)
    requires id !in defaults && id !in ObjectPrototypeMethods && id != "__proto__"
    requires Get(items, id) == Some(Snapshot(j))
    ensures MergeModelled(defaults, items, id)
    ensures GetSpec(defaults, items, id) == Outcome(Err(TypeError), defaults, items)
  {
  }

  /** An unregistered id that names an inherited method (such as "toString"),
      with nothing stored: `getState` returns that function and, since the
      filter omits functions, stores "undefined". */
  lemma GetInheritedMethod(defaults: map<string, Value>, items: map<string, Entry>, id: string)
    requires id !in defaults && id in ObjectPrototypeMethods
    requires !Truthy(Get(items, id))
    ensures GetSpec(defaults, items, id) == Outcome(Ok(InheritedMethod), defaults, items[id := Text(UndefinedText)])
  {
    assert Filter(InheritedMethod) == Omitted;
  }

  /** An unregistered id that names an inherited method, with an object
      snapshot stored that sets none of the function's read-only keys:
      `Object.assign` copies the snapshot onto that function and returns it,
      and the registry then yields the extended function. */
  lemma MergeOntoInheritedMethod(defaults: map<string, Value>, items: map<string, Entry>, id: string,
                                 g: map<string, Value>)
    requires id !in defaults && id in ObjectPrototypeMethods
    requires Get(items, id) == Some(Snapshot(Obj(g)))
    requires g.Keys * ReadOnlyFunctionKeys == {} && "__proto__" !in g && "prototype" !in g
    ensures MergeModelled(defaults, items, id)
    ensures GetSpec(defaults, items, id)
         == Outcome(Ok(Other("Function", g)), defaults[id := Other("Function", g)], items)
  {
    assert map[] + g == g;
  }

  /** An unregistered id that names an inherited method, with an object
      snapshot stored that sets one of the function's read-only keys (such as
      "name"): `Object.assign` throws a TypeError and the registry keeps the
      inherited method. */
  lemma MergeOntoInheritedMethodThrows(defaults: map<string, Value>, items: map<string, Entry>, id: string,
                                       g: map<string, Value>)
    requires id !in defaults && id in ObjectPrototypeMethods
    requires Get(items, id) == Some(Snapshot(Obj(g)))
    requires g.Keys * ReadOnlyFunctionKeys != {} && "__proto__" !in g && "prototype" !in g
    ensures MergeModelled(defaults, items, id)
    ensures GetSpec(defaults, items, id) == Outcome(Err(TypeError), defaults, items)
    ensures Lookup(GetSpec(defaults, items, id).defaults, id) == InheritedMethod
  {
  }

  /** Writes are last-write-wins: `setState` never reads what was stored. */
  lemma SetLastWriteWins(items: map<string, Entry>, id: string, s1: Value, s2: Value)
    requires !Filter(s1).Throws?
    ensures SetSpec(SetSpec(items, id, s1).value, id, s2) == SetSpec(items, id, s2)
  {
    var once := SetSpec(items, id, s1).value;
    if !Filter(s2).Throws? {
      assert once[id := Stringify(s2).value] == items[id := Stringify(s2).value];
    }
  }

  // ---------------------------------------------------------------------
  // The module-level state

  /** A storage backend (`Storage`): a mutable key-string store. */
  class Backend {
    var items: map<string, Entry>

    constructor (items: map<string, Entry>)
      ensures this.items == items
    {
      this.items := items;
    }

    function GetItem(key: string): (r: Option<Entry>)
      reads this
      ensures r.Some? <==> key in items
      ensures r.Some? ==> r.value == items[key]
    {
      Get(items, key)
    }

    method SetItem(key: string, value: Entry)
      modifies this
      ensures items == old(items)[key := value]
    {
      items := items[key := value];
    }
  }

  /** The namespace's two variables: the registry `defaults` and the backend
      reference `component_store`. */
  class Store {
    var defaults: map<string, Value>
    var componentStore: Backend

    /** The initial state: an empty registry and the given backend (the source
        starts from the browser's session storage). */
    constructor (backend: Backend)
      ensures defaults == map[] && componentStore == backend
    {
      defaults := map[];
      componentStore := backend;
    }

    /** `setStore`: later operations use `backend`; no backend's contents change. */
    method SetStore(backend: Backend)
      modifies this
      ensures componentStore == backend && defaults == old(defaults)
    {
      componentStore := backend;
    }

    /** `registerDefault`: records `def` under `id`, overwriting any earlier default. */
    method RegisterDefault(id: string, def: Value)
      modifies this`defaults
      ensures defaults == old(defaults)[id := def]
    {
      defaults := defaults[id := def];
    }

    /** `resetState` */
    method ResetState(id: string) returns (r: Result<Value>)
      modifies componentStore
      ensures Outcome(r, defaults, componentStore.items) == ResetSpec(defaults, old(componentStore.items), id)
    {
      var d := Lookup(defaults, id);
      match Stringify(d)
      case Err(e) =>
        r := Err(e);
      case Ok(text) =>
        componentStore.SetItem(id, text);
        r := Ok(d);
    }

    /** `setState` */
    method SetState(id: string, state: Value) returns (r: Result<()>)
      modifies componentStore
      ensures SetSpec(old(componentStore.items), id, state).Ok? ==> r.Ok? && componentStore.items == SetSpec(old(componentStore.items), id, state).value
      ensures SetSpec(old(componentStore.items), id, state).Err? ==>
        r == Err(SetSpec(old(componentStore.items), id, state).error) && componentStore.items == old(componentStore.items)
    {
      match Stringify(state)
      case Err(e) =>
        r := Err(e);
      case Ok(text) =>
        componentStore.SetItem(id, text);
        r := Ok(());
    }

    /** `getState` */
    method GetState(id: string) returns (r: Result<Value>)
      requires MergeModelled(defaults, componentStore.items, id)
      modifies this, componentStore
      ensures componentStore == old(componentStore)
      ensures Outcome(r, defaults, componentStore.items) == GetSpec(old(defaults), old(componentStore.items), id)
    {
      if Truthy(componentStore.GetItem(id)) {
        var parsed := Parse(componentStore.GetItem(id).value);
        if parsed.Err? {
          return Err(parsed.error);
        }
        var merged := Assign(Lookup(defaults, id), parsed.value);
        if merged.Ok? {
          // Object.assign mutates the registered default in place
          defaults := defaults[id := merged.value];
        }
        r := merged;
      } else {
        r := ResetState(id);
      }
    }
  }

  /** After `setStore(b)` a write goes to `b` only: the previous backend keeps
      its contents, and the registry is untouched. */
  method SwitchThenSet(st: Store, b: Backend, id: string, s: Value) returns (r: Result<()>)
    modifies st, b
    ensures st.componentStore == b && st.defaults == old(st.defaults)
    ensures old(st.componentStore) != b ==> old(st.componentStore).items == old(st.componentStore.items)
    ensures r.Ok? <==> SetSpec(old(b.items), id, s).Ok?
    ensures r.Ok? ==> b.items == SetSpec(old(b.items), id, s).value
    ensures r.Err? ==> b.items == old(b.items)
  {
    st.SetStore(b);
    r := st.SetState(id, s);
  }
}
