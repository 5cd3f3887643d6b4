/** The JSON-safety filter: `JSON.stringify(v, serializer)` where `serializer`
    is the replacer of src/index.ts.  JSON.stringify calls the replacer on the
    top-level value and again on every property and every array element of
    what the replacer returned, so the filter is applied at every depth. */
module Serializer {
  import opened JsValues

  /** What JSON.stringify produces for one value: no output at all (the key
      is omitted, or the whole result is `undefined`), the JSON value written,
      or the TypeError thrown by `className`. */
  datatype Serialized = Omitted | Kept(value: Value) | Throws

  /** The values JSON.stringify(·, serializer) can produce: no `undefined`,
      no non-plain objects, and no `null` inside an array. */
  predicate Clean(v: Value)
    decreases v
  {
    match v
    case Undefined => false
    case Null => true
    case Bool(_) => true
    case Num(_) => true
    case Str(_) => true
    case Arr(es) => forall i | 0 <= i < |es| :: !es[i].Null? && Clean(es[i])
    case Obj(f) => forall k | k in f :: Clean(f[k])
    case Other(_, _) => false
  }

  /** The serialization of `v` at one key: the replacer first, then JSON.stringify
      on whatever the replacer returned. */
  function Filter(v: Value): (r: Serialized)
    ensures r.Kept? ==> Clean(r.value)
    ensures r.Omitted? <==> v.Undefined? || ShouldSerialize(v) == Some(false)
    decreases v, 2
  {
    match v
    case Undefined => Omitted
    case Null => Kept(Null)
    case Arr(es) =>
      // `val.filter(shouldSerialize)` throws on the first null or undefined element
      if HasNullish(es) then Throws
      else
        (match SerializeElems(es)
         case None => Throws
         case Some(t) => Kept(Arr(t)))
    // Boolean, Number and String are on the whitelist: the replacer returns them as they are
    case Bool(_) => Kept(v)
    case Num(_) => Kept(v)
    case Str(_) => Kept(v)
    // a kept object is written as the object of its serialized own properties
    case Obj(_) => SerializeObject(v)
    case Other(cls, _) => if cls in Whitelist then SerializeObject(v) else Omitted
  }

  /** JSON.stringify on an object the replacer returned as it was. */
  function SerializeObject(v: Value): (r: Serialized)
    requires v.Obj? || v.Other?
    ensures r.Kept? ==> r.value.Obj? && r.value.fields.Keys <= OwnProps(v).Keys
    ensures r.Kept? ==> forall k | k in OwnProps(v) ::
      (k in r.value.fields <==> !OwnProps(v)[k].Undefined? && ShouldSerialize(OwnProps(v)[k]) != Some(false))
    ensures r.Kept? ==> forall k | k in r.value.fields :: Filter(OwnProps(v)[k]) == Kept(r.value.fields[k])
    ensures r.Throws? <==> exists k | k in OwnProps(v) :: Filter(OwnProps(v)[k]).Throws?
    ensures !r.Omitted?
    decreases v, 1
  {
    match SerializeFields(v)
    case None => Throws
    case Some(g) => Kept(Obj(g))
  }

  /** The elements of an array the replacer returned: elements that
      `shouldSerialize` rejects are dropped, every other one is serialized in
      turn (an element with no output would be written as `null`); `None` when
      serializing an element throws. */
  function SerializeElems(es: seq<Value>): (r: Option<seq<Value>>)
    ensures r.Some? ==> |r.value| <= |es|
    ensures r.Some? ==> forall i | 0 <= i < |r.value| :: !r.value[i].Null? && Clean(r.value[i])
    decreases es
  {
    if es == [] then Some([])
    else
      var rest := SerializeElems(es[1..]);
      if ShouldSerialize(es[0]) != Some(true) then rest
      else
        match Filter(es[0])
        case Throws => None
        case Omitted => (match rest case None => None case Some(t) => Some([Null] + t))
        case Kept(w) => (match rest case None => None case Some(t) => Some([w] + t))
  }

  /** The own enumerable properties of an object. */
  function OwnProps(v: Value): map<string, Value>
    requires v.Obj? || v.Other?
  {
    if v.Obj? then v.fields else v.props
  }

  /** The own properties of a kept object: each is serialized, properties with
      no output are omitted; `None` when serializing some property throws. */
  function SerializeFields(v: Value): (r: Option<map<string, Value>>)
    requires v.Obj? || v.Other?
    ensures r.Some? ==> r.value.Keys <= OwnProps(v).Keys
    ensures r.Some? ==> forall k | k in r.value :: Clean(r.value[k])
    ensures r.Some? ==> forall k | k in OwnProps(v) ::
      (k in r.value <==> !OwnProps(v)[k].Undefined? && ShouldSerialize(OwnProps(v)[k]) != Some(false))
    ensures r.Some? ==> forall k | k in r.value :: Filter(OwnProps(v)[k]) == Kept(r.value[k])
    ensures r.None? <==> exists k | k in OwnProps(v) :: Filter(OwnProps(v)[k]).Throws?
    decreases v, 0
  {
    var f := OwnProps(v);
    if exists k | k in f :: Filter(f[k]).Throws? then None
    else Some(map k | k in f && Filter(f[k]).Kept? :: Filter(f[k]).value)
  }

  // ---------------------------------------------------------------------
  // Properties of the filter

  /** A clean value is written back exactly as it is. */
  lemma {:induction false} CleanIsFixpoint(v: Value)
    requires Clean(v)
    ensures Filter(v) == Kept(v)
    decreases v, 2
  {
    match v
    case Null =>
    case Bool(_) =>
    case Num(_) =>
    case Str(_) =>
    case Arr(es) =>
      CleanElemsFixpoint(es);
    case Obj(f) =>
      CleanFieldsFixpoint(v);
  }

  lemma {:induction false} CleanElemsFixpoint(es: seq<Value>)
    requires forall i | 0 <= i < |es| :: !es[i].Null? && Clean(es[i])
    ensures SerializeElems(es) == Some(es)
    decreases es
  {
    if es != [] {
      CleanIsFixpoint(es[0]);
      CleanElemsFixpoint(es[1..]);
      assert [es[0]] + es[1..] == es;
    }
  }

  lemma {:induction false} CleanFieldsFixpoint(v: Value)
    requires v.Obj? && Clean(v)
    ensures SerializeFields(v) == Some(v.fields)
    decreases v, 0
  {
    var f := v.fields;
    forall k | k in f
      ensures Filter(f[k]) == Kept(f[k])
    {
      CleanIsFixpoint(f[k]);
    }
    var g := map k | k in f && Filter(f[k]).Kept? :: Filter(f[k]).value;
    assert g == f;
  }

  /** Filtering an already-filtered value changes nothing. */
  lemma FilterIdempotent(v: Value)
    ensures Filter(v).Kept? ==> Filter(Filter(v).value) == Filter(v)
  {
    if Filter(v).Kept? {
      CleanIsFixpoint(Filter(v).value);
    }
  }

  /** The values the filter leaves as they are are exactly the clean ones. */
  lemma FixpointIffClean(v: Value)
    ensures Filter(v) == Kept(v) <==> Clean(v)
  {
    if Clean(v) {
      CleanIsFixpoint(v);
    }
  }

  /** Some array reached by the serialization holds `null` or `undefined`:
      an array element, or a property of a kept object, at any depth. */
  predicate NullInArray(v: Value)
    decreases v
  {
    match v
    case Arr(es) =>
      exists i | 0 <= i < |es| ::
        es[i].Nullish() || (ShouldSerialize(es[i]) == Some(true) && NullInArray(es[i]))
    case Obj(f) => exists k | k in f :: NullInArray(f[k])
    case Other(cls, p) => cls in Whitelist && exists k | k in p :: NullInArray(p[k])
    case _ => false
  }

  /** Serialization throws exactly when `className` meets `null` or
      `undefined` inside an array; a `null` value or property never throws. */
  lemma {:induction false} ThrowsIffNullInArray(v: Value)
    ensures Filter(v).Throws? <==> NullInArray(v)
    decreases v, 1
  {
    match v
    case Undefined =>
    case Null =>
    case Bool(_) =>
    case Num(_) =>
    case Str(_) =>
    case Arr(es) =>
      ElemsThrowIff(es);
    case Obj(_) =>
      FieldsThrowIff(v);
    case Other(cls, _) =>
      if cls in Whitelist {
        FieldsThrowIff(v);
      }
  }

  lemma {:induction false} ElemsThrowIff(es: seq<Value>)
    ensures SerializeElems(es).None? <==>
      exists i | 0 <= i < |es| :: ShouldSerialize(es[i]) == Some(true) && NullInArray(es[i])
    decreases es
  {
    if es != [] {
      ThrowsIffNullInArray(es[0]);
      ElemsThrowIff(es[1..]);
      if exists i | 0 <= i < |es| :: ShouldSerialize(es[i]) == Some(true) && NullInArray(es[i]) {
        var i :| 0 <= i < |es| && ShouldSerialize(es[i]) == Some(true) && NullInArray(es[i]);
        if i > 0 {
          assert es[1..][i - 1] == es[i];
        }
      }
      var t := es[1..];
      if exists j | 0 <= j < |t| :: ShouldSerialize(t[j]) == Some(true) && NullInArray(t[j]) {
        var j :| 0 <= j < |t| && ShouldSerialize(t[j]) == Some(true) && NullInArray(t[j]);
        assert es[j + 1] == t[j];
      }
    }
  }

  lemma {:induction false} FieldsThrowIff(v: Value)
    requires v.Obj? || v.Other?
    ensures SerializeFields(v).None? <==> exists k | k in OwnProps(v) :: NullInArray(OwnProps(v)[k])
    decreases v, 0
  {
    var f := OwnProps(v);
    forall k | k in f
      ensures Filter(f[k]).Throws? <==> NullInArray(f[k])
    {
      ThrowsIffNullInArray(f[k]);
    }
  }

  /** Combines the serializations of two arrays into that of their concatenation. */
  function Join(x: Serialized, y: Serialized): Serialized
  {
    if x.Kept? && x.value.Arr? && y.Kept? && y.value.Arr? then Kept(Arr(x.value.elems + y.value.elems))
    else Throws
  }

  /** The array filter works element by element and keeps the order: the
      serialization of `a + b` is that of `a` followed by that of `b`. */
  lemma FilterArrayAppend(a: seq<Value>, b: seq<Value>)
    ensures Filter(Arr(a + b)) == Join(Filter(Arr(a)), Filter(Arr(b)))
  {
    ElemsAppend(a, b);
    NullishAppend(a, b);
  }

  /** Does `val.filter(shouldSerialize)` throw on `es`? */
  predicate HasNullish(es: seq<Value>): (r: bool)
    ensures r <==> exists i | 0 <= i < |es| :: es[i].Nullish()
  {
    exists i | 0 <= i < |es| :: ShouldSerialize(es[i]).None?
  }

  lemma NullishAppend(a: seq<Value>, b: seq<Value>)
    ensures HasNullish(a + b) <==> HasNullish(a) || HasNullish(b)
  {
    var ab := a + b;
    if HasNullish(a) {
      var i :| 0 <= i < |a| && ShouldSerialize(a[i]).None?;
      assert ab[i] == a[i];
    }
    if HasNullish(b) {
      var i :| 0 <= i < |b| && ShouldSerialize(b[i]).None?;
      assert ab[|a| + i] == b[i];
    }
    if HasNullish(ab) {
      var i :| 0 <= i < |ab| && ShouldSerialize(ab[i]).None?;
      if i < |a| {
        assert ab[i] == a[i];
      } else {
        assert ab[i] == b[i - |a|];
      }
    }
  }

  lemma {:induction false} ElemsAppend(a: seq<Value>, b: seq<Value>)
    ensures SerializeElems(a + b) ==
      if SerializeElems(a).Some? && SerializeElems(b).Some?
      then Some(SerializeElems(a).value + SerializeElems(b).value)
      else None
    decreases a
  {
    if a == [] {
      assert a + b == b;
      assert SerializeElems(a) == Some([]);
      if SerializeElems(b).Some? {
        assert [] + SerializeElems(b).value == SerializeElems(b).value;
      }
    } else {
      assert (a + b)[1..] == a[1..] + b;
      assert (a + b)[0] == a[0];
      ElemsAppend(a[1..], b);
      if SerializeElems(a).Some? && SerializeElems(b).Some? && ShouldSerialize(a[0]) == Some(true) {
        var rest := SerializeElems(a[1..]).value;
        assert [Filter(a[0]).value] + (rest + SerializeElems(b).value)
          == ([Filter(a[0]).value] + rest) + SerializeElems(b).value;
      }
    }
  }

  /** A one-element array: a `null` or `undefined` element throws, an element
      of a class off the whitelist is dropped, any other is serialized. */
  lemma FilterArraySingleton(e: Value)
    ensures Filter(Arr([e])) ==
      if e.Nullish() then Throws
      else if ShouldSerialize(e) == Some(false) then Kept(Arr([]))
      else if Filter(e).Kept? then Kept(Arr([Filter(e).value]))
      else Throws
  {
    assert [e][0] == e;
    assert HasNullish([e]) <==> e.Nullish();
    assert [e][1..] == [];
    assert SerializeElems([]) == Some([]);
    if !e.Nullish() && ShouldSerialize(e) == Some(true) && Filter(e).Kept? {
      assert SerializeElems([e]) == Some([Filter(e).value] + []);
    }
  }

  /** A state holding a number, a function and an array with a Date: the
      function property is omitted and the Date element dropped. */
  lemma FilterDropsFunctionAndDate()
    ensures Filter(Obj(map["a" := Num(1), "b" := Other("Function", map[]),
                           "c" := Arr([Num(1), Str("x"), Other("Date", map[])])]))
         == Kept(Obj(map["a" := Num(1), "c" := Arr([Num(1), Str("x")])]))
  {
    var arr := [Num(1), Str("x"), Other("Date", map[])];
    assert Filter(Arr(arr)) == Kept(Arr([Num(1), Str("x")])) by {
      FilterDropsDate();
    }
    var f := map["a" := Num(1), "b" := Other("Function", map[]), "c" := Arr(arr)];
    assert Filter(f["b"]) == Omitted;
    assert Filter(f["a"]) == Kept(Num(1));
    var g := map k | k in f && Filter(f[k]).Kept? :: Filter(f[k]).value;
    assert g == map["a" := Num(1), "c" := Arr([Num(1), Str("x")])];
    assert !exists k | k in f :: Filter(f[k]).Throws?;
  }

  lemma FilterDropsDate()
    ensures Filter(Arr([Num(1), Str("x"), Other("Date", map[])])) == Kept(Arr([Num(1), Str("x")]))
  {
    var es := [Num(1), Str("x"), Other("Date", map[])];
    assert SerializeElems(es[2..]) == Some([]) by {
      assert es[2..][1..] == [];
    }
    assert es[1..][1..] == es[2..];
    assert es[1..][0] == Str("x") && Filter(Str("x")) == Kept(Str("x"));
    assert SerializeElems(es[1..]) == Some([Str("x")] + []);
    assert [Str("x")] + [] == [Str("x")];
    assert es[0] == Num(1) && Filter(Num(1)) == Kept(Num(1)) && ShouldSerialize(Num(1)) == Some(true);
    assert SerializeElems(es) == Some([Num(1)] + [Str("x")]);
    assert !HasNullish(es);
  }

  /** Properties are filtered at every depth: a function nested in a property
      is omitted from the inner object, which is kept. */
  lemma FilterNestedFunction()
    ensures Filter(Obj(map["a" := Obj(map["b" := Other("Function", map[])])]))
         == Kept(Obj(map["a" := Obj(map[])]))
  {
    var inner := Obj(map["b" := Other("Function", map[])]);
    assert Filter(inner.fields["b"]) == Omitted;
    assert SerializeFields(inner) == Some(map[]);
    assert Filter(inner) == Kept(Obj(map[]));
    var outer := Obj(map["a" := inner]);
    var g := SerializeFields(outer).value;
    assert "a" in OwnProps(outer) && "a" in g;
    assert g.Keys == {"a"} && g["a"] == Obj(map[]);
    assert g == map["a" := Obj(map[])];
  }

  /** `null` passes as a value and as a property, but not as an array element. */
  lemma NullOnlyThrowsInArrays()
    ensures Filter(Null) == Kept(Null)
    ensures Filter(Undefined) == Omitted
    ensures Filter(Obj(map["a" := Null])) == Kept(Obj(map["a" := Null]))
    ensures Filter(Obj(map["a" := Undefined])) == Kept(Obj(map[]))
    ensures Filter(Arr([Num(1), Null])) == Throws
    ensures Filter(Obj(map["a" := Arr([Undefined])])) == Throws
  {
    var f := map["a" := Null];
    assert (map k | k in f && Filter(f[k]).Kept? :: Filter(f[k]).value) == f;
    var u := map["a" := Undefined];
    assert Filter(u["a"]) == Omitted;
    assert SerializeFields(Obj(u)).value.Keys == {};
    assert [Num(1), Null][1] == Null;
    var w := map["a" := Arr([Undefined])];
    assert Filter(w["a"]) == Throws;
  }
}
