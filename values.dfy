/** JavaScript values as the storage helpers of src/index.ts see them, and the
    run-time class test (`className`) that the JSON-safety filter is built on. */
module JsValues {

  datatype Option<+T> = None | Some(value: T)

  /** A JavaScript value.  Numbers are modelled as mathematical integers.
      `Obj` is a plain object (its prototype's constructor is `Object`);
      `Other(cls, props)` is any other object — a function, a Date, a class
      instance — whose prototype's constructor is named `cls` and whose own
      enumerable properties are `props`. */
  datatype Value =
    | Undefined
    | Null
    | Bool(b: bool)
    | Num(n: int)
    | Str(s: string)
    | Arr(elems: seq<Value>)
    | Obj(fields: map<string, Value>)
    | Other(cls: string, props: map<string, Value>)
  {
    /** `null` and `undefined`: the two values that have no prototype. */
    predicate Nullish() {
      Undefined? || Null?
    }
  }

  /** `Object.getPrototypeOf(val).constructor.name`; `None` stands for the
      TypeError that `Object.getPrototypeOf` throws on `null` and `undefined`. */
  function ClassName(v: Value): (r: Option<string>)
    ensures r.None? <==> v.Nullish()
    ensures v.Arr? ==> r == Some("Array")
    ensures v.Obj? ==> r == Some("Object")
  {
    match v
    case Undefined => None
    case Null => None
    case Bool(_) => Some("Boolean")
    case Num(_) => Some("Number")
    case Str(_) => Some("String")
    case Arr(_) => Some("Array")
    case Obj(_) => Some("Object")
    case Other(cls, _) => Some(cls)
  }

  /** The class names `shouldSerialize` accepts, in the order (and with the
      repetition of "Array") the source lists them. */
  const Whitelist: seq<string> := ["Array", "Number", "Boolean", "Object", "Array", "String"]

  /** `shouldSerialize(val)`: `None` when `className` throws. */
  function ShouldSerialize(v: Value): (r: Option<bool>)
    ensures r.None? <==> v.Nullish()
    ensures r == Some(true) <==> !v.Nullish() && (!v.Other? || v.cls in Whitelist)
  {
    match ClassName(v)
    case None => None
    case Some(c) => Some(c in Whitelist)
  }
}
