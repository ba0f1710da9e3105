/**
 * The few JavaScript notions the attribute guard relies on: dynamically
 * typed values and their truthiness, property reads, the coercion of a
 * primitive to a property name, `Array.prototype.indexOf` on a list of
 * strings, and a mutable object whose own properties can be deleted.
 */
module Js {

  datatype Option<+T> = None | Some(value: T)

  /** A JavaScript value. Numbers are limited to integers; an array or any
      other object is an `Obj` with its own enumerable properties. */
  datatype Value =
    | Undefined
    | Null
    | Bool(b: bool)
    | Num(n: int)
    | Str(s: string)
    | Obj(fields: map<string, Value>)

  /** JavaScript's truthiness: `undefined`, `null`, `false`, `0` and `""`
      are falsy, every object is truthy. */
  predicate Truthy(v: Value)
    ensures !Truthy(v) <==> v in {Undefined, Null, Bool(false), Num(0), Str("")}
  {
    match v
    case Undefined => false
    case Null => false
    case Bool(b) => b
    case Num(n) => n != 0
    case Str(s) => s != ""
    case Obj(_) => true
  }

  /** `v[name]` for an own property; primitives and missing properties read
      as `undefined`. */
  function Get(v: Value, name: string): (r: Value)
    ensures r != Undefined ==> v.Obj? && name in v.fields && v.fields[name] == r
    ensures v.Obj? && name in v.fields ==> r == v.fields[name]
  {
    if v.Obj? && name in v.fields then v.fields[name] else Undefined
  }

  function DigitChar(d: nat): char
    requires d < 10
  {
    "0123456789"[d]
  }

  function NatToString(n: nat): string
    decreases n
  {
    if n < 10 then [DigitChar(n)] else NatToString(n / 10) + [DigitChar(n % 10)]
  }

  /** The property name a primitive becomes when used as `obj[key]`. */
  function PropertyName(key: Value): (name: string)
    ensures key.Str? ==> name == key.s
    ensures key.Undefined? ==> name == "undefined"
  {
    match key
    case Undefined => "undefined"
    case Null => "null"
    case Bool(b) => if b then "true" else "false"
    case Num(n) => if n < 0 then "-" + NatToString(-n) else NatToString(n)
    case Str(s) => s
    case Obj(_) => "[object Object]"
  }

  /** The one property name whose assignment on a plain object does not
      create an own property: it calls the `__proto__` setter every plain
      object inherits, which at most changes the object's prototype. */
  const ProtoName := "__proto__"

  /** The own properties of a plain object after `obj[name] = v`: the
      property is created or overwritten, except for `__proto__`, which
      leaves the own properties as they were. */
  function SetProperty(fields: map<string, Value>, name: string, v: Value): (r: map<string, Value>)
    ensures name != ProtoName ==> name in r && r[name] == v
    ensures r.Keys == fields.Keys + (if name == ProtoName then {} else {name})
    ensures forall other :: other in fields && other != name ==> r[other] == fields[other]
    ensures name == ProtoName ==> r == fields
  {
    if name == ProtoName then fields else fields[name := v]
  }

  /** `list.indexOf(x)`: the first position of `x`, or -1 when it is absent. */
  function IndexOf(list: seq<string>, x: string): (r: int)
    ensures -1 <= r < |list|
    ensures r == -1 <==> x !in list
    ensures 0 <= r ==> list[r] == x && x !in list[..r]
  {
    if |list| == 0 then -1
    else if list[0] == x then 0
    else
      var i := IndexOf(list[1..], x);
      if i == -1 then -1
      else
        assert list[..i + 1] == [list[0]] + list[1..][..i];
        i + 1
  }

  /** A plain JavaScript object held by reference, so that deleting one of
      its properties is seen by everyone who holds it. */
  class JsObject {
    var fields: map<string, Value>

    constructor (fields: map<string, Value>)
      ensures this.fields == fields
    {
      this.fields := fields;
    }

    /** `obj[name] = v`. */
    method Set(name: string, v: Value)
      modifies this
      ensures fields == SetProperty(old(fields), name, v)
    {
      fields := if name == ProtoName then fields else fields[name := v];
    }

    /** `delete obj[name]`. */
    method Delete(name: string)
      modifies this
      ensures fields == old(fields) - {name}
    {
      fields := fields - {name};
    }
  }
}
