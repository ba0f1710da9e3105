/**
 * The attribute guard's behaviour as values: how the arguments of `save`
 * become one attribute map and one options value, when a request violates
 * the `fillable`/`guarded` lists, which attributes silent mode drops, and
 * what reaches the persistence delegate.
 */
module Guard {
  import opened Js

  const BothListsMessage := "Cannot specify both fillable and guarded options."
  const InvalidAttributesMessage := "Couldn't save model! Attributes are invalid."

  /** An attribute name to value mapping, as handed to `save`. */
  type Attributes = map<string, Value>

  /** A `fillable` or `guarded` list: `None` is `null`, `Some([])` is an
      empty (and therefore truthy) array. */
  type NameList = Option<seq<string>>

  /** The normalised save request. */
  datatype Request = Request(attrs: Attributes, options: Value)

  /** How a call to `save` ends: a synchronous configuration error, a
      rejected promise, or a call of the delegate with these arguments. */
  datatype Outcome =
    | ConfigError(message: string)
    | Rejected(message: string)
    | Forward(attrs: Attributes, options: Value)

  /** The per-call `silent` flag, as the guard reads it. */
  predicate Silent(options: Value)
    ensures Silent(options) <==>
              options.Obj? && "silent" in options.fields && Truthy(options.fields["silent"])
  {
    Truthy(Get(options, "silent"))
  }

  /** `_.clone(arg) || {}`: a falsy argument becomes an empty object. */
  function NormalizeOptions(arg: Value): (r: Value)
    ensures Truthy(r)
    ensures Truthy(arg) ==> r == arg
    ensures !Truthy(arg) ==> r == Obj(map[])
    ensures Silent(r) <==> Silent(arg)
  {
    if Truthy(arg) then arg else Obj(map[])
  }

  /** Argument normalisation exactly as the source writes it: only a
      strictly `null` key or an object key takes the object form, so an
      `undefined` key is used as the property name "undefined". In the name
      form the value is assigned to a new empty object, so the name
      `__proto__` leaves it without an own property. */
  function NormalizeAsWritten(key: Value, val: Value, options: Value): (r: Request)
    ensures Truthy(r.options)
    ensures key.Obj? ==> r.attrs == key.fields
    ensures !key.Null? && !key.Obj? ==>
              r.attrs == (if PropertyName(key) == ProtoName then map[] else map[PropertyName(key) := val])
  {
    if key.Null? || key.Obj? then
      Request(if key.Obj? then key.fields else map[], NormalizeOptions(val))
    else
      Request(SetProperty(map[], PropertyName(key), val), NormalizeOptions(options))
  }

  /** Argument normalisation as intended: a missing (`null` or `undefined`)
      key means "no attributes", as in the object form. */
  function Normalize(key: Value, val: Value, options: Value): (r: Request)
    ensures Truthy(r.options)
    ensures !key.Undefined? ==> r == NormalizeAsWritten(key, val, options)
    ensures key.Undefined? ==> r.attrs == map[]
  {
    if key.Undefined? then Request(map[], NormalizeOptions(val))
    else NormalizeAsWritten(key, val, options)
  }

  /** The test the filtering loop applies to one attribute name: absent
      from a set `fillable`, or present in a set `guarded`. */
  predicate Disallowed(name: string, fillable: NameList, guarded: NameList)
    ensures Disallowed(name, fillable, guarded) <==>
              (fillable.Some? && name !in fillable.value) || (guarded.Some? && name in guarded.value)
  {
    || (fillable.Some? && IndexOf(fillable.value, name) == -1)
    || (guarded.Some? && IndexOf(guarded.value, name) >= 0)
  }

  /** The violation test: some requested name is in a set `guarded`, or
      some requested name is missing from a set `fillable`. */
  predicate Invalid(attrs: Attributes, fillable: NameList, guarded: NameList)
    ensures Invalid(attrs, fillable, guarded) <==>
              exists name :: name in attrs && Disallowed(name, fillable, guarded)
    ensures Invalid(attrs, fillable, guarded) <==>
              exists name :: name in attrs &&
                ((fillable.Some? && name !in fillable.value) ||
                 (guarded.Some? && name in guarded.value))
  {
    || (guarded.Some? && exists name :: name in attrs && IndexOf(guarded.value, name) >= 0)
    || (fillable.Some? && exists name :: name in attrs && IndexOf(fillable.value, name) == -1)
  }

  /** What the silent-mode loop leaves of `attrs`: every name that is not
      disallowed, with its value. */
  function Filter(attrs: Attributes, fillable: NameList, guarded: NameList): (r: Attributes)
    ensures r.Keys <= attrs.Keys
    ensures forall name :: name in attrs ==>
              (name in r <==> (fillable.Some? ==> name in fillable.value) &&
                              (guarded.Some? ==> name !in guarded.value))
    ensures forall name :: name in r ==> r[name] == attrs[name]
    ensures !Invalid(r, fillable, guarded)
    ensures r == attrs <==> !Invalid(attrs, fillable, guarded)
  {
    var r := map name | name in attrs && !Disallowed(name, fillable, guarded) :: attrs[name];
    assert Invalid(attrs, fillable, guarded) ==> r != attrs by {
      if Invalid(attrs, fillable, guarded) {
        var name :| name in attrs && Disallowed(name, fillable, guarded);
        assert name !in r;
      }
    }
    r
  }

  /** Everything `save` does after normalising its arguments. */
  function Check(fillable: NameList, guarded: NameList, req: Request): (r: Outcome)
    ensures r.ConfigError? <==> fillable.Some? && guarded.Some?
    ensures r.ConfigError? ==> r.message == BothListsMessage
    ensures r.Rejected? <==>
              !(fillable.Some? && guarded.Some?) &&
              Invalid(req.attrs, fillable, guarded) && !Silent(req.options)
    ensures r.Rejected? ==> r.message == InvalidAttributesMessage
    ensures r.Forward? ==> r.options == req.options
    ensures r.Forward? ==> r.attrs.Keys <= req.attrs.Keys && !Invalid(r.attrs, fillable, guarded)
  {
    if fillable.Some? && guarded.Some? then
      ConfigError(BothListsMessage)
    else if Invalid(req.attrs, fillable, guarded) then
      if !Silent(req.options) then Rejected(InvalidAttributesMessage)
      else Forward(Filter(req.attrs, fillable, guarded), req.options)
    else
      Forward(req.attrs, req.options)
  }

  /** The outcome of `model.save(key, val, options)` on a model whose lists
      are `fillable` and `guarded`. */
  function SaveSpec(fillable: NameList, guarded: NameList, key: Value, val: Value, options: Value): (r: Outcome)
    ensures r.ConfigError? <==> fillable.Some? && guarded.Some?
    ensures r.Forward? ==> Truthy(r.options) && !Invalid(r.attrs, fillable, guarded)
    ensures !key.Undefined? ==> r == SaveAsWritten(fillable, guarded, key, val, options)
    ensures key.Undefined? && r.Forward? ==> r.attrs == map[]
  {
    Check(fillable, guarded, Normalize(key, val, options))
  }

  /** The same, with the argument normalisation the source actually has. */
  function SaveAsWritten(fillable: NameList, guarded: NameList, key: Value, val: Value, options: Value): (r: Outcome)
    ensures r.ConfigError? <==> fillable.Some? && guarded.Some?
    ensures r.Forward? ==> Truthy(r.options) && !Invalid(r.attrs, fillable, guarded)
    ensures key.Undefined? && r.Forward? ==> r.attrs.Keys <= {"undefined"}
    ensures key == Str(ProtoName) && !(fillable.Some? && guarded.Some?) ==>
              r == Forward(map[], NormalizeOptions(options))
  {
    Check(fillable, guarded, NormalizeAsWritten(key, val, options))
  }
}
