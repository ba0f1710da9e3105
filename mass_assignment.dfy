/**
 * The plugin's model: a model instance holds its `fillable`, `guarded` and
 * `silent` settings, and its `save` normalises the arguments, checks the
 * configuration, rejects or filters the attributes in place, and hands what
 * is left to the underlying save, which is represented by the `Forward`
 * outcome carrying its arguments.
 */
module MassAssignment {
  import opened Js
  import opened Guard

  /** The `fillable`, `guarded` and `silent` entries of the options object
      given to the model constructor; an absent, `null` or `undefined` entry
      (or a missing options object) is `None` or `Undefined`. */
  datatype ModelOptions = ModelOptions(fillable: NameList, guarded: NameList, silent: Value)

  /** The first argument of `save`: either an object the caller holds a
      reference to, or any other value (a literal object, `null`, a name). */
  datatype KeyArg = Ref(obj: JsObject) | Prim(v: Value)

  /** The value the first argument stands for at a given moment. */
  function KeyView(key: KeyArg): Value
    reads if key.Ref? then {key.obj} else {}
  {
    match key
    case Ref(obj) => Obj(obj.fields)
    case Prim(v) => v
  }

  class Model {
    var fillable: NameList
    var guarded: NameList
    /** Set by the constructor; `save` never reads it. */
    var silent: Value

    /** A new instance of a model type whose own lists are `protoFillable`
        and `protoGuarded`; lists given in `options` replace them. */
    constructor (protoFillable: NameList, protoGuarded: NameList, options: ModelOptions)
      ensures fillable == (if options.fillable.Some? then options.fillable else protoFillable)
      ensures guarded == (if options.guarded.Some? then options.guarded else protoGuarded)
      ensures Truthy(options.silent) ==> silent == options.silent
      ensures !Truthy(options.silent) ==> silent == Bool(false)
    {
      fillable := if options.fillable.Some? then options.fillable else protoFillable;
      guarded := if options.guarded.Some? then options.guarded else protoGuarded;
      silent := if Truthy(options.silent) then options.silent else Bool(false);
    }

    /** The silent-mode loop: deletes every disallowed name from `attrs`. */
    method DeleteDisallowed(attrs: JsObject)
      modifies attrs
      ensures attrs.fields == Filter(old(attrs.fields), fillable, guarded)
    {
      ghost var original := attrs.fields;
      var names := attrs.fields.Keys;
      while names != {}
        invariant names <= original.Keys
        invariant attrs.fields ==
                  map name | name in original && (name in names || !Disallowed(name, fillable, guarded))
                    :: original[name]
        decreases names
      {
        var name :| name in names;
        if Disallowed(name, fillable, guarded) {
          attrs.Delete(name);
        }
        names := names - {name};
      }
    }

    /** The argument handling at the start of `save`: the attribute object
        is the caller's own object in the object form and a new one
        otherwise; the options are cloned, or `{}` when falsy. An `undefined`
        key is read as a missing one, like `null`; for every other key this
        is the source's own normalisation. */
    static method NormalizeArgs(key: KeyArg, val: Value, options: Value) returns (attrs: JsObject, opts: Value)
      ensures Request(attrs.fields, opts) == Normalize(KeyView(key), val, options)
      ensures !KeyView(key).Undefined? ==>
                Request(attrs.fields, opts) == NormalizeAsWritten(KeyView(key), val, options)
      ensures key.Ref? ==> attrs == key.obj
      ensures !key.Ref? ==> fresh(attrs)
    {
      match key {
        case Ref(obj) =>
          attrs := obj;
          opts := NormalizeOptions(val);
        case Prim(v) =>
          if v.Null? || v.Undefined? {
            attrs := new JsObject(map[]);
            opts := NormalizeOptions(val);
          } else if v.Obj? {
            attrs := new JsObject(v.fields);
            opts := NormalizeOptions(val);
          } else {
            attrs := new JsObject(map[]);
            attrs.Set(PropertyName(v), val);
            opts := NormalizeOptions(options);
          }
      }
    }

    /** `model.save(key, val, options)`. The outcome is the one `SaveSpec`
        gives for the lists of this model (the instance's `silent` plays no
        part); an object the caller passed by reference loses the dropped
        names when silent mode filters it, and is untouched otherwise. */
    method Save(key: KeyArg, val: Value, options: Value) returns (outcome: Outcome)
      modifies if key.Ref? then {key.obj} else {}
      ensures outcome == SaveSpec(fillable, guarded, old(KeyView(key)), val, options)
      ensures !old(KeyView(key)).Undefined? ==>
                outcome == SaveAsWritten(fillable, guarded, old(KeyView(key)), val, options)
      ensures key.Ref? && outcome.Forward? ==> key.obj.fields == outcome.attrs
      ensures key.Ref? && !outcome.Forward? ==> key.obj.fields == old(key.obj.fields)
    {
      var attrs, opts := NormalizeArgs(key, val, options);

      if fillable.Some? && guarded.Some? {
        return ConfigError(BothListsMessage);
      }

      if Invalid(attrs.fields, fillable, guarded) {
        if !Silent(opts) {
          return Rejected(InvalidAttributesMessage);
        }
        DeleteDisallowed(attrs);
      }

      return Forward(attrs.fields, opts);
    }
  }
}
