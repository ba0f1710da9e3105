/**
 * What the attribute guard promises, stated over the value-level
 * semantics in module Guard.
 */
module GuardProperties {
  import opened Js
  import opened Guard

  // ---------------------------------------------------------------------
  // Configuration error
  // ---------------------------------------------------------------------

  /** With both lists set, even to empty arrays, every call fails with the
      configuration error, whatever the arguments and the silent flag. */
  lemma BothListsAlwaysConfigError(fillable: NameList, guarded: NameList, key: Value, val: Value, options: Value)
    requires fillable.Some? && guarded.Some?
    ensures SaveSpec(fillable, guarded, key, val, options) == ConfigError(BothListsMessage)
  {
  }

  // ---------------------------------------------------------------------
  // Argument normalisation
  // ---------------------------------------------------------------------

  /** `save(name, value, options)` and `save({name: value}, options)` make
      the same request, for every name but `__proto__`. */
  lemma NameFormMatchesObjectForm(name: string, value: Value, options: Value, ignored: Value)
    requires name != ProtoName
    ensures Normalize(Str(name), value, options) == Normalize(Obj(map[name := value]), options, ignored)
    ensures Normalize(Str(name), value, options).attrs == map[name := value]
  {
  }

  /** `save("__proto__", value, options)` assigns through the inherited
      setter: the request has no attribute at all, so no list can object to
      it, and it is forwarded with an empty map on every model whose lists
      are not both set. */
  lemma ProtoNameFormAddsNoAttribute(fillable: NameList, guarded: NameList, value: Value, options: Value)
    requires !(fillable.Some? && guarded.Some?)
    ensures Normalize(Str(ProtoName), value, options) == Request(map[], NormalizeOptions(options))
    ensures !Invalid(Normalize(Str(ProtoName), value, options).attrs, fillable, guarded)
    ensures SaveSpec(fillable, guarded, Str(ProtoName), value, options) == Forward(map[], NormalizeOptions(options))
  {
  }

  /** In the object form the options are the second argument and a third
      argument is ignored. */
  lemma ObjectFormIgnoresThirdArgument(attrs: Attributes, options: Value, third1: Value, third2: Value)
    ensures Normalize(Obj(attrs), options, third1) == Normalize(Obj(attrs), options, third2)
    ensures Normalize(Obj(attrs), options, third1) == Request(attrs, NormalizeOptions(options))
  {
  }

  /** A `null` key is an empty attribute map. */
  lemma NullKeyIsEmptyRequest(val: Value, options: Value)
    ensures Normalize(Null, val, options) == Request(map[], NormalizeOptions(val))
  {
  }

  // ---------------------------------------------------------------------
  // Acceptance without filtering
  // ---------------------------------------------------------------------

  /** With neither list set nothing is invalid: the request goes through
      unchanged, silent or not. */
  lemma NoListsForwardUnchanged(req: Request)
    ensures Check(None, None, req) == Forward(req.attrs, req.options)
  {
  }

  /** With only `guarded` set, a request goes through unchanged exactly when
      none of its names is guarded. */
  lemma GuardedOnlyForwardsUnchangedIff(guarded: seq<string>, req: Request)
    ensures Check(None, Some(guarded), req) == Forward(req.attrs, req.options) <==>
              forall name :: name in req.attrs ==> name !in guarded
  {
  }

  /** With only `fillable` set, a request goes through unchanged exactly when
      all of its names are fillable. */
  lemma FillableOnlyForwardsUnchangedIff(fillable: seq<string>, req: Request)
    ensures Check(Some(fillable), None, req) == Forward(req.attrs, req.options) <==>
              forall name :: name in req.attrs ==> name in fillable
  {
  }

  // ---------------------------------------------------------------------
  // Violations: reject or filter
  // ---------------------------------------------------------------------

  /** A violation without the per-call silent flag rejects the save and
      forwards nothing. */
  lemma ViolationRejectedUnlessSilent(fillable: NameList, guarded: NameList, req: Request)
    requires !(fillable.Some? && guarded.Some?)
    requires exists name :: name in req.attrs && Disallowed(name, fillable, guarded)
    requires !Silent(req.options)
    ensures Check(fillable, guarded, req) == Rejected(InvalidAttributesMessage)
  {
  }

  /** A violation with the per-call silent flag forwards exactly the
      permitted names, each with its requested value, and the options. */
  lemma SilentViolationForwardsPermitted(fillable: NameList, guarded: NameList, req: Request)
    requires !(fillable.Some? && guarded.Some?)
    requires exists name :: name in req.attrs && Disallowed(name, fillable, guarded)
    requires Silent(req.options)
    ensures Check(fillable, guarded, req).Forward?
    ensures Check(fillable, guarded, req).options == req.options
    ensures Check(fillable, guarded, req).attrs.Keys ==
              set name | name in req.attrs && !Disallowed(name, fillable, guarded)
    ensures forall name :: name in Check(fillable, guarded, req).attrs ==>
              Check(fillable, guarded, req).attrs[name] == req.attrs[name]
  {
  }

  /** Whether a violation rejects or filters depends only on the truthiness
      of the per-call `silent`: two option values that agree on it give the
      same verdict and forward the same attributes. */
  lemma OnlyPerCallSilentDecides(fillable: NameList, guarded: NameList, attrs: Attributes, o1: Value, o2: Value)
    requires Silent(o1) == Silent(o2)
    ensures Check(fillable, guarded, Request(attrs, o1)).Rejected? ==
            Check(fillable, guarded, Request(attrs, o2)).Rejected?
    ensures Check(fillable, guarded, Request(attrs, o1)).ConfigError? ==
            Check(fillable, guarded, Request(attrs, o2)).ConfigError?
    ensures Check(fillable, guarded, Request(attrs, o1)).Forward? ==>
              Check(fillable, guarded, Request(attrs, o1)).attrs ==
              Check(fillable, guarded, Request(attrs, o2)).attrs
  {
  }

  // ---------------------------------------------------------------------
  // The forwarded map
  // ---------------------------------------------------------------------

  /** What reaches the delegate passes the violation test, and guarding it
      again lets it through unchanged. */
  lemma ForwardIsIdempotent(fillable: NameList, guarded: NameList, req: Request)
    requires Check(fillable, guarded, req).Forward?
    ensures !Invalid(Check(fillable, guarded, req).attrs, fillable, guarded)
    ensures var out := Check(fillable, guarded, req);
            Check(fillable, guarded, Request(out.attrs, out.options)) == out
  {
  }

  /** The same at the level of `save`: saving the forwarded map again, in
      the object form with the forwarded options, forwards it unchanged. */
  lemma SaveOfForwardedIsUnchanged(fillable: NameList, guarded: NameList,
                                   key: Value, val: Value, options: Value, third: Value)
    requires SaveSpec(fillable, guarded, key, val, options).Forward?
    ensures var out := SaveSpec(fillable, guarded, key, val, options);
            SaveSpec(fillable, guarded, Obj(out.attrs), out.options, third) == out
  {
    var out := SaveSpec(fillable, guarded, key, val, options);
    assert Truthy(out.options);
    ForwardIsIdempotent(fillable, guarded, Normalize(key, val, options));
  }

  // ---------------------------------------------------------------------
  // The `undefined` key
  // ---------------------------------------------------------------------

  /** As written, a bare `save()` on a model with `fillable = ['first_name']`
      is rejected: the key `undefined` becomes an attribute named
      "undefined", which is not fillable. */
  lemma BareSaveRejectedAsWritten()
    ensures NormalizeAsWritten(Undefined, Undefined, Undefined).attrs == map["undefined" := Undefined]
    ensures SaveAsWritten(Some(["first_name"]), None, Undefined, Undefined, Undefined)
            == Rejected(InvalidAttributesMessage)
  {
    var req := NormalizeAsWritten(Undefined, Undefined, Undefined);
    assert "undefined" in req.attrs && "undefined" !in ["first_name"];
  }

  /** With the intended normalisation, a call without a key forwards an
      empty attribute map on every correctly configured model. */
  lemma BareSaveForwardsNothing(fillable: NameList, guarded: NameList, val: Value, options: Value)
    requires !(fillable.Some? && guarded.Some?)
    ensures SaveSpec(fillable, guarded, Undefined, val, options) == Forward(map[], NormalizeOptions(val))
  {
  }

  // ---------------------------------------------------------------------
  // The scenarios of the test suite
  // ---------------------------------------------------------------------

  /** `fillable = ['first_name']`: saving `{first_name: 'Bob'}` goes through. */
  lemma FillableScenarioSaves()
    ensures SaveSpec(Some(["first_name"]), None, Obj(map["first_name" := Str("Bob")]), Undefined, Undefined)
            == Forward(map["first_name" := Str("Bob")], Obj(map[]))
  {
    assert IndexOf(["first_name"], "first_name") == 0;
    assert !Invalid(map["first_name" := Str("Bob")], Some(["first_name"]), None);
  }

  /** `fillable = ['first_name']`: saving `{first_name: 'Jack', is_admin: true}` is rejected. */
  lemma FillableScenarioRejects()
    ensures SaveSpec(Some(["first_name"]), None,
                     Obj(map["first_name" := Str("Jack"), "is_admin" := Bool(true)]), Undefined, Undefined)
            == Rejected(InvalidAttributesMessage)
  {
    assert IndexOf(["first_name"], "is_admin") == -1;
    assert Invalid(map["first_name" := Str("Jack"), "is_admin" := Bool(true)], Some(["first_name"]), None);
  }

  /** `fillable = ['first_name']`, silent: only `first_name` reaches the delegate. */
  lemma FillableScenarioSilentDrops()
    ensures SaveSpec(Some(["first_name"]), None,
                     Obj(map["is_admin" := Bool(true), "first_name" := Str("Joe")]),
                     Obj(map["silent" := Bool(true)]), Undefined)
            == Forward(map["first_name" := Str("Joe")], Obj(map["silent" := Bool(true)]))
  {
    var joe := map["is_admin" := Bool(true), "first_name" := Str("Joe")];
    var options := Obj(map["silent" := Bool(true)]);
    assert Normalize(Obj(joe), options, Undefined) == Request(joe, options);
    FillableScenarioKeepsFirstName(joe);
  }

  /** The filtering step of the scenario above. */
  lemma FillableScenarioKeepsFirstName(joe: Attributes)
    requires joe == map["is_admin" := Bool(true), "first_name" := Str("Joe")]
    ensures Invalid(joe, Some(["first_name"]), None)
    ensures Filter(joe, Some(["first_name"]), None) == map["first_name" := Str("Joe")]
  {
    var fillable := ["first_name"];
    assert IndexOf(fillable, "first_name") == 0;
    assert IndexOf(fillable, "is_admin") == -1 by {
      assert "is_admin" !in fillable;
    }
    assert Disallowed("is_admin", Some(fillable), None);
    assert !Disallowed("first_name", Some(fillable), None);
    assert Filter(joe, Some(fillable), None).Keys == {"first_name"};
  }

  /** `guarded = ['id', 'is_admin']`: saving `{first_name: 'Joe'}` goes through. */
  lemma GuardedScenarioSaves()
    ensures SaveSpec(None, Some(["id", "is_admin"]), Obj(map["first_name" := Str("Joe")]), Undefined, Undefined)
            == Forward(map["first_name" := Str("Joe")], Obj(map[]))
  {
    assert IndexOf(["id", "is_admin"], "first_name") == -1;
    assert !Invalid(map["first_name" := Str("Joe")], None, Some(["id", "is_admin"]));
  }

  /** `guarded = ['id', 'is_admin']`: saving `{first_name: 'Billy', is_admin: true}` is rejected. */
  lemma GuardedScenarioRejects()
    ensures SaveSpec(None, Some(["id", "is_admin"]),
                     Obj(map["first_name" := Str("Billy"), "is_admin" := Bool(true)]), Undefined, Undefined)
            == Rejected(InvalidAttributesMessage)
  {
    assert ["id", "is_admin"][1..] == ["is_admin"];
    assert IndexOf(["id", "is_admin"], "is_admin") == 1;
    assert Invalid(map["first_name" := Str("Billy"), "is_admin" := Bool(true)], None, Some(["id", "is_admin"]));
  }

  /** `guarded = ['id', 'is_admin']`, silent: only `first_name` reaches the delegate. */
  lemma GuardedScenarioSilentDrops()
    ensures SaveSpec(None, Some(["id", "is_admin"]),
                     Obj(map["is_admin" := Bool(true), "first_name" := Str("Joe")]),
                     Obj(map["silent" := Bool(true)]), Undefined)
            == Forward(map["first_name" := Str("Joe")], Obj(map["silent" := Bool(true)]))
  {
    var joe := map["is_admin" := Bool(true), "first_name" := Str("Joe")];
    var options := Obj(map["silent" := Bool(true)]);
    assert Normalize(Obj(joe), options, Undefined) == Request(joe, options);
    GuardedScenarioKeepsFirstName(joe);
  }

  /** The filtering step of the scenario above. */
  lemma GuardedScenarioKeepsFirstName(joe: Attributes)
    requires joe == map["is_admin" := Bool(true), "first_name" := Str("Joe")]
    ensures Invalid(joe, None, Some(["id", "is_admin"]))
    ensures Filter(joe, None, Some(["id", "is_admin"])) == map["first_name" := Str("Joe")]
  {
    var guarded := ["id", "is_admin"];
    assert guarded[1..] == ["is_admin"];
    assert IndexOf(guarded, "is_admin") == 1;
    assert IndexOf(guarded, "first_name") == -1 by {
      assert "first_name" !in guarded;
    }
    assert Disallowed("is_admin", None, Some(guarded));
    assert !Disallowed("first_name", None, Some(guarded));
    assert Filter(joe, None, Some(guarded)).Keys == {"first_name"};
  }
}
