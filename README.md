# bookshelf-mass-assignment, modelled in Dafny

A Bookshelf plugin that protects models against mass assignment. A model
type declares either an allow-list `fillable` or a deny-list `guarded` of
attribute names. The plugin overrides the model's `save`. It turns both call
forms, `save(name, value, options)` and `save(attrs, options)`, into one
attribute map. It fails synchronously when both lists are set. A request
that names a disallowed attribute is either rejected ("Couldn't save model!
Attributes are invalid.") or, when the per-call `silent` option is truthy,
stripped of the disallowed names in place and passed on to Bookshelf's own
`save`.

Files:

- `js.dfy` (module `Js`): the JavaScript notions the guard relies on. These
  are values and their truthiness, property reads, the coercion of a key to
  a property name, `indexOf`, and a mutable object (`JsObject`) whose
  properties can be deleted.
- `guard.dfy` (module `Guard`): the behaviour of `save` as values.
  `Normalize` handles the arguments, `Invalid` is the violation test,
  `Filter` is what silent mode keeps, and `Check` gives the outcome.
  `SaveSpec` is the whole call. The outcome is a `ConfigError` (the
  synchronous throw), a `Rejected` promise, or `Forward(attrs, options)`,
  which stands for the call of the underlying `save` with those arguments.
- `guard_properties.dfy` (module `GuardProperties`): the guard's promises,
  proved over `Guard`. This includes the scenarios of the test suite.
- `mass_assignment.dfy` (module `MassAssignment`): the model class. Its
  constructor sets the fields. `NormalizeArgs` builds the attribute object,
  which in the object form is the caller's own object. `DeleteDisallowed`
  deletes the disallowed names from it in a loop. `Save` is proved to produce exactly
  `SaveSpec`'s outcome. It also modifies an object passed by reference
  exactly when silent mode filters it.

A list is `Option<seq<string>>`. `None` is `null`. `Some([])` is an empty
array, which JavaScript treats as truthy, so it counts as "set".

The plugin reads only the per-call `options.silent`. The instance field
`silent` that the constructor sets is never consulted by `save`, and `save`
does not merge the per-call options with it.

## Model

| member | source | states |
|---|---|---|
| Js.Truthy | src/mass-assignment.js:26-70 | exactly `undefined`, `null`, `false`, `0` and `""` are falsy, as in the tests `options.fillable`, `val || {}`, `options ? … : {}`, `this.fillable && this.guarded` and `!options.silent` |
| Js.IndexOf | src/mass-assignment.js:67-68 | `indexOf` gives -1 exactly when the name is absent; otherwise it gives the position of the first occurrence |
| Js.PropertyName | src/mass-assignment.js:56 | a string key names itself; an `undefined` key becomes the property name "undefined" |
| Js.Get | src/mass-assignment.js:70 | reading `options.silent` gives the value of the options object's own `silent` property when it has one, and `undefined` otherwise |
| Js.SetProperty | src/mass-assignment.js:56 | assignment creates or overwrites the named own property and keeps every other one, except for the name `__proto__`, which calls the inherited setter and leaves the own properties as they were |
| Js.JsObject.Set | src/mass-assignment.js:56 | `attrs[key] = val` on the object changes its own properties exactly as `SetProperty` says |
| Js.JsObject.Delete | src/mass-assignment.js:79 | `delete attrs[attr]` removes exactly that name and keeps every other entry |
| Guard.NormalizeOptions | src/mass-assignment.js:54-57 | cloned options, or `{}` when they are falsy; the result is always truthy and has the same `silent` truthiness as the argument |
| Guard.NormalizeAsWritten | src/mass-assignment.js:52-58 | the argument normalisation as the source writes it (strict `key === null`): an object key is the map itself; any other non-`null` key gives the one-entry map of its property name, or no entry at all for `__proto__`; its options are always truthy |
| Guard.Normalize | src/mass-assignment.js:52-58 | the corrected normalisation: it agrees with the source's (including the empty map for the name `__proto__`) for every key except `undefined`, which gives an empty attribute map |
| Guard.Silent | src/mass-assignment.js:70 | the per-call flag is set iff the options are an object whose own `silent` property is truthy |
| Guard.Disallowed | src/mass-assignment.js:77-78 | the loop deletes a name iff `fillable` is set and lacks it, or `guarded` is set and holds it |
| Guard.Invalid | src/mass-assignment.js:67-68 | the request is invalid iff some requested name is guarded or not fillable (both directions) |
| Guard.Filter | src/mass-assignment.js:76-81 | keeps exactly the requested names that are fillable and not guarded, each with its value; the result always passes the check; the result equals the input iff the input was valid |
| Guard.Check | src/mass-assignment.js:60-84 | configuration error iff both lists are set; rejection iff there is a violation and `silent` is falsy; whatever is forwarded keeps the options, is a subset of the request, and passes the check |
| Guard.SaveAsWritten | src/mass-assignment.js:48-85 | the whole of `save` as written: configuration error iff both lists are set; anything forwarded has truthy options and passes the violation test; for an `undefined` key only the name "undefined" can be forwarded; the name `__proto__` is forwarded as an empty map on every model whose lists are not both set |
| Guard.SaveSpec | src/mass-assignment.js:48-85 | the whole of `save` with the corrected normalisation: equal to `SaveAsWritten` for every key except `undefined`, for which at most the empty map is forwarded; configuration error iff both lists are set; anything forwarded passes the violation test |
| GuardProperties.BothListsAlwaysConfigError | src/mass-assignment.js:60-64 | with both lists set, even to empty arrays, every call ends in the configuration error, whatever the arguments |
| GuardProperties.NameFormMatchesObjectForm | src/mass-assignment.js:52-58 | `save(name, value, options)` normalises to the same request as `save({name: value}, options)` for every name but `__proto__` |
| GuardProperties.ProtoNameFormAddsNoAttribute | src/mass-assignment.js:48-85 | `save("__proto__", value, options)` makes a request with no attribute, which no list can object to, so it is forwarded as the empty map on every model whose lists are not both set |
| GuardProperties.ObjectFormIgnoresThirdArgument | src/mass-assignment.js:52-54 | in the object form the map is the object itself, the options come from the second argument, and the third argument is ignored |
| GuardProperties.NullKeyIsEmptyRequest | src/mass-assignment.js:52-54 | a `null` key is the empty attribute map, with options from the second argument |
| GuardProperties.NoListsForwardUnchanged | src/mass-assignment.js:67-68 | with neither list set, the request is forwarded unchanged, silent or not |
| GuardProperties.GuardedOnlyForwardsUnchangedIff | src/mass-assignment.js:67-84 | with only `guarded` set, the request is forwarded unchanged iff none of its names is guarded |
| GuardProperties.FillableOnlyForwardsUnchangedIff | src/mass-assignment.js:67-84 | with only `fillable` set, the request is forwarded unchanged iff all of its names are fillable |
| GuardProperties.ViolationRejectedUnlessSilent | src/mass-assignment.js:69-74 | a violation with falsy per-call `silent` is rejected with "Couldn't save model! Attributes are invalid." |
| GuardProperties.SilentViolationForwardsPermitted | src/mass-assignment.js:76-84 | a violation with truthy `silent` forwards exactly the permitted requested names, with their original values, and the options |
| GuardProperties.OnlyPerCallSilentDecides | src/mass-assignment.js:70 | two option values with the same `silent` truthiness give the same verdict and forward the same attributes |
| GuardProperties.ForwardIsIdempotent | src/mass-assignment.js:67-81 | a forwarded map passes the violation test, and guarding it again forwards it unchanged |
| GuardProperties.SaveOfForwardedIsUnchanged | src/mass-assignment.js:48-85 | saving the forwarded map again in object form, with the forwarded options, forwards the same thing |
| GuardProperties.BareSaveRejectedAsWritten | src/mass-assignment.js:52-58 | as written, `save()` on a model with `fillable = ['first_name']` builds `{undefined: undefined}` and is rejected |
| GuardProperties.BareSaveForwardsNothing | src/mass-assignment.js:52-58 | with the corrected normalisation, a call without a key forwards the empty map on every model whose lists are not both set |
| GuardProperties.FillableScenarioSaves | test/mass-assignment-test.js:54-57 | `fillable = ['first_name']`: `{first_name: 'Bob'}` is forwarded as is |
| GuardProperties.FillableScenarioRejects | test/mass-assignment-test.js:59-65 | `fillable = ['first_name']`: `{first_name: 'Jack', is_admin: true}` is rejected |
| GuardProperties.FillableScenarioSilentDrops | test/mass-assignment-test.js:67-70 | `fillable = ['first_name']`, silent: only `first_name: 'Joe'` is forwarded |
| GuardProperties.GuardedScenarioSaves | test/mass-assignment-test.js:83-86 | `guarded = ['id', 'is_admin']`: `{first_name: 'Joe'}` is forwarded as is |
| GuardProperties.GuardedScenarioRejects | test/mass-assignment-test.js:88-94 | `guarded = ['id', 'is_admin']`: `{first_name: 'Billy', is_admin: true}` is rejected |
| GuardProperties.GuardedScenarioSilentDrops | test/mass-assignment-test.js:96-99 | `guarded = ['id', 'is_admin']`, silent: only `first_name: 'Joe'` is forwarded |
| MassAssignment.Model.constructor | src/mass-assignment.js:22-30 | lists given in the options replace the model type's lists; `silent` is the option when it is truthy and `false` otherwise |
| MassAssignment.Model.NormalizeArgs | src/mass-assignment.js:49-58 | the attribute object and options are exactly `Normalize` of the arguments, which is the source's normalisation for every key but `undefined`; the name form assigns to a new empty object, so `__proto__` adds no own property; the object form works on the caller's own object (the alias), any other form on a new object |
| MassAssignment.Model.DeleteDisallowed | src/mass-assignment.js:76-81 | the loop over the keys leaves the object holding exactly `Filter` of its old contents |
| MassAssignment.Model.Save | src/mass-assignment.js:48-85 | the outcome is `SaveSpec` for this model's lists (the instance `silent` is not used), which is `SaveAsWritten` for every key but `undefined`; an object passed by reference ends up equal to the forwarded map when something is forwarded, and is unchanged otherwise |

## Findings

| source | as written | input that shows it | evidently intended | confidence | as-written member | corrected member |
|---|---|---|---|---|---|---|
| src/mass-assignment.js:52-56 | only a strictly `null` key takes the object form, so an `undefined` key becomes the attribute name "undefined" | `new User().save()` with `fillable = ['first_name']` builds `{undefined: undefined}` and is rejected as invalid | a missing key (`null` or `undefined`) means "no new attributes": the map is empty and the options come from the second argument | medium; not executed | GuardProperties.BareSaveRejectedAsWritten | GuardProperties.BareSaveForwardsNothing |

`Guard.SaveAsWritten` is `save` with the normalisation as written.
`Guard.SaveSpec`, which `MassAssignment.Model.Save` implements, uses the
corrected `Guard.Normalize`. The two differ only for an `undefined` key.

## Left out

- The underlying Bookshelf `save` (src/mass-assignment.js:84) and everything behind it: SQL generation, knex and the database. The delegate is represented by the `Forward` outcome, which records the map and options it would receive. `src/errors` is not part of this model.
- Promises: the synchronous throw and the rejected promise are the distinct outcomes `ConfigError` and `Rejected`.
- Plugin registration and prototype inheritance through `extend` (src/mass-assignment.js:8-11, 88). A model type's own `fillable`/`guarded` are passed to the constructor as parameters. The base constructor call at line 23 is not modelled.
- `_.clone`: options and lists are immutable values here, so a clone is the value itself.
- The order of `Object.keys`: the deletion loop takes the names in an arbitrary order. Its result does not depend on that order.
- Non-integer numbers, integers of magnitude 10^21 or more (which JavaScript writes in exponent form, such as "1e+21"), symbols, functions and arrays as `save` arguments. Other non-string keys are reduced to their property name by `Js.PropertyName`.
- Inherited properties: `options.silent` is read as an own property only.
- `fillable`/`guarded` values that are truthy but not arrays of strings (for example a string, whose `indexOf` searches substrings).
- The prototype of the attribute object. `save("__proto__", value)` may make `value` the prototype of the new object; only own properties are represented, so the model forwards an empty map and does not say what the underlying `save` makes of inherited properties.
- Js.JsObject.Delete: every property is modelled as configurable, so `delete` always removes it. Frozen or sealed attribute objects, on which `delete` at src/mass-assignment.js:79 leaves the property in place (or throws in strict mode), are outside the model; for them the forwarded map need not pass the violation test.
- MassAssignment.Model.constructor: its options are a `ModelOptions` record rather than an arbitrary second argument. A missing or falsy second argument is `ModelOptions(None, None, Undefined)`.
- MassAssignment.Model.NormalizeArgs: for an `undefined` key it uses the corrected normalisation (an empty attribute map, options from the second argument), not the source's `{undefined: val}` with options from the third argument; see "## Findings". For every other key it ensures the source's own normalisation.
- MassAssignment.Model.Save: for an `undefined` key its outcome is the corrected `Guard.SaveSpec`, not `Guard.SaveAsWritten`; for every other key it ensures `Guard.SaveAsWritten`.
