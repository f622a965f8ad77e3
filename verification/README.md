# ethos field model, in Dafny

This project models the field model of the ethos library: the abstract
base class `ethos_Model_Abstract` (`ethos/Model/Abstract.php`) and its
concrete test subclass `Test_Model_Abstract` (`Test/Model/Abstract.php`).

A model holds two maps over PHP values:

- the **declared fields**, each field name mapped to its default value (`_fields`);
- the **overlay** of explicitly set values (`_values`).

It also holds an optional storage adapter and the options it was built
with. Every public operation is a pure function from a `FieldModel.Model`
record to a new record, or to a `Results.Result` whose error case stands for
the exception the PHP code throws (`FieldNotFound` for `_require`,
`StorageUnavailable` for a `save` with no adapter).

Values (`Values.Value`) carry an explicit `Null` case. PHP's `isset` treats a
stored null as absent, so `set(f, null)` writes an entry that `get` ignores
in favour of the default. `__unset` leaves such an entry in place, because
it only removes entries that `__isset` sees.

Modules:

- `Values`, `Results` (values.dfy): the value type, the adapter as a trace of
  the arrays handed to its `save`, PHP `isset`, `Option`/`Result`/errors.
- `FieldModel` (field_model.dfy): `_setOptions`, `has`, `_require`, `get`,
  `_validate`, `_filter`, `set` (with arbitrary hooks and with the base
  hooks), `__isset`, `__unset`, `save`, `load`.
- `FieldLaws` (laws.dfy): laws relating the operations to each other.
- `FieldMachine` (field_machine.dfy): call sequences (`Op`, `Run`) and the
  per-field two-state machine (NotSet / Holding a non-null value). It is an
  independent reference that `get` is proved to follow after any successful
  call sequence.
- `TestModel` (test_model.dfy): the test subclass's constructor and its
  exposed hooks.
- `Scenarios` (scenarios.dfy): the fixture the unit tests describe (`fields =
  {test: null}`, empty overlay, mock adapter), built by handing the test's setUp
  options to the constructor, replayed on the model.

## Model

`has` and `__isset` are the predicates `FieldModel.Has` and `FieldModel.IsSet`. Their properties are stated by `FieldLaws.HasIffRequire` and `FieldLaws.IsSetIffGetReadsOverlay`.

| member | source | states |
|---|---|---|
| FieldModel.SetOptions | ethos/Model/Abstract.php:45-62 | an adapter instance under a set `storage` option becomes the model's adapter and the option is replaced by its class name; all other options pass through; fields and overlay untouched |
| FieldModel.Require | ethos/Model/Abstract.php:103-113 | fails with FieldNotFound(f) exactly when f is not declared; otherwise returns the same model |
| FieldLaws.HasIffRequire | ethos/Model/Abstract.php:88-113 | `has(f)` holds iff f is a declared field iff `_require(f)` succeeds |
| FieldModel.Get | ethos/Model/Abstract.php:125-140 | fails exactly for undeclared fields; returns the overlay value when it is present and non-null, otherwise the declared default |
| FieldModel.BaseValidate | ethos/Model/Abstract.php:153-156 | the base validator accepts every value for every name |
| FieldModel.BaseFilter | ethos/Model/Abstract.php:169-172 | the base filter returns the value unchanged for every name |
| FieldModel.SetWith | ethos/Model/Abstract.php:191-199 | fails exactly for undeclared fields; a rejected value succeeds with no change; an accepted one writes the filtered value for f and leaves every other overlay key, the fields, options and adapter unchanged |
| FieldModel.Set | ethos/Model/Abstract.php:191-199 | with the base hooks, on a declared field the overlay holds exactly v for f afterwards and nothing else changes; undeclared fails |
| FieldLaws.RejectedSetIsSilent | ethos/Model/Abstract.php:191-199 | when the validator rejects, `set` on a declared field returns the model unchanged and raises nothing |
| FieldLaws.GetAfterSet | ethos/Model/Abstract.php:191-213 | after `set(f, v)` `get(f)` is v and `__isset(f)` holds, unless v is null, in which case `get(f)` is the declared default |
| FieldLaws.SetIsLocal | ethos/Model/Abstract.php:191-199 | `set` on one field changes neither `get` nor `__isset` of any other field |
| FieldLaws.IsSetIffGetReadsOverlay | ethos/Model/Abstract.php:210-213 | `__isset(f)` iff f is declared and has a non-null overlay entry; then `get` reads the overlay, otherwise the default |
| FieldModel.Unset | ethos/Model/Abstract.php:223-237 | never fails; removes the entry exactly when `__isset` holds, otherwise changes nothing; afterwards `__isset` is false and other keys are unchanged |
| FieldLaws.GetAfterUnset | ethos/Model/Abstract.php:223-237 | after `__unset(f)`, `get(f)` returns the declared default |
| FieldLaws.UnsetIdempotent | ethos/Model/Abstract.php:223-237 | a second `__unset` of the same field changes nothing |
| FieldLaws.UnsetKeepsNullEntry | ethos/Model/Abstract.php:210-237 | `set(f, null)` then `__unset(f)` leaves a null entry for f in the overlay while `__isset(f)` is false |
| FieldModel.Save | ethos/Model/Abstract.php:278-283 | appends exactly the current overlay, once, to the adapter's save trace and changes nothing else; fails when no adapter was injected |
| FieldLaws.SaveKeepsFields | ethos/Model/Abstract.php:278-283 | `save` changes neither `get` nor `__isset` of any field |
| FieldModel.Load | ethos/Model/Abstract.php:286-289 | `load` hands back the model exactly as it was |
| FieldMachine.ApplyFrame | ethos/Model/Abstract.php:103-289 | a single call fails exactly when it names an undeclared field (set/get/require) or is a save without adapter; success never changes fields, options or adapter presence; get, require and load return the model unchanged |
| FieldMachine.ReadsAreNeutral | ethos/Model/Abstract.php:103-140 | appended to a successful call sequence, `get` or `_require` fails exactly when the field is undeclared and `load` never fails; a read that succeeds (including `load`, lines 286-289) leaves the outcome unchanged |
| FieldMachine.RunSnoc | ethos/Model/Abstract.php:103-289 | running one more call after a sequence equals applying it to the sequence's outcome |
| FieldMachine.RunSucceedsIff | ethos/Model/Abstract.php:103-113 | a call sequence succeeds iff every call in it is allowed on the initial model |
| FieldMachine.RunKeepsDeclaredFields | ethos/Model/Abstract.php:27-36 | the declared fields (hence `has`) and the options never change over any successful call sequence |
| FieldMachine.RunKeepsOverlayDeclared | ethos/Model/Abstract.php:191-199 | an overlay holding only declared keys keeps holding only declared keys |
| FieldMachine.RunRecordsEverySave | ethos/Model/Abstract.php:278-283 | the adapter's trace grows by exactly one entry per save call, earlier entries untouched, same adapter class |
| FieldMachine.StateOfNeverHoldsNull | ethos/Model/Abstract.php:210-213 | a field's machine is never Holding null |
| FieldMachine.GetObservesState | ethos/Model/Abstract.php:125-140 | `get` on a declared field returns the value the field's machine holds, or the default when NotSet |
| FieldMachine.StepSimulates | ethos/Model/Abstract.php:191-237 | one successful call moves each declared field's two-state machine by exactly one transition |
| FieldMachine.RunSimulates | ethos/Model/Abstract.php:191-237 | any successful call sequence moves each declared field's machine by replaying its transitions |
| FieldMachine.RunGetAgreesWithMachine | ethos/Model/Abstract.php:125-237 | after any successful call sequence, `get(f)` equals what f's machine predicts from its initial state |
| TestModel.Construct | Test/Model/Abstract.php:23-32 | declared fields are the `fields` option when set, else empty; the overlay is the `values` option when set, else empty; then the base storage handling applies to the same options, rewriting only the `storage` entry and passing every other option through unchanged |
| TestModel.ConstructStartsUnset | Test/Model/Abstract.php:28-29 | with no `values` option or an empty one, every declared field starts unset and reads as its default |
| TestModel.ExposedRequire | Test/Model/Abstract.php:44-47 | fails for undeclared names, otherwise returns the model |
| TestModel.ExposedValidate | Test/Model/Abstract.php:59-62 | returns true for any name and value |
| TestModel.ExposedFilter | Test/Model/Abstract.php:74-77 | returns the value unchanged for any name |
| Scenarios.FixtureShape | Test/Model/AbstractTest.php:67-136 | the fixture has `test`, not `foobar`, not the null name; its `storage` option is the mock's class name and the mock is retained |
| Scenarios.FixtureRejectsUndeclared | Test/Model/AbstractTest.php:347-376 | `set` and `get` of `foobar` fail with FieldNotFound |
| Scenarios.FixtureLifecycle | Test/Model/AbstractTest.php:420-486 | set "value" then get gives it; save hands the mock exactly {test: "value"} once; unset restores the null default; a second unset changes nothing |

## Left out

- `_getStorage` (ethos/Model/Abstract.php:247-271) is not modelled. It resolves a class name through `class_exists` and builds an adapter by dynamic instantiation. As written, it also throws an interface (line 256) and caches into `$this->Storage` instead of `$this->_Storage` (line 267). The model keeps only the injected-instance path. A `save` without an injected adapter is modelled as the error `StorageUnavailable`. In the source every such path fails: the option lookup throws, the class is missing, or the uncached adapter is null when `save` is called on it.
- `getOption` and the options resolver with dotted paths: `ethos_Pattern_Options` is not part of this model. Options are kept as an opaque map that is handed over once. The class's `_defaults` (empty in the base class) are not merged in.
- The `(array)` cast of the options in the base constructor and ArrayObject containers: only plain-array semantics are modelled. The fixture's shared ArrayObject aliasing is therefore not modelled: in the tests, writes to the shared container show through the model.
- Key order: PHP arrays keep insertion order, and `save` hands the adapter the overlay in that order. Overlays are maps here, so the overlay and the arrays recorded by `save` are modelled only up to key order. A re-`set` keeping a key's position, or `__unset` then `set` moving it to the end, is not modelled.
- PHP key normalisation: field names are strings. A null name is the key `""` (`Values.NullKey`). Numeric-string keys becoming integers is not modelled; it affects lookup and writes alike.
- TestModel.Construct: requires the `fields` and `values` options, when set, to be arrays, as the constructor's comment expects. PHP's behaviour on a scalar there (warnings, string offsets) is not modelled.
- The adapter's own behaviour (the storage interface, ethos/Model/Storage/Interface.php) is not modelled. It is a trace of the arrays handed to `save`. The adapter's `load` is never called by the model.
- The test harness as written: ethos/Test/TestCase.php:99 constructs the fixture without options, and the `_fixtureOptions` set at Test/Model/AbstractTest.php:80 is never read by the harness. A fixture built that way has no declared fields, no overlay and no adapter, so tests such as `test_has('test')` would fail against it. `Scenarios` instead models the fixture the test comments describe (Test/Model/AbstractTest.php:254-257): the setUp options of lines 69-78 handed to the constructor.
- The rest of the test harness (ethos/Test/TestCase.php), bootstrap.php and watchr.rb are tooling with no model behaviour.
