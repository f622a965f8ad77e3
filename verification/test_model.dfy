/**
 * The concrete test subclass of the field model: its constructor installs
 * the declared fields and the initial overlay from the `fields` and `values`
 * options before the base constructor handles the options, and it exposes
 * the protected hooks unchanged.
 */
module TestModel {
  import opened Values
  import opened Results
  import opened FieldModel

  const FieldsOption: string := "fields"
  const ValuesOption: string := "values"

  /** An option that is meant to carry a container: absent, null, or an array. */
  predicate ContainerOption(options: map<string, Value>, key: string)
  {
    key !in options || options[key].Null? || options[key].Arr?
  }

  /** The container under `key` when it is set, otherwise an empty array. */
  function OptionContainer(options: map<string, Value>, key: string): (r: map<string, Value>)
    requires ContainerOption(options, key)
    ensures IssetKey(options, key) ==> r == options[key].entries
    ensures !IssetKey(options, key) ==> r == map[]
  {
    if IssetKey(options, key) then options[key].entries else map[]
  }

  /**
   * The constructor: declared fields and overlay come from the options, then
   * the base class handles the same options (storage adapter included).
   */
  function Construct(options: map<string, Value>): (m: Model)
    requires ContainerOption(options, FieldsOption)
    requires ContainerOption(options, ValuesOption)
    ensures forall f :: Has(m, f) <==> IssetKey(options, FieldsOption) && f in options[FieldsOption].entries
    ensures IssetKey(options, FieldsOption) ==> m.fields == options[FieldsOption].entries
    ensures IssetKey(options, ValuesOption) ==> m.values == options[ValuesOption].entries
    ensures !IssetKey(options, ValuesOption) ==> m.values == map[]
    ensures m.options.Keys == options.Keys
    ensures forall k :: k in options && k != StorageOption ==> m.options[k] == options[k]
    ensures IssetKey(options, StorageOption) && options[StorageOption].Storage? ==>
              && m.storage == Some(options[StorageOption].adapter)
              && m.options[StorageOption] == Str(m.storage.value.className)
    ensures !(IssetKey(options, StorageOption) && options[StorageOption].Storage?) ==>
              m.storage == None && m.options == options
  {
    var installed := Model(OptionContainer(options, FieldsOption), OptionContainer(options, ValuesOption), None, map[]);
    SetOptions(installed, options)
  }

  /** With no `values` option, or an empty one, every declared field starts unset and reads as its default. */
  lemma ConstructStartsUnset(options: map<string, Value>, field: string)
    requires ContainerOption(options, FieldsOption)
    requires ContainerOption(options, ValuesOption)
    requires IssetKey(options, ValuesOption) ==> options[ValuesOption].entries == map[]
    requires Has(Construct(options), field)
    ensures !IsSet(Construct(options), field)
    ensures Get(Construct(options), field) == Ok(Construct(options).fields[field])
  {
  }

  /** `_require_` is `_require`: it fails for undeclared names and otherwise returns the model. */
  function ExposedRequire(m: Model, field: string): (r: Result<Model>)
    ensures r.Ok? <==> Has(m, field)
    ensures r.Ok? ==> r.value == m
    ensures r.Err? ==> r.error == FieldNotFound(field)
  {
    Require(m, field)
  }

  /** `_validate_` is the base `_validate`: every value passes, for any name. */
  function ExposedValidate(m: Model, field: string, value: Value): (r: bool)
    ensures r
  {
    BaseValidate(field, value)
  }

  /** `_filter_` is the base `_filter`: the value comes back unchanged, for any name. */
  function ExposedFilter(m: Model, field: string, value: Value): (r: Value)
    ensures r == value
  {
    BaseFilter(field, value)
  }
}
