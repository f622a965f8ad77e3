/**
 * The abstract field model: a map of declared fields (name to default value),
 * an overlay of explicitly set values, an optional storage adapter and the
 * options the model was configured with. Every public operation of the base
 * class is a pure transition on this record.
 */
module FieldModel {
  import opened Values
  import opened Results

  const StorageOption: string := "storage"

  datatype Model = Model(
    fields: map<string, Value>,    // declared field name -> default value
    values: map<string, Value>,    // overlay of explicitly set values
    storage: Option<Adapter>,      // injected storage adapter, if any
    options: map<string, Value>    // options handed to the options resolver
  )

  /** The two extension hooks `set` consults before writing. */
  datatype Hooks = Hooks(validate: (string, Value) -> bool, filter: (string, Value) -> Value)

  /** `b` differs from `a` at most in the entry for `field`. */
  ghost predicate OthersUnchanged(a: map<string, Value>, b: map<string, Value>, field: string)
  {
    forall g :: g != field ==> (g in a <==> g in b) && (g in a ==> a[g] == b[g])
  }

  /**
   * `_setOptions`: an adapter instance under the `storage` option is retained
   * as the model's adapter and the option is replaced by its class name; any
   * other option set is passed through as given.
   */
  function SetOptions(m: Model, options: map<string, Value>): (r: Model)
    ensures r.fields == m.fields && r.values == m.values
    ensures r.options.Keys == options.Keys
    ensures forall k :: k in options && k != StorageOption ==> r.options[k] == options[k]
    ensures IssetKey(options, StorageOption) && options[StorageOption].Storage? ==>
              && r.storage == Some(options[StorageOption].adapter)
              && r.options[StorageOption] == Str(options[StorageOption].adapter.className)
    ensures !(IssetKey(options, StorageOption) && options[StorageOption].Storage?) ==>
              r.storage == m.storage && r.options == options
  {
    if IssetKey(options, StorageOption) && options[StorageOption].Storage? then
      var adapter := options[StorageOption].adapter;
      m.(storage := Some(adapter), options := options[StorageOption := Str(adapter.className)])
    else
      m.(options := options)
  }

  /** `has`: the name is a declared field, whether or not it has been set. */
  predicate Has(m: Model, field: string)
  {
    field in m.fields
  }

  /** `_require`: fails for an undeclared field, otherwise hands back the model for chaining. */
  function Require(m: Model, field: string): (r: Result<Model>)
    ensures r.Ok? <==> field in m.fields
    ensures r.Ok? ==> r.value == m
    ensures r.Err? ==> r.error == FieldNotFound(field)
  {
    if !Has(m, field) then Err(FieldNotFound(field)) else Ok(m)
  }

  /**
   * `__isset`: the field is declared and the overlay holds a non-null value
   * for it. A stored null counts as not set.
   */
  predicate IsSet(m: Model, field: string)
  {
    Has(m, field) && IssetKey(m.values, field)
  }

  /** `get`: the overlay value when the field is set, otherwise the declared default. */
  function Get(m: Model, field: string): (r: Result<Value>)
    ensures r.Err? <==> field !in m.fields
    ensures r.Err? ==> r.error == FieldNotFound(field)
    ensures r.Ok? && field in m.values && m.values[field] != Null ==> r.value == m.values[field]
    ensures r.Ok? && (field !in m.values || m.values[field] == Null) ==> r.value == m.fields[field]
  {
    var model :- Require(m, field);
    if IsSet(model, field) then Ok(model.values[field]) else Ok(model.fields[field])
  }

  /** `_validate` of the base class: every value passes, declared field or not. */
  function BaseValidate(field: string, value: Value): (r: bool)
    ensures r
  {
    true
  }

  /** `_filter` of the base class: the value is kept as it is, declared field or not. */
  function BaseFilter(field: string, value: Value): (r: Value)
    ensures r == value
  {
    value
  }

  const BaseHooks: Hooks := Hooks(BaseValidate, BaseFilter)

  /**
   * `set` with the hooks a class supplies: require the field, then validate,
   * then write the filtered value. A value that fails validation is dropped
   * silently: the call still succeeds and nothing changes.
   */
  function SetWith(hooks: Hooks, m: Model, field: string, value: Value): (r: Result<Model>)
    ensures r.Err? <==> field !in m.fields
    ensures r.Err? ==> r.error == FieldNotFound(field)
    ensures r.Ok? ==> r.value.fields == m.fields && r.value.storage == m.storage && r.value.options == m.options
    ensures r.Ok? && !hooks.validate(field, value) ==> r.value == m
    ensures r.Ok? && hooks.validate(field, value) ==>
              && field in r.value.values
              && r.value.values[field] == hooks.filter(field, value)
              && OthersUnchanged(m.values, r.value.values, field)
  {
    var model :- Require(m, field);
    if hooks.validate(field, value) then
      Ok(model.(values := model.values[field := hooks.filter(field, value)]))
    else
      Ok(model)
  }

  /** `set` with the base hooks: the overlay entry for the field becomes exactly `value`. */
  function Set(m: Model, field: string, value: Value): (r: Result<Model>)
    ensures r.Err? <==> field !in m.fields
    ensures r.Err? ==> r.error == FieldNotFound(field)
    ensures r.Ok? ==> r.value.fields == m.fields && r.value.storage == m.storage && r.value.options == m.options
    ensures r.Ok? ==> field in r.value.values && r.value.values[field] == value
    ensures r.Ok? ==> OthersUnchanged(m.values, r.value.values, field)
  {
    SetWith(BaseHooks, m, field, value)
  }

  /**
   * `__unset`: removes the overlay entry only when the field is set; any
   * other call, including one naming an undeclared field or a field whose
   * entry is null, changes nothing. It never fails.
   */
  function Unset(m: Model, field: string): (r: Model)
    ensures r.fields == m.fields && r.storage == m.storage && r.options == m.options
    ensures !IsSet(r, field)
    ensures OthersUnchanged(m.values, r.values, field)
    ensures IsSet(m, field) ==> field !in r.values
    ensures !IsSet(m, field) ==> r == m
  {
    if IsSet(m, field) then m.(values := m.values - {field}) else m
  }

  /**
   * `save`: hands the whole overlay, as it stands, to the adapter's `save`
   * exactly once. Without an injected adapter there is none to call.
   */
  function Save(m: Model): (r: Result<Model>)
    ensures r.Err? <==> m.storage.None?
    ensures r.Err? ==> r.error == StorageUnavailable
    ensures r.Ok? ==> r.value.fields == m.fields && r.value.values == m.values && r.value.options == m.options
    ensures r.Ok? ==> && r.value.storage.Some?
                      && r.value.storage.value.className == m.storage.value.className
                      && r.value.storage.value.saved == m.storage.value.saved + [m.values]
  {
    match m.storage
    case None => Err(StorageUnavailable)
    case Some(adapter) =>
      Ok(m.(storage := Some(adapter.(saved := adapter.saved + [m.values]))))
  }

  /** `load`: the base class does nothing and hands back the model. */
  function Load(m: Model): (r: Model)
    ensures r == m
  {
    m
  }
}
