/** Laws relating the field model's operations to each other. */
module FieldLaws {
  import opened Values
  import opened Results
  import opened FieldModel

  /** `has` agrees with `_require`: a name passes the guard exactly when it is declared. */
  lemma HasIffRequire(m: Model, field: string)
    ensures Has(m, field) <==> Require(m, field).Ok?
    ensures !Has(m, field) <==> Require(m, field) == Err(FieldNotFound(field))
  {
  }

  /** `__isset` holds exactly for declared fields whose overlay entry `get` would return. */
  lemma IsSetIffGetReadsOverlay(m: Model, field: string)
    ensures IsSet(m, field) <==> Has(m, field) && field in m.values && m.values[field] != Null
    ensures IsSet(m, field) ==> Get(m, field) == Ok(m.values[field])
    ensures Has(m, field) && !IsSet(m, field) ==> Get(m, field) == Ok(m.fields[field])
  {
  }

  /** After `set(f, v)` with the base hooks, `get(f)` is `v`, or the default when `v` is null. */
  lemma GetAfterSet(m: Model, field: string, value: Value)
    requires Has(m, field)
    ensures Set(m, field, value).Ok?
    ensures IsSet(Set(m, field, value).value, field) <==> value != Null
    ensures Get(Set(m, field, value).value, field) == Ok(if value == Null then m.fields[field] else value)
  {
  }

  /** `set` never changes what `get` reports for any other field. */
  lemma SetIsLocal(m: Model, field: string, other: string, value: Value)
    requires Set(m, field, value).Ok?
    requires other != field
    ensures Get(Set(m, field, value).value, other) == Get(m, other)
    ensures IsSet(Set(m, field, value).value, other) == IsSet(m, other)
  {
  }

  /** A value the validator rejects is dropped: `set` succeeds and the model is unchanged. */
  lemma RejectedSetIsSilent(hooks: Hooks, m: Model, field: string, value: Value)
    requires Has(m, field)
    requires !hooks.validate(field, value)
    ensures SetWith(hooks, m, field, value) == Ok(m)
  {
  }

  /** `unset` then `get` yields the declared default, never a stale overlay value. */
  lemma GetAfterUnset(m: Model, field: string)
    requires Has(m, field)
    ensures Get(Unset(m, field), field) == Ok(m.fields[field])
  {
  }

  /** A second `unset` of the same field changes nothing. */
  lemma UnsetIdempotent(m: Model, field: string)
    ensures Unset(Unset(m, field), field) == Unset(m, field)
  {
  }

  /**
   * Setting a field to null stores a null entry that `__isset` ignores; the
   * following `unset` then leaves that entry in place, because it only removes
   * entries that `__isset` sees.
   */
  lemma UnsetKeepsNullEntry(m: Model, field: string)
    requires Has(m, field)
    ensures Set(m, field, Null).Ok?
    ensures var after := Unset(Set(m, field, Null).value, field);
            field in after.values && after.values[field] == Null && !IsSet(after, field)
  {
  }

  /** `save` leaves every field as `get` saw it before. */
  lemma SaveKeepsFields(m: Model, field: string)
    requires Save(m).Ok?
    ensures Get(Save(m).value, field) == Get(m, field)
    ensures IsSet(Save(m).value, field) == IsSet(m, field)
  {
  }
}
