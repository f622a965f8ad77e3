/**
 * The fixture the unit tests describe, replayed on the model: the setUp
 * options handed to the constructor, giving one declared field `test` with a
 * null default, an empty overlay and a recording adapter.
 */
module Scenarios {
  import opened Values
  import opened Results
  import opened FieldModel
  import opened TestModel

  const MockClass: string := "Mock_ethos_Model_Storage_Interface"
  const Mock: Adapter := Adapter(MockClass, [])

  function FixtureOptions(): map<string, Value>
  {
    map[FieldsOption := Arr(map["test" := Null]),
        ValuesOption := Arr(map[]),
        StorageOption := Storage(Mock)]
  }

  /**
   * `has` is true for the declared `test` and false for `foobar` and for a
   * null name; the `storage` option reads back as the adapter's class name.
   */
  lemma FixtureShape()
    ensures Has(Construct(FixtureOptions()), "test")
    ensures !Has(Construct(FixtureOptions()), "foobar")
    ensures !Has(Construct(FixtureOptions()), NullKey)
    ensures Construct(FixtureOptions()).options[StorageOption] == Str(MockClass)
    ensures Construct(FixtureOptions()).storage == Some(Mock)
  {
    var m := Construct(FixtureOptions());
    assert m.fields == map["test" := Null];
  }

  /**
   * set("test", "value") then get gives "value"; save hands the adapter
   * exactly {test: "value"} once; unset brings back the null default, and a
   * second unset changes nothing.
   */
  lemma FixtureLifecycle()
    ensures var m0 := Construct(FixtureOptions());
            && Set(m0, "test", Str("value")).Ok?
            && var m1 := Set(m0, "test", Str("value")).value;
            && Get(m1, "test") == Ok(Str("value"))
            && Save(m1).Ok?
            && var m2 := Save(m1).value;
            && m2.storage.value.saved == [map["test" := Str("value")]]
            && var m3 := Unset(m2, "test");
            && Get(m3, "test") == Ok(Null)
            && Unset(m3, "test") == m3
  {
    var m0 := Construct(FixtureOptions());
    assert m0.fields == map["test" := Null];
    assert m0.values == map[];
    var m1 := Set(m0, "test", Str("value")).value;
    assert m1.values == map["test" := Str("value")];
  }

  /** Setting or reading an undeclared field fails with the model error. */
  lemma FixtureRejectsUndeclared(value: Value)
    ensures Set(Construct(FixtureOptions()), "foobar", value) == Err(FieldNotFound("foobar"))
    ensures Get(Construct(FixtureOptions()), "foobar") == Err(FieldNotFound("foobar"))
  {
    assert Construct(FixtureOptions()).fields == map["test" := Null];
  }
}
