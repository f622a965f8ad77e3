/**
 * PHP values as the field model stores them: declared defaults, overlay
 * entries and options. The explicit `Null` case matters because PHP's
 * `isset` treats a stored null exactly like a missing key.
 */
module Values {

  /**
   * An object implementing the storage-adapter interface (save/load of an
   * array). Its behaviour belongs to whoever supplies it; the model keeps
   * only the class name it reports and the trace of arrays handed to its
   * `save`, in call order.
   */
  datatype Adapter = Adapter(className: string, saved: seq<map<string, Value>>)

  datatype Value =
    | Null
    | Bool(b: bool)
    | Int(i: int)
    | Str(s: string)
    | Arr(entries: map<string, Value>)
    | Storage(adapter: Adapter)   // an instance of the storage interface
    | Obj(className: string)      // any other object

  /** PHP `isset($a[$k])` on an array: the key is present and its value is not null. */
  predicate IssetKey(a: map<string, Value>, k: string)
  {
    k in a && a[k] != Null
  }

  /** The array key PHP uses when a null name is used as a key. */
  const NullKey: string := ""
}

/** Optional values, and results that carry either a value or the model's error. */
module Results {

  datatype Option<+T> = None | Some(value: T)

  /** The exceptions the field model raises. */
  datatype ModelError =
    | FieldNotFound(field: string)   // ethos_Model_Exception from _require
    | StorageUnavailable             // save() with no usable storage adapter

  /** Failure-compatible, so that `:-` propagates an error as an uncaught exception would. */
  datatype Result<+T> = Ok(value: T) | Err(error: ModelError) {

    predicate IsFailure() {
      Err?
    }

    function PropagateFailure<U>(): Result<U>
      requires Err?
    {
      Err(error)
    }

    function Extract(): T
      requires Ok?
    {
      value
    }
  }
}
