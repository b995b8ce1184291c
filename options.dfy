/** Optional inputs and JavaScript truthiness of an optional string. */
module Options {

  /** An optional field of a request: `undefined` or a value. */
  datatype Option<+T> = None | Some(value: T)

  /** A string field is truthy when it is present and not the empty string. */
  predicate Truthy(v: Option<string>)
  {
    v.Some? && v.value != ""
  }
}
