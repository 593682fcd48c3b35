/** Optional values, and the truthiness test the cart code applies to optional strings. */
module Options {

  datatype Option<+T> = None | Some(value: T)

  /** An optional string is truthy exactly when it is present and not empty:
      `undefined`, `null` and `""` all fail an `if (s)` test. */
  predicate Truthy(s: Option<string>) {
    s.Some? && s.value != ""
  }
}
