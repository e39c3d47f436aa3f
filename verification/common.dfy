/** Small shared vocabulary: an optional value (JavaScript's `null` versus a
    value) and JavaScript truthiness of an optional string. */
module Common {

  /** `None` stands for `null`/`undefined`, `Some(v)` for a present value. */
  datatype Option<+T> = None | Some(value: T)

  /** JavaScript truthiness of a value that is either `null` or a string:
      `null` and the empty string are both falsy. */
  predicate Truthy(o: Option<string>) {
    o.Some? && o.value != ""
  }
}
