/** Optional values, the model's stand-in for JavaScript's `null` / `undefined`. */
module Maybe {

  datatype Option<+T> = None | Some(value: T)

  /** JavaScript truthiness of an optional string: present and not the empty string. */
  predicate Truthy(o: Option<string>) {
    o.Some? && o.value != ""
  }
}
