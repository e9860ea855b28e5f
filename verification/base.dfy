/** Optional values and success-or-error outcomes, the shapes the app's
    `T | null`, `T | undefined` and thrown errors take in this model. */
module Base {

  datatype Option<+T> = None | Some(value: T)

  datatype Result<+T, +E> = Ok(value: T) | Err(error: E)

  /** JavaScript truthiness of a string that may be missing: present and
      not empty. */
  predicate Truthy(s: Option<string>) {
    s.Some? && s.value != ""
  }
}
