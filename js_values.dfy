/** Optional values, results, and how JavaScript's `!x` reads a request field. */
module JsValues {

  /** A request-body or cookie field: `None` is `undefined`. */
  datatype Option<T> = None | Some(value: T)

  /** A handler either answers (`Ok`) or throws an error that becomes an HTTP status (`Err`). */
  datatype Result<T, E> = Ok(value: T) | Err(error: E)

  /** JavaScript truthiness of an optional string: `undefined` and `""` are falsy. */
  predicate Truthy(v: Option<string>)
  {
    v.Some? && v.value != ""
  }
}
