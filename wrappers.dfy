/** Small helpers shared by every module of the model. */
module Wrappers {

  /** A value that may be absent (`undefined` / `null` in the service). */
  datatype Option<T> = None | Some(value: T)

  /**
   * JavaScript truthiness of an optional string request parameter such as
   * `ref`, `resource` or `exclude`: present and not the empty string.
   */
  predicate Given(o: Option<string>)
  {
    o.Some? && o.value != ""
  }
}
