/** The outcome of one awaited HTTP call, supplied to the handlers as an input. */
module Http {

  /**
   * `Ok(data)` is a resolved request whose body is `data`; `Failed` is a
   * rejected promise (backend unreachable, error status). A handler whose
   * `await` rejects stops at that point, so nothing after it runs.
   */
  datatype Response<+T> = Ok(data: T) | Failed
}
