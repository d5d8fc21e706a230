/** An optional value: a query parameter or a dictionary entry that may be missing. */
module Wrappers {
  datatype Option<+T> = None | Some(value: T)
}

/** What a Flask view hands back to the HTTP client. */
module Http {
  /** `Reply(body, status)` is a view's `return body, status`; `ServerError` is the
      500 answer Flask gives when the view raises instead of returning. */
  datatype Reply = Reply(body: string, status: int) | ServerError {
    function Status(): int {
      if ServerError? then 500 else status
    }
  }
}
