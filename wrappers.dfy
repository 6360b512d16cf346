/** Small datatypes shared by every component of the client model. */
module Wrappers {

  /** A value that may be absent: JavaScript's `null`/`undefined` versus a present value. */
  datatype Option<+T> = None | Some(value: T)

  /** The outcome of one HTTP call, as the component's `try`/`catch` sees it: either the
      response body, or a failure that may carry the server's `detail` message. */
  datatype Response<+T> = Ok(body: T) | Failed(detail: Option<string>)
}
