/**
 * Values shared by the client pages: the outcome of one request and of a
 * GET, and the toast a handler shows.
 */
module Ui {
  /** The outcome of one request: an exception, or a response that is ok or not. */
  datatype Reply = NetworkError | Reply(ok: bool)

  /** The outcome of a GET: an exception, a refused response, or the data. */
  datatype Fetch<T> = FetchThrows | FetchRefused | Fetched(data: T)

  /** The toast a handler shows, if any. */
  datatype Toast = NoToast | ToastSuccess(message: string) | ToastError(message: string) | ToastInfo(message: string)

  /** The outcome of a call whose failure text is shown: success, or an exception with the body's `error` ("" when absent). */
  datatype Call = Succeeded | Failed(serverError: string)

  /** The answer of a `fetch` whose JSON body's text (its `message` or `error`, "" when absent) is shown on failure, or an exception. */
  datatype Answer = AnswerThrows | Answered(ok: bool, message: string)

  /** `err.response?.data?.error || fallback`, and likewise `data.message || fallback`. */
  function ErrorText(serverError: string, fallback: string): (m: string)
    ensures serverError != "" ==> m == serverError
    ensures serverError == "" ==> m == fallback
  {
    if serverError != "" then serverError else fallback
  }
}
