/** How the pages talk about the outcome of server calls: the error a call
    throws, the message shown for it, and the alert banner. */
module Feedback {
  import opened Js

  /** An error thrown by a service call; `message` is
      `error?.response?.data?.message`, absent when any link is missing. */
  datatype ServerError = ServerError(message: Option<string>)

  /** The outcome of an awaited call whose resolved value the caller ignores. */
  datatype Completion = Completed | Threw(error: ServerError)

  /** The outcome of an awaited fetch whose error the caller does not inspect. */
  datatype Fetch<+T> = Fetched(value: T) | FetchFailed

  /** The message a page shows for a failed call: the server's message when it
      is a non-empty string, the page's own default text otherwise. */
  function MessageOr(e: ServerError, default: string): (r: string)
    ensures e.message.Some? && e.message.value != "" ==> r == e.message.value
    ensures e.message.None? || e.message.value == "" ==> r == default
  {
    OrElse(e.message, default)
  }

  datatype AlertKind = SuccessAlert | ErrorAlert

  /** The `{ type, message }` banner shown above a form. */
  datatype Alert = Alert(kind: AlertKind, message: string)
}
