/** What the four asynchronous operations report to the store. The HTTP calls
    themselves are not modelled: a settled operation is either fulfilled with
    the server's value or rejected with one message string. */
module Thunks {
  import opened Seqs

  datatype Outcome<T> = Fulfilled(value: T) | Rejected(message: string)

  datatype Operation = Fetch | Add | Update | Delete

  /** The message used when the server sends none. */
  function FallbackMessage(op: Operation): string {
    match op
    case Fetch => "Failed to fetch talents"
    case Add => "Failed to add talent"
    case Update => "Failed to update talent"
    case Delete => "Failed to delete talent"
  }

  /** `error.response?.data?.message || fallback`: the server's message when it
      sent a non-empty one, otherwise the operation's fixed fallback. */
  function RejectionMessage(op: Operation, serverMessage: Option<string>): (m: string)
    ensures m != ""
    ensures serverMessage.Some? && serverMessage.value != "" ==> m == serverMessage.value
    ensures serverMessage.None? || serverMessage.value == "" ==> m == FallbackMessage(op)
  {
    match serverMessage
    case Some(text) => if text != "" then text else FallbackMessage(op)
    case None => FallbackMessage(op)
  }
}
