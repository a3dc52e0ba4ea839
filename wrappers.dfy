/** Failure-carrying values shared by every module of the model. */
module Wrappers {

  datatype Option<+T> = None | Some(value: T)

  /** The error objects the JavaScript code throws or receives: a `TypeError`
      (what `fetch` rejects with when the network is unreachable, or what calling
      a non-function raises) or a plain `Error` with a message. */
  datatype JsError = TypeError(message: string) | Error(message: string)

  /** The settled state of a promise: fulfilled with a value, or rejected with an error. */
  datatype Outcome<+T> = Fulfilled(value: T) | Rejected(error: JsError)

  /** The JavaScript truthiness of an optional string: `undefined` and `''` are falsy. */
  predicate Truthy(s: Option<string>) {
    s.Some? && s.value != ""
  }
}
