/** Value wrappers shared by every module of the model. */
module Wrappers {

  /** A JavaScript value that may be `undefined` or `null`. */
  datatype Option<+T> = None | Some(value: T)

  /** The result of a call that either returns a value or throws an Error with a message. */
  datatype Outcome<+T> = Ok(value: T) | Fail(message: string)

  /** JavaScript truthiness of an optional string: present and not the empty string. */
  predicate Truthy(s: Option<string>) {
    s.Some? && s.value != ""
  }
}
