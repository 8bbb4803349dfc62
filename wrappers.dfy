/** Option and Result values standing in for Ruby's nil and raised exceptions. */
module Wrappers {

  /** A value that may be absent, as a Ruby attribute that was never assigned is nil. */
  datatype Option<+T> = None | Some(value: T) {
    function GetOr(default: T): T {
      match this
      case Some(v) => v
      case None => default
    }
  }

  /** The outcome of a Ruby expression that either yields a value or raises with a message. */
  datatype Result<+T> = Ok(value: T) | Err(msg: string)

  /** The outcome of a Ruby statement that either completes or raises with a message. */
  datatype Outcome = Pass | Fail(msg: string)

  /** Message of the NoMethodError Ruby raises when method m is called on nil. */
  function NilReceiver(m: string): string {
    "undefined method `" + m + "' for nil:NilClass"
  }

  /** Message of the TypeError Ruby raises when nil is appended to a String. */
  const NilConversion: string := "no implicit conversion of nil into String"
}
