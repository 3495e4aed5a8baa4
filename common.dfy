/** Small value wrappers shared by every module of the model. */
module Common {

  /** An optional value: a missing property, an absent event field, a timer not set. */
  datatype Option<+T> = None | Some(value: T) {
    /** The value, or `default` when there is none (JavaScript's `??`). */
    function GetOr(default: T): T {
      match this
      case Some(v) => v
      case None => default
    }
  }

  /** The outcome of an operation that can throw in the source: a value or an error message. */
  datatype Result<+T> = Ok(value: T) | Err(message: string)
}
