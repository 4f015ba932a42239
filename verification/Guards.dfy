/** The outcome types of the model: a value or a thrown message, and a mutation's outcome. */
module Guards {

  datatype Option<+T> = None | Some(value: T)

  /** A value, or the message of the exception that was thrown instead. */
  datatype Result<+T> = Ok(value: T) | Err(message: string)

  /** The outcome of a void operation that may throw: it returned, or threw with a message. */
  datatype Check = Pass | Fail(message: string)

  /** The outcome of an operation that changes an entity and may throw part-way: what it threw,
      if anything, and the state it left behind. */
  datatype Outcome<+S> = Outcome(check: Check, state: S)
}
