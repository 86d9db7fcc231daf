/** Small outcome types shared by the model: an optional value, and the two
    ways a JavaScript promise can settle. */
module Outcomes {

  /** A value that may be missing. */
  datatype Option<+T> = None | Some(value: T)

  /** How a promise settles: fulfilled with a value, or rejected with an
      `Error` whose `message` is kept (the rest of the error object is never
      read by the service). */
  datatype Settled<+T> = Fulfilled(value: T) | Rejected(message: string)
}
