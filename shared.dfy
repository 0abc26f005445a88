/** Values shared by the prior and the instrument models. */
module Shared {

  datatype Option<+T> = None | Some(value: T)

  /** The Python exceptions that the modelled code lets escape. */
  datatype PyError = ZeroDivisionError | ValueError

  /** What a Python call does: it returns a value or it raises. */
  datatype Outcome<+T> = Returns(value: T) | Raises(error: PyError)

  /** One (lower, upper) entry of a bounds list; `None` leaves that side open. */
  datatype BoundPair = BoundPair(lower: Option<real>, upper: Option<real>)
}
