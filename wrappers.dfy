/** Nullable values and the outcome of an operation that may throw. */
module Wrappers {

  /** A Java reference that may be null. */
  datatype Option<+T> = None | Some(value: T)

  /** The value an operation returns, or the exception it throws. */
  datatype Result<+T, +E> = Ok(value: T) | Err(error: E)
}

/** The Java exceptions the modelled code throws or lets escape. */
module Failures {

  datatype Failure =
    | IllegalArgument(message: string)       // java.lang.IllegalArgumentException
    | IllegalArgumentNoMessage               // new IllegalArgumentException(): a null message
    | IllegalState(message: string)          // java.lang.IllegalStateException
    | Runtime(message: string)               // java.lang.RuntimeException
    | UnsupportedOperation(message: string)  // java.lang.UnsupportedOperationException
    | NoSuchElement                          // java.util.NoSuchElementException
    | ClassCast                              // java.lang.ClassCastException
    | IndexOutOfBounds                       // java.lang.StringIndexOutOfBoundsException
    | DateTimeParse(text: string)            // java.time.format.DateTimeParseException, for the text refused
    | Jwt(message: string)                   // io.jsonwebtoken.JwtException (and its subclasses below)
    | ExpiredJwt                             // io.jsonwebtoken.ExpiredJwtException
    | WeakKey                                // io.jsonwebtoken.security.WeakKeyException
    | InvalidUserArgument(message: string)
    | UserAlreadyExists(message: string)
    | UserNotFound(message: string)
  {
    /** True for the exceptions a `catch (JwtException e)` block catches. */
    predicate IsJwtException() {
      Jwt? || ExpiredJwt? || WeakKey?
    }
  }
}
