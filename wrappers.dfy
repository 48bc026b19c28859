/** Result and option types, and the kinds of exception the handles throw. */
module Wrappers {

  /** A Java reference that may be null. */
  datatype Option<+T> = None | Some(value: T)

  /** A value, or the exception thrown instead of returning it. */
  datatype Result<+T, +E> = Success(value: T) | Failure(error: E)

  /** The outcome of a check that either passes or throws. */
  datatype Outcome<+E> = Pass | Fail(error: E)

  /** Wraps a successful value so that it can stand for a nullable return. */
  function Lift<T, E>(r: Result<T, E>): (o: Result<Option<T>, E>)
    ensures o.Success? <==> r.Success?
    ensures r.Success? ==> o.value == Some(r.value)
    ensures r.Failure? ==> o.error == r.error
  {
    match r
    case Success(v) => Success(Some(v))
    case Failure(e) => Failure(e)
  }

  /**
   * The exception kinds of the modelled code. The two InvalidPortException
   * classes (one per package) are the same kind here; messages are not modelled.
   */
  datatype Error =
    | IOException                       // an attribute could not be read
    | NumberFormatException             // Integer.parseInt rejected the text
    | StringIndexOutOfBoundsException   // String.substring with begin > end
    | InvalidPortException
    | InvalidMotorException
}
