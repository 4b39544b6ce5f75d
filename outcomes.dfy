/** The failures the fitness tracker can raise, and a result type that
    carries either a value or one of them. */
module Outcomes {

  datatype Failure =
    /** The workout code is not a key of the registry (a lookup failure). */
    | UnknownWorkout(code: string)
    /** The argument list does not match the constructor's parameter count. */
    | WrongArgumentCount(expected: nat, given: nat)
    /** A duration of zero, or a walker's height of zero, was divided by. */
    | ZeroDivision

  datatype Result<T> = Ok(value: T) | Err(failure: Failure)
}
