/** Shared result types and the named failure conditions of the building model. */
module Common {

  datatype Option<+T> = None | Some(value: T)

  /** A value or a failure; stands for a Java constructor that returns an object or throws. */
  datatype Result<+T> = Ok(value: T) | Err(error: Error)

  /** The outcome of a void operation that may throw. */
  datatype Outcome = Pass | Fail(error: Error)

  /** One constructor per exception class the core throws. */
  datatype Error =
    | IllegalArgument
    | DuplicateSensor
    | DuplicateRoom
    | InsufficientSpace
    | DuplicateFloor
    | NoFloorBelow
    | FloorTooSmall
    | FireDrillNotPossible
}
