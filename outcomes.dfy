/** Failure-carrying values returned by the capacity engine. */
module Outcomes {

  datatype Option<+T> = None | Some(value: T)

  datatype Result<+T, +E> = Success(value: T) | Failure(error: E)

  /** The ways an evaluation can fail. */
  datatype Error =
    /** A material name that is not in the catalog (a dictionary lookup that raises). */
    | UnknownGrade(name: string)
    /** A net section with no positive area: a hardening, the calculator itself divides anyway. */
    | InvalidGeometry
}
