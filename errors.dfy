/** Outcomes of the descriptor engine: a value, or the reason no descriptor is produced. */
module Errors {

  /** Why `calc_rdfs` produces no descriptor. */
  datatype Error =
    /** A requested property name is not a key of the property table (a KeyError). */
    | UnknownProperty(name: string)
    /** An element of the structure has no value for a requested property. */
    | MissingProperty(element: string, property: string)
    /** Evaluating a name that is bound nowhere (a NameError). */
    | UndefinedName(identifier: string)
    /** `math.sqrt` was given a negative radicand when recomputing the cell volume. */
    | MathDomain
    /** A divisor of the fractional-to-Cartesian matrix is zero. */
    | DegenerateCell
    /** The structure has no atoms, so the normalisation divides by zero. */
    | EmptyStructure

  datatype Result<T> = Ok(value: T) | Err(error: Error)
}
