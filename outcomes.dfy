/** Success/failure outcomes shared by every converter. Every Go `panic`
    and every returned `error` of the modelled code becomes a `Failure`. */
module Outcomes {

  /** Why a conversion stopped. */
  datatype Error =
    | InvalidElem                      // legacy: Elem of an unexpected kind
    | InvalidSchemaType                // legacy: ValueType outside the supported set
    | InvalidBlockType                 // legacy: block whose Type is not list/set/map
    | NameCollision                    // implied type: block name already an attribute
    | DynamicInSet                     // implied type: set-nested block with a dynamic type
    | InvalidNesting                   // implied type: nesting mode outside single..map
    | MissingType                      // implied type: attribute without a type
    | MissingRequiredOptionalComputed  // framework: none of the three flags set
    | UnrecognizedNestingMode          // framework: nesting code outside the known ones
    | UnhandledDefaultType             // framework: resource attribute kind without default extraction
    | TypeExtractionFailed             // framework: the attribute's type could not be obtained
    | UnexpectedUnknown                // lowering: an unknown value
    | UnhandledValueType               // lowering: a value kind with no host form

  datatype Result<T> = Success(value: T) | Failure(error: Error)

  /** `r` and `s` agree on whether they succeed and, when they do, on the
      value. Used where the source walks a Go map (whose iteration order is
      not fixed), so that which of several failing entries gets reported is
      not determined. */
  predicate SameOutcome<T(==)>(r: Result<T>, s: Result<T>)
  {
    r.Success? == s.Success? && (r.Success? ==> r.value == s.value)
  }

  datatype Option<T> = None | Some(value: T)
}
