/** The optional value used throughout the model for nullable columns and for
    lookups that may find nothing, and the verdict of a field validator. */
module Wrappers {

  datatype Option<+T> = None | Some(value: T) {

    /** The wrapped value, or the given default when there is none. */
    function GetOr(default: T): T {
      match this
      case Some(v) => v
      case None => default
    }
  }

  /** A field validator's verdict: the value it hands on, or the message of
      the ValidationError it raises. */
  datatype Checked<T> = Pass(value: T) | Raised(message: string)

  /** The framework's own field messages that precede a serializer's
      validate_<field> method: a blank text, and the MinValueValidator(0) of
      an integer field built from a PositiveIntegerField. */
  const BlankMessage := "This field may not be blank."
  const BelowZeroMessage := "Ensure this value is greater than or equal to 0."
}
