/**
 * Nullable values and Java exceptions.
 *
 * The Java side of the component works with references that may be null and
 * with operations that throw. `Option` stands for a nullable reference
 * (`None` is `null`) and `Result` for a computation that either returns a
 * value or throws one of the exceptions the modelled code can raise.
 */
module Wrappers {

  /** A nullable reference: `None` is Java's `null`. */
  datatype Option<+T> = None | Some(value: T) {

    predicate IsFailure() {
      None?
    }

    function PropagateFailure<U>(): Option<U>
      requires None?
    {
      None
    }

    function Extract(): T
      requires Some?
    {
      value
    }

    /** The value, or `default` when this is null (the `x != null ? x : d` idiom). */
    function GetOr(default: T): T {
      match this
      case Some(v) => v
      case None => default
    }
  }

  /** The exceptions the modelled Java code can throw. */
  datatype Error =
    | NullPointer        // a method called on a null reference
    | IndexOutOfBounds   // List.get with a negative index
    | NumberFormat       // Double.parseDouble on text that is not a number

  /** Either a returned value or a thrown exception. */
  datatype Result<+T> = Ok(value: T) | Err(error: Error) {

    predicate IsFailure() {
      Err?
    }

    function PropagateFailure<U>(): Result<U>
      requires Err?
    {
      Err(error)
    }

    function Extract(): T
      requires Ok?
    {
      value
    }
  }
}
