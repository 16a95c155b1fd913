/** Failure-compatible wrappers and the exceptions the runners can raise while
    building a parameter document. Nothing in the runners catches an exception,
    so a failure always aborts the whole build. */
module Results {

  /** A form field whose schema default is None. */
  datatype Option<+T> = None | Some(value: T)

  /** The Python exceptions the builders can raise. */
  datatype Error =
    /** AttributeError: the option record has no field of this name. */
    | MissingAttribute(attribute: string)
    /** AttributeError: `.items()` called on a string or on None. */
    | NotAMapping(attribute: string)
    /** IndexError: element 0 of an empty list. */
    | IndexOutOfRange(attribute: string)
    /** ValueError: `int()` of a string that is not a base-10 integer literal. */
    | NotAnInteger(text: string)
    /** TypeError: item assignment on a JSON value that is not an object. */
    | NotAnObject

  datatype Result<+T> = Success(value: T) | Failure(error: Error) {

    predicate IsFailure() {
      Failure?
    }

    function PropagateFailure<U>(): Result<U>
      requires Failure?
    {
      Failure(error)
    }

    function Extract(): T
      requires Success?
    {
      value
    }
  }
}
