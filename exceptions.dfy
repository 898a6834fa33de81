/**
 * The integration's exception hierarchy, plus the built-in Python exceptions
 * the core raises itself or lets escape from dictionary access.
 */
module Exceptions {
  import opened Json

  /** The class of a raised exception. */
  datatype Kind =
    // AparaviError and its five subclasses
    | AparaviError
    | AuthenticationError
    | ValidationError
    | TaskNotFoundError
    | PipelineError
    | TaskTimeoutError
    // built-in exceptions
    | ValueError
    | FileNotFoundError
    | KeyError
    | TypeError
    | AttributeError
  {
    /** `isinstance(e, AparaviError)`: the base class and every subclass of it. */
    predicate IsAparaviError()
    {
      AparaviError? || AuthenticationError? || ValidationError?
      || TaskNotFoundError? || PipelineError? || TaskTimeoutError?
    }
  }

  /** A raised exception; `str(e)` is its message. */
  datatype Exception = Exception(kind: Kind, message: string)

  /** A call either returns a value or raises. */
  datatype Result<+T> = Ok(value: T) | Err(exc: Exception)

  /**
   * The TypeError `x[key]` raises for a string `key` when `x` is not a
   * dictionary, worded as Python 3.8 to 3.10 word it.
   */
  function KeySubscriptError(x: Json): Exception
    requires !x.JObj?
  {
    match x
    case JArr(_) => Exception(TypeError, "list indices must be integers or slices, not str")
    case JStr(_) => Exception(TypeError, "string indices must be integers")
    case _ => Exception(TypeError, "'" + TypeName(x) + "' object is not subscriptable")
  }

  /** The AttributeError for looking up a method `name` that `x` does not have. */
  function MissingAttribute(x: Json, name: string): Exception
  {
    Exception(AttributeError, "'" + TypeName(x) + "' object has no attribute '" + name + "'")
  }
}
