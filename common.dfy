/** Shared wrappers: an optional value, and a result that carries either a value
    or the exception the node would raise (its class name and its message). */
module Common {

  datatype Option<+T> = None | Some(value: T)

  /** The exception classes the node raises or lets through; `Other` stands for
      any exception raised inside a collaborator, named by its class. */
  datatype ErrorKind =
    | ValueError
    | AttributeError
    | ModelNotExistError
    | ModelCredentialsNotInitializedError
    | ModelNotSupportedError
    | ModelQuotaExceededError
    | Other(className: string)
  {
    /** `type(e).__name__`, the error type the node reports. */
    function Name(): string {
      match this
      case ValueError => "ValueError"
      case AttributeError => "AttributeError"
      case ModelNotExistError => "ModelNotExistError"
      case ModelCredentialsNotInitializedError => "ModelCredentialsNotInitializedError"
      case ModelNotSupportedError => "ModelNotSupportedError"
      case ModelQuotaExceededError => "ModelQuotaExceededError"
      case Other(n) => n
    }
  }

  datatype Error = Error(kind: ErrorKind, message: string)

  datatype Result<+T> = Ok(value: T) | Err(error: Error) {
    predicate IsFailure() { Err? }

    function PropagateFailure<U>(): Result<U>
      requires Err?
    {
      Err(error)
    }

    function Extract(): T
      requires Ok?
    {
      value
    }
  }
}
