/** Values shared by every part of the model: optional values, results that
    carry an error, and the kinds of exception the Python code raises. */
module Common {

  datatype Option<+T> = None | Some(value: T)

  /** A failure-compatible result, so that `:-` propagates the first error. */
  datatype Result<+T> = Success(value: T) | Failure(error: Error) {
    predicate IsFailure() {
      Failure?
    }

    function PropagateFailure<U>(): Result<U>
      requires Failure?
    {
      Failure(error)
    }

    function Extract(): T
      requires Success?
    {
      value
    }
  }

  /** The exceptions the modelled code can raise. */
  datatype Error =
    | KeyMissing(key: string)             // KeyError on a dictionary lookup
    | WrongType(key: string)              // TypeError: the value under `key` is not of the kind the code uses
    | ValidationFailed                    // pydantic rejected a field value
    | UnknownLabel(text: string)          // ValueError from ProjectState(label)
    | Declined(message: string)           // the completion service refused (the raised refusal text)
    | ServiceFailed                       // the completion call itself raised
    | AttributeMissing(attribute: string) // AttributeError (an attribute read on None or on a list)
    | IndexOutOfRange                     // IndexError on files[0]
    | NotUtf8                             // UnicodeDecodeError: an upload whose bytes are not UTF-8

  /** Python truthiness of an optional string: present and non-empty. */
  predicate Truthy(s: Option<string>) {
    s.Some? && s.value != ""
  }
}
