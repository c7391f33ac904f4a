/** Failure-carrying wrappers shared by the whole model. */
module Wrappers {

  /** A nullable value: `None` stands for Python's None / SQL NULL. */
  datatype Option<+T> = None | Some(value: T)

  /** The outcome of a validator: the accepted value, or the error it raises. */
  datatype Result<+T, +E> = Ok(value: T) | Err(error: E)

  /** One entry of a validation report: the field that failed and the message raised for it. */
  datatype FieldError = FieldError(field: string, message: string)
}
