/** Option and Result types shared by every module of the model. */
module Wrappers {

  datatype Option<T> = None | Some(value: T)
  {
    predicate IsSome() { Some? }

    function GetOr(default: T): (r: T)
      ensures Some? ==> r == value
      ensures None? ==> r == default
    {
      match this
      case Some(v) => v
      case None => default
    }
  }

  /** The exceptions the translator raises, grouped by what raises them. */
  datatype Error =
    /** `CrystalError` raised by the translator or the formatter. */
    | ConvertError(msg: string)
    /** A plain `Exception` raised with a message. */
    | Raised(msg: string)
    /** `NotImplementedError` raised by the translator. */
    | NotImplemented(msg: string)
    /** A Python runtime error the translator's own code runs into
        (`IndexError`, `KeyError`, `AttributeError`, `NameError`, ...). */
    | RuntimeFault(kind: string)

  datatype Result<T> = Ok(value: T) | Err(error: Error)
  {
    predicate IsFailure() { Err? }

    function PropagateFailure<U>(): Result<U>
      requires Err?
    {
      Err(error)
    }

    function Extract(): T
      requires Ok?
    {
      value
    }
  }
}
