/**
 * Outcomes of operations that may raise a Python exception.
 * A raised exception is `Fail(Error(kind, msg))`; `kind` names the
 * exception class the code raises.
 */
module Wrappers {

  datatype Option<+T> = None | Some(value: T)

  datatype ErrorKind =
    | TypeError
    | ValueError
    | KeyError
    | IndexError
    | AttributeError
    | SystemError
    | NameError
    | ImportError
    | OverflowError
    | JsonDecodeError   // a body that is not JSON (requests' .json(), ijson)
    | CsvError          // csv.writer given a row it cannot iterate
    | NoReply           // the scripted server has no answer left

  datatype Error = Error(kind: ErrorKind, msg: string)

  datatype Result<+T> = Ok(value: T) | Fail(error: Error)
  {
    predicate IsFailure() { Fail? }

    function PropagateFailure<U>(): Result<U>
      requires Fail?
    {
      Fail(error)
    }

    function Extract(): T
      requires Ok?
    {
      value
    }
  }

  function Raise<T>(kind: ErrorKind, msg: string): (r: Result<T>)
    ensures r.Fail? && r.error.kind == kind
  {
    Fail(Error(kind, msg))
  }
}
