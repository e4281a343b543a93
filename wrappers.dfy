// Generic result shapes shared by every module of the model.

module Wrappers {

  datatype Option<T> = None | Some(value: T)

  datatype Result<T, E> = Ok(value: T) | Err(error: E)
  {
    predicate IsFailure() {
      Err?
    }

    function PropagateFailure<U>(): Result<U, E>
      requires Err?
    {
      Err(error)
    }

    function Extract(): T
      requires Ok?
    {
      value
    }
  }

  /** Why a run of the compiler or of the compiled program stops early. */
  datatype Fault =
    | Panic(message: string)      // a Rust `panic!`, `unwrap` or `expect` failing
    | Exit(code: int)             // `std::process::exit`
    | Todo(feature: string)       // a `todo!()` reached while generating code
    | UseAfterFree(handle: nat)   // a string handle that is not a live allocation was used
    | OutOfFuel                   // the model's bound on loop iterations ran out

  /** A method's result and new state `after` are those a specification function computes. */
  predicate Agrees<S(==), T(==)>(r: Result<T, Fault>, after: S, spec: Result<(S, T), Fault>)
  {
    match spec
    case Ok(step) => r == Ok(step.1) && after == step.0
    case Err(f) => r == Err(f)
  }

  /** The same for a method that only changes state: it fails exactly as `spec` does. */
  predicate Settles<S(==)>(r: Result<(), Fault>, after: S, spec: Result<S, Fault>)
  {
    match spec
    case Ok(s) => r == Ok(()) && after == s
    case Err(f) => r == Err(f)
  }
}
