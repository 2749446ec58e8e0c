/** Result and check types for the fatal configuration faults of the `cat`
    subcommand. A fault carries the message the command reports. */
module Wrappers {

  /** The outcome of an operation that either yields a value or stops the
      command with a configuration fault. */
  datatype Result<+T> = Success(value: T) | Failure(error: string) {
    predicate IsFailure() {
      Failure?
    }

    function PropagateFailure<U>(): Result<U>
      requires Failure?
    {
      Failure(error)
    }

    function Extract(): T
      requires Success?
    {
      value
    }
  }

  /** The outcome of a check that carries no value. */
  datatype Check = Pass | Fail(error: string) {
    predicate IsFailure() {
      Fail?
    }

    function PropagateFailure<U>(): Result<U>
      requires Fail?
    {
      Failure(error)
    }
  }

  /** `Validate(cond, msg)` lets the command go on when `cond` holds and
      otherwise stops it with the fault `msg`. How the process then exits is
      not part of this model. */
  function Validate(cond: bool, msg: string): (c: Check)
    ensures c.Pass? <==> cond
    ensures c.Fail? ==> c.error == msg
  {
    if cond then Pass else Fail(msg)
  }
}
