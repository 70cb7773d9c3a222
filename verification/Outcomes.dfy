/** Result types shared by every component.

    The proxy reports failures as numbered errors; `Panic` stands for a run-time
    abort of the request (an overflowing `U256` operator, an index out of range),
    which leaves the stored state untouched just as an error return does.
 */
module Outcomes {

  datatype Option<+T> = None | Some(value: T) {
    function GetOr(default: T): T {
      if Some? then value else default
    }
  }

  datatype Error =
    | Panic
    | Serialize(code: nat)
    | Overflow(code: nat)
    | Expired(code: nat)
    | InvalidSignature(code: nat)
    | InvalidProjectPrice(code: nat)
    | InvalidRequest(code: nat)
    | PaygConflict(code: nat)
    | Upstream
    | TransactionFailed

  datatype Result<+T> = Ok(value: T) | Err(error: Error) {
    predicate IsFailure() {
      Err?
    }

    function PropagateFailure<U>(): Result<U>
      requires Err?
    {
      Err(error)
    }

    function Extract(): T
      requires Ok?
    {
      value
    }
  }
}
