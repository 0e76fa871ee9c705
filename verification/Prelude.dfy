/** Option, Result and the program errors every other module speaks in. */
module Prelude {
  datatype Option<+T> = None | Some(value: T)

  /** The error classes the two programs return, plus the refusals of the programs they call. */
  datatype Error =
    | InvalidInstructionData
    | NotEnoughAccountKeys
    | MissingRequiredSignature
    | InvalidArgument
    | InvalidSeeds
    | IllegalOwner
    | InvalidAccountData
    | IncorrectProgramId
    | InsufficientFunds
    | ArithmeticOverflow
    | AccountInUse   // the system program refuses to create an account that exists
    | TokenRefused   // the token program refuses the transfer, close, approve or revoke

  datatype Result<+T> = Ok(value: T) | Err(error: Error) {
    predicate IsFailure() { Err? }
    function PropagateFailure<U>(): Result<U> requires Err? { Err(error) }
    function Extract(): T requires Ok? { value }
  }

  datatype Outcome = Pass | Fail(error: Error) {
    predicate IsFailure() { Fail? }
    function PropagateFailure(): Outcome requires Fail? { this }
  }

  function Need(condition: bool, error: Error): Gate {
    if condition then Open else Shut(error)
  }

  /** `Need` in an expression: go on when the condition holds, otherwise refuse with the error. */
  datatype Gate = Open | Shut(error: Error) {
    predicate IsFailure() { Shut? }
    function PropagateFailure<U>(): Result<U> requires Shut? { Err(error) }
  }

  lemma Reassociate<T>(a: seq<T>, b: seq<T>, c: seq<T>)
    ensures a + b + c == a + (b + c)
  {
  }
}
