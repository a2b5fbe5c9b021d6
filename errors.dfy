/** The error kinds the program surfaces, and the failure-compatible
    `Result` that stands for Rust's `Result<T, ProgramError>`. */
module Errors {

  datatype ProgramError =
    | InvalidArgument
    | InvalidInstructionData
    | InvalidSeeds
    | MissingRequiredSignature
    | AccountAlreadyInitialized
    | UninitializedAccount
    | AccountNotRentExempt
    | NotEnoughAccountKeys
      /** any Borsh (de)serialisation failure (`ProgramError::BorshIoError`) */
    | BorshIoError
      /** seed derivation failure reported by the address library */
    | MaxSeedLengthExceeded
      /** system program: the target address already holds lamports or data */
    | AccountAlreadyInUse
      /** system program: the payer cannot fund the new account */
    | ResultWithNegativeLamports
      /** the program aborted (a Rust panic); the host treats it as a failure */
    | Panicked

  datatype Result<+T> = Ok(value: T) | Err(error: ProgramError) {
    predicate IsFailure() { Err? }
    /** Only ever called on a failure; total so that a branch the program
        never takes carries no proof obligation. */
    function PropagateFailure<U>(): Result<U> {
      match this
      case Err(e) => Err(e)
      case Ok(_) => Err(Panicked)
    }
    function Extract(): T
      requires Ok?
    {
      value
    }
  }

  /** `ProgramResult` of Rust: success carries nothing. */
  type ProgramResult = Result<()>

  function Require(condition: bool, error: ProgramError): (r: ProgramResult)
    ensures r.Ok? <==> condition
    ensures r.Err? ==> r.error == error
  {
    if condition then Ok(()) else Err(error)
  }
}
