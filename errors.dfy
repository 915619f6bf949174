/** The error values a transaction can fail with. */
module Errors {

  datatype Error =
    // `EscrowError` (errors.rs)
    | InvalidAmount
    | InvalidState
    | UnauthorizedDepositor
    | UnauthorizedArbiter
    | UnauthorizedParty
    | AutoReleaseNotReady
    | AutoReleaseDisabled
    | DisputeReasonTooLong
    | InsufficientVaultBalance    // declared, never raised
    // raised by the account layer before a handler runs
    | AccountNotInitialized       // a named account does not hold the expected kind of data
    | AccountAlreadyInUse         // `init` on an address that already holds an account
    | ConstraintSeeds             // a supplied address is not the one its seeds derive
    | AccountMismatch             // an untagged `constraint = ...` failed
    // raised by the token program's `transfer`
    | InsufficientFunds
    | MintMismatch                // source and destination hold different mints
    | OwnerMismatch               // the authority is not the source account's owner
    | Overflow

  /** What a transaction reports: it commits, or it aborts with an error. */
  datatype Outcome = Ok | Err(error: Error)

  /** A value, or the error that prevented computing it. */
  datatype Result<+T> = Success(value: T) | Failure(error: Error)
}
