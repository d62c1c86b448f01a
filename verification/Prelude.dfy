/** Identifiers, outcomes and the error values shared by every module. */
module Prelude {

  /** A UUID. Freshly generated ones are named after the call that generated them. */
  type Id = nat

  datatype Option<+T> = None | Some(value: T)

  datatype Result<+T> = Ok(value: T) | Err(error: Error)

  /** The sentinel errors of the modelled packages. */
  datatype Error =
    | InvalidAmount
    | InvalidInput
    | InvalidKind
    | CurrencyMismatch
    | Overflow
    | InsufficientBalance
    | NegativeInitialBalance
    | NonPositiveAmount
    | LossAmountMustBeZero
    | MissingReference
    | UnexpectedReference
    | InvalidReference
    | ReferenceMismatch
    | InvalidTransition
    | TerminalTransaction
    | NoMovementDefined
    | NegativeBalance
    | InconsistentBalance
    | WalletNotFound
    | WalletAlreadyExists
    | TransactionNotFound
    | TransactionAlreadyExists
    | ConstraintViolation
    | TransactionAborted
    | IdempotencyConflict
    | AlreadyCompleted
    | PayloadChanged
}
