/** What processing a submission decides (internal/app/wager_submit.go), as functions of what it
    has read. `call` names the fresh ids and the correlation of the deciding call. */
module Decisions {
  import opened Prelude
  import opened Moneys
  import opened Wallets
  import opened Wagers
  import opened Tables

  /** A decision: the transaction as decided, the writes to commit, and the balance to answer
      with where it is already known. */
  datatype Decision = Decision(tx: Tx, writes: Writes, balance: Option<Money>)

  function ProcessedEvent(tx: Tx, call: Id): Event {
    Event(EventId(call, 0), call, None, TransactionProcessed(tx.id, tx.Kind(), tx.Amount()))
  }

  function RejectedEvent(tx: Tx, call: Id): Event {
    Event(EventId(call, 0), call, None, TransactionRejected(tx.id, tx.Kind(), tx.failure))
  }

  function PendingReferenceEvent(tx: Tx, call: Id): Event {
    Event(EventId(call, 0), call, None,
          TransactionPendingReference(tx.id, if tx.payload.referenceExternalId.Some?
                                             then tx.payload.referenceExternalId.value else ""))
  }

  function BalanceChangedEvent(w: WalletRow, e: LedgerEntry, call: Id): Event {
    Event(EventId(call, 1), call, Some(EventId(call, 0)),
          WalletBalanceChanged(w.id, e.transactionId, e.direction, e.amount,
                               e.balanceBefore, e.balanceAfter, w.version))
  }

  function RowWithEvent(tx: Tx, event: Event): Writes {
    NoWrites.(row := Some(tx), events := [event])
  }

  function RejectTx(tx: Tx, code: FailureCode, call: Id): Result<Decision> {
    match tx.MarkRejected(code)
    case Err(e) => Err(e)
    case Ok(rejected) => Ok(Decision(rejected, RowWithEvent(rejected, RejectedEvent(rejected, call)), None))
  }

  /** The first parking writes the row and its event; a repeated one writes nothing. */
  function ParkReference(tx: Tx, call: Id): Result<Decision> {
    match tx.MarkPendingReference()
    case Err(e) => Err(e)
    case Ok(parked) =>
      if tx.status == PendingReference then Ok(Decision(parked, NoWrites, None))
      else Ok(Decision(parked, RowWithEvent(parked, PendingReferenceEvent(parked, call)), None))
  }

  function FinishLoss(tx: Tx, w: WalletRow, call: Id): Result<Decision> {
    if tx.Amount().currency != w.balance.currency then Err(CurrencyMismatch)
    else match tx.MarkProcessed()
      case Err(e) => Err(e)
      case Ok(processed) =>
        Ok(Decision(processed, RowWithEvent(processed, ProcessedEvent(processed, call)), None))
  }

  /** What the reference read leads to. */
  datatype ReferenceOutcome =
    | Settled(decision: Decision)
    | Continue(tx: Tx, reference: Tx)
    | Stop(error: Error)

  function OnReference(tx: Tx, found: Option<Tx>, call: Id): ReferenceOutcome {
    match found
    case None =>
      (match ParkReference(tx, call)
       case Ok(d) => Settled(d)
       case Err(e) => Stop(e))
    case Some(reference) =>
      if tx.ValidateReference(reference).Err? then
        match RejectTx(tx, InvalidReferenceCode, call)
        case Ok(d) => Settled(d)
        case Err(e) => Stop(e)
      else
        match tx.ResolveReference(reference.id)
        case Ok(resolved) => Continue(resolved, reference)
        case Err(e) => Stop(e)
  }

  function MovementDirection(kind: Kind, reference: Option<Tx>): Result<Direction> {
    match kind
    case Bet => Ok(Debit)
    case Win => Ok(Credit)
    case Refund => Ok(Credit)
    case Rollback =>
      if reference.None? then Err(NoMovementDefined)
      else (match reference.value.Kind()
        case Bet => Ok(Credit)
        case Win => Ok(Debit)
        case Refund => Ok(Debit)
        case _ => Err(NoMovementDefined))
    case _ => Err(NoMovementDefined)
  }

  function RejectAt(tx: Tx, code: FailureCode, w: WalletRow, call: Id): Result<Decision> {
    match RejectTx(tx, code, call)
    case Err(e) => Err(e)
    case Ok(d) => Ok(d.(balance := Some(w.balance)))
  }

  /** The movement itself: wallet, ledger entry, row and both events, or the rejection for want
      of balance. */
  function Move(tx: Tx, direction: Direction, w: WalletRow, call: Id): Result<Decision> {
    match w.Moved(direction, tx.Amount())
    case Err(InsufficientBalance) =>
      RejectAt(tx, if tx.Kind() == Bet then InsufficientFunds else ReversalExceedsBalance, w, call)
    case Err(e) => Err(e)
    case Ok(after) =>
      var entry := LedgerEntry(call, w.id, tx.id, direction, tx.Amount(), w.balance, after.balance);
      match NewLedgerEntry(entry)
      case Err(e) => Err(e)
      case Ok(_) =>
        match tx.MarkProcessed()
        case Err(e) => Err(e)
        case Ok(processed) =>
          Ok(Decision(processed,
                      Writes(Some(processed), Some(after), Some(entry),
                             [ProcessedEvent(processed, call), BalanceChangedEvent(after, entry, call)], None),
                      Some(after.balance)))
  }

  /** The decision made under the wallet's row lock. */
  function Settle(tx: Tx, reference: Option<Tx>, w: WalletRow, reversed: bool, call: Id): Result<Decision> {
    match MovementDirection(tx.Kind(), reference)
    case Err(e) => Err(e)
    case Ok(direction) =>
      if tx.Kind().IsReversal() && reversed then RejectAt(tx, DuplicateReversal, w, call)
      else Move(tx, direction, w, call)
  }

  /** Opening a wallet: the row, and for a positive balance its opening transaction, entry and
      events, all in one commit. */
  function OpenWallet(call: Id, now: int, playerId: Id, initialBalance: Money): Result<Writes> {
    match NewWallet(call, playerId, initialBalance)
    case Err(e) => Err(e)
    case Ok(w) =>
      if initialBalance.IsZero() then Ok(NoWrites.(wallet := Some(w)))
      else
        match NewOpeningTransaction(call, now, playerId, w.id, initialBalance)
        case Err(e) => Err(e)
        case Ok(tx) =>
          var entry := LedgerEntry(call, w.id, tx.id, Credit, initialBalance, Zero(initialBalance.currency),
                                   initialBalance);
          match NewLedgerEntry(entry)
          case Err(e) => Err(e)
          case Ok(_) =>
            Ok(Writes(Some(tx), Some(w), Some(entry),
                      [ProcessedEvent(tx, call), BalanceChangedEvent(w, entry, call)], None))
  }
}
