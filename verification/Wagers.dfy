/** A wager transaction and its state machine (internal/wager/transaction.go). */
module Wagers {
  import opened Prelude
  import opened Moneys

  datatype Kind = Opening | Bet | Win | Loss | Refund | Rollback {
    predicate IsReversal() {
      Refund? || Rollback?
    }
  }

  datatype Status = Pending | PendingReference | Processed | Rejected | Failed {
    predicate IsTerminal() {
      Processed? || Rejected? || Failed?
    }
  }

  datatype FailureCode =
    | InsufficientFunds
    | ReversalExceedsBalance
    | InvalidReferenceCode
    | DuplicateReversal
    | ReferenceNotFound

  /** (provider, external id): the identity of a submission. */
  datatype Key = Key(providerId: string, externalId: string)

  /** The hashed business fields; the hash itself is taken to be injective on them. */
  datatype Payload = Payload(
    playerId: Id, walletId: Id, roundId: string, gameId: string,
    kind: Kind, amount: Money, referenceExternalId: Option<string>)

  /** What a caller submits; None stands for the nil UUID. */
  datatype Input = Input(
    providerId: string, externalId: string, playerId: Option<Id>, walletId: Option<Id>,
    roundId: string, gameId: string, kind: Kind, amount: Money, referenceExternalId: Option<string>)

  /** A transaction as a value: what a row of wager_transactions holds. */
  datatype Tx = Tx(
    id: Id,
    status: Status,
    key: Key,
    payload: Payload,
    referenceId: Option<Id>,
    failure: Option<FailureCode>,
    createdAt: int)
  {
    function Kind(): Kind { payload.kind }
    function WalletId(): Id { payload.walletId }
    function Amount(): Money { payload.amount }

    /** The fields no operation ever changes agree. */
    predicate SameBusiness(other: Tx) {
      id == other.id && key == other.key && payload == other.payload && createdAt == other.createdAt
    }

    function ResolveReference(ref: Id): Result<Tx> {
      if status != Pending && status != PendingReference then Err(InvalidTransition)
      else if referenceId.Some? && referenceId.value != ref then Err(ReferenceMismatch)
      else Ok(this.(referenceId := Some(ref)))
    }

    function ValidateReference(ref: Tx): Result<()> {
      if payload.referenceExternalId.None? then Err(MissingReference)
      else if
        || !ReferenceableKind(payload.kind, ref.payload.kind)
        || ref.status != Processed
        || ref.key.providerId != key.providerId
        || ref.key.externalId != payload.referenceExternalId.value
        || ref.payload.playerId != payload.playerId
        || ref.payload.walletId != payload.walletId
        || ref.payload.roundId != payload.roundId
      then Err(InvalidReference)
      else if ref.payload.amount.Equal(payload.amount) != Ok(true) then Err(InvalidReference)
      else Ok(())
    }

    function MarkProcessed(): Result<Tx> {
      if status.IsTerminal() then Err(TerminalTransaction) else Ok(this.(status := Processed))
    }

    function MarkRejected(code: FailureCode): Result<Tx> {
      if status.IsTerminal() then Err(TerminalTransaction)
      else Ok(this.(status := Rejected, failure := Some(code)))
    }

    function MarkPendingReference(): Result<Tx> {
      if status.IsTerminal() then Err(TerminalTransaction)
      else if status != Pending && status != PendingReference then Err(InvalidTransition)
      else Ok(this.(status := PendingReference))
    }

    function MarkFailed(code: FailureCode): Result<Tx> {
      if status.IsTerminal() then Err(TerminalTransaction)
      else Ok(this.(status := Failed, failure := Some(code)))
    }
  }

  /** REFUND reverses a BET; ROLLBACK reverses a BET, a WIN or a REFUND. */
  predicate ReferenceableKind(kind: Kind, refKind: Kind) {
    match kind
    case Refund => refKind == Bet
    case Rollback => refKind == Bet || refKind == Win || refKind == Refund
    case _ => false
  }

  function NewTransaction(id: Id, now: int, input: Input): Result<Tx> {
    if input.providerId == "" || input.externalId == "" || input.playerId.None? || input.walletId.None?
       || input.roundId == "" || input.gameId == ""
    then Err(InvalidInput)
    else
      var tx := Tx(id, Pending, Key(input.providerId, input.externalId),
                   Payload(input.playerId.value, input.walletId.value, input.roundId, input.gameId,
                           input.kind, input.amount, input.referenceExternalId),
                   None, None, now);
      match input.kind
      case Bet =>
        if !input.amount.IsPositive() then Err(NonPositiveAmount)
        else if input.referenceExternalId.Some? then Err(UnexpectedReference)
        else Ok(tx)
      case Win => if !input.amount.IsPositive() then Err(NonPositiveAmount) else Ok(tx)
      case Loss => if !input.amount.IsZero() then Err(LossAmountMustBeZero) else Ok(tx)
      case Refund => NewReversal(tx)
      case Rollback => NewReversal(tx)
      case Opening => Err(InvalidKind)
  }

  function NewReversal(tx: Tx): Result<Tx> {
    if !tx.Amount().IsPositive() then Err(NonPositiveAmount)
    else if tx.payload.referenceExternalId.None? then Err(MissingReference)
    else Ok(tx)
  }

  /** The opening transaction of a wallet is born PROCESSED and has no provider fields. */
  function NewOpeningTransaction(id: Id, now: int, playerId: Id, walletId: Id, amount: Money): Result<Tx> {
    if !amount.IsPositive() then Err(NonPositiveAmount)
    else Ok(Tx(id, Processed, Key("", ""), Payload(playerId, walletId, "", "", Opening, amount, None), None, None, now))
  }

  /** What each kind demands of a submission. */
  predicate KindAllows(input: Input) {
    match input.kind
    case Bet => input.amount.amount > 0 && input.referenceExternalId.None?
    case Win => input.amount.amount > 0
    case Loss => input.amount.amount == 0
    case Refund => input.amount.amount > 0 && input.referenceExternalId.Some?
    case Rollback => input.amount.amount > 0 && input.referenceExternalId.Some?
    case Opening => false
  }

  /** The transaction is of this submission: every business field is the one submitted. */
  predicate Carries(t: Tx, input: Input) {
    && t.key.providerId == input.providerId && t.key.externalId == input.externalId
    && Some(t.payload.playerId) == input.playerId && Some(t.payload.walletId) == input.walletId
    && t.payload.roundId == input.roundId && t.payload.gameId == input.gameId
    && t.payload.kind == input.kind && t.payload.amount == input.amount
    && t.payload.referenceExternalId == input.referenceExternalId
  }

  /** Why a submission is refused: a missing field first, then its kind, its amount, its reference. */
  function RefusalOf(input: Input): Error {
    if "" in [input.providerId, input.externalId, input.roundId, input.gameId]
       || input.playerId.None? || input.walletId.None? then InvalidInput
    else if input.kind == Opening then InvalidKind
    else if input.kind == Loss then LossAmountMustBeZero
    else if input.amount.amount <= 0 then NonPositiveAmount
    else if input.kind == Bet then UnexpectedReference
    else MissingReference
  }

  /** A submission is accepted exactly when its fields are there and its kind allows it, and then it
      is PENDING with every field as submitted, unresolved and without failure; otherwise it is told why. */
  lemma SubmissionsAcceptedExactly(id: Id, now: int, input: Input)
    ensures var r := NewTransaction(id, now, input);
            && (r.Ok? <==> "" !in [input.providerId, input.externalId, input.roundId, input.gameId]
                           && input.playerId.Some? && input.walletId.Some? && KindAllows(input))
            && (r.Ok? ==> Carries(r.value, input) && r.value.id == id && r.value.status == Pending
                          && r.value.createdAt == now && r.value.referenceId.None? && r.value.failure.None?)
            && (r.Err? ==> r.error == RefusalOf(input))
  {
    var fields := [input.providerId, input.externalId, input.roundId, input.gameId];
    assert fields[0] in fields && fields[1] in fields && fields[2] in fields && fields[3] in fields;
  }

  /** A validated reference is PROCESSED, of the same provider, player, wallet, round and money, and
      a kind its reversal may point at; and every such transaction under the right key validates. */
  lemma ReferencesValidExactly(tx: Tx, ref: Tx)
    ensures tx.ValidateReference(ref) == Ok(()) <==>
              && tx.payload.referenceExternalId == Some(ref.key.externalId) && ref.key.providerId == tx.key.providerId
              && ref.status == Processed
              && (ref.Kind() == Bet || (tx.Kind() == Rollback && (ref.Kind() == Win || ref.Kind() == Refund)))
              && tx.Kind().IsReversal()
              && ref.payload.playerId == tx.payload.playerId && ref.payload.walletId == tx.payload.walletId
              && ref.payload.roundId == tx.payload.roundId && ref.payload.amount == tx.payload.amount
  {
    if ref.payload.amount.currency == tx.payload.amount.currency {
      assert ref.payload.amount.Equal(tx.payload.amount) == Ok(ref.payload.amount.amount == tx.payload.amount.amount);
    }
  }

  // ----- the state machine over whole histories -----

  datatype Operation =
    | Resolve(ref: Id)
    | Process
    | Reject(code: FailureCode)
    | Park
    | Fail(code: FailureCode)

  function Attempt(tx: Tx, op: Operation): Result<Tx> {
    match op
    case Resolve(ref) => tx.ResolveReference(ref)
    case Process => tx.MarkProcessed()
    case Reject(code) => tx.MarkRejected(code)
    case Park => tx.MarkPendingReference()
    case Fail(code) => tx.MarkFailed(code)
  }

  /** An operation is accepted exactly when the transaction is not terminal and, for a reference, no other
      has been resolved; it then changes what it names and nothing else. */
  lemma TransitionsExactly(tx: Tx, op: Operation)
    ensures var r := Attempt(tx, op);
            && (r.Ok? <==> !tx.status.IsTerminal()
                           && (op.Resolve? && tx.referenceId.Some? ==> tx.referenceId.value == op.ref))
            && (r.Ok? ==>
                  r.value == Tx(tx.id,
                                match op
                                case Resolve(_) => tx.status
                                case Process => Processed
                                case Reject(_) => Rejected
                                case Park => PendingReference
                                case Fail(_) => Failed,
                                tx.key, tx.payload, if op.Resolve? then Some(op.ref) else tx.referenceId,
                                if op.Reject? || op.Fail? then Some(op.code) else tx.failure, tx.createdAt))
            && (r.Err? ==>
                  r.error == if !op.Resolve? then TerminalTransaction
                  else if tx.status.IsTerminal() then InvalidTransition else ReferenceMismatch)
  {
  }

  /** A refused operation leaves the transaction as it was. */
  function After(tx: Tx, ops: seq<Operation>): Tx
    decreases |ops|
  {
    if ops == [] then tx
    else
      var next := Attempt(tx, ops[0]);
      After(if next.Ok? then next.value else tx, ops[1..])
  }

  /** Over every history of operations: business fields never change, a terminal transaction
      never changes at all, a resolved reference is never replaced, and a failure code is present
      exactly when the transaction is REJECTED or FAILED. */
  lemma {:induction false} HistoriesAreSafe(tx: Tx, ops: seq<Operation>)
    requires tx.failure.Some? <==> (tx.status == Rejected || tx.status == Failed)
    ensures var last := After(tx, ops);
            && last.SameBusiness(tx)
            && (tx.status.IsTerminal() ==> last == tx)
            && (tx.referenceId.Some? ==> last.referenceId == tx.referenceId)
            && (last.failure.Some? <==> (last.status == Rejected || last.status == Failed))
    decreases |ops|
  {
    if ops != [] {
      var next := Attempt(tx, ops[0]);
      HistoriesAreSafe(if next.Ok? then next.value else tx, ops[1..]);
    }
  }

  /** PENDING is never re-entered: whatever was accepted leaves PENDING for good, unless it only
      resolved the reference. */
  lemma {:induction false} PendingIsNotReentered(tx: Tx, ops: seq<Operation>)
    requires tx.status != Pending
    ensures After(tx, ops).status != Pending
    decreases |ops|
  {
    if ops != [] {
      var next := Attempt(tx, ops[0]);
      PendingIsNotReentered(if next.Ok? then next.value else tx, ops[1..]);
    }
  }

  /** The transaction object, changed in place by ResolveReference and the Mark methods. */
  class Transaction {
    const id: Id
    const key: Key
    const payload: Payload
    const createdAt: int
    var status: Status
    var referenceId: Option<Id>
    var failure: Option<FailureCode>

    function Value(): Tx
      reads this
    {
      Tx(id, status, key, payload, referenceId, failure, createdAt)
    }

    constructor FromPersistence(tx: Tx)
      ensures Value() == tx
    {
      id, key, payload, createdAt := tx.id, tx.key, tx.payload, tx.createdAt;
      status, referenceId, failure := tx.status, tx.referenceId, tx.failure;
    }

    /** A method that follows a transition function changes the object as the function says, or
        returns its error and changes nothing. */
    ghost predicate Follows(before: Tx, next: Result<Tx>, r: Result<()>)
      reads this
    {
      match next
      case Ok(tx) => r == Ok(()) && Value() == tx
      case Err(e) => r == Err(e) && Value() == before
    }

    method ResolveReference(ref: Id) returns (r: Result<()>)
      modifies this
      ensures Follows(old(Value()), old(Value()).ResolveReference(ref), r)
    {
      if status != Pending && status != PendingReference {
        return Err(InvalidTransition);
      }
      if referenceId.Some? && referenceId.value != ref {
        return Err(ReferenceMismatch);
      }
      referenceId := Some(ref);
      return Ok(());
    }

    method MarkProcessed() returns (r: Result<()>)
      modifies this
      ensures Follows(old(Value()), old(Value()).MarkProcessed(), r)
    {
      if status.IsTerminal() {
        return Err(TerminalTransaction);
      }
      status := Processed;
      return Ok(());
    }

    method MarkRejected(code: FailureCode) returns (r: Result<()>)
      modifies this
      ensures Follows(old(Value()), old(Value()).MarkRejected(code), r)
    {
      if status.IsTerminal() {
        return Err(TerminalTransaction);
      }
      status := Rejected;
      failure := Some(code);
      return Ok(());
    }

    method MarkPendingReference() returns (r: Result<()>)
      modifies this
      ensures Follows(old(Value()), old(Value()).MarkPendingReference(), r)
    {
      if status.IsTerminal() {
        return Err(TerminalTransaction);
      }
      if status != Pending && status != PendingReference {
        return Err(InvalidTransition);
      }
      status := PendingReference;
      return Ok(());
    }

    method MarkFailed(code: FailureCode) returns (r: Result<()>)
      modifies this
      ensures Follows(old(Value()), old(Value()).MarkFailed(code), r)
    {
      if status.IsTerminal() {
        return Err(TerminalTransaction);
      }
      status := Failed;
      failure := Some(code);
      return Ok(());
    }
  }
}
