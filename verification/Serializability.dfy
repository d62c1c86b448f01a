/** What processing comes to when it runs alone on a database, and why what commits under the
    wallet's lock comes to exactly that at the moment of its commit, whatever ran between its reads
    and its write. */
module Serializability {
  import opened Prelude
  import opened Moneys
  import opened Wallets
  import opened Wagers
  import opened Tables
  import opened Decisions
  import opened Protocol
  import opened Integrity
  import opened Calls
  import opened CoreSteps
  import opened CoreCommits
  import opened CoreTheorem
  import opened Settlements
  import opened Readings
  import opened SettledTheorem
  import opened Histories

  /** Lock, read, decide, in one go. */
  function SettleAlone(db: Db, tx: Tx, reference: Option<Tx>, call: Id): Result<Decision> {
    if MovementDirection(tx.Kind(), reference).Err? then Err(NoMovementDefined)
    else if tx.WalletId() !in db.wallets then Err(WalletNotFound)
    else
      var reversed := tx.Kind().IsReversal() && reference.Some? && db.HasReversal(reference.value.id);
      Settle(tx, reference, db.wallets[tx.WalletId()], reversed, call)
  }

  /** All of process on one database: the reference, the wallet, the reversals, the decision. */
  function ProcessAlone(db: Db, tx: Tx, call: Id): Result<Decision> {
    if tx.Kind().IsReversal() then
      if tx.payload.referenceExternalId.None? then Err(MissingReference)
      else match OnReference(tx, db.FindByKey(Key(tx.key.providerId, tx.payload.referenceExternalId.value)), call)
        case Settled(d) => Ok(d)
        case Stop(e) => Err(e)
        case Continue(resolved, reference) => SettleAlone(db, resolved, Some(reference), call)
    else if tx.Kind() == Loss then
      if tx.WalletId() !in db.wallets then Err(WalletNotFound)
      else FinishLoss(tx, db.wallets[tx.WalletId()], call)
    else SettleAlone(db, tx, None, call)
  }

  // ----- what it decides, case by case -----

  /** Rejected for this reason: the row and its one event, and nothing of the wallet. */
  predicate RejectedFor(d: Decision, tx: Tx, code: FailureCode, call: Id) {
    && d.tx == tx.(status := Rejected, failure := Some(code))
    && d.writes == Writes(Some(d.tx), None, None,
                          [Event(EventId(call, 0), call, None, TransactionRejected(tx.id, tx.Kind(), Some(code)))],
                          None)
  }

  /** Booked: the balance moves by exactly the signed amount, the version by one, and the entry, the
      row and both events say so. */
  predicate BookedAs(d: Decision, tx: Tx, w: WalletRow, movement: int, call: Id) {
    && d.tx == tx.(status := Processed)
    && d.writes.row == Some(d.tx)
    && d.writes.wallet.Some? && d.writes.entry.Some?
    && var after, e := d.writes.wallet.value, d.writes.entry.value;
       && after == w.(version := w.version + 1, balance := after.balance)
       && after.balance.amount == w.balance.amount + movement && after.balance.currency == w.balance.currency
       && e.Consistent() && e.walletId == w.id && e.transactionId == tx.id && e.amount == tx.Amount()
       && e.balanceBefore == w.balance && e.balanceAfter == after.balance && e.Movement() == movement
       && d.writes.events ==
          [Event(EventId(call, 0), call, None, TransactionProcessed(tx.id, tx.Kind(), tx.Amount())),
           Event(EventId(call, 1), call, Some(EventId(call, 0)),
                 WalletBalanceChanged(w.id, tx.id, e.direction, tx.Amount(), w.balance, after.balance, after.version))]
       && d.balance == Some(after.balance)
  }

  /** What settling decides: a reversal of something already reversed is a duplicate; then currencies
      must agree; a debit needs the funds, and a bet that lacks them is told so differently from a
      reversal; a credit must fit; and everything else is booked, a bet or the undoing of a credit
      as a debit, the rest as a credit. */
  lemma SettlesExactly(tx: Tx, reference: Option<Tx>, w: WalletRow, reversed: bool, call: Id)
    requires w.Valid() && tx.Amount().IsPositive() && (tx.status == Pending || tx.status == PendingReference)
    requires MovementDirection(tx.Kind(), reference).Ok?
    ensures var debit := tx.Kind() == Bet || (tx.Kind() == Rollback && reference.value.Kind() != Bet);
            var amount: int := tx.Amount().amount;
            var r := Settle(tx, reference, w, reversed, call);
            if tx.Kind().IsReversal() && reversed then r.Ok? && RejectedFor(r.value, tx, DuplicateReversal, call)
            else if tx.Amount().currency != w.balance.currency then r == Err(CurrencyMismatch)
            else if debit && w.balance.amount < amount then
              r.Ok? && RejectedFor(r.value, tx,
                                   if tx.Kind() == Bet then InsufficientFunds else ReversalExceedsBalance, call)
            else if !debit && w.balance.amount + amount > MAX_INT64 then r == Err(Overflow)
            else r.Ok? && BookedAs(r.value, tx, w, if debit then -amount else amount, call)
  {
    hide NewLedgerEntry;
    var direction := MovementDirection(tx.Kind(), reference).value;
    DebitIsExact(w, tx.Amount());
    CreditIsExact(w, tx.Amount());
    if w.Moved(direction, tx.Amount()).Ok? {
      MovementIsAlwaysRecordable(w, direction, tx.Amount(), call, tx.id);
    }
  }

  /** What the reference read leads to: none there parks the transaction and announces that, the first time
      only; one that does not validate rejects it; a valid one is resolved and gone on with. */
  lemma ReferencesLeadExactly(tx: Tx, found: Option<Tx>, call: Id)
    requires tx.status == Pending || tx.status == PendingReference
    ensures var o := OnReference(tx, found, call);
            if found.None? then
              && o.Settled? && o.decision.tx == tx.(status := PendingReference) && o.decision.balance.None?
              && o.decision.writes ==
                 if tx.status == PendingReference then NoWrites
                 else Writes(Some(o.decision.tx), None, None,
                             [Event(EventId(call, 0), call, None,
                                    TransactionPendingReference(tx.id, match tx.payload.referenceExternalId
                                                                       case Some(externalId) => externalId
                                                                       case None => ""))],
                             None)
            else if tx.ValidateReference(found.value) != Ok(()) then
              o.Settled? && RejectedFor(o.decision, tx, InvalidReferenceCode, call)
            else if tx.referenceId.Some? && tx.referenceId.value != found.value.id then o == Stop(ReferenceMismatch)
            else o == Continue(tx.(referenceId := Some(found.value.id)), found.value)
  {
  }

  /** A loss in its wallet's currency is processed, announced, and moves nothing. */
  lemma LossesFinishExactly(tx: Tx, w: WalletRow, call: Id)
    requires tx.status == Pending || tx.status == PendingReference
    ensures FinishLoss(tx, w, call) ==
            if tx.Amount().currency != w.balance.currency then Err(CurrencyMismatch)
            else Ok(Decision(tx.(status := Processed),
                             Writes(Some(tx.(status := Processed)), None, None,
                                    [Event(EventId(call, 0), call, None,
                                           TransactionProcessed(tx.id, tx.Kind(), tx.Amount()))], None),
                             None))
  {
  }

  /** The transaction as the call began with it. */
  function Submitted(k: Client): Tx {
    k.tx.(referenceId := None)
  }

  lemma ReferenceIsFoundAgain(s: State, k: Client, call: Id)
    requires IndexOk(s.db) && Aimed(s, k) && k.tx.Kind().IsReversal()
    requires k.tx.status == Pending || k.tx.status == PendingReference
    ensures k.tx.payload.referenceExternalId.Some? && k.reference.Some?
    ensures OnReference(Submitted(k), s.db.FindByKey(Key(k.tx.key.providerId, k.tx.payload.referenceExternalId.value)),
                        call)
            == Continue(k.tx, k.reference.value)
  {
    hide ParkReference, RejectTx;
    ValidityIgnoresReferenceId(k.tx, k.reference.value, None);
  }

  /** What FindReversal said is what it would say now. */
  predicate ReversalStands(s: State, k: Client) {
    k.tx.Kind().IsReversal() ==> k.reference.Some? && k.reversed == s.db.HasReversal(k.reference.value.id)
  }

  lemma UnderTheLock(s: State, call: Id, k: Client)
    requires HasDecision(s, call, k) && k.via == Locked && ReversalStands(s, k)
    ensures SettleAlone(s.db, k.tx, k.reference, call) == Ok(k.decision.value)
    ensures MovementDirection(k.tx.Kind(), k.reference).Ok?
  {
    hide WellFormed, Move;
  }

  /** A bet or a win, settled under the lock. */
  lemma LockedIsSerial(s: State, call: Id, k: Client)
    requires HasDecision(s, call, k) && k.via == Locked && !k.tx.Kind().IsReversal()
    ensures ProcessAlone(s.db, Submitted(k), call) == Ok(k.decision.value)
  {
    hide WellFormed, OnReference, Move;
    UnderTheLock(s, call, k);
  }

  lemma ReversalIsSerial(s: State, call: Id, k: Client)
    requires IndexOk(s.db) && HasDecision(s, call, k) && k.via == Locked && k.tx.Kind().IsReversal()
    requires Aimed(s, k) && ReversalCurrent(s, k)
    ensures ProcessAlone(s.db, Submitted(k), call) == Ok(k.decision.value)
  {
    hide Aimed, WellFormed, OnReference, SettleAlone, IndexOk;
    ReferenceIsFoundAgain(s, k, call);
    UnderTheLock(s, call, k);
  }

  lemma LossIsSerial(s: State, call: Id, k: Client)
    requires HasDecision(s, call, k) && k.via == NoMovement
    ensures ProcessAlone(s.db, Submitted(k), call) == Ok(k.decision.value)
  {
    hide WellFormed, OnReference;
  }

  lemma DecisionAtCommit(s: State, call: Id, k: Client)
    requires At(s, call, k, Commit) && k.decision.Some?
    ensures HasDecision(s, call, k)
  {
    hide Decided, Uncommitted, HoldsWallet;
  }

  // ----- main results -----

  /** A commit applies exactly the writes decided. */
  lemma {:induction false} CommitAppliesDecision(schedule: seq<Label>, call: Id)
    requires AtDecidedCommit(Run(schedule), call)
    ensures var k := Run(schedule).clients[call];
            Run(schedule + [AdvanceCall(call)]).db ==
              Apply(Run(schedule).db, k.decision.value.writes.(inbox := k.inbox))
  {
    hide Next, Run, Apply, Core, WritesOk, Footprint, At;
    ReachableIsCore(schedule);
    RunStep(schedule, AdvanceCall(call));
    CommitStep(Run(schedule), AdvanceCall(call));
  }

  predicate AtDecidedCommit(s: State, call: Id) {
    call in s.clients && s.clients[call].pc == Commit && s.clients[call].decision.Some?
  }

  /** Lock, read, decide and write refine one atomic step, in every run and with any resolvers: at its
      commit, whatever was decided under the wallet's lock, but that a reference is reversed already,
      is what deciding now decides; and for a bet, a win or a loss that is all of process. */
  lemma {:induction false} SettlementsAreAtomic(schedule: seq<Label>, call: Id)
    requires AtDecidedCommit(Run(schedule), call)
    ensures var s := Run(schedule);
            var k := s.clients[call];
            && (k.via == Locked && (k.tx.Kind().IsReversal() ==> !k.reversed) ==>
                  SettleAlone(s.db, k.tx, k.reference, call) == Ok(k.decision.value))
            && ((k.via == Locked && !k.tx.Kind().IsReversal()) || k.via == NoMovement ==>
                  ProcessAlone(s.db, Submitted(k), call) == Ok(k.decision.value))
  {
    hide Run, SettleAlone, ProcessAlone, Sound, IdsKnown, DeletedOk, HasDecision, Saved, Replays;
    var s := Run(schedule);
    var k := s.clients[call];
    ReachableIsCore(schedule);
    assert At(s, call, k, Commit);
    DecisionAtCommit(s, call, k);
    if k.via == NoMovement {
      LossIsSerial(s, call, k);
    } else if k.via == Locked {
      if !k.tx.Kind().IsReversal() {
        LockedIsSerial(s, call, k);
      }
      if k.tx.Kind().IsReversal() ==> !k.reversed {
        FoundUnreversed(s, call, k);
        UnderTheLock(s, call, k);
      }
    }
  }

  lemma FoundUnreversed(s: State, call: Id, k: Client)
    requires HasDecision(s, call, k) && k.via == Locked && (k.tx.Kind().IsReversal() ==> !k.reversed)
    ensures ReversalStands(s, k)
  {
    hide Decided, Uncommitted, HoldsWallet;
  }

  /** As long as no commit writes over a PROCESSED row, the reference read before the lock and the
      finding of a duplicate stand as well: at the commit of any settlement, a duplicate's rejection
      included, processing the submission alone decides the same. */
  lemma {:induction false} SettlementsAreSerial(schedule: seq<Label>, call: Id)
    requires SettledRun(schedule) && AtDecidedCommit(Run(schedule), call)
    requires var k := Run(schedule).clients[call]; k.via == Locked || k.via == NoMovement
    ensures var s := Run(schedule);
            var k := s.clients[call];
            ProcessAlone(s.db, Submitted(k), call) == Ok(k.decision.value)
  {
    hide Run, ProcessAlone, SettledRun, Sound, IdsKnown, DeletedOk, Consistent, HasDecision, Saved, Replays,
      DecidedCurrent, RowsOk, WalletsOk, LedgerOk, IndexOk;
    var s := Run(schedule);
    var k := s.clients[call];
    SettlementsAreAtomic(schedule, call);
    if k.via == Locked && k.tx.Kind().IsReversal() {
      ReachableIsCore(schedule);
      ReachableIsStrong(schedule);
      SoundParts(s.db);
      assert At(s, call, k, Commit) && StrongAt(s, k);
      DecisionAtCommit(s, call, k);
      CurrentParts(s, k);
      ReversalIsSerial(s, call, k);
    }
  }

  lemma CurrentParts(s: State, k: Client)
    requires DecidedCurrent(s, k) && k.via == Locked
    ensures Aimed(s, k) && ReversalCurrent(s, k)
  {
    hide Aimed, ReversalCurrent;
  }
}
