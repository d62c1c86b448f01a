/** Processing and replaying as the program does it, object by object and write by write, proved
    against the decisions made on values (internal/app/wager_submit.go). */
module Submitters {
  import opened Prelude
  import opened Moneys
  import opened Wallets
  import opened Wagers
  import opened Tables
  import opened Decisions
  import opened Protocol
  import opened Integrity
  import opened Serializability
  import opened Solo
  import opened Stores
  import CoreCommits

  // ----- what a call writes and answers -----

  /** What a piece of processing writes, the transaction it leaves, and its answer. */
  datatype Processing = Processing(writes: Writes, tx: Tx, result: Result<Money>)

  function BalanceNow(db: Db, walletId: Id): Result<Money> {
    if walletId in db.wallets then Ok(db.wallets[walletId].balance) else Err(WalletNotFound)
  }

  /** Why saving a decision fails, if it does. */
  function SaveError(db: Db, w: Writes): Option<Error>
    requires w.row.Some?
  {
    match InsertError(db, NoWrites, w.row.value)
    case Some(e) => Some(e)
    case None => if EntryCollides(db, w) then Some(ConstraintViolation) else None
  }

  /** A decision, saved if the tables take it. */
  function Recorded(db: Db, tx: Tx, d: Decision): Processing {
    if d.writes.row.None? then Processing(NoWrites, d.tx, BalanceNow(db, tx.WalletId()))
    else match SaveError(db, d.writes)
      case Some(e) => Processing(NoWrites, tx, Err(e))
      case None =>
        Processing(d.writes, d.tx, if d.balance.Some? then Ok(d.balance.value) else BalanceNow(db, tx.WalletId()))
  }

  function RecordedIfAny(db: Db, tx: Tx, d: Result<Decision>): Processing {
    match d
    case Err(e) => Processing(NoWrites, tx, Err(e))
    case Ok(decision) => Recorded(db, tx, decision)
  }

  /** All of process, on one database. */
  function ProcessingOf(db: Db, tx: Tx, call: Id): Processing {
    RecordedIfAny(db, tx, ProcessAlone(db, tx, call))
  }

  /** How a session stands once these writes are made in it. */
  function AfterWrites(before: Session, w: Writes): Session {
    if w == NoWrites then before
    else if before.inTx then before.(staged := w.(inbox := before.staged.inbox))
    else before.(db := Apply(before.db, w))
  }

  /** A clean session: nothing failed, and nothing staged but an inbox row. */
  predicate Clean(s: Session) {
    !s.aborted && s.staged == NoWrites.(inbox := s.staged.inbox) && (!s.inTx ==> s.staged.inbox.None?)
  }

  /** A statement failed on a constraint. */
  predicate Violates(r: Result<Money>) {
    r == Err(TransactionAlreadyExists) || r == Err(ConstraintViolation)
  }

  /** The call did what p says; a failed statement dooms an enclosing transaction. */
  predicate Did(before: Session, after: Session, tx: Tx, p: Processing, r: Result<Money>) {
    && r == p.result
    && (r.Ok? ==> tx == p.tx)
    && (if before.inTx && Violates(r) then after.inTx && after.aborted && after.db == before.db
        else after == AfterWrites(before, p.writes))
  }

  // ----- the methods -----

  method SaveWithEvent(store: Store, tx: Transaction, event: Event) returns (r: Result<Money>)
    requires Clean(store.Now())
    modifies store
    ensures Did(old(store.Now()), store.Now(), tx.Value(),
                Recorded(old(store.db), tx.Value(), Decision(tx.Value(), RowWithEvent(tx.Value(), event), None)), r)
    ensures store.arrivals == old(store.arrivals) && store.nextRetryAt == old(store.nextRetryAt)
  {
    var joined := store.Begin();
    var saved := store.SaveTx(tx.Value());
    if saved.Ok? {
      store.SaveEvents([event]);
    }
    store.End(joined, saved.Ok?);
    if saved.Err? {
      return Err(saved.error);
    }
    var w := store.FindWallet(tx.payload.walletId);
    if w.Err? {
      return Err(w.error);
    }
    return Ok(w.value.balance);
  }

  method Reject(store: Store, tx: Transaction, code: FailureCode, call: Id) returns (r: Result<Money>)
    requires Clean(store.Now())
    modifies store, tx
    ensures Did(old(store.Now()), store.Now(), tx.Value(),
                RecordedIfAny(old(store.db), old(tx.Value()), RejectTx(old(tx.Value()), code, call)), r)
    ensures store.arrivals == old(store.arrivals) && store.nextRetryAt == old(store.nextRetryAt)
  {
    var marked := tx.MarkRejected(code);
    if marked.Err? {
      return Err(marked.error);
    }
    r := SaveWithEvent(store, tx, RejectedEvent(tx.Value(), call));
  }

  method ParkPendingReference(store: Store, tx: Transaction, call: Id) returns (r: Result<Money>)
    requires Clean(store.Now())
    modifies store, tx
    ensures Did(old(store.Now()), store.Now(), tx.Value(),
                RecordedIfAny(old(store.db), old(tx.Value()), ParkReference(old(tx.Value()), call)), r)
    ensures store.arrivals == old(store.arrivals) && store.nextRetryAt == old(store.nextRetryAt)
  {
    var alreadyParked := tx.status == PendingReference;
    var marked := tx.MarkPendingReference();
    if marked.Err? {
      return Err(marked.error);
    }
    if alreadyParked {
      var w := store.FindWallet(tx.payload.walletId);
      if w.Err? {
        return Err(w.error);
      }
      return Ok(w.value.balance);
    }
    r := SaveWithEvent(store, tx, PendingReferenceEvent(tx.Value(), call));
  }

  /** What a loss decides, wherever its wallet is. */
  function LossAlone(db: Db, tx: Tx, call: Id): Result<Decision> {
    if tx.WalletId() !in db.wallets then Err(WalletNotFound) else FinishLoss(tx, db.wallets[tx.WalletId()], call)
  }

  method FinishWithoutMovement(store: Store, tx: Transaction, call: Id) returns (r: Result<Money>)
    requires Clean(store.Now())
    modifies store, tx
    ensures Did(old(store.Now()), store.Now(), tx.Value(),
                RecordedIfAny(old(store.db), old(tx.Value()), LossAlone(old(store.db), old(tx.Value()), call)), r)
    ensures store.arrivals == old(store.arrivals) && store.nextRetryAt == old(store.nextRetryAt)
  {
    var w := store.FindWallet(tx.payload.walletId);
    if w.Err? {
      return Err(w.error);
    }
    if tx.payload.amount.currency != w.value.balance.currency {
      return Err(CurrencyMismatch);
    }
    var marked := tx.MarkProcessed();
    if marked.Err? {
      return Err(marked.error);
    }
    r := SaveWithEvent(store, tx, ProcessedEvent(tx.Value(), call));
  }

  // ----- the block under the wallet's lock -----

  /** Wallets and inbox rows are stored under their own ids. */
  predicate Keyed(db: Db) {
    && (forall w :: w in db.wallets ==> db.wallets[w].id == w)
    && (forall m :: m in db.inbox ==> db.inbox[m].messageId == m)
  }

  /** The rejection under the lock: row and event, answered with the balance just read. */
  method RejectUnderLock(store: Store, tx: Transaction, code: FailureCode, w: WalletRow, call: Id)
    returns (r: Result<Money>)
    requires Clean(store.Now()) && store.inTx
    modifies store, tx
    ensures Did(old(store.Now()), store.Now(), tx.Value(),
                RecordedIfAny(old(store.db), old(tx.Value()), RejectAt(old(tx.Value()), code, w, call)), r)
    ensures store.arrivals == old(store.arrivals) && store.nextRetryAt == old(store.nextRetryAt)
  {
    var marked := tx.MarkRejected(code);
    if marked.Err? {
      return Err(marked.error);
    }
    var event := RejectedEvent(tx.Value(), call);
    var saved := store.SaveTx(tx.Value());
    if saved.Err? {
      return Err(saved.error);
    }
    store.SaveEvents([event]);
    return Ok(w.balance);
  }

  /** What recording a movement of the wallet decides. */
  function MovementDecision(tx: Tx, w: WalletRow, entry: LedgerEntry, call: Id): Result<Decision> {
    match tx.MarkProcessed()
    case Err(e) => Err(e)
    case Ok(processed) =>
      Ok(Decision(processed,
                  Writes(Some(processed), Some(w), Some(entry),
                         [ProcessedEvent(processed, call), BalanceChangedEvent(w, entry, call)], None),
                  Some(w.balance)))
  }

  method RecordMovement(store: Store, tx: Transaction, w: WalletRow, entry: LedgerEntry, call: Id)
    returns (r: Result<Money>)
    requires Clean(store.Now()) && store.inTx && w.id in store.db.wallets
    modifies store, tx
    ensures Did(old(store.Now()), store.Now(), tx.Value(),
                RecordedIfAny(old(store.db), old(tx.Value()), MovementDecision(old(tx.Value()), w, entry, call)), r)
    ensures store.arrivals == old(store.arrivals) && store.nextRetryAt == old(store.nextRetryAt)
  {
    var marked := tx.MarkProcessed();
    if marked.Err? {
      return Err(marked.error);
    }
    var saved := store.SaveTx(tx.Value());
    if saved.Err? {
      return Err(saved.error);
    }
    saved := store.SaveWallet(w);
    saved := store.SaveLedgerEntry(entry);
    if saved.Err? {
      return Err(saved.error);
    }
    store.SaveEvents([ProcessedEvent(tx.Value(), call), BalanceChangedEvent(w, entry, call)]);
    return Ok(w.balance);
  }

  /** The movement: the wallet object is debited or credited, and everything it entails is saved. */
  method MoveUnderLock(store: Store, tx: Transaction, direction: Direction, w: Wallet, call: Id)
    returns (r: Result<Money>)
    requires Clean(store.Now()) && store.inTx && w.id in store.db.wallets
    modifies store, tx, w
    ensures Did(old(store.Now()), store.Now(), tx.Value(),
                RecordedIfAny(old(store.db), old(tx.Value()), Move(old(tx.Value()), direction, old(w.Row()), call)), r)
    ensures store.arrivals == old(store.arrivals) && store.nextRetryAt == old(store.nextRetryAt)
  {
    hide Recorded;
    var before := w.balance;
    var moved: Result<()>;
    if direction == Debit {
      moved := w.Debit(tx.payload.amount);
    } else {
      moved := w.Credit(tx.payload.amount);
    }
    if moved.Err? {
      if moved.error != InsufficientBalance {
        return Err(moved.error);
      }
      r := RejectUnderLock(store, tx,
                           if tx.payload.kind == Bet then InsufficientFunds else ReversalExceedsBalance, w.Row(), call);
      return;
    }
    var entry := LedgerEntry(call, w.id, tx.id, direction, tx.payload.amount, before, w.balance);
    var checked := NewLedgerEntry(entry);
    if checked.Err? {
      return Err(checked.error);
    }
    r := RecordMovement(store, tx, w.Row(), entry, call);
  }

  /** Read the wallet, look for a reversal, move or reject: what the transaction encloses. */
  method SettleUnderLock(store: Store, tx: Transaction, reference: Option<Tx>, direction: Direction, call: Id)
    returns (r: Result<Money>)
    requires Clean(store.Now()) && store.inTx && Keyed(store.db)
    requires MovementDirection(tx.payload.kind, reference) == Ok(direction)
             && (tx.payload.kind.IsReversal() ==> reference.Some?)
    modifies store, tx
    ensures Did(old(store.Now()), store.Now(), tx.Value(),
                RecordedIfAny(old(store.db), old(tx.Value()),
                              SettleAlone(old(store.db), old(tx.Value()), reference, call)), r)
    ensures store.arrivals == old(store.arrivals) && store.nextRetryAt == old(store.nextRetryAt)
  {
    hide Recorded, Move, RejectAt;
    var read := store.FindWallet(tx.payload.walletId);
    if read.Err? {
      return Err(read.error);
    }
    var w := new Wallet.FromPersistence(read.value);
    if tx.payload.kind.IsReversal() {
      var duplicate := store.FindReversal(reference.value.id);
      if duplicate.Ok? && duplicate.value {
        r := RejectUnderLock(store, tx, DuplicateReversal, w.Row(), call);
        return;
      }
    }
    r := MoveUnderLock(store, tx, direction, w, call);
  }

  // ----- process -----

  lemma SettledWritesAreWhole(db: Db, tx: Tx, reference: Option<Tx>, call: Id)
    ensures var p := RecordedIfAny(db, tx, SettleAlone(db, tx, reference, call));
            && p.writes.inbox.None? && (p.result.Ok? <==> p.writes != NoWrites)
  {
    hide SettleAlone, SaveError;
    var d := SettleAlone(db, tx, reference, call);
    if d.Ok? {
      SettlementSaves(db, tx, reference, call, d.value);
    }
  }

  /** Opening or joining a transaction around the block, and ending it, comes to the block's writes. */
  lemma WithinTxDoes(before: Session, within: Session, after: Session, joined: bool, tx: Tx, p: Processing,
                     r: Result<Money>)
    requires Clean(before) && joined == before.inTx && p.writes.inbox.None? && (p.result.Ok? <==> p.writes != NoWrites)
    requires Did(before.(inTx := true), within, tx, p, r)
    requires joined ==> after == within
    requires !joined ==>
               after == Session(if r.Ok? && !within.aborted then Apply(within.db, within.staged) else within.db,
                                false, false, NoWrites)
    ensures Did(before, after, tx, p, r)
  {
    hide Apply;
  }

  /** The reference, the kinds, the block under the lock: process. */
  method Process(store: Store, tx: Transaction, call: Id) returns (r: Result<Money>)
    requires Clean(store.Now()) && Keyed(store.db)
    modifies store, tx
    ensures Did(old(store.Now()), store.Now(), tx.Value(), ProcessingOf(old(store.db), old(tx.Value()), call), r)
    ensures store.arrivals == old(store.arrivals) && store.nextRetryAt == old(store.nextRetryAt)
  {
    hide Apply, RejectTx, ParkReference, FinishLoss, Settle, SettleAlone, Recorded, SaveError;
    ghost var before, tx0 := store.Now(), tx.Value();
    var reference: Option<Tx> := None;
    if tx.payload.kind.IsReversal() {
      if tx.payload.referenceExternalId.None? {
        return Err(MissingReference);
      }
      var found := store.FindByKey(Key(tx.key.providerId, tx.payload.referenceExternalId.value));
      if found.value.None? {
        r := ParkPendingReference(store, tx, call);
        return;
      }
      var valid := tx.Value().ValidateReference(found.value.value);
      if valid.Err? {
        r := Reject(store, tx, InvalidReferenceCode, call);
        return;
      }
      var resolved := tx.ResolveReference(found.value.value.id);
      if resolved.Err? {
        return Err(resolved.error);
      }
      reference := found.value;
    }
    if tx.payload.kind == Loss {
      r := FinishWithoutMovement(store, tx, call);
      return;
    }
    var direction := MovementDirection(tx.payload.kind, reference);
    if direction.Err? {
      NoDirection(store.db, tx.Value(), reference, call);
      return Err(direction.error);
    }
    ghost var resolvedTx := tx.Value();
    var joined := store.Begin();
    r := SettleUnderLock(store, tx, reference, direction.value, call);
    ghost var within := store.Now();
    store.End(joined, r.Ok?);
    ghost var p := RecordedIfAny(before.db, resolvedTx, SettleAlone(before.db, resolvedTx, reference, call));
    SettledWritesAreWhole(before.db, resolvedTx, reference, call);
    WithinTxDoes(before, within, store.Now(), joined, tx.Value(), p, r);
    ResolvedProcessing(before.db, tx0, resolvedTx, reference, call);
  }

  lemma NoDirection(db: Db, tx: Tx, reference: Option<Tx>, call: Id)
    requires MovementDirection(tx.Kind(), reference).Err?
    ensures MovementDirection(tx.Kind(), reference) == Err(NoMovementDefined)
    ensures SettleAlone(db, tx, reference, call) == Err(NoMovementDefined)
  {
  }

  /** Beyond the reference, process is the settlement of the resolved transaction. */
  lemma ResolvedProcessing(db: Db, tx: Tx, resolved: Tx, reference: Option<Tx>, call: Id)
    requires tx.Kind() != Loss
    requires if tx.Kind().IsReversal() then
               tx.payload.referenceExternalId.Some? && reference.Some?
               && OnReference(tx, db.FindByKey(Key(tx.key.providerId, tx.payload.referenceExternalId.value)), call)
                  == Continue(resolved, reference.value)
             else resolved == tx && reference.None?
    ensures ProcessAlone(db, tx, call) == SettleAlone(db, resolved, reference, call)
    ensures var p, q := ProcessingOf(db, tx, call),
                        RecordedIfAny(db, resolved, SettleAlone(db, resolved, reference, call));
            p.writes == q.writes && p.result == q.result && (p.result.Ok? ==> p.tx == q.tx)
  {
    hide SettleAlone, OnReference, SaveError;
    var d := SettleAlone(db, resolved, reference, call);
    if d.Ok? {
      SettlementSaves(db, resolved, reference, call, d.value);
    }
  }

  // ----- replay and submit -----

  datatype Submission = Submission(tx: Tx, balance: Money, replay: bool)

  /** The balance a replay answers with: the entry's, or the wallet's as it is. */
  function BalanceAtProcessingOf(db: Db, tx: Tx): Result<Money> {
    match db.FindLedgerEntry(tx.id)
    case Some(e) => Ok(e.balanceAfter)
    case None => BalanceNow(db, tx.WalletId())
  }

  function Replayed(db: Db, existing: Tx, candidate: Tx): Result<Submission> {
    if existing.payload != candidate.payload then Err(IdempotencyConflict)
    else match BalanceAtProcessingOf(db, existing)
      case Err(e) => Err(e)
      case Ok(balance) => Ok(Submission(existing, balance, true))
  }

  method BalanceAtProcessing(store: Store, tx: Tx) returns (r: Result<Money>)
    requires !store.aborted
    ensures r == BalanceAtProcessingOf(store.db, tx)
  {
    var entry := store.FindLedgerEntry(tx.id);
    if entry.value.Some? {
      return Ok(entry.value.value.balanceAfter);
    }
    var w := store.FindWallet(tx.payload.walletId);
    if w.Err? {
      return Err(w.error);
    }
    return Ok(w.value.balance);
  }

  method Replay(store: Store, existing: Tx, candidate: Tx) returns (r: Result<Submission>)
    requires !store.aborted
    ensures r == Replayed(store.db, existing, candidate)
  {
    if existing.payload != candidate.payload {
      return Err(IdempotencyConflict);
    }
    var balance := BalanceAtProcessing(store, existing);
    if balance.Err? {
      return Err(balance.error);
    }
    return Ok(Submission(existing, balance.value, true));
  }

  /** On a sound ledger a replay answers, for the same content, the balance its own entry left, whichever
      entry that is, and for a row without one the wallet's balance as it is; for other content nothing but
      the conflict. */
  lemma ReplaysAnswerExactly(db: Db, existing: Tx, candidate: Tx)
    requires LedgerOk(db)
    ensures existing.payload != candidate.payload ==> Replayed(db, existing, candidate) == Err(IdempotencyConflict)
    ensures existing.payload == candidate.payload ==>
              (forall i :: 0 <= i < |db.ledger| && db.ledger[i].transactionId == existing.id ==>
                 Replayed(db, existing, candidate) == Ok(Submission(existing, db.ledger[i].balanceAfter, true)))
              && (!HasEntry(db, existing.id) ==>
                    Replayed(db, existing, candidate) ==
                    if existing.payload.walletId in db.wallets
                    then Ok(Submission(existing, db.wallets[existing.payload.walletId].balance, true))
                    else Err(WalletNotFound))
  {
    var found := db.FindLedgerEntry(existing.id);
    if found.Some? {
      var j :| 0 <= j < |db.ledger| && db.ledger[j] == found.value;
      assert HasEntry(db, existing.id);
    }
  }

  /** The database once the next of the others has committed. */
  function Arrived(db: Db, arrivals: seq<Writes>): Db {
    if arrivals == [] then db else Apply(db, arrivals[0])
  }

  /** The database and the answer of a submission that found no row under its key, processed on a
      database that may have got one since. */
  function Concluding(db: Db, tx: Tx, call: Id, inTx: bool): (Writes, Result<Submission>) {
    var p := ProcessingOf(db, tx, call);
    if p.result == Err(TransactionAlreadyExists) then
      (NoWrites,
       if inTx then Err(TransactionAborted)
       else match db.FindByKey(tx.key)
         case Some(winner) => Replayed(db, winner, tx)
         case None => Err(TransactionNotFound))
    else
      (p.writes, match p.result
                 case Err(e) => Err(e)
                 case Ok(balance) => Ok(Submission(p.tx, balance, false)))
  }

  /** Look the key up; process, while somebody else may insert it first; replay what is there. */
  method Submit(store: Store, call: Id, now: int, input: Input) returns (r: Result<Submission>)
    requires Clean(store.Now()) && Keyed(Arrived(store.db, store.arrivals))
    modifies store
    ensures store.inTx == old(store.inTx) && (r.Ok? ==> !store.aborted)
    ensures NewTransaction(call, now, input).Err? ==>
              r == Err(NewTransaction(call, now, input).error) && store.Now() == old(store.Now())
    ensures NewTransaction(call, now, input).Ok? ==>
              var tx := NewTransaction(call, now, input).value;
              var before := old(store.Now());
              match before.db.FindByKey(tx.key)
              case Some(existing) => r == Replayed(before.db, existing, tx) && store.Now() == before
              case None =>
                var meanwhile := before.(db := Arrived(before.db, old(store.arrivals)));
                var (writes, answer) := Concluding(meanwhile.db, tx, call, before.inTx);
                && r == answer
                && (if before.inTx && Violates(ProcessingOf(meanwhile.db, tx, call).result)
                    then store.inTx && store.aborted && store.db == meanwhile.db
                    else store.Now() == AfterWrites(meanwhile, writes))
  {
    hide ProcessingOf, ProcessAlone, Apply, NewTransaction;
    var candidate := NewTransaction(call, now, input);
    if candidate.Err? {
      return Err(candidate.error);
    }
    var value := candidate.value;
    var existing := store.FindByKey(value.key);
    if existing.value.Some? {
      r := Replay(store, existing.value.value, value);
      return;
    }
    store.Meanwhile();
    var tx := new Transaction.FromPersistence(value);
    ghost var meanwhile := store.db;
    var balance := Process(store, tx, call);
    if balance == Err(TransactionAlreadyExists) {
      ErrorsWriteNothing(meanwhile, value, call);
      var winner := store.FindByKey(value.key);
      if winner.Err? {
        return Err(winner.error);
      }
      if winner.value.None? {
        return Err(TransactionNotFound);
      }
      r := Replay(store, winner.value.value, value);
      return;
    }
    if balance.Err? {
      return Err(balance.error);
    }
    return Ok(Submission(tx.Value(), balance.value, false));
  }

  lemma ErrorsWriteNothing(db: Db, tx: Tx, call: Id)
    requires ProcessingOf(db, tx, call).result == Err(TransactionAlreadyExists)
    ensures ProcessingOf(db, tx, call).writes == NoWrites
  {
    hide ProcessAlone, SaveError;
  }

  // ----- the program and the protocol -----

  function AsAnswer(r: Result<Submission>): Answer {
    match r
    case Ok(done) => Accepted(done.tx, done.balance, done.replay)
    case Err(e) => Refused(e)
  }

  /** What a submission writes and answers when nobody commits in between. */
  function SubmissionOf(db: Db, tx: Tx, call: Id, inTx: bool): (Writes, Result<Submission>) {
    match db.FindByKey(tx.key)
    case Some(existing) => (NoWrites, Replayed(db, existing, tx))
    case None => Concluding(db, tx, call, inTx)
  }

  /** What a decision of processing alone writes: the decided row, and no entry but its own. */
  lemma DecisionsAreOfTheirRow(db: Db, tx: Tx, call: Id)
    requires tx.status == Pending && ProcessAlone(db, tx, call).Ok?
    ensures var d := ProcessAlone(db, tx, call).value;
            && d.writes.row == Some(d.tx) && d.tx.SameBusiness(tx) && d.writes.inbox.None? && d.writes != NoWrites
            && (d.writes.entry.Some? ==> d.writes.entry.value.transactionId == tx.id)
  {
    hide SettleAlone, OnReference, FinishLoss, RejectTx, ParkReference;
    var d := ProcessAlone(db, tx, call).value;
    if tx.Kind().IsReversal() {
      var found := db.FindByKey(Key(tx.key.providerId, tx.payload.referenceExternalId.value));
      OutcomeOfReference(tx, found, call);
      match OnReference(tx, found, call) {
        case Settled(_) => RowOnlySaves(tx, call, d);
        case Continue(resolved, reference) => SettlementSaves(db, resolved, Some(reference), call, d);
      }
    } else if tx.Kind() == Loss {
      RowOnlySaves(tx, call, d);
    } else {
      SettlementSaves(db, tx, None, call, d);
    }
  }

  lemma RefusalsAreNoConflicts(db: Db, tx: Tx, call: Id)
    ensures ProcessAlone(db, tx, call) != Err(TransactionAlreadyExists)
  {
    hide SettleAlone;
    if tx.Kind().IsReversal() && tx.payload.referenceExternalId.Some? {
      var found := db.FindByKey(Key(tx.key.providerId, tx.payload.referenceExternalId.value));
      match OnReference(tx, found, call) {
        case Continue(resolved, reference) => SettlementsDoNotConflict(db, resolved, Some(reference), call);
        case _ =>
      }
    } else {
      SettlementsDoNotConflict(db, tx, None, call);
    }
  }

  lemma SettlementsDoNotConflict(db: Db, tx: Tx, reference: Option<Tx>, call: Id)
    ensures SettleAlone(db, tx, reference, call) != Err(TransactionAlreadyExists)
  {
  }

  /** A new row whose processing decides something: it is saved, unless its key has got a row meanwhile or
      its wallet is missing. */
  lemma NewRowIsRecorded(db: Db, tx: Tx, call: Id)
    requires LedgerOk(db) && tx.status == Pending && tx.Kind() != Opening && tx.id !in db.txs
    ensures var r, p := ProcessAlone(db, tx, call), ProcessingOf(db, tx, call);
            match r
            case Err(e) => p == Processing(NoWrites, tx, Err(e))
            case Ok(d) =>
              if tx.key in db.index then p == Processing(NoWrites, tx, Err(TransactionAlreadyExists))
              else if tx.WalletId() !in db.wallets then p == Processing(NoWrites, tx, Err(ConstraintViolation))
              else p == Processing(d.writes, d.tx, Ok(BalanceFor(db, tx, d)))
  {
    hide ProcessAlone, EntryCollides;
    if ProcessAlone(db, tx, call).Ok? {
      DecisionsAreOfTheirRow(db, tx, call);
      CoreCommits.FreshEntryDoesNotCollide(db, ProcessAlone(db, tx, call).value.writes, tx.id);
    }
  }

  /** What a submission concludes with once others may have got in before it saves. The decision's own
      refusal; the row as decided; or, where the key has got a row by then, not that insert's error: by HTTP
      a replay of that row, and inside a delivery's transaction, which the failed insert has doomed, its
      abortion. */
  lemma ConcludesExactly(db: Db, tx: Tx, call: Id, inTx: bool)
    requires LedgerOk(db) && IndexOk(db) && tx.status == Pending && tx.Kind() != Opening && tx.id !in db.txs
    ensures Concluding(db, tx, call, inTx) ==
            match ProcessAlone(db, tx, call)
            case Err(e) => (NoWrites, Err(e))
            case Ok(d) =>
              if tx.key in db.index then
                (NoWrites, if inTx then Err(TransactionAborted) else Replayed(db, db.txs[db.index[tx.key]], tx))
              else if tx.WalletId() !in db.wallets then (NoWrites, Err(ConstraintViolation))
              else (d.writes, Ok(Submission(d.tx, BalanceFor(db, tx, d), false)))
  {
    hide ProcessAlone, ProcessingOf, Replayed;
    NewRowIsRecorded(db, tx, call);
    RefusalsAreNoConflicts(db, tx, call);
  }

  /** The program's submission and the protocol's answer the same, and write the same. */
  lemma SubmissionsAgree(db: Db, k: Client, call: Id, inTx: bool)
    requires LedgerOk(db) && IndexOk(db) && k.tx.status == Pending && k.tx.Kind() != Opening && k.tx.id !in db.txs
    requires !k.origin.Sqs? ==> k.inbox.None?
    ensures var (writes, result) := SubmissionOf(db, k.tx, call, inTx);
            && AsAnswer(result) == AnswerAlone(db, k.tx, call)
            && DbAlone(db, k, call) == if result.Ok? then Apply(db, writes.(inbox := InboxDone(k))) else db
  {
    hide ProcessAlone, Concluding, Apply, LedgerOk;
    match db.FindByKey(k.tx.key) {
      case Some(existing) =>
        NothingApplied(db);
      case None =>
        ConcludesExactly(db, k.tx, call, inTx);
        if ProcessAlone(db, k.tx, call).Ok? {
          DecisionsAreOfTheirRow(db, k.tx, call);
        }
    }
  }

  lemma NothingApplied(db: Db)
    ensures Apply(db, NoWrites) == db
  {
    assert db.events + [] == db.events;
  }

  /** On a sound database the program's submission, of a new key or a known one, writes and answers what the
      protocol's does when nobody interrupts it. */
  lemma {:induction false} ProgramAndProtocolAgree(s: State, call: Id, tx: Tx) returns (n: nat)
    requires LedgerOk(s.db) && IndexOk(s.db) && Submitting(s, call, Start(Http, PreCheck, tx)) && tx.Kind() != Opening
    ensures var (writes, result) := SubmissionOf(s.db, tx, call, false);
            Concluded(s, AdvanceTimes(s, call, n), call, Http, Some(AsAnswer(result)),
                      AfterWrites(Session(s.db, false, false, NoWrites), writes).db)
  {
    hide ProcessAlone, Apply, Concluded, AdvanceTimes, SubmissionOf, DbAlone, AnswerAlone, LedgerOk, IndexOk;
    var k := Start(Http, PreCheck, tx);
    n := SubmissionAlone(s, call, k);
    SubmissionsAgree(s.db, k, call, false);
    WritesWithoutInbox(s.db, tx, call);
    WritesTakeEffect(s.db, SubmissionOf(s.db, tx, call, false).0, SubmissionOf(s.db, tx, call, false).1.Ok?);
  }

  lemma WritesTakeEffect(db: Db, w: Writes, ok: bool)
    requires !ok ==> w == NoWrites
    ensures AfterWrites(Session(db, false, false, NoWrites), w).db == if ok then Apply(db, w) else db
  {
    hide Apply;
    NothingApplied(db);
  }

  lemma WritesWithoutInbox(db: Db, tx: Tx, call: Id)
    requires LedgerOk(db) && IndexOk(db) && tx.status == Pending && tx.Kind() != Opening && tx.id !in db.txs
    ensures var (writes, result) := SubmissionOf(db, tx, call, false);
            writes.(inbox := None) == writes && (result.Err? ==> writes == NoWrites)
  {
    hide ProcessAlone, Concluding, Replayed, LedgerOk;
    if db.FindByKey(tx.key).None? {
      ConcludesExactly(db, tx, call, false);
      if ProcessAlone(db, tx, call).Ok? {
        DecisionsAreOfTheirRow(db, tx, call);
      }
    }
  }
}
