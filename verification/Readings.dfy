/** What holds of every call, and of the database, as long as no commit writes over a PROCESSED row:
    what calls have read is still so. */
module Readings {
  import opened Prelude
  import opened Moneys
  import opened Wagers
  import opened Tables
  import opened Decisions
  import opened Protocol
  import opened Integrity
  import opened Calls
  import opened CoreSteps
  import opened Settlements
  import opened Histories

  /** The step commits a decision about this row. */
  predicate DecidesAbout(s: State, l: Label, id: Id) {
    Commits(s, l) && s.clients[l.call].decision.Some? && s.clients[l.call].tx.id == id
  }

  /** The commit finds the row it writes processed or rejected already: the upsert has no guard. */
  predicate Overwrites(s: State, l: Label) {
    && Commits(s, l)
    && var k := s.clients[l.call];
       k.decision.Some? && !StillOpen(s.db, k)
  }

  /** The commit finds the row it writes processed already. */
  predicate Unsettles(s: State, l: Label) {
    && Commits(s, l)
    && var k := s.clients[l.call];
       k.decision.Some? && !NotSettled(s.db, k)
  }

  /** The row a decision is about is waiting still, or not there yet. */
  predicate StillOpen(db: Db, k: Client) {
    k.tx.id in db.txs ==> db.txs[k.tx.id].status == PendingReference
  }

  predicate NotSettled(db: Db, k: Client) {
    k.tx.id in db.txs ==> db.txs[k.tx.id].status != Processed
  }

  /** A resolver's copy of its row is current while the row waits. */
  predicate Driven(s: State, k: Client) {
    k.origin.Resolver? ==>
      k.tx.id in s.db.txs
      && (s.db.txs[k.tx.id].status == PendingReference ==> s.db.txs[k.tx.id] == k.tx.(referenceId := None))
  }

  predicate Plain(s: State, k: Client) {
    Driven(s, k) && k.reference.None? && k.tx.referenceId.None? && k.tx.failure.None?
  }

  /** The reference read before the lock is still what it was, and still valid. */
  predicate Aimed(s: State, k: Client) {
    && Driven(s, k) && k.tx.failure.None?
    && if k.tx.Kind().IsReversal() then
         && k.reference.Some?
         && var r := k.reference.value;
            && r.id in s.db.txs && s.db.txs[r.id] == r
            && k.tx.ValidateReference(r) == Ok(())
            && k.tx.referenceId == Some(r.id)
       else
         k.reference.None? && k.tx.referenceId.None?
  }

  /** What FindReversal said under the lock is still so. */
  predicate ReversalCurrent(s: State, k: Client) {
    k.tx.Kind().IsReversal() && k.reference.Some? ==> k.reversed == s.db.HasReversal(k.reference.value.id)
  }

  predicate DecidedCurrent(s: State, k: Client) {
    match k.via
    case Locked => Aimed(s, k) && ReversalCurrent(s, k)
    case _ => Plain(s, k)
  }

  predicate StrongAt(s: State, k: Client) {
    match k.pc
    case InsertInbox => Plain(s, k)
    case PreCheck => Plain(s, k)
    case ReadReference => Plain(s, k)
    case ReadLossWallet => Plain(s, k)
    case LockWallet => Aimed(s, k)
    case CheckReversal => Aimed(s, k)
    case Decide => Aimed(s, k) && ReversalCurrent(s, k)
    case Save => DecidedCurrent(s, k)
    case ReadBalance => k.origin.Sqs? ==> DecidedCurrent(s, k)
    case CompleteInbox => k.decision.Some? ==> DecidedCurrent(s, k)
    case Commit => k.decision.Some? ==> DecidedCurrent(s, k)
    case _ => true
  }

  predicate Strong(s: State) {
    Consistent(s.db) && forall c :: c in s.clients ==> StrongAt(s, s.clients[c])
  }

  // ----- steps that leave the database alone -----

  lemma LocalStepKeepsStrong(s: State, later: State, call: Id)
    requires Strong(s) && LocalTo(s, later, call) && StrongAt(later, later.clients[call])
    ensures Strong(later)
  {
    hide Consistent;
    forall c | c in later.clients
      ensures StrongAt(later, later.clients[c])
    {
      if c != call {
        SameDbStaysStrong(s, later, s.clients[c]);
      }
    }
  }

  lemma SameDbStaysStrong(s: State, later: State, k: Client)
    requires StrongAt(s, k) && later.db == s.db
    ensures StrongAt(later, k)
  {
  }

  /** The call's own readings are current in its new state. */
  predicate OwnStrong(later: State, call: Id) {
    call in later.clients && StrongAt(later, later.clients[call])
  }

  lemma PutIsStrong(s: State, before: State, call: Id, k: Client)
    requires StrongAt(s, k) && before.db == s.db
    ensures OwnStrong(Put(before, call, k), call)
  {
    hide StrongAt;
    SameDbStaysStrong(s, Put(before, call, k), k);
  }

  lemma EndIsStrong(s: State, call: Id, k: Client)
    requires StrongAt(s, k)
    ensures OwnStrong(End(s, call, k), call)
  {
    hide StrongAt, Release;
    SameDbStaysStrong(s, End(s, call, k), k);
  }

  lemma LocksAreIrrelevant(s: State, later: State, call: Id)
    requires OwnStrong(s, call) && later.db == s.db && later.clients == s.clients
    ensures OwnStrong(later, call)
  {
    hide StrongAt;
    SameDbStaysStrong(s, later, s.clients[call]);
  }

  lemma RefusalIsStrong(s: State, call: Id, k: Client, e: Error)
    ensures OwnStrong(Refuse(s, call, k, e), call)
  {
    hide OwnStrong, Release;
    AnsweredIsStrong(s, k.(pc := Done, answer := Some(Refused(e))));
    EndIsStrong(s, call, k.(pc := Done, answer := Some(Refused(e))));
  }

  lemma ReadReferenceIsStrong(s: State, call: Id, k: Client)
    requires RowsOk(s.db) && k.pc == ReadReference && StrongAt(s, k) && k.tx.Kind().IsReversal()
    ensures OwnStrong(StepReadReference(s, call, k), call)
  {
    hide OnReference, StrongAt, OwnStrong, RowsOk, Put, Refuse;
    if k.tx.payload.referenceExternalId.None? {
      RefusalIsStrong(s, call, k, MissingReference);
    } else {
      var key := Key(k.tx.key.providerId, k.tx.payload.referenceExternalId.value);
      var found := s.db.FindByKey(key);
      match OnReference(k.tx, found, call) {
        case Stop(e) => RefusalIsStrong(s, call, k, e);
        case Continue(tx, reference) =>
          ContinuationIsStrong(s, k, key, call);
          PutIsStrong(s, s, call, k.(pc := LockWallet, tx := tx, reference := Some(reference)));
        case Settled(d) =>
          var k' := if d.writes == NoWrites then k.(pc := Schedule)
                    else k.(pc := Save, decision := Some(d), via := if found.None? then Parked else BadReference);
          SettledIsStrong(s, k, k');
          PutIsStrong(s, s, call, k');
      }
    }
  }

  lemma SettledIsStrong(s: State, k: Client, k': Client)
    requires k.pc == ReadReference && StrongAt(s, k)
    requires k' == k.(pc := k'.pc, decision := k'.decision, via := k'.via)
    requires k'.pc == Schedule || (k'.pc == Save && (k'.via == Parked || k'.via == BadReference))
    ensures StrongAt(s, k')
  {
    hide Plain, Aimed, ReversalCurrent;
    ReadingsMatterOnly(s, s, k, k');
  }

  lemma ContinuationIsStrong(s: State, k: Client, key: Key, call: Id)
    requires RowsOk(s.db) && k.pc == ReadReference && StrongAt(s, k) && k.tx.Kind().IsReversal()
    requires OnReference(k.tx, s.db.FindByKey(key), call).Continue?
    ensures var o := OnReference(k.tx, s.db.FindByKey(key), call);
            StrongAt(s, k.(pc := LockWallet, tx := o.tx, reference := Some(o.reference)))
  {
    hide OnReference, Aimed, Plain, ReversalCurrent, DecidedCurrent, RowsOk;
    ContinuationIsAimed(s, k, key, call);
  }

  lemma ContinuationIsAimed(s: State, k: Client, key: Key, call: Id)
    requires RowsOk(s.db) && Plain(s, k) && k.tx.Kind().IsReversal()
    requires OnReference(k.tx, s.db.FindByKey(key), call).Continue?
    ensures var o := OnReference(k.tx, s.db.FindByKey(key), call);
            Aimed(s, k.(pc := LockWallet, tx := o.tx, reference := Some(o.reference)))
  {
    hide OnReference;
    var found := s.db.FindByKey(key);
    ContinuationKeepsIdentity(k.tx, found, call);
    FoundRowIsCurrent(s.db, key);
    ValidityIgnoresReferenceId(k.tx, found.value, Some(found.value.id));
  }

  lemma ValidityIgnoresReferenceId(tx: Tx, reference: Tx, id: Option<Id>)
    ensures tx.(referenceId := id).ValidateReference(reference) == tx.ValidateReference(reference)
  {
  }

  lemma FoundRowIsCurrent(db: Db, key: Key)
    requires RowsOk(db)
    ensures var found := db.FindByKey(key);
            found.Some? ==> found.value.id in db.txs && db.txs[found.value.id] == found.value
  {
  }

  /** Only what a call has read, and its transaction, matter. */
  lemma ReadingsMatterOnly(s: State, later: State, k: Client, k': Client)
    requires later.db == s.db
    requires k'.tx == k.tx && k'.reference == k.reference && k'.origin == k.origin && k'.reversed == k.reversed
    ensures Plain(later, k') == Plain(s, k) && Aimed(later, k') == Aimed(s, k)
    ensures ReversalCurrent(later, k') == ReversalCurrent(s, k)
  {
  }

  /** Noting a balance, an inbox row, an answer or a point of the program changes nothing. */
  lemma ProgressIsIrrelevant(s: State, later: State, k: Client, k': Client)
    requires later.db == s.db
    requires k' == k.(pc := k'.pc, balance := k'.balance, inbox := k'.inbox, answer := k'.answer)
    ensures DecidedCurrent(s, k) ==> DecidedCurrent(later, k')
    ensures Plain(s, k) ==> Plain(later, k')
    ensures Aimed(s, k) ==> Aimed(later, k')
  {
    hide Plain, Aimed, ReversalCurrent;
    ReadingsMatterOnly(s, later, k, k');
  }

  lemma AnsweredIsStrong(s: State, k: Client)
    requires k.pc == Done || k.pc == Lookup
    ensures StrongAt(s, k)
  {
  }

  lemma SaveIsStrong(s: State, call: Id, k: Client)
    requires k.pc == Save && call in s.clients && s.clients[call] == k && StrongAt(s, k)
    ensures OwnStrong(StepSave(s, call, k), call)
  {
    hide EntryCollides, StrongAt, Put, End, Refuse;
    RefusalIsStrong(s, call, k, ConstraintViolation);
    if k.decision.Some? && k.decision.value.writes.row.Some? {
      var row := k.decision.value.writes.row.value;
      if row.id !in s.db.txs && row.key in s.db.index {
        RefusalIsStrong(s, call, k, TransactionAborted);
        AnsweredIsStrong(s, k.(pc := Lookup, decision := None, balance := None));
        EndIsStrong(s, call, k.(pc := Lookup, decision := None, balance := None));
      } else {
        var saved := Put(s, call, k.(pc := AfterSave(k)));
        AfterSaveIsStrong(s, k, k.(pc := AfterSave(k)));
        PutIsStrong(s, s, call, k.(pc := AfterSave(k)));
        LocksAreIrrelevant(saved, saved.(keyLocks := s.keyLocks[row.key := call]), call);
      }
    }
  }

  lemma AfterSaveIsStrong(s: State, k: Client, k': Client)
    requires k.pc == Save && StrongAt(s, k) && k' == k.(pc := AfterSave(k))
    ensures StrongAt(s, k')
  {
    hide DecidedCurrent, Plain, Aimed, ReversalCurrent;
    ProgressIsIrrelevant(s, s, k, k');
  }

  lemma InsertInboxIsStrong(s: State, call: Id, k: Client)
    requires k.pc == InsertInbox && call in s.clients && s.clients[call] == k && StrongAt(s, k)
    ensures OwnStrong(StepInsertInbox(s, call, k), call)
  {
    hide Plain, Put;
    if k.origin.Sqs? {
      var k' := k.(pc := PreCheck, inbox := Some(InboxRow(k.origin.message.messageId, k.origin.message, false)));
      ProgressIsIrrelevant(s, s, k, k');
      PutIsStrong(s, s, call, k');
    }
  }

  lemma PreCheckIsStrong(s: State, call: Id, k: Client)
    requires k.pc == PreCheck && StrongAt(s, k)
    ensures OwnStrong(StepPreCheck(s, call, k), call)
  {
    hide Plain, Aimed, DecidedCurrent, ReversalCurrent, Put, OwnStrong;
    var found := s.db.FindByKey(k.tx.key);
    if found.Some? {
      PutIsStrong(s, s, call, k.(pc := ReplayEntry, existing := found));
    } else {
      var k' := k.(pc := Entry(k.tx.Kind()));
      ProgressIsIrrelevant(s, s, k, k');
      PlainIsAimed(s, k');
      PutIsStrong(s, s, call, k');
    }
  }

  /** A submission that reverses nothing has no reference to be out of date. */
  lemma PlainIsAimed(s: State, k: Client)
    ensures Plain(s, k) && !k.tx.Kind().IsReversal() ==> Aimed(s, k)
  {
  }

  lemma ReadLossWalletIsStrong(s: State, call: Id, k: Client)
    requires k.pc == ReadLossWallet && call in s.clients && s.clients[call] == k && StrongAt(s, k)
    ensures OwnStrong(StepReadLossWallet(s, call, k), call)
  {
    hide FinishLoss, StrongAt, Put, Refuse;
    RefusalIsStrong(s, call, k, WalletNotFound);
    if k.tx.WalletId() in s.db.wallets {
      var w := s.db.wallets[k.tx.WalletId()];
      match FinishLoss(k.tx, w, call) {
        case Err(e) => RefusalIsStrong(s, call, k, e);
        case Ok(d) =>
          var k' := k.(pc := Save, wallet := Some(w), decision := Some(d), via := NoMovement);
          LossIsStrong(s, k, k');
          PutIsStrong(s, Read(s, call, k), call, k');
      }
    }
  }

  lemma LossIsStrong(s: State, k: Client, k': Client)
    requires k.pc == ReadLossWallet && StrongAt(s, k) && k.tx.WalletId() in s.db.wallets
    requires k' == k.(pc := Save, wallet := Some(s.db.wallets[k.tx.WalletId()]), decision := k'.decision,
                      via := NoMovement)
    ensures StrongAt(s, k')
  {
    hide Plain, Aimed, ReversalCurrent;
    ReadingsMatterOnly(s, s, k, k');
  }

  lemma LockWalletIsStrong(s: State, call: Id, k: Client)
    requires k.pc == LockWallet && call in s.clients && s.clients[call] == k && StrongAt(s, k)
    ensures OwnStrong(StepLockWallet(s, call, k), call)
  {
    hide MovementDirection, StrongAt, Put, Refuse;
    RefusalIsStrong(s, call, k, NoMovementDefined);
    RefusalIsStrong(s, call, k, WalletNotFound);
    if k.tx.WalletId() in s.db.wallets {
      var k' := k.(pc := if k.tx.Kind().IsReversal() then CheckReversal else Decide,
                   wallet := Some(s.db.wallets[k.tx.WalletId()]));
      var locked := Put(s, call, k');
      LockedReadIsStrong(s, k, k');
      PutIsStrong(s, s, call, k');
      LocksAreIrrelevant(locked, locked.(walletLocks := s.walletLocks[k.tx.WalletId() := call]), call);
    }
  }

  lemma LockedReadIsStrong(s: State, k: Client, k': Client)
    requires k.pc == LockWallet && StrongAt(s, k)
    requires k' == k.(pc := if k.tx.Kind().IsReversal() then CheckReversal else Decide, wallet := k'.wallet)
    ensures StrongAt(s, k')
  {
    hide Plain, Aimed;
    ReadingsMatterOnly(s, s, k, k');
  }

  lemma CheckReversalIsStrong(s: State, call: Id, k: Client)
    requires k.pc == CheckReversal && StrongAt(s, k)
    ensures OwnStrong(StepCheckReversal(s, call, k), call)
  {
    hide StrongAt, Put, Refuse, OwnStrong;
    RefusalIsStrong(s, call, k, MissingReference);
    if k.reference.Some? {
      var k' := k.(pc := Decide, reversed := s.db.HasReversal(k.reference.value.id));
      CheckedIsStrong(s, k, k');
      PutIsStrong(s, s, call, k');
    }
  }

  lemma CheckedIsStrong(s: State, k: Client, k': Client)
    requires k.pc == CheckReversal && StrongAt(s, k) && k.reference.Some?
    requires k' == k.(pc := Decide, reversed := s.db.HasReversal(k.reference.value.id))
    ensures StrongAt(s, k')
  {
    hide Plain, DecidedCurrent;
  }

  lemma DecideIsStrong(s: State, call: Id, k: Client)
    requires k.pc == Decide && StrongAt(s, k)
    ensures OwnStrong(StepDecide(s, call, k), call)
  {
    hide Settle, StrongAt, Put, Refuse, OwnStrong;
    if k.wallet.None? {
      RefusalIsStrong(s, call, k, WalletNotFound);
    } else {
      match Settle(k.tx, k.reference, k.wallet.value, k.reversed, call) {
        case Err(e) => RefusalIsStrong(s, call, k, e);
        case Ok(d) =>
          var k' := k.(pc := Save, decision := Some(d), via := Locked, balance := d.balance);
          LockedDecisionIsStrong(s, k, k');
          PutIsStrong(s, s, call, k');
      }
    }
  }

  lemma LockedDecisionIsStrong(s: State, k: Client, k': Client)
    requires k.pc == Decide && StrongAt(s, k)
    requires k' == k.(pc := Save, decision := k'.decision, via := Locked, balance := k'.balance)
    ensures StrongAt(s, k')
  {
    hide Plain, Aimed, ReversalCurrent;
    ReadingsMatterOnly(s, s, k, k');
  }

  lemma ReadBalanceIsStrong(s: State, call: Id, k: Client)
    requires k.pc == ReadBalance && call in s.clients && s.clients[call] == k && StrongAt(s, k)
    ensures OwnStrong(StepReadBalance(s, call, k), call)
  {
    hide DecidedCurrent, Plain, Aimed, ReversalCurrent, Put, Refuse;
    RefusalIsStrong(s, call, k, WalletNotFound);
    if k.tx.WalletId() in s.db.wallets {
      var balance := s.db.wallets[k.tx.WalletId()].balance;
      var k' := if k.origin.Sqs? then k.(pc := CompleteInbox, balance := Some(balance))
                else k.(pc := Done, balance := Some(balance), answer := FreshAnswer(k, balance));
      ProgressIsIrrelevant(s, s, k, k');
      PutIsStrong(s, s, call, k');
      PutIsStrong(s, Read(s, call, k), call, k');
    }
  }

  lemma CompleteInboxIsStrong(s: State, call: Id, k: Client)
    requires k.pc == CompleteInbox && call in s.clients && s.clients[call] == k && StrongAt(s, k)
    ensures OwnStrong(StepCompleteInbox(s, call, k), call)
  {
    hide DecidedCurrent, Plain, Aimed, ReversalCurrent, Put, Refuse, OwnStrong;
    RefusalIsStrong(s, call, k, AlreadyCompleted);
    if k.inbox.Some? {
      var k' := k.(pc := Commit, inbox := Some(k.inbox.value.(completed := true)));
      ProgressIsIrrelevant(s, s, k, k');
      PutIsStrong(s, s, call, k');
    }
  }

  lemma FinishReplayIsStrong(s: State, read: State, call: Id, k: Client, balance: Money)
    requires k.decision.None? && read.db == s.db
    ensures OwnStrong(FinishReplay(read, call, k, balance), call)
  {
    hide Plain, Aimed, DecidedCurrent, ReversalCurrent, Put, OwnStrong;
    PutIsStrong(s, read, call, k.(pc := CompleteInbox, balance := Some(balance)));
    PutIsStrong(s, read, call, k.(pc := Done, balance := Some(balance), answer := FreshAnswer(k, balance)));
  }

  lemma ReplayEntryIsStrong(s: State, call: Id, k: Client)
    requires k.pc == ReplayEntry && k.decision.None?
    ensures OwnStrong(StepReplayEntry(s, call, k), call)
  {
    hide FinishReplay, DecidedCurrent, ReversalCurrent, Aimed, Plain, Put, Refuse, OwnStrong, EntryFor;
    RefusalIsStrong(s, call, k, TransactionNotFound);
    RefusalIsStrong(s, call, k, IdempotencyConflict);
    PutIsStrong(s, s, call, k.(pc := ReplayWallet));
    if k.existing.Some? {
      var entry := s.db.FindLedgerEntry(k.existing.value.id);
      if entry.Some? {
        FinishReplayIsStrong(s, s, call, k, entry.value.balanceAfter);
      }
    }
  }

  lemma ReplayWalletIsStrong(s: State, call: Id, k: Client)
    requires k.pc == ReplayWallet && call in s.clients && s.clients[call] == k && k.decision.None?
    ensures OwnStrong(StepReplayWallet(s, call, k), call)
  {
    hide FinishReplay, DecidedCurrent, ReversalCurrent, Aimed, Plain, Refuse;
    RefusalIsStrong(s, call, k, WalletNotFound);
    if k.tx.WalletId() in s.db.wallets {
      FinishReplayIsStrong(s, Read(s, call, k), call, k, s.db.wallets[k.tx.WalletId()].balance);
    }
  }

  /** Every step that leaves the database alone. */
  lemma QuietAdvanceIsStrong(s: State, call: Id, k: Client)
    requires RowsOk(s.db) && call in s.clients && s.clients[call] == k && ClientOk(s, call, k) && StrongAt(s, k)
    requires k.pc != Commit && k.pc != Schedule
    ensures OwnStrong(Advance(s, call), call)
  {
    hide StrongAt, OwnStrong, StepInsertInbox, StepPreCheck, StepReadReference, StepReadLossWallet, StepLockWallet,
      StepCheckReversal, StepDecide, StepSave, StepReadBalance, StepCompleteInbox, StepCommit, StepReplayEntry,
      StepReplayWallet, Uncommitted, HoldsWallet, HasDecision, Saved, ReadyToCommit, Committed, AnswerOk, Agrees,
      MessageDone, RowsOk;
    match k.pc {
      case InsertInbox => InsertInboxIsStrong(s, call, k);
      case PreCheck => PreCheckIsStrong(s, call, k);
      case ReadReference => ReadReferenceIsStrong(s, call, k);
      case ReadLossWallet => ReadLossWalletIsStrong(s, call, k);
      case LockWallet => LockWalletIsStrong(s, call, k);
      case CheckReversal => CheckReversalIsStrong(s, call, k);
      case Decide => DecideIsStrong(s, call, k);
      case Save => SaveIsStrong(s, call, k);
      case ReadBalance => ReadBalanceIsStrong(s, call, k);
      case CompleteInbox => CompleteInboxIsStrong(s, call, k);
      case ReplayEntry => ReplayEntryIsStrong(s, call, k);
      case ReplayWallet => ReplayWalletIsStrong(s, call, k);
      case _ => OtherPointsAreFree(s, call);
    }
  }

  lemma OtherPointsAreFree(s: State, call: Id)
    requires call in s.clients
    requires var pc := s.clients[call].pc; pc == Lookup || pc == Delete || pc == Done || pc == Dead
    ensures OwnStrong(Advance(s, call), call)
  {
    hide Plain, Aimed, DecidedCurrent, ReversalCurrent, StepInsertInbox, StepPreCheck, StepReadReference,
      StepReadLossWallet, StepLockWallet, StepCheckReversal, StepDecide, StepSave, StepReadBalance, StepCompleteInbox,
      StepCommit, StepReplayEntry, StepReplayWallet, StepSchedule, Release;
  }
}
