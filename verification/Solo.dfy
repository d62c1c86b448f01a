/** A call that nobody interrupts, be it a submission by HTTP, a delivery from the queue or a resolver's
    attempt: step by step the protocol does what processing alone decides, or replays what is there,
    answers it, and gives every lock back. */
module Solo {
  import opened Prelude
  import opened Moneys
  import opened Wallets
  import opened Wagers
  import opened Tables
  import opened Decisions
  import opened Protocol
  import opened Integrity
  import opened Calls
  import opened Serializability

  function AdvanceTimes(s: State, call: Id, n: nat): State {
    if n == 0 then s else Advance(AdvanceTimes(s, call, n - 1), call)
  }

  lemma {:induction false} AdvanceSum(s: State, call: Id, m: nat, n: nat)
    ensures AdvanceTimes(s, call, m + n) == AdvanceTimes(AdvanceTimes(s, call, m), call, n)
  {
    hide Advance;
    if n > 0 {
      AdvanceSum(s, call, m, n - 1);
    }
  }

  // ----- how a call stands while it runs alone -----

  /** All is as it was, but for the call itself and the locks it has taken. */
  predicate Along(s: State, t: State, call: Id, k: Client) {
    && t.db == s.db && t.queue == s.queue && t.deleted == s.deleted
    && t.clients == s.clients[call := k]
    && Release(t.walletLocks, call) == Release(s.walletLocks, call)
    && Release(t.keyLocks, call) == Release(s.keyLocks, call)
  }

  /** After n steps of its own the call has come to k. */
  predicate Reaches(s: State, n: nat, call: Id, k: Client) {
    Along(s, AdvanceTimes(s, call, n), call, k)
  }

  /** The call has taken no lock so far. */
  predicate Untouched(s: State, n: nat, call: Id) {
    var t := AdvanceTimes(s, call, n);
    t.walletLocks == s.walletLocks && t.keyLocks == s.keyLocks
  }

  /** Nobody else holds the locks the call will take. */
  predicate Unhindered(s: State, call: Id, k: Client) {
    Free(s.walletLocks, k.tx.WalletId(), call) && Free(s.keyLocks, k.tx.key, call)
  }

  /** A delivery has its inbox row staged, not completed yet; nobody else has one. */
  predicate InboxReady(k: Client) {
    if k.origin.Sqs? then k.inbox.Some? && !k.inbox.value.completed else k.inbox.None?
  }

  /** The inbox row as it will be committed. */
  function InboxDone(k: Client): Option<InboxRow> {
    match k.inbox
    case Some(row) => Some(row.(completed := true))
    case None => None
  }

  predicate Deletes(origin: Origin, answer: Option<Answer>) {
    origin.Sqs? && answer.Some? && answer.value.Accepted?
  }

  /** How the state stands when the call is over: a delivery that was answered has left the queue. */
  predicate Concluded(s: State, later: State, call: Id, origin: Origin, answer: Option<Answer>, db: Db) {
    && later.db == db
    && call in later.clients && later.clients == s.clients[call := later.clients[call]]
    && later.clients[call].pc == Done && later.clients[call].answer == answer
    && later.walletLocks == Release(s.walletLocks, call) && later.keyLocks == Release(s.keyLocks, call)
    && later.queue == (if Deletes(origin, answer) then s.queue - {origin.delivery} else s.queue)
    && later.deleted ==
       (if Deletes(origin, answer) then s.deleted[origin.delivery := origin.message] else s.deleted)
  }

  lemma StandsAtFirst(s: State, call: Id)
    requires call in s.clients
    ensures Reaches(s, 0, call, s.clients[call])
  {
    hide Release;
  }

  /** Taking a lock that is free changes nothing for anybody else. */
  lemma TakenAlone<K>(locks: map<K, Id>, before: map<K, Id>, key: K, call: Id)
    requires Release(locks, call) == Release(before, call) && Free(before, key, call)
    ensures Free(locks, key, call) && Release(locks[key := call], call) == Release(before, call)
  {
    assert key in locks && locks[key] != call ==> key in Release(before, call);
  }

  /** A refusal leaves the database and the queue alone and gives every lock back. */
  lemma RefusalConcludes(s: State, n: nat, call: Id, k: Client, k': Client, e: Error)
    requires Reaches(s, n, call, k)
    requires AdvanceTimes(s, call, n + 1) == Refuse(AdvanceTimes(s, call, n), call, k', e)
    ensures Concluded(s, AdvanceTimes(s, call, n + 1), call, k.origin, Some(Refused(e)), s.db)
  {
    hide Release, Advance, AdvanceTimes;
  }

  // ----- one step each -----

  lemma StandsHere(s: State, n: nat, call: Id, k: Client)
    requires Reaches(s, n, call, k)
    ensures var t := AdvanceTimes(s, call, n); call in t.clients && t.clients[call] == k && t.db == s.db
  {
    hide Release, AdvanceTimes;
  }

  lemma KeyLockIsFree(s: State, n: nat, call: Id, k: Client)
    requires Reaches(s, n, call, k) && Unhindered(s, call, k)
    ensures Free(AdvanceTimes(s, call, n).keyLocks, k.tx.key, call)
  {
    hide AdvanceTimes;
    TakenAlone(AdvanceTimes(s, call, n).keyLocks, s.keyLocks, k.tx.key, call);
  }

  lemma WalletLockIsFree(s: State, n: nat, call: Id, k: Client)
    requires Reaches(s, n, call, k) && Unhindered(s, call, k)
    ensures Free(AdvanceTimes(s, call, n).walletLocks, k.tx.WalletId(), call)
  {
    hide AdvanceTimes;
    TakenAlone(AdvanceTimes(s, call, n).walletLocks, s.walletLocks, k.tx.WalletId(), call);
  }

  /** A step that takes a free lock besides. */
  lemma TakesKey(s: State, n: nat, call: Id, k: Client, k': Client, key: Key)
    requires Reaches(s, n, call, k) && Free(s.keyLocks, key, call)
    requires var t := AdvanceTimes(s, call, n);
             Advance(t, call) == Put(t, call, k').(keyLocks := t.keyLocks[key := call])
    ensures Reaches(s, n + 1, call, k')
  {
    hide Release, Advance;
    TakenAlone(AdvanceTimes(s, call, n).keyLocks, s.keyLocks, key, call);
  }

  lemma TakesWallet(s: State, n: nat, call: Id, k: Client, k': Client, w: Id)
    requires Reaches(s, n, call, k) && Free(s.walletLocks, w, call)
    requires var t := AdvanceTimes(s, call, n);
             Advance(t, call) == Put(t, call, k').(walletLocks := t.walletLocks[w := call])
    ensures Reaches(s, n + 1, call, k')
  {
    hide Release, Advance;
    TakenAlone(AdvanceTimes(s, call, n).walletLocks, s.walletLocks, w, call);
  }

  lemma AdvancesOnce(s: State, n: nat, call: Id)
    ensures AdvanceTimes(s, call, n + 1) == Advance(AdvanceTimes(s, call, n), call)
  {
    hide Advance;
  }

  /** A step that changes the call alone. */
  lemma GoesOn(s: State, n: nat, call: Id, k: Client, k': Client)
    requires Reaches(s, n, call, k)
             && Advance(AdvanceTimes(s, call, n), call) == Put(AdvanceTimes(s, call, n), call, k')
    ensures Reaches(s, n + 1, call, k') && (Untouched(s, n, call) ==> Untouched(s, n + 1, call))
  {
    hide Release, Advance;
  }

  lemma PreChecks(s: State, n: nat, call: Id, k: Client)
    requires Reaches(s, n, call, k) && k.pc == PreCheck
    ensures var found := s.db.FindByKey(k.tx.key);
            Reaches(s, n + 1, call,
                    if found.Some? then k.(pc := ReplayEntry, existing := found) else k.(pc := Entry(k.tx.Kind())))
    ensures Untouched(s, n, call) ==> Untouched(s, n + 1, call)
  {
    hide Release, Reaches, Along, AdvanceTimes, Untouched, StepInsertInbox, StepReadReference, StepReadLossWallet,
      StepLockWallet, StepCheckReversal, StepDecide, StepSave, StepReadBalance, StepCompleteInbox, StepCommit,
      StepLookup, StepReplayEntry, StepReplayWallet, StepDelete, StepSchedule;
    StandsHere(s, n, call, k);
    var found := s.db.FindByKey(k.tx.key);
    GoesOn(s, n, call, k,
           if found.Some? then k.(pc := ReplayEntry, existing := found) else k.(pc := Entry(k.tx.Kind())));
  }

  lemma LooksUp(s: State, n: nat, call: Id, k: Client)
    requires Reaches(s, n, call, k) && k.pc == Lookup && s.db.FindByKey(k.tx.key).Some?
    ensures Reaches(s, n + 1, call, k.(pc := ReplayEntry, existing := s.db.FindByKey(k.tx.key)))
    ensures Untouched(s, n, call) ==> Untouched(s, n + 1, call)
  {
    hide Release, Reaches, Along, AdvanceTimes, Untouched, StepInsertInbox, StepPreCheck, StepReadReference,
      StepReadLossWallet, StepLockWallet, StepCheckReversal, StepDecide, StepSave, StepReadBalance, StepCompleteInbox,
      StepCommit, StepReplayEntry, StepReplayWallet, StepDelete, StepSchedule;
    StandsHere(s, n, call, k);
    GoesOn(s, n, call, k, k.(pc := ReplayEntry, existing := s.db.FindByKey(k.tx.key)));
  }

  /** Reading the reference: the call settles, stops, or goes on to the lock. */
  lemma ReadsReference(s: State, n: nat, call: Id, k: Client)
    requires Reaches(s, n, call, k) && k.pc == ReadReference && k.tx.payload.referenceExternalId.Some?
    ensures var found := s.db.FindByKey(Key(k.tx.key.providerId, k.tx.payload.referenceExternalId.value));
            match OnReference(k.tx, found, call)
            case Continue(tx, reference) =>
              Reaches(s, n + 1, call, k.(pc := LockWallet, tx := tx, reference := Some(reference)))
            case Settled(d) =>
              Reaches(s, n + 1, call,
                      if d.writes == NoWrites then k.(pc := Schedule)
                      else k.(pc := Save, decision := Some(d), via := if found.None? then Parked else BadReference))
            case Stop(e) => AdvanceTimes(s, call, n + 1) == Refuse(AdvanceTimes(s, call, n), call, k, e)
  {
    hide Release, Reaches, Along, AdvanceTimes, Untouched, OnReference, Refuse, StepInsertInbox, StepPreCheck,
      StepReadLossWallet, StepLockWallet, StepCheckReversal, StepDecide, StepSave, StepReadBalance, StepCompleteInbox,
      StepCommit, StepLookup, StepReplayEntry, StepReplayWallet, StepDelete, StepSchedule;
    StandsHere(s, n, call, k);
    var found := s.db.FindByKey(Key(k.tx.key.providerId, k.tx.payload.referenceExternalId.value));
    AdvancesOnce(s, n, call);
    match OnReference(k.tx, found, call) {
      case Continue(tx, reference) =>
        GoesOn(s, n, call, k, k.(pc := LockWallet, tx := tx, reference := Some(reference)));
      case Settled(d) =>
        GoesOn(s, n, call, k,
               if d.writes == NoWrites then k.(pc := Schedule)
               else k.(pc := Save, decision := Some(d), via := if found.None? then Parked else BadReference));
      case Stop(e) =>
    }
  }

  lemma NamesNoReference(s: State, n: nat, call: Id, k: Client)
    requires Reaches(s, n, call, k) && k.pc == ReadReference && k.tx.payload.referenceExternalId.None?
    ensures AdvanceTimes(s, call, n + 1) == Refuse(AdvanceTimes(s, call, n), call, k, MissingReference)
  {
    hide Release, Reaches, Along, AdvanceTimes, Untouched, Refuse, StepInsertInbox, StepPreCheck, StepReadLossWallet,
      StepLockWallet, StepCheckReversal, StepDecide, StepSave, StepReadBalance, StepCompleteInbox, StepCommit,
      StepLookup, StepReplayEntry, StepReplayWallet, StepDelete, StepSchedule;
    StandsHere(s, n, call, k);
    AdvancesOnce(s, n, call);
  }

  lemma ReadsLossWallet(s: State, n: nat, call: Id, k: Client)
    requires Reaches(s, n, call, k) && k.pc == ReadLossWallet && Unhindered(s, call, k)
    ensures var w := s.db.FindWallet(k.tx.WalletId());
            if w.None? then AdvanceTimes(s, call, n + 1) == Refuse(AdvanceTimes(s, call, n), call, k, WalletNotFound)
            else match FinishLoss(k.tx, w.value, call)
              case Ok(d) =>
                Reaches(s, n + 1, call, k.(pc := Save, wallet := w, decision := Some(d), via := NoMovement))
              case Err(e) => AdvanceTimes(s, call, n + 1) == Refuse(AdvanceTimes(s, call, n), call, k, e)
  {
    hide Release, Reaches, Along, AdvanceTimes, Untouched, FinishLoss, Refuse, StepInsertInbox, StepPreCheck,
      StepReadReference, StepLockWallet, StepCheckReversal, StepDecide, StepSave, StepReadBalance, StepCompleteInbox,
      StepCommit, StepLookup, StepReplayEntry, StepReplayWallet, StepDelete, StepSchedule;
    StandsHere(s, n, call, k);
    AdvancesOnce(s, n, call);
    WalletLockIsFree(s, n, call, k);
    var w := s.db.FindWallet(k.tx.WalletId());
    if w.Some? && FinishLoss(k.tx, w.value, call).Ok? {
      var k' := k.(pc := Save, wallet := w, decision := Some(FinishLoss(k.tx, w.value, call).value), via := NoMovement);
      if k.origin.Sqs? {
        TakesWallet(s, n, call, k, k', k.tx.WalletId());
      } else {
        GoesOn(s, n, call, k, k');
      }
    }
  }

  lemma LocksWallet(s: State, n: nat, call: Id, k: Client)
    requires Reaches(s, n, call, k) && k.pc == LockWallet && Unhindered(s, call, k)
    ensures var w := s.db.FindWallet(k.tx.WalletId());
            var refused := if MovementDirection(k.tx.Kind(), k.reference).Err? then Some(NoMovementDefined)
                           else if w.None? then Some(WalletNotFound) else None;
            if refused.Some?
            then AdvanceTimes(s, call, n + 1) == Refuse(AdvanceTimes(s, call, n), call, k, refused.value)
            else Reaches(s, n + 1, call,
                         k.(pc := if k.tx.Kind().IsReversal() then CheckReversal else Decide, wallet := w))
  {
    hide Release, Reaches, Along, AdvanceTimes, Untouched, MovementDirection, Refuse, StepInsertInbox, StepPreCheck,
      StepReadReference, StepReadLossWallet, StepCheckReversal, StepDecide, StepSave, StepReadBalance,
      StepCompleteInbox, StepCommit, StepLookup, StepReplayEntry, StepReplayWallet, StepDelete, StepSchedule;
    StandsHere(s, n, call, k);
    AdvancesOnce(s, n, call);
    WalletLockIsFree(s, n, call, k);
    if MovementDirection(k.tx.Kind(), k.reference).Ok? && k.tx.WalletId() in s.db.wallets {
      TakesWallet(s, n, call, k, k.(pc := if k.tx.Kind().IsReversal() then CheckReversal else Decide,
                                    wallet := s.db.FindWallet(k.tx.WalletId())), k.tx.WalletId());
    }
  }

  lemma ChecksReversal(s: State, n: nat, call: Id, k: Client)
    requires Reaches(s, n, call, k) && k.pc == CheckReversal && k.reference.Some?
    ensures Reaches(s, n + 1, call, k.(pc := Decide, reversed := s.db.HasReversal(k.reference.value.id)))
  {
    hide Release, Reaches, Along, AdvanceTimes, Untouched, StepInsertInbox, StepPreCheck, StepReadReference,
      StepReadLossWallet, StepLockWallet, StepDecide, StepSave, StepReadBalance, StepCompleteInbox, StepCommit,
      StepLookup, StepReplayEntry, StepReplayWallet, StepDelete, StepSchedule;
    StandsHere(s, n, call, k);
    GoesOn(s, n, call, k, k.(pc := Decide, reversed := s.db.HasReversal(k.reference.value.id)));
  }

  lemma Decides(s: State, n: nat, call: Id, k: Client)
    requires Reaches(s, n, call, k) && k.pc == Decide && k.wallet.Some?
    ensures match Settle(k.tx, k.reference, k.wallet.value, k.reversed, call)
            case Ok(d) =>
              Reaches(s, n + 1, call, k.(pc := Save, decision := Some(d), via := Locked, balance := d.balance))
            case Err(e) => AdvanceTimes(s, call, n + 1) == Refuse(AdvanceTimes(s, call, n), call, k, e)
  {
    hide Release, Reaches, Along, AdvanceTimes, Untouched, Settle, Refuse, StepInsertInbox, StepPreCheck,
      StepReadReference, StepReadLossWallet, StepLockWallet, StepCheckReversal, StepSave, StepReadBalance,
      StepCompleteInbox, StepCommit, StepLookup, StepReplayEntry, StepReplayWallet, StepDelete, StepSchedule;
    StandsHere(s, n, call, k);
    AdvancesOnce(s, n, call);
    match Settle(k.tx, k.reference, k.wallet.value, k.reversed, call) {
      case Ok(d) =>
        GoesOn(s, n, call, k, k.(pc := Save, decision := Some(d), via := Locked, balance := d.balance));
      case Err(e) =>
    }
  }

  /** The decision is about the call's own row, which the tables take. */
  predicate SavesItsRow(s: State, k: Client) {
    && k.decision.Some? && k.decision.value.writes.row.Some?
    && k.decision.value.writes.row.value.SameBusiness(k.tx)
    && !EntryCollides(s.db, k.decision.value.writes)
    && (k.tx.id in s.db.txs || k.tx.key !in s.db.index)
  }

  lemma Saves(s: State, n: nat, call: Id, k: Client)
    requires Reaches(s, n, call, k) && k.pc == Save && SavesItsRow(s, k) && Unhindered(s, call, k)
    ensures if k.tx.id in s.db.txs || k.tx.WalletId() in s.db.wallets
            then Reaches(s, n + 1, call, k.(pc := AfterSave(k)))
            else AdvanceTimes(s, call, n + 1) == Refuse(AdvanceTimes(s, call, n), call, k, ConstraintViolation)
  {
    hide Release, Reaches, Along, AdvanceTimes, Untouched, EntryCollides, Refuse, StepInsertInbox, StepPreCheck,
      StepReadReference, StepReadLossWallet, StepLockWallet, StepCheckReversal, StepDecide, StepReadBalance,
      StepCompleteInbox, StepCommit, StepLookup, StepReplayEntry, StepReplayWallet, StepDelete, StepSchedule;
    StandsHere(s, n, call, k);
    AdvancesOnce(s, n, call);
    var k' := k.(pc := AfterSave(k));
    if k.tx.id in s.db.txs {
      GoesOn(s, n, call, k, k');
    } else {
      KeyLockIsFree(s, n, call, k);
      if k.tx.WalletId() in s.db.wallets {
        TakesKey(s, n, call, k, k', k.tx.key);
      }
    }
  }

  lemma DeliveryReadsBalance(s: State, n: nat, call: Id, k: Client)
    requires Reaches(s, n, call, k) && k.pc == ReadBalance && k.origin.Sqs? && Unhindered(s, call, k)
    requires k.tx.WalletId() in s.db.wallets
    ensures Reaches(s, n + 1, call,
                    k.(pc := CompleteInbox, balance := Some(s.db.wallets[k.tx.WalletId()].balance)))
  {
    hide Release, Reaches, Along, AdvanceTimes, Untouched, StepInsertInbox, StepPreCheck, StepReadReference,
      StepReadLossWallet, StepLockWallet, StepCheckReversal, StepDecide, StepSave, StepCompleteInbox, StepCommit,
      StepLookup, StepReplayEntry, StepReplayWallet, StepDelete, StepSchedule;
    StandsHere(s, n, call, k);
    WalletLockIsFree(s, n, call, k);
    TakesWallet(s, n, call, k, k.(pc := CompleteInbox, balance := Some(s.db.wallets[k.tx.WalletId()].balance)),
                k.tx.WalletId());
  }

  lemma CompletesInbox(s: State, n: nat, call: Id, k: Client)
    requires Reaches(s, n, call, k) && k.pc == CompleteInbox && k.inbox.Some? && !k.inbox.value.completed
    ensures Reaches(s, n + 1, call, k.(pc := Commit, inbox := InboxDone(k)))
  {
    hide Release, Reaches, Along, AdvanceTimes, Untouched, StepInsertInbox, StepPreCheck, StepReadReference,
      StepReadLossWallet, StepLockWallet, StepCheckReversal, StepDecide, StepSave, StepReadBalance, StepCommit,
      StepLookup, StepReplayEntry, StepReplayWallet, StepDelete, StepSchedule;
    StandsHere(s, n, call, k);
    GoesOn(s, n, call, k, k.(pc := Commit, inbox := InboxDone(k)));
  }

  // ----- committing, and what follows -----

  /** The call has committed: the database has its writes, and it holds no lock. */
  predicate EndedWith(s: State, later: State, call: Id, k: Client, db: Db) {
    && later.db == db && later.queue == s.queue && later.deleted == s.deleted
    && later.clients == s.clients[call := k]
    && later.walletLocks == Release(s.walletLocks, call) && later.keyLocks == Release(s.keyLocks, call)
  }

  /** The call once it has committed. */
  function CommittedClient(k: Client): Client {
    if k.balance.None? then k.(pc := ReadBalance)
    else k.(pc := if k.origin.Sqs? then Delete else Done, answer := FreshAnswer(k, k.balance.value))
  }

  lemma EndsCommitted(s: State, t: State, call: Id, k: Client, k': Client, db: Db)
    requires Along(s, t, call, k)
    ensures EndedWith(s, End(t.(db := db), call, k'), call, k', db)
  {
    hide Release;
  }

  lemma CommitsAlone(s: State, n: nat, call: Id, k: Client)
    requires Reaches(s, n, call, k) && k.pc == Commit
    ensures EndedWith(s, AdvanceTimes(s, call, n + 1), call, CommittedClient(k), Apply(s.db, Staged(k)))
  {
    hide Release, AdvanceTimes, Untouched, Apply, FreshAnswer, Staged, StepInsertInbox, StepPreCheck, StepReadReference,
      StepReadLossWallet, StepLockWallet, StepCheckReversal, StepDecide, StepSave, StepReadBalance, StepCompleteInbox,
      StepLookup, StepReplayEntry, StepReplayWallet, StepDelete, StepSchedule;
    AdvancesOnce(s, n, call);
    var t := AdvanceTimes(s, call, n);
    assert Advance(t, call) == StepCommit(t, call, k);
    EndsCommitted(s, t, call, k, CommittedClient(k), Apply(s.db, Staged(k)));
  }

  lemma DeletesMessage(s: State, t: State, call: Id, k: Client, db: Db)
    requires EndedWith(s, t, call, k, db) && k.pc == Delete && k.origin.Sqs?
             && k.answer.Some? && k.answer.value.Accepted?
    ensures Concluded(s, Advance(t, call), call, k.origin, k.answer, db)
  {
    hide Release, StepInsertInbox, StepPreCheck, StepReadReference, StepReadLossWallet, StepLockWallet,
      StepCheckReversal, StepDecide, StepSave, StepReadBalance, StepCompleteInbox, StepCommit, StepLookup,
      StepReplayEntry, StepReplayWallet, StepSchedule;
    assert Advance(t, call) == StepDelete(t, call, k);
  }

  lemma AnswersDirectly(s: State, t: State, call: Id, k: Client, db: Db)
    requires EndedWith(s, t, call, k, db) && k.pc == Done && !k.origin.Sqs?
    ensures Concluded(s, t, call, k.origin, k.answer, db)
  {
    hide Release;
  }

  lemma ReadsBalance(s: State, t: State, call: Id, k: Client, db: Db)
    requires EndedWith(s, t, call, k, db) && k.pc == ReadBalance && !k.origin.Sqs? && k.tx.WalletId() in db.wallets
    ensures Concluded(s, Advance(t, call), call, k.origin, FreshAnswer(k, db.wallets[k.tx.WalletId()].balance), db)
  {
    hide Release, FreshAnswer, StepInsertInbox, StepPreCheck, StepReadReference, StepReadLossWallet, StepLockWallet,
      StepCheckReversal, StepDecide, StepSave, StepCompleteInbox, StepCommit, StepLookup, StepReplayEntry,
      StepReplayWallet, StepDelete, StepSchedule;
    assert Advance(t, call) == StepReadBalance(t, call, k);
  }

  /** From Commit on. */
  lemma {:induction false} FromCommit(s: State, n: nat, call: Id, k: Client, answer: Answer) returns (m: nat)
    requires Reaches(s, n, call, k) && k.pc == Commit && answer.Accepted?
    requires k.origin.Sqs? ==> k.balance.Some?
    requires k.balance.None? ==> k.tx.WalletId() in Apply(s.db, Staged(k)).wallets
    requires FreshAnswer(k, if k.balance.Some? then k.balance.value
                            else Apply(s.db, Staged(k)).wallets[k.tx.WalletId()].balance) == Some(answer)
    ensures Concluded(s, AdvanceTimes(s, call, m), call, k.origin, Some(answer), Apply(s.db, Staged(k)))
  {
    hide Release, Apply, Advance, Staged, Reaches, Concluded, EndedWith;
    var db := Apply(s.db, Staged(k));
    var t := AdvanceTimes(s, call, n + 1);
    CommitsAlone(s, n, call, k);
    if k.balance.None? {
      m := n + 2;
      AnswerIgnoresPoint(k, ReadBalance, db.wallets[k.tx.WalletId()].balance);
      ReadsBalance(s, t, call, CommittedClient(k), db);
    } else if k.origin.Sqs? {
      m := n + 2;
      DeletesMessage(s, t, call, CommittedClient(k), db);
    } else {
      m := n + 1;
      AnswersDirectly(s, t, call, CommittedClient(k), db);
    }
  }

  lemma AnswerIgnoresPoint(k: Client, pc: Pc, balance: Money)
    ensures FreshAnswer(k.(pc := pc), balance) == FreshAnswer(k, balance)
  {
  }

  /** What a call's decision leaves of the tables: its writes, and a delivery's completed inbox row. */
  function Written(db: Db, k: Client, d: Decision): Db {
    Apply(db, d.writes.(inbox := InboxDone(k)))
  }

  /** The balance a decision is answered with. */
  function BalanceFor(db: Db, tx: Tx, d: Decision): Money
    requires tx.WalletId() in db.wallets
  {
    if d.balance.Some? then d.balance.value else db.wallets[tx.WalletId()].balance
  }

  /** From Save on, where the tables take the row. */
  lemma {:induction false} FromSave(s: State, n: nat, call: Id, k: Client, d: Decision) returns (m: nat)
    requires Reaches(s, n, call, k) && k.pc == Save && k.decision == Some(d) && SavesItsRow(s, k)
    requires Unhindered(s, call, k) && k.tx.WalletId() in s.db.wallets && InboxReady(k)
    requires k.balance == d.balance && (d.balance.None? ==> d.writes.wallet.None?)
    ensures Concluded(s, AdvanceTimes(s, call, m), call, k.origin,
                      Some(Accepted(d.tx, BalanceFor(s.db, k.tx, d), false)), Written(s.db, k, d))
  {
    hide Release, Apply, Advance, AdvanceTimes, Reaches, Concluded, SavesItsRow, Unhindered, FreshAnswer;
    Saves(s, n, call, k);
    var answer := Accepted(d.tx, BalanceFor(s.db, k.tx, d), false);
    if k.origin.Sqs? {
      var k1 := k.(pc := AfterSave(k));
      m := n + 1;
      if k.balance.None? {
        SameTransaction(s, call, k, k1);
        DeliveryReadsBalance(s, m, call, k1);
        k1 := k1.(pc := CompleteInbox, balance := Some(s.db.wallets[k.tx.WalletId()].balance));
        m := m + 1;
      }
      CompletesInbox(s, m, call, k1);
      var k2 := k1.(pc := Commit, inbox := InboxDone(k1));
      OwnAnswer(k2, d, k1.balance.value);
      m := FromCommit(s, m + 1, call, k2, answer);
      assert Staged(k2) == d.writes.(inbox := InboxDone(k));
    } else {
      var k1 := k.(pc := Commit);
      assert Staged(k1) == d.writes.(inbox := InboxDone(k));
      WalletStays(s.db, Staged(k1), k.tx.WalletId());
      OwnAnswer(k1, d, BalanceFor(s.db, k.tx, d));
      m := FromCommit(s, n + 1, call, k1, answer);
    }
  }

  lemma SameTransaction(s: State, call: Id, k: Client, k': Client)
    requires Unhindered(s, call, k) && k'.tx == k.tx
    ensures Unhindered(s, call, k')
  {
  }

  lemma OwnAnswer(k: Client, d: Decision, balance: Money)
    requires k.decision == Some(d)
    ensures FreshAnswer(k, balance) == Some(Accepted(d.tx, balance, false))
  {
  }

  lemma WalletStays(db: Db, w: Writes, walletId: Id)
    requires walletId in db.wallets
    ensures walletId in Apply(db, w).wallets
    ensures w.wallet.None? ==> Apply(db, w).wallets == db.wallets
  {
  }

  // ----- what processing alone writes -----

  /** What a settlement writes. */
  lemma SettlementSaves(db: Db, tx: Tx, reference: Option<Tx>, call: Id, d: Decision)
    requires SettleAlone(db, tx, reference, call) == Ok(d)
    ensures d.balance.Some? && d.writes.row == Some(d.tx) && d.tx.SameBusiness(tx) && d.writes.inbox.None?
    ensures d.writes.entry.Some? ==> d.writes.entry.value.transactionId == tx.id
  {
  }

  /** The row-only decisions; parking a row that is parked already writes nothing. */
  lemma RowOnlySaves(tx: Tx, call: Id, d: Decision)
    requires (exists code: FailureCode :: RejectTx(tx, code, call) == Ok(d)) || ParkReference(tx, call) == Ok(d)
             || (exists w: WalletRow :: FinishLoss(tx, w, call) == Ok(d))
    ensures d.balance.None? && d.writes.inbox.None? && d.writes.wallet.None? && d.writes.entry.None?
    ensures d.writes != NoWrites ==> d.writes.row == Some(d.tx) && d.tx.SameBusiness(tx)
    ensures d.writes == NoWrites <==> tx.status == PendingReference && ParkReference(tx, call) == Ok(d)
  {
  }

  lemma OutcomeOfReference(tx: Tx, found: Option<Tx>, call: Id)
    ensures var o := OnReference(tx, found, call);
            && (o.Settled? ==>
                  RejectTx(tx, InvalidReferenceCode, call) == Ok(o.decision)
                  || ParkReference(tx, call) == Ok(o.decision))
            && (o.Continue? ==> o.tx == tx.(referenceId := Some(o.reference.id)))
  {
  }

  lemma OwnEntryIsNew(s: State, k: Client, d: Decision)
    requires NoEntryFor(s.db, k.tx.id) && (k.tx.id in s.db.txs || k.tx.key !in s.db.index)
    requires k.decision == Some(d) && d.writes.row == Some(d.tx) && d.tx.SameBusiness(k.tx)
    requires d.writes.entry.Some? ==> d.writes.entry.value.transactionId == k.tx.id
    ensures SavesItsRow(s, k)
  {
  }

  // ----- what a call alone comes to -----

  /** What the tables are left with once this has been decided, and may be saved. */
  function DbAfter(db: Db, k: Client, r: Result<Decision>): Db {
    if r.Ok? && (k.tx.id in db.txs || k.tx.WalletId() in db.wallets) then Written(db, k, r.value) else db
  }

  function AnswerAfter(db: Db, tx: Tx, r: Result<Decision>): Answer
    requires tx.id in db.txs ==> tx.WalletId() in db.wallets
  {
    match r
    case Err(e) => Refused(e)
    case Ok(d) =>
      if tx.WalletId() in db.wallets then Accepted(d.tx, BalanceFor(db, tx, d), false) else Refused(ConstraintViolation)
  }

  /** A call about to process: what it has read is nothing yet, and its row may be saved. */
  predicate AboutToProcess(s: State, call: Id, k: Client) {
    && k.decision.None? && k.balance.None? && k.reference.None? && InboxReady(k)
    && (k.tx.status == Pending || k.tx.status == PendingReference)
    && (if k.tx.id in s.db.txs then k.tx.WalletId() in s.db.wallets else k.tx.key !in s.db.index)
    && NoEntryFor(s.db, k.tx.id) && Unhindered(s, call, k)
  }

  /** After m steps of its own the call is over, as this decision or refusal has it. */
  predicate ConcludesAs(s: State, m: nat, call: Id, k: Client, r: Result<Decision>) {
    && (k.tx.id in s.db.txs ==> k.tx.WalletId() in s.db.wallets)
    && Concluded(s, AdvanceTimes(s, call, m), call, k.origin, Some(AnswerAfter(s.db, k.tx, r)), DbAfter(s.db, k, r))
  }

  lemma RefusedAs(s: State, n: nat, call: Id, k: Client, e: Error)
    requires Reaches(s, n, call, k)
    requires AdvanceTimes(s, call, n + 1) == Refuse(AdvanceTimes(s, call, n), call, k, e)
    ensures Concluded(s, AdvanceTimes(s, call, n + 1), call, k.origin, Some(Refused(e)), s.db)
  {
    RefusalConcludes(s, n, call, k, k, e);
  }

  /** Save what was decided, or fail on the missing wallet. */
  lemma {:induction false} SavedAlone(s: State, n: nat, call: Id, k: Client, d: Decision) returns (m: nat)
    requires Reaches(s, n, call, k) && k.pc == Save && k.decision == Some(d) && SavesItsRow(s, k)
    requires Unhindered(s, call, k) && InboxReady(k) && (k.tx.id in s.db.txs ==> k.tx.WalletId() in s.db.wallets)
    requires k.balance == d.balance && (d.balance.None? ==> d.writes.wallet.None?)
    ensures ConcludesAs(s, m, call, k, Ok(d))
  {
    hide Release, Apply, Advance, AdvanceTimes, Reaches, Concluded, SavesItsRow, Unhindered, Refuse, Written;
    if k.tx.WalletId() in s.db.wallets {
      m := FromSave(s, n, call, k, d);
    } else {
      m := n + 1;
      Saves(s, n, call, k);
      RefusedAs(s, n, call, k, ConstraintViolation);
    }
  }

  /** The client once it has read, under the lock, what the decision needs. */
  function Informed(s: State, k: Client): Client {
    k.(pc := Decide, wallet := s.db.FindWallet(k.tx.WalletId()),
       reversed := if k.tx.Kind().IsReversal() && k.reference.Some?
                   then s.db.HasReversal(k.reference.value.id) else k.reversed)
  }

  lemma {:induction false} ReadsUnderLock(s: State, n: nat, call: Id, k: Client) returns (m: nat)
    requires Reaches(s, n, call, k) && k.pc == LockWallet && Unhindered(s, call, k) && !k.reversed
    requires k.tx.Kind().IsReversal() ==> k.reference.Some?
    requires MovementDirection(k.tx.Kind(), k.reference).Ok? && k.tx.WalletId() in s.db.wallets
    ensures Reaches(s, m, call, Informed(s, k))
  {
    hide Release, Advance, AdvanceTimes, Reaches, MovementDirection;
    LocksWallet(s, n, call, k);
    m := n + 1;
    if k.tx.Kind().IsReversal() {
      ChecksReversal(s, m, call, k.(pc := CheckReversal, wallet := s.db.FindWallet(k.tx.WalletId())));
      m := m + 1;
    }
  }

  /** From the lock on: the block is SettleAlone. */
  lemma {:induction false} LockedAlone(s: State, n: nat, call: Id, k: Client) returns (m: nat)
    requires Reaches(s, n, call, k) && k.pc == LockWallet && !k.reversed
             && AboutToProcess(s, call, k.(reference := None))
    requires k.tx.Kind().IsReversal() ==> k.reference.Some?
    ensures ConcludesAs(s, m, call, k, SettleAlone(s.db, k.tx, k.reference, call))
  {
    hide Release, Apply, Advance, AdvanceTimes, Reaches, Concluded, SavesItsRow, Unhindered, Refuse, Written,
      MovementDirection, Settle, NoEntryFor;
    SameTransaction(s, call, k.(reference := None), k);
    if MovementDirection(k.tx.Kind(), k.reference).Err? || k.tx.WalletId() !in s.db.wallets {
      m := n + 1;
      LocksWallet(s, n, call, k);
      RefusedAs(s, n, call, k,
                if MovementDirection(k.tx.Kind(), k.reference).Err? then NoMovementDefined else WalletNotFound);
    } else {
      m := ReadsUnderLock(s, n, call, k);
      var k1 := Informed(s, k);
      Decides(s, m, call, k1);
      match SettleAlone(s.db, k.tx, k.reference, call) {
        case Err(e) =>
          RefusedAs(s, m, call, k1, e);
          m := m + 1;
        case Ok(d) =>
          var k2 := k1.(pc := Save, decision := Some(d), via := Locked, balance := d.balance);
          SettlementSaves(s.db, k.tx, k.reference, call, d);
          OwnEntryIsNew(s, k2, d);
          SameTransaction(s, call, k, k2);
          m := SavedAlone(s, m + 1, call, k2, d);
          SameConclusion(s, m, call, k2, k, Ok(d));
      }
    }
  }

  /** The row-only decisions, saved as they stand. */
  lemma {:induction false} RowOnlyAlone(s: State, n: nat, call: Id, k: Client, k': Client, d: Decision)
    returns (m: nat)
    requires AboutToProcess(s, call, k) && Reaches(s, n, call, k') && k'.pc == Save && k'.decision == Some(d)
    requires k'.tx == k.tx && k'.origin == k.origin && k'.inbox == k.inbox && k'.balance.None?
    requires d.balance.None? && d.writes.wallet.None? && d.writes.entry.None?
    requires d.writes.row == Some(d.tx) && d.tx.SameBusiness(k.tx)
    ensures ConcludesAs(s, m, call, k, Ok(d))
  {
    hide Release, Apply, Advance, AdvanceTimes, Reaches, Concluded, SavesItsRow, Unhindered, NoEntryFor;
    OwnEntryIsNew(s, k', d);
    SameTransaction(s, call, k, k');
    m := SavedAlone(s, n, call, k', d);
  }

  /** The resolver finds the reference missing still: it counts the attempt. */
  predicate StillMissing(s: State, k: Client) {
    k.tx.Kind().IsReversal() && k.tx.payload.referenceExternalId.Some? && k.tx.status == PendingReference
    && s.db.FindByKey(Key(k.tx.key.providerId, k.tx.payload.referenceExternalId.value)).None?
  }

  lemma MissingWritesNothing(s: State, call: Id, k: Client)
    requires k.tx.Kind().IsReversal() && k.tx.payload.referenceExternalId.Some?
    ensures var o := OnReference(k.tx, s.db.FindByKey(Key(k.tx.key.providerId,
                                                          k.tx.payload.referenceExternalId.value)), call);
            StillMissing(s, k) <==> o.Settled? && o.decision.writes == NoWrites
  {
  }

  lemma {:induction false} ReversalAlone(s: State, n: nat, call: Id, k: Client) returns (m: nat)
    requires Reaches(s, n, call, k) && k.pc == ReadReference && !k.reversed && AboutToProcess(s, call, k)
    requires k.tx.Kind().IsReversal() && !StillMissing(s, k)
    ensures ConcludesAs(s, m, call, k, ProcessAlone(s.db, k.tx, call))
  {
    hide Release, Apply, Advance, AdvanceTimes, Reaches, Concluded, Unhindered, Refuse, OnReference, SettleAlone,
      NoEntryFor, StillMissing, RejectTx, ParkReference;
    if k.tx.payload.referenceExternalId.None? {
      m := n + 1;
      NamesNoReference(s, n, call, k);
      RefusedAs(s, n, call, k, MissingReference);
    } else {
      ReadsReference(s, n, call, k);
      MissingWritesNothing(s, call, k);
      var found := s.db.FindByKey(Key(k.tx.key.providerId, k.tx.payload.referenceExternalId.value));
      OutcomeOfReference(k.tx, found, call);
      match OnReference(k.tx, found, call) {
        case Stop(e) =>
          m := n + 1;
          RefusedAs(s, n, call, k, e);
        case Continue(tx, reference) =>
          var k' := k.(pc := LockWallet, tx := tx, reference := Some(reference));
          ResolvedGoesOn(s, call, k, k');
          m := LockedAlone(s, n + 1, call, k');
          SameConclusion(s, m, call, k', k, SettleAlone(s.db, tx, Some(reference), call));
        case Settled(d) =>
          RowOnlySaves(k.tx, call, d);
          m := RowOnlyAlone(s, n + 1, call, k,
                            k.(pc := Save, decision := Some(d), via := if found.None? then Parked else BadReference),
                            d);
      }
    }
  }

  lemma ResolvedGoesOn(s: State, call: Id, k: Client, k': Client)
    requires AboutToProcess(s, call, k) && k'.tx == k.tx.(referenceId := k'.tx.referenceId)
    requires k' == k.(pc := k'.pc, tx := k'.tx, reference := k'.reference)
    ensures AboutToProcess(s, call, k'.(reference := None))
  {
  }

  /** Neither the resolved reference nor the point of the program matters to how a call concludes. */
  lemma SameConclusion(s: State, m: nat, call: Id, k: Client, k': Client, r: Result<Decision>)
    requires ConcludesAs(s, m, call, k, r) && k'.inbox == k.inbox && k'.origin == k.origin
    requires k.tx == k'.tx.(referenceId := k.tx.referenceId)
    ensures ConcludesAs(s, m, call, k', r)
  {
    hide Apply, Concluded, AdvanceTimes;
  }

  lemma {:induction false} LossRunsAlone(s: State, n: nat, call: Id, k: Client) returns (m: nat)
    requires Reaches(s, n, call, k) && k.pc == ReadLossWallet && k.tx.Kind() == Loss && AboutToProcess(s, call, k)
    ensures ConcludesAs(s, m, call, k, ProcessAlone(s.db, k.tx, call))
  {
    hide Release, Apply, Advance, AdvanceTimes, Reaches, Concluded, Unhindered, Refuse, FinishLoss, NoEntryFor;
    ReadsLossWallet(s, n, call, k);
    match ProcessAlone(s.db, k.tx, call) {
      case Err(e) =>
        m := n + 1;
        RefusedAs(s, n, call, k, e);
      case Ok(d) =>
        var w := s.db.FindWallet(k.tx.WalletId());
        RowOnlySaves(k.tx, call, d);
        LossesWrite(k.tx, w.value, call, d);
        m := RowOnlyAlone(s, n + 1, call, k,
                          k.(pc := Save, wallet := w, decision := Some(d), via := NoMovement), d);
    }
  }

  lemma LossesWrite(tx: Tx, w: WalletRow, call: Id, d: Decision)
    requires FinishLoss(tx, w, call) == Ok(d)
    ensures d.writes != NoWrites
  {
  }

  /** A call that processes and that nobody interrupts concludes as processing alone decides. */
  lemma {:induction false} ProcessesAlone(s: State, n: nat, call: Id, k: Client) returns (m: nat)
    requires Reaches(s, n, call, k) && k.pc == Entry(k.tx.Kind()) && !k.reversed && AboutToProcess(s, call, k)
    requires !StillMissing(s, k)
    ensures ConcludesAs(s, m, call, k, ProcessAlone(s.db, k.tx, call))
  {
    hide Release, Apply, Advance, AdvanceTimes, Reaches, Concluded, Unhindered, SettleAlone, NoEntryFor, OnReference,
      FinishLoss, StillMissing;
    if k.tx.Kind().IsReversal() {
      m := ReversalAlone(s, n, call, k);
    } else if k.tx.Kind() == Loss {
      m := LossRunsAlone(s, n, call, k);
    } else {
      m := LockedAlone(s, n, call, k);
    }
  }

  // ----- a replay -----

  /** What a submission of a known key is answered: the row with its entry's balance, or the wallet's
      where it has none, and the conflict for other content. */
  function ReplayAnswer(db: Db, existing: Tx, tx: Tx): Answer {
    if existing.payload != tx.payload then Refused(IdempotencyConflict)
    else match db.FindLedgerEntry(existing.id)
      case Some(e) => Accepted(existing, e.balanceAfter, true)
      case None => match db.FindWallet(tx.WalletId())
        case Some(w) => Accepted(existing, w.balance, true)
        case None => Refused(WalletNotFound)
  }

  /** What a replay leaves of the tables: a delivery's inbox row is completed. */
  function DbReplayed(db: Db, k: Client, existing: Tx): Db {
    if k.origin.Sqs? && ReplayAnswer(db, existing, k.tx).Accepted? then Apply(db, NoWrites.(inbox := InboxDone(k)))
    else db
  }

  lemma ComparesAndLooks(s: State, n: nat, call: Id, k: Client, existing: Tx)
    requires Reaches(s, n, call, k) && k.pc == ReplayEntry && k.existing == Some(existing) && k.decision.None?
    ensures var later := AdvanceTimes(s, call, n + 1);
            var before := AdvanceTimes(s, call, n);
            if existing.payload != k.tx.payload then later == Refuse(before, call, k, IdempotencyConflict)
            else match s.db.FindLedgerEntry(existing.id)
              case Some(e) => later == FinishReplay(before, call, k, e.balanceAfter)
              case None =>
                Reaches(s, n + 1, call, k.(pc := ReplayWallet)) && (Untouched(s, n, call) ==> Untouched(s, n + 1, call))
  {
    hide Release, Reaches, Along, AdvanceTimes, Untouched, EntryFor, Refuse, FinishReplay, StepInsertInbox,
      StepPreCheck, StepReadReference, StepReadLossWallet, StepLockWallet, StepCheckReversal, StepDecide, StepSave,
      StepReadBalance, StepCompleteInbox, StepCommit, StepLookup, StepReplayWallet, StepDelete, StepSchedule;
    StandsHere(s, n, call, k);
    AdvancesOnce(s, n, call);
    if existing.payload == k.tx.payload && s.db.FindLedgerEntry(existing.id).None? {
      GoesOn(s, n, call, k, k.(pc := ReplayWallet));
    }
  }

  lemma ReadsReplayWallet(s: State, n: nat, call: Id, k: Client)
    requires Reaches(s, n, call, k) && k.pc == ReplayWallet && Unhindered(s, call, k)
    ensures var later, before := AdvanceTimes(s, call, n + 1), AdvanceTimes(s, call, n);
            match s.db.FindWallet(k.tx.WalletId())
            case Some(w) =>
              && later == FinishReplay(Read(before, call, k), call, k, w.balance)
              && Along(s, Read(before, call, k), call, k)
              && (!k.origin.Sqs? ==> Read(before, call, k) == before)
            case None => later == Refuse(before, call, k, WalletNotFound)
  {
    hide Release, Refuse, FinishReplay, StepInsertInbox, StepPreCheck, StepReadReference, StepReadLossWallet,
      StepLockWallet, StepCheckReversal, StepDecide, StepSave, StepReadBalance, StepCompleteInbox, StepCommit,
      StepLookup, StepReplayEntry, StepDelete, StepSchedule;
    var t := AdvanceTimes(s, call, n);
    TakenAlone(t.walletLocks, s.walletLocks, k.tx.WalletId(), call);
    assert Advance(t, call) == StepReplayWallet(t, call, k);
  }

  /** The balance of a replay is known: an HTTP call is over, holding no lock as it never did; a delivery
      completes its inbox row, commits it and deletes its message. */
  lemma {:induction false} FinishesReplay(s: State, n: nat, call: Id, t: State, k: Client, existing: Tx,
                                          balance: Money) returns (m: nat)
    requires Along(s, t, call, k) && AdvanceTimes(s, call, n) == FinishReplay(t, call, k, balance)
    requires k.existing == Some(existing) && k.decision.None? && !k.origin.Resolver? && InboxReady(k)
    requires !k.origin.Sqs? ==> t.walletLocks == s.walletLocks && t.keyLocks == s.keyLocks && HoldsNothing(s, call)
    ensures Concluded(s, AdvanceTimes(s, call, m), call, k.origin, Some(Accepted(existing, balance, true)),
                      if k.origin.Sqs? then Apply(s.db, NoWrites.(inbox := InboxDone(k))) else s.db)
  {
    hide Apply, Advance, Release;
    if k.origin.Sqs? {
      var k1 := k.(pc := CompleteInbox, balance := Some(balance));
      assert Reaches(s, n, call, k1);
      CompletesInbox(s, n, call, k1);
      var k2 := k1.(pc := Commit, inbox := InboxDone(k1));
      assert Staged(k2) == NoWrites.(inbox := InboxDone(k));
      hide Concluded, Reaches, AdvanceTimes, Along;
      m := FromCommit(s, n + 1, call, k2, Accepted(existing, balance, true));
    } else {
      m := n;
      NothingHeld(s, call);
    }
  }

  /** The call holds no lock yet. */
  predicate HoldsNothing(s: State, call: Id) {
    && (forall w :: w in s.walletLocks ==> s.walletLocks[w] != call)
    && (forall key :: key in s.keyLocks ==> s.keyLocks[key] != call)
  }

  lemma NothingHeld(s: State, call: Id)
    requires HoldsNothing(s, call)
    ensures Release(s.walletLocks, call) == s.walletLocks && Release(s.keyLocks, call) == s.keyLocks
  {
  }

  /** From the comparison on. */
  lemma {:induction false} ReplaysAlone(s: State, n: nat, call: Id, k: Client, existing: Tx) returns (m: nat)
    requires Reaches(s, n, call, k) && Untouched(s, n, call) && k.pc == ReplayEntry && k.existing == Some(existing)
    requires k.decision.None? && !k.origin.Resolver? && InboxReady(k) && Unhindered(s, call, k) && HoldsNothing(s, call)
    ensures Concluded(s, AdvanceTimes(s, call, m), call, k.origin, Some(ReplayAnswer(s.db, existing, k.tx)),
                      DbReplayed(s.db, k, existing))
  {
    hide Release, Apply, Advance, Reaches, Along, Concluded, Unhindered, HoldsNothing, Refuse, FinishReplay, Read,
      EntryFor;
    ComparesAndLooks(s, n, call, k, existing);
    if existing.payload != k.tx.payload {
      m := n + 1;
      RefusedAs(s, n, call, k, IdempotencyConflict);
    } else {
      match s.db.FindLedgerEntry(existing.id) {
        case Some(e) =>
          StandsAlong(s, n, call, k);
          m := FinishesReplay(s, n + 1, call, AdvanceTimes(s, call, n), k, existing, e.balanceAfter);
        case None =>
          var k' := k.(pc := ReplayWallet);
          SameTransaction(s, call, k, k');
          ReadsReplayWallet(s, n + 1, call, k');
          match s.db.FindWallet(k.tx.WalletId()) {
            case Some(w) =>
              m := FinishesReplay(s, n + 2, call, Read(AdvanceTimes(s, call, n + 1), call, k'), k', existing,
                                  w.balance);
            case None =>
              m := n + 2;
              RefusedAs(s, n + 1, call, k', WalletNotFound);
          }
      }
    }
  }

  lemma StandsAlong(s: State, n: nat, call: Id, k: Client)
    requires Reaches(s, n, call, k)
    ensures Along(s, AdvanceTimes(s, call, n), call, k)
  {
  }

  /** A submission that lost the race to insert its row, run to its end, is answered the winner's row. */
  lemma {:induction false} LoserAlone(s: State, call: Id, k: Client) returns (m: nat)
    requires call in s.clients && s.clients[call] == k && k.pc == Lookup && k.origin == Http
    requires k.decision.None? && k.inbox.None? && Unhindered(s, call, k) && HoldsNothing(s, call)
    requires s.db.FindByKey(k.tx.key).Some?
    ensures Concluded(s, AdvanceTimes(s, call, m), call, Http,
                      Some(ReplayAnswer(s.db, s.db.FindByKey(k.tx.key).value, k.tx)), s.db)
  {
    hide Release, Advance, AdvanceTimes, Reaches, Concluded, Unhindered, HoldsNothing, ReplayAnswer;
    NothingTaken(s, call);
    StandsAtFirst(s, call);
    LooksUp(s, 0, call, k);
    var k' := k.(pc := ReplayEntry, existing := s.db.FindByKey(k.tx.key));
    SameTransaction(s, call, k, k');
    m := ReplaysAlone(s, 1, call, k', k'.existing.value);
  }

  // ----- a whole call -----

  /** A submission, by HTTP or inside a delivery, that is about to look its key up. */
  predicate Submitting(s: State, call: Id, k: Client) {
    && call in s.clients && s.clients[call] == k
    && k == Start(k.origin, PreCheck, k.tx).(inbox := k.inbox) && !k.origin.Resolver? && InboxReady(k)
    && k.tx.status == Pending && k.tx.id !in s.db.txs
    && Unhindered(s, call, k) && HoldsNothing(s, call)
  }

  /** What an uninterrupted submission is answered: a replay of the row under its key, or what processing
      alone decides. */
  function AnswerAlone(db: Db, tx: Tx, call: Id): Answer
    requires tx.id !in db.txs
  {
    match db.FindByKey(tx.key)
    case Some(existing) => ReplayAnswer(db, existing, tx)
    case None => AnswerAfter(db, tx, ProcessAlone(db, tx, call))
  }

  function DbAlone(db: Db, k: Client, call: Id): Db {
    match db.FindByKey(k.tx.key)
    case Some(existing) => DbReplayed(db, k, existing)
    case None => DbAfter(db, k, ProcessAlone(db, k.tx, call))
  }

  /** A submission that nobody interrupts, by HTTP or inside a delivery, of a new key or of a known one, on
      any sound database where nobody else holds what it needs, concludes as processing or replaying alone
      decides: same writes, same answer or refusal, every lock given back. */
  lemma {:induction false} SubmissionAlone(s: State, call: Id, k: Client) returns (m: nat)
    requires LedgerOk(s.db) && IndexOk(s.db) && Submitting(s, call, k)
    ensures Concluded(s, AdvanceTimes(s, call, m), call, k.origin, Some(AnswerAlone(s.db, k.tx, call)),
                      DbAlone(s.db, k, call))
  {
    hide Release, Apply, Advance, AdvanceTimes, Reaches, Concluded, ProcessAlone, ReplayAnswer, DbReplayed, Unhindered,
      HoldsNothing, EntryOk, AnswerAfter, DbAfter;
    NothingTaken(s, call);
    StandsAtFirst(s, call);
    PreChecks(s, 0, call, k);
    match s.db.FindByKey(k.tx.key) {
      case Some(existing) =>
        var k' := k.(pc := ReplayEntry, existing := Some(existing));
        SameTransaction(s, call, k, k');
        m := ReplaysAlone(s, 1, call, k', existing);
        SameInbox(s.db, k, k', existing);
      case None =>
        var k' := k.(pc := Entry(k.tx.Kind()));
        SameTransaction(s, call, k, k');
        assert NoEntryFor(s.db, k.tx.id) by {
          NewRowHasNoEntry(s.db, k.tx.id);
        }
        m := ProcessesAlone(s, 1, call, k');
        SameWriting(s.db, k, k', ProcessAlone(s.db, k.tx, call));
    }
  }

  lemma NothingTaken(s: State, call: Id)
    ensures Untouched(s, 0, call)
  {
  }

  lemma SameInbox(db: Db, k: Client, k': Client, existing: Tx)
    requires k'.inbox == k.inbox && k'.tx == k.tx && k'.origin == k.origin
    ensures DbReplayed(db, k', existing) == DbReplayed(db, k, existing)
  {
    hide Apply, ReplayAnswer;
  }

  lemma SameWriting(db: Db, k: Client, k': Client, r: Result<Decision>)
    requires k'.inbox == k.inbox && k'.tx == k.tx
    ensures DbAfter(db, k', r) == DbAfter(db, k, r)
  {
    hide Apply;
  }

  lemma NewRowHasNoEntry(db: Db, id: Id)
    requires LedgerOk(db) && id !in db.txs
    ensures NoEntryFor(db, id)
  {
    assert forall i :: 0 <= i < |db.ledger| ==> EntryOk(db, db.ledger[i]);
  }
}
