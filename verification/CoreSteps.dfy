/** Every step of every call keeps the core invariant, however many resolvers there are. */
module CoreSteps {
  import opened Prelude
  import opened Moneys
  import opened Wallets
  import opened Wagers
  import opened Tables
  import opened Decisions
  import opened Protocol
  import opened Integrity
  import opened Calls

  // ----- steps that leave the database alone -----

  /** The call is at this point of the program, with everything its invariant says. */
  predicate At(s: State, call: Id, k: Client, pc: Pc) {
    call in s.clients && s.clients[call] == k && k.pc == pc && ClientOk(s, call, k)
  }

  predicate Kept(s: State, later: State, call: Id) {
    LocalTo(s, later, call) && ClientOk(later, call, later.clients[call])
  }

  /** The ways a step may touch the state beside the call's own entry. */
  ghost predicate Shaped(s: State, later: State, call: Id) {
    && call in later.clients
    && var k := later.clients[call];
       || later == s
       || later == Put(s, call, k)
       || later == End(s, call, k)
       || (exists w ::
             w in s.db.wallets && Free(s.walletLocks, w, call)
             && later == Put(s.(walletLocks := s.walletLocks[w := call]), call, k))
       || (exists key :: Free(s.keyLocks, key, call) && later == Put(s.(keyLocks := s.keyLocks[key := call]), call, k))
  }

  lemma PutIsLocal(s: State, call: Id, k: Client)
    ensures LocalTo(s, Put(s, call, k), call)
  {
  }

  lemma LockingPutIsLocal(s: State, w: Id, call: Id, k: Client)
    requires w in s.db.wallets && Free(s.walletLocks, w, call)
    ensures LocalTo(s, Put(s.(walletLocks := s.walletLocks[w := call]), call, k), call)
  {
  }

  lemma ReservingPutIsLocal(s: State, key: Key, call: Id, k: Client)
    requires Free(s.keyLocks, key, call)
    ensures LocalTo(s, Put(s.(keyLocks := s.keyLocks[key := call]), call, k), call)
  {
  }

  lemma EndIsLocal(s: State, call: Id, k: Client)
    requires call in s.clients
    ensures LocalTo(s, End(s, call, k), call)
  {
  }

  lemma ShapedIsLocal(s: State, later: State, call: Id)
    requires call in s.clients && Shaped(s, later, call)
    ensures LocalTo(s, later, call)
  {
    hide LocalTo, Release;
    var k := later.clients[call];
    PutIsLocal(s, call, k);
    EndIsLocal(s, call, k);
    NothingIsLocal(s, call);
    if w :| w in s.db.wallets && Free(s.walletLocks, w, call)
            && later == Put(s.(walletLocks := s.walletLocks[w := call]), call, k) {
      LockingPutIsLocal(s, w, call, k);
    } else if key :| Free(s.keyLocks, key, call) && later == Put(s.(keyLocks := s.keyLocks[key := call]), call, k) {
      ReservingPutIsLocal(s, key, call, k);
    }
  }

  lemma NothingIsLocal(s: State, call: Id)
    requires call in s.clients
    ensures LocalTo(s, s, call)
  {
  }

  /** A call's invariant looks only at the tables and the locks. */
  lemma OkWherever(s: State, later: State, call: Id, k: Client)
    requires ClientOk(s, call, k) && later.db == s.db && later.walletLocks == s.walletLocks
             && later.keyLocks == s.keyLocks
    ensures ClientOk(later, call, k)
  {
    hide Decided, WellFormed, NoEntryFor, EntryLeaves, Settles;
  }

  /** The call goes on in a state its invariant already allows. */
  lemma MovesOn(s: State, call: Id, k: Client)
    requires ClientOk(s, call, k)
    ensures Kept(s, Put(s, call, k), call)
  {
    hide ClientOk, LocalTo;
    PutIsLocal(s, call, k);
    OkWherever(s, Put(s, call, k), call, k);
  }

  lemma RefusalKept(s: State, call: Id, k: Client, e: Error)
    requires call in s.clients && InboxHeld(k)
    ensures Kept(s, Refuse(s, call, k, e), call)
  {
    hide LocalTo, Release;
    EndIsLocal(s, call, k.(pc := Done, answer := Some(Refused(e))));
  }

  lemma CrashKept(s: State, call: Id)
    requires call in s.clients && ClientOk(s, call, s.clients[call])
    ensures Kept(s, Crash(s, call), call)
  {
    hide LocalTo, Release, Uncommitted, HasDecision, Saved, Replays, ReadyToCommit, Identified, AnswerOk, MessageDone;
    NothingIsLocal(s, call);
    EndIsLocal(s, call, s.clients[call].(pc := Dead, answer := None));
  }

  lemma InsertInboxKept(s: State, call: Id, k: Client)
    requires At(s, call, k, InsertInbox)
    ensures Kept(s, StepInsertInbox(s, call, k), call)
  {
    hide Decided, LocalTo;
    ShapedIsLocal(s, StepInsertInbox(s, call, k), call);
  }

  lemma PreCheckKept(s: State, call: Id, k: Client)
    requires RowsOk(s.db) && IndexOk(s.db) && At(s, call, k, PreCheck)
    ensures Kept(s, StepPreCheck(s, call, k), call)
  {
    hide Kept, Put, ClientOk, At;
    var found := s.db.FindByKey(k.tx.key);
    var k' := if found.Some? then k.(pc := ReplayEntry, existing := found) else k.(pc := Entry(k.tx.Kind()));
    CheckedOk(s, call, k, k');
    MovesOn(s, call, k');
  }

  lemma CheckedOk(s: State, call: Id, k: Client, k': Client)
    requires RowsOk(s.db) && IndexOk(s.db) && At(s, call, k, PreCheck)
    requires var found := s.db.FindByKey(k.tx.key);
             k' == if found.Some? then k.(pc := ReplayEntry, existing := found) else k.(pc := Entry(k.tx.Kind()))
    ensures ClientOk(s, call, k')
  {
    hide Decided, WellFormed;
  }

  lemma ReadReferenceKept(s: State, call: Id, k: Client)
    requires RowsOk(s.db) && At(s, call, k, ReadReference)
    ensures Kept(s, StepReadReference(s, call, k), call)
  {
    hide Decided, LocalTo, OnReference;
    var ref := Key(k.tx.key.providerId, k.tx.payload.referenceExternalId.value);
    var found := s.db.FindByKey(ref);
    match OnReference(k.tx, found, call) {
      case Stop(e) =>
        RefusalKept(s, call, k, e);
      case Continue(tx, reference) =>
        ContinuationKept(s, call, k, found);
      case Settled(d) =>
        SettlementKept(s, call, k, found);
    }
  }

  lemma ContinuationKept(s: State, call: Id, k: Client, found: Option<Tx>)
    requires At(s, call, k, ReadReference) && OnReference(k.tx, found, call).Continue?
    requires found.Some? ==> found.value.id in s.db.txs && s.db.txs[found.value.id] == found.value
    ensures var o := OnReference(k.tx, found, call);
            Kept(s, Put(s, call, k.(pc := LockWallet, tx := o.tx, reference := Some(o.reference))), call)
  {
    hide Decided, LocalTo, OnReference;
    ContinuationKeepsIdentity(k.tx, found, call);
    var o := OnReference(k.tx, found, call);
    assert found.value.WalletId() == k.tx.WalletId() by {
      ValidatedWallet(k.tx, found.value);
    }
    ShapedIsLocal(s, Put(s, call, k.(pc := LockWallet, tx := o.tx, reference := Some(o.reference))), call);
  }

  lemma ValidatedWallet(tx: Tx, reference: Tx)
    requires tx.ValidateReference(reference).Ok?
    ensures reference.WalletId() == tx.WalletId()
  {
  }

  lemma SettlementKept(s: State, call: Id, k: Client, found: Option<Tx>)
    requires At(s, call, k, ReadReference) && OnReference(k.tx, found, call).Settled?
    ensures var d := OnReference(k.tx, found, call).decision;
            Kept(s, if d.writes == NoWrites then Put(s, call, k.(pc := Schedule))
                    else Put(s, call, k.(pc := Save, decision := Some(d),
                                         via := if found.None? then Parked else BadReference)), call)
  {
    hide OnReference, ParkReference, RejectTx, HasDecision, Uncommitted, Kept, Put;
    ReferenceReader(s, call, k);
    SettledReference(k.tx, found, call);
    var d := OnReference(k.tx, found, call).decision;
    var via := if found.None? then Parked else BadReference;
    if d.writes == NoWrites {
      MovesOn(s, call, k.(pc := Schedule));
    } else {
      ReferenceDecided(s, call, k, d, via);
      MovesOn(s, call, k.(pc := Save, decision := Some(d), via := via));
    }
  }

  lemma ReferenceReader(s: State, call: Id, k: Client)
    requires At(s, call, k, ReadReference)
    ensures InboxHeld(k) && k.answer.None? && k.pc == ReadReference
    ensures if k.origin.Resolver? then k.tx.status == PendingReference else k.tx.status == Pending
  {
    hide InboxHeld, Identified;
  }

  lemma ReferenceDecided(s: State, call: Id, k: Client, d: Decision, via: Via)
    requires At(s, call, k, ReadReference) && d.balance.None?
    requires if via == Parked then ParkReference(k.tx, call) == Ok(d) && k.tx.status == Pending
             else via == BadReference && RejectTx(k.tx, InvalidReferenceCode, call) == Ok(d)
    ensures HasDecision(s, call, k.(pc := Save, decision := Some(d), via := via))
  {
    hide ParkReference, RejectTx, WellFormed;
  }

  lemma ContinuationKeepsIdentity(tx: Tx, found: Option<Tx>, call: Id)
    requires OnReference(tx, found, call).Continue?
    ensures var o := OnReference(tx, found, call);
            && found == Some(o.reference) && tx.ValidateReference(o.reference).Ok?
            && o.tx == tx.(referenceId := Some(o.reference.id))
  {
  }

  /** Without a reference the transaction is parked, for the first time or again; with a bad one
      it is rejected. Neither moves anything. */
  lemma SettledReference(tx: Tx, found: Option<Tx>, call: Id)
    requires OnReference(tx, found, call).Settled? && (tx.status == Pending || tx.status == PendingReference)
    ensures var d := OnReference(tx, found, call).decision;
            && d.writes.entry.None? && d.balance.None?
            && (d.writes == NoWrites ==> tx.status == PendingReference)
            && (d.writes != NoWrites ==>
                  if found.None? then ParkReference(tx, call) == Ok(d) && tx.status == Pending
                  else RejectTx(tx, InvalidReferenceCode, call) == Ok(d))
  {
  }

  lemma ReadLossWalletKept(s: State, call: Id, k: Client)
    requires At(s, call, k, ReadLossWallet)
    ensures Kept(s, StepReadLossWallet(s, call, k), call)
  {
    hide HasDecision, Uncommitted, LocalTo, FinishLoss, Put, Refuse;
    AtHoldsInbox(s, call, k, ReadLossWallet);
    var id := k.tx.WalletId();
    if id !in s.db.wallets {
      RefusalKept(s, call, k, WalletNotFound);
    } else if !MayRead(s, call, k) {
      ShapedIsLocal(s, s, call);
    } else {
      var w := s.db.wallets[id];
      match FinishLoss(k.tx, w, call) {
        case Err(e) => RefusalKept(s, call, k, e);
        case Ok(d) =>
          var k' := k.(pc := Save, wallet := Some(w), decision := Some(d), via := NoMovement);
          var read := Read(s, call, k);
          PutShaped(s, read, call, k');
          LossDecided(s, Put(read, call, k'), call, k, d);
          ShapedIsLocal(s, Put(read, call, k'), call);
      }
    }
  }

  lemma AtHoldsInbox(s: State, call: Id, k: Client, pc: Pc)
    requires At(s, call, k, pc)
    ensures InboxHeld(k) && (pc != Done && pc != Delete ==> k.answer.None?)
  {
    hide AtPc, InboxHeld;
  }

  lemma PutShaped(s: State, read: State, call: Id, k: Client)
    requires read == s || (read == s.(walletLocks := s.walletLocks[k.tx.WalletId() := call])
                           && k.tx.WalletId() in s.db.wallets && Free(s.walletLocks, k.tx.WalletId(), call))
    ensures var later := Put(read, call, k);
            && Shaped(s, later, call) && later.clients[call] == k && later.db == s.db
            && later.keyLocks == s.keyLocks && later.walletLocks == read.walletLocks
  {
  }

  lemma LossDecided(s: State, later: State, call: Id, k: Client, d: Decision)
    requires At(s, call, k, ReadLossWallet) && k.tx.WalletId() in s.db.wallets && later.db == s.db
    requires FinishLoss(k.tx, s.db.wallets[k.tx.WalletId()], call) == Ok(d)
    ensures HasDecision(later, call,
                        k.(pc := Save, wallet := Some(s.db.wallets[k.tx.WalletId()]), decision := Some(d),
                           via := NoMovement))
  {
    hide FinishLoss, WellFormed;
    LossMovesNothing(k.tx, s.db.wallets[k.tx.WalletId()], call);
  }

  lemma LossMovesNothing(tx: Tx, w: WalletRow, call: Id)
    requires FinishLoss(tx, w, call).Ok?
    ensures FinishLoss(tx, w, call).value.writes.entry.None? && FinishLoss(tx, w, call).value.balance.None?
  {
  }

  lemma LockWalletKept(s: State, call: Id, k: Client)
    requires At(s, call, k, LockWallet)
    ensures Kept(s, StepLockWallet(s, call, k), call)
  {
    hide Decided, LocalTo, MovementDirection;
    var w := k.tx.WalletId();
    if MovementDirection(k.tx.Kind(), k.reference).Err? {
      RefusalKept(s, call, k, NoMovementDefined);
    } else if w !in s.db.wallets {
      RefusalKept(s, call, k, WalletNotFound);
    } else if !Free(s.walletLocks, w, call) {
      ShapedIsLocal(s, s, call);
    } else {
      var pc := if k.tx.Kind().IsReversal() then CheckReversal else Decide;
      LockTaken(s, call, k, k.(pc := pc, wallet := Some(s.db.wallets[w])));
    }
  }

  lemma LockTaken(s: State, call: Id, k: Client, k': Client)
    requires At(s, call, k, LockWallet) && k.tx.WalletId() in s.db.wallets && Free(s.walletLocks, k.tx.WalletId(), call)
    requires k' == k.(pc := if k.tx.Kind().IsReversal() then CheckReversal else Decide,
                      wallet := Some(s.db.wallets[k.tx.WalletId()]))
    ensures Kept(s, Put(s, call, k').(walletLocks := s.walletLocks[k.tx.WalletId() := call]), call)
  {
    hide Decided, LocalTo, WellFormed;
    LockingPutIsLocal(s, k.tx.WalletId(), call, k');
  }

  lemma CheckReversalKept(s: State, call: Id, k: Client)
    requires At(s, call, k, CheckReversal)
    ensures Kept(s, StepCheckReversal(s, call, k), call)
  {
    hide Uncommitted, LocalTo, Refuse;
    AtHoldsInbox(s, call, k, CheckReversal);
    if k.reference.None? {
      RefusalKept(s, call, k, MissingReference);
    } else {
      var k' := k.(pc := Decide, reversed := s.db.HasReversal(k.reference.value.id));
      StillUncommitted(s, call, k, k');
      MovesOn(s, call, k');
    }
  }

  lemma StillUncommitted(s: State, call: Id, k: Client, k': Client)
    requires k' == k.(pc := k'.pc, reversed := k'.reversed) && Uncommitted(s, call, k)
    ensures Uncommitted(s, call, k') && (HoldsWallet(s, call, k) ==> HoldsWallet(s, call, k'))
  {
    hide WellFormed;
  }

  lemma DecideKept(s: State, call: Id, k: Client)
    requires At(s, call, k, Decide)
    ensures Kept(s, StepDecide(s, call, k), call)
  {
    hide Settle, HasDecision, Uncommitted, HoldsWallet, Unreversed, Kept, Put, Refuse;
    AtHoldsInbox(s, call, k, Decide);
    if k.wallet.None? {
      RefusalKept(s, call, k, WalletNotFound);
    } else {
      match Settle(k.tx, k.reference, k.wallet.value, k.reversed, call) {
        case Err(e) => RefusalKept(s, call, k, e);
        case Ok(d) =>
          var k' := k.(pc := Save, decision := Some(d), via := Locked, balance := d.balance);
          SettlementDecided(s, call, k, d);
          MovesOn(s, call, k');
      }
    }
  }

  lemma SettlementDecided(s: State, call: Id, k: Client, d: Decision)
    requires At(s, call, k, Decide) && k.wallet.Some?
             && Settle(k.tx, k.reference, k.wallet.value, k.reversed, call) == Ok(d)
    ensures HasDecision(s, call, k.(pc := Save, decision := Some(d), via := Locked, balance := d.balance))
  {
    hide Settle, WellFormed;
  }

  lemma ReadBalanceKept(s: State, call: Id, k: Client)
    requires At(s, call, k, ReadBalance)
    ensures Kept(s, StepReadBalance(s, call, k), call)
  {
    hide AnswerOk, ReadyToCommit, Saved, Committed, Settles, LocalTo, Put, Refuse, FreshAnswer;
    AtHoldsInbox(s, call, k, ReadBalance);
    if k.tx.WalletId() !in s.db.wallets {
      RefusalKept(s, call, k, WalletNotFound);
    } else if !MayRead(s, call, k) {
      ShapedIsLocal(s, s, call);
    } else {
      var balance := s.db.wallets[k.tx.WalletId()].balance;
      var read := Read(s, call, k);
      var k' := if k.origin.Sqs? then k.(pc := CompleteInbox, balance := Some(balance))
                else k.(pc := Done, balance := Some(balance), answer := FreshAnswer(k, balance));
      PutShaped(s, read, call, k');
      BalanceNoted(s, Put(read, call, k'), call, k, balance);
      ShapedIsLocal(s, Put(read, call, k'), call);
    }
  }

  lemma BalanceNoted(s: State, later: State, call: Id, k: Client, balance: Money)
    requires At(s, call, k, ReadBalance) && later.db == s.db && later.keyLocks == s.keyLocks
    requires later.walletLocks == s.walletLocks || later.walletLocks == s.walletLocks[k.tx.WalletId() := call]
    ensures if k.origin.Sqs? then ReadyToCommit(later, call, k.(pc := CompleteInbox, balance := Some(balance)))
            else AnswerOk(later, call, k.(pc := Done, balance := Some(balance), answer := FreshAnswer(k, balance)))
  {
    hide Saved, WellFormed, EntryLeaves, Settles, InboxHeld;
    if k.origin.Sqs? {
      StaysSaved(s, later, call, k, k.(pc := CompleteInbox, balance := Some(balance)));
    }
  }

  /** A decision does not depend on the point of the program, the balance or the inbox row. */
  lemma DecidedIgnoresProgress(call: Id, k: Client, k': Client)
    requires k' == k.(pc := k'.pc, balance := k'.balance, inbox := k'.inbox) && Decided(call, k)
    ensures Decided(call, k')
  {
    hide Settle, RejectTx, ParkReference, FinishLoss;
  }

  /** What is saved stays saved while a call only notes a balance, an inbox row or a point of
      the program. */
  lemma StaysSaved(s: State, later: State, call: Id, k: Client, k': Client)
    requires k' == k.(pc := k'.pc, balance := k'.balance, inbox := k'.inbox)
    requires k.balance.None? || k'.balance == k.balance
    requires later.db == s.db && later.keyLocks == s.keyLocks
    requires later.walletLocks == s.walletLocks || later.walletLocks == s.walletLocks[k.tx.WalletId() := call]
    ensures Saved(s, call, k) ==> Saved(later, call, k')
  {
    hide Decided;
    if Saved(s, call, k) {
      DecidedIgnoresProgress(call, k, k');
    }
  }

  lemma CompleteInboxKept(s: State, call: Id, k: Client)
    requires At(s, call, k, CompleteInbox)
    ensures Kept(s, StepCompleteInbox(s, call, k), call)
  {
    hide Saved, LocalTo;
    if k.inbox.None? || k.inbox.value.completed {
      RefusalKept(s, call, k, AlreadyCompleted);
    } else {
      var k' := k.(pc := Commit, inbox := Some(k.inbox.value.(completed := true)));
      StaysSaved(s, Put(s, call, k'), call, k, k');
      ShapedIsLocal(s, Put(s, call, k'), call);
    }
  }

  lemma LookupKept(s: State, call: Id, k: Client)
    requires RowsOk(s.db) && IndexOk(s.db) && At(s, call, k, Lookup)
    ensures Kept(s, StepLookup(s, call, k), call)
  {
    hide Decided, LocalTo;
    var found := s.db.FindByKey(k.tx.key);
    if found.None? {
      RefusalKept(s, call, k, TransactionNotFound);
    } else {
      ShapedIsLocal(s, Put(s, call, k.(pc := ReplayEntry, existing := found)), call);
    }
  }

  lemma FinishReplayKept(s: State, call: Id, k: Client, base: State, balance: Money)
    requires base == s || (base == Read(s, call, k) && MayRead(s, call, k) && k.tx.WalletId() in s.db.wallets)
    requires call in s.clients && InboxHeld(k) && Replays(s, call, k) && Agrees(k) && k.answer.None?
    requires k.pc == ReplayEntry || k.pc == ReplayWallet
    ensures Kept(s, FinishReplay(base, call, k, balance), call)
  {
    hide AnswerOk, ReadyToCommit, LocalTo, Replays, Agrees;
    var k' := if k.origin.Sqs? then k.(pc := CompleteInbox, balance := Some(balance))
              else k.(pc := Done, balance := Some(balance), answer := FreshAnswer(k, balance));
    ReplayNoted(s, Put(base, call, k'), call, k, balance);
    ShapedIsLocal(s, Put(base, call, k'), call);
  }

  lemma ReplayNoted(s: State, later: State, call: Id, k: Client, balance: Money)
    requires Replays(s, call, k) && Agrees(k) && later.db == s.db
    ensures if k.origin.Sqs? then ReadyToCommit(later, call, k.(pc := CompleteInbox, balance := Some(balance)))
            else AnswerOk(later, call, k.(pc := Done, balance := Some(balance), answer := FreshAnswer(k, balance)))
  {
    hide Decided, WellFormed, EntryLeaves, Settles;
  }

  lemma ReplayEntryKept(s: State, call: Id, k: Client)
    requires At(s, call, k, ReplayEntry)
    ensures Kept(s, StepReplayEntry(s, call, k), call)
  {
    hide Decided, LocalTo, FinishReplay;
    if k.existing.value.payload != k.tx.payload {
      RefusalKept(s, call, k, IdempotencyConflict);
    } else {
      var entry := s.db.FindLedgerEntry(k.existing.value.id);
      if entry.Some? {
        FinishReplayKept(s, call, k, s, entry.value.balanceAfter);
      } else {
        ShapedIsLocal(s, Put(s, call, k.(pc := ReplayWallet)), call);
      }
    }
  }

  lemma ReplayWalletKept(s: State, call: Id, k: Client)
    requires At(s, call, k, ReplayWallet)
    ensures Kept(s, StepReplayWallet(s, call, k), call)
  {
    hide Decided, LocalTo, FinishReplay;
    if k.tx.WalletId() !in s.db.wallets {
      RefusalKept(s, call, k, WalletNotFound);
    } else if !MayRead(s, call, k) {
      ShapedIsLocal(s, s, call);
    } else {
      FinishReplayKept(s, call, k, Read(s, call, k), s.db.wallets[k.tx.WalletId()].balance);
    }
  }

  // ----- what a decision holds -----

  /** The writes of a movement: one entry, one row, one wallet, two events. */
  predicate IsMovement(call: Id, k: Client, d: Decision) {
    && k.wallet.Some? && d.writes.entry.Some?
    && var w, e := k.wallet.value, d.writes.entry.value;
       && MovementDirection(k.tx.Kind(), k.reference) == Ok(e.direction)
       && w.Moved(e.direction, k.tx.Amount()).Ok?
       && var after := w.Moved(e.direction, k.tx.Amount()).value;
          && e == LedgerEntry(call, w.id, k.tx.id, e.direction, k.tx.Amount(), w.balance, after.balance)
          && NewLedgerEntry(e) == Ok(e)
          && d.tx == k.tx.(status := Processed)
          && d.writes == Writes(Some(d.tx), Some(after), Some(e),
                                [ProcessedEvent(d.tx, call), BalanceChangedEvent(after, e, call)], None)
          && d.balance == Some(after.balance)
  }

  /** The event that goes with a row in its state. */
  function EventFor(t: Tx, call: Id): Event {
    match t.status
    case Processed => ProcessedEvent(t, call)
    case Rejected => RejectedEvent(t, call)
    case _ => PendingReferenceEvent(t, call)
  }

  /** The writes of a decision that moves nothing: the row and the one event about it. */
  predicate IsRowOnly(call: Id, k: Client, d: Decision) {
    && d.tx == k.tx.(status := d.tx.status, failure := d.tx.failure) && !Settles(d.tx)
    && (d.tx.status == PendingReference ==>
          k.tx.Kind().IsReversal() && k.tx.status == Pending && k.via == Parked && d.tx.failure == k.tx.failure)
    && (d.tx.status == Rejected ==> d.tx.failure.Some?)
    && (d.tx.status == Processed ==> k.via == NoMovement && d.tx.failure == k.tx.failure)
    && (d.tx.status == PendingReference || d.tx.status == Rejected || d.tx.status == Processed)
    && d.writes == RowWithEvent(d.tx, EventFor(d.tx, call))
  }

  lemma SettleShape(call: Id, k: Client)
    requires k.via == Locked && k.wallet.Some? && Settle(k.tx, k.reference, k.wallet.value, k.reversed, call).Ok?
    ensures var d := Settle(k.tx, k.reference, k.wallet.value, k.reversed, call).value;
            if d.writes.entry.Some? then IsMovement(call, k, d) && (k.tx.Kind().IsReversal() ==> !k.reversed)
            else IsRowOnly(call, k, d) && d.tx.status == Rejected && d.balance == Some(k.wallet.value.balance)
  {
  }

  /** A decision either moves the wallet or writes only the row. */
  lemma DecisionShape(call: Id, k: Client)
    requires Decided(call, k)
    ensures var d := k.decision.value;
            if Moving(k) then k.via == Locked && IsMovement(call, k, d) && (k.tx.Kind().IsReversal() ==> !k.reversed)
            else IsRowOnly(call, k, d)
  {
    hide Settle;
    if k.via == Locked {
      SettleShape(call, k);
    }
  }
}
