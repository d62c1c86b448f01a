/** What a step does to its own call: which row the call is about, what it replays, and with what
    balance it answers. */
module OwnSteps {
  import opened Prelude
  import opened Moneys
  import opened Wagers
  import opened Tables
  import opened Decisions
  import opened Protocol
  import opened Integrity
  import opened Calls
  import opened CoreSteps
  import opened CoreCommits
  import opened Histories

  /** A row and the balance answered with it. */
  datatype Reply = Reply(tx: Tx, balance: Money)

  /** What a call replays: in its answer, or on the way there. */
  function Replayed(k: Client): Option<Reply> {
    match k.answer
    case Some(Accepted(tx, balance, replay)) => if replay then Some(Reply(tx, balance)) else None
    case Some(Refused(_)) => None
    case None =>
      if (k.pc == CompleteInbox || k.pc == Commit) && k.decision.None? && k.existing.Some? && k.balance.Some?
      then Some(Reply(k.existing.value, k.balance.value))
      else None
  }

  /** The balance a call answers with for a decision of its own that moves nothing: in its answer, or on
      the way there. */
  function Reported(k: Client): Option<Reply> {
    match k.answer
    case Some(Accepted(tx, balance, replay)) => if !replay && !Settles(tx) then Some(Reply(tx, balance)) else None
    case Some(Refused(_)) => None
    case None =>
      if (k.pc == CompleteInbox || k.pc == Commit) && k.decision.Some? && k.decision.value.balance.None?
         && k.balance.Some?
      then Some(Reply(k.decision.value.tx, k.balance.value))
      else None
  }

  predicate DecisionAhead(pc: Pc) {
    pc == InsertInbox || pc == PreCheck || pc == ReadReference || pc == ReadLossWallet || pc == LockWallet
    || pc == CheckReversal || pc == Decide
  }

  /** Before the decision, and at a decision that has brought none, no balance has been read. */
  predicate Unread(k: Client) {
    && (DecisionAhead(k.pc) ==> k.balance.None?)
    && (k.pc == Save && k.decision.Some? && k.decision.value.balance.None? ==> k.balance.None?)
  }

  /** The call, its decision made, reads the wallet; or it commits, the wallet read under the lock. */
  predicate ReadsOwn(s: State, k: Client, r: Reply) {
    && (k.pc == ReadBalance || k.pc == Commit) && k.decision.Some? && k.decision.value.tx == r.tx
    && r.tx.WalletId() in s.db.wallets && s.db.wallets[r.tx.WalletId()].balance == r.balance
  }

  /** A balance reported is reported already or read in this step. */
  predicate ReportTraced(s: State, k: Client, k': Client) {
    Unread(k) ==>
      && Unread(k')
      && (Reported(k').Some? ==> Reported(k') == Reported(k) || ReadsOwn(s, k, Reported(k').value))
  }

  predicate Found(db: Db, id: Id) {
    db.FindLedgerEntry(id).Some?
  }

  predicate ReadFromEntry(s: State, k: Client, r: Reply) {
    k.pc == ReplayEntry && k.existing == Some(r.tx)
    && Found(s.db, r.tx.id) && s.db.FindLedgerEntry(r.tx.id).value.balanceAfter == r.balance
  }

  predicate ReadFromWallet(s: State, k: Client, r: Reply) {
    k.pc == ReplayWallet && k.existing == Some(r.tx)
    && r.tx.WalletId() in s.db.wallets && s.db.wallets[r.tx.WalletId()].balance == r.balance
  }

  /** A call about to look for an entry, whose row is settled only if there is one. */
  predicate LooksUpNext(db: Db, k: Client) {
    k.existing.Some? && (Settles(k.existing.value) ==> Found(db, k.existing.value.id))
  }

  predicate LookedInVainNow(db: Db, k: Client, k': Client) {
    k.pc == ReplayEntry && k'.existing == k.existing && k.existing.Some? && !Found(db, k.existing.value.id)
  }

  /** The call is about the same row as before. */
  predicate SameRow(k: Client, k': Client) {
    k'.tx.SameBusiness(k.tx) && k'.origin == k.origin
  }

  /** What a step may do to what its call replays and reports. */
  predicate StepTraced(s: State, k: Client, k': Client) {
    || k' == k
    || (&& SameRow(k, k') && ReportTraced(s, k, k')
        && (k'.pc == ReplayEntry ==> LooksUpNext(s.db, k'))
        && (k'.pc == ReplayWallet ==> LookedInVainNow(s.db, k, k'))
        && (Replayed(k').Some? ==>
              || Replayed(k') == Replayed(k)
              || ReadFromEntry(s, k, Replayed(k').value)
              || ReadFromWallet(s, k, Replayed(k').value)))
  }

  predicate Traced(s: State, later: State, call: Id, k: Client) {
    call in later.clients && StepTraced(s, k, later.clients[call])
  }

  /** The call is not answering for a row it has only read. */
  predicate NotReplaying(k: Client) {
    && k.pc != ReplayEntry && k.pc != ReplayWallet
    && (k.pc == CompleteInbox || k.pc == Commit ==> k.decision.Some?)
    && (k.answer.Some? && k.answer.value.Accepted? ==> !k.answer.value.replay)
  }

  /** The call goes on about its row, and neither replays nor reports anything. */
  predicate GoesOn(k: Client, k': Client) {
    NotReplaying(k') && SameRow(k, k') && (Unread(k) ==> Unread(k') && Reported(k').None?)
  }

  predicate Proceeds(later: State, call: Id, k: Client) {
    call in later.clients && GoesOn(k, later.clients[call])
  }

  // ----- steps of a replay -----

  lemma FoundExactly(db: Db, id: Id)
    ensures Found(db, id) <==> HasEntry(db, id)
  {
  }

  lemma GoingOnIsTraced(s: State, k: Client, k': Client)
    requires GoesOn(k, k')
    ensures StepTraced(s, k, k') && Replayed(k').None?
  {
    hide Found, Settles;
  }

  /** The balance of a replay becomes known. */
  lemma FinishedIsTraced(s: State, read: State, call: Id, k: Client, balance: Money)
    requires k.existing.Some? && k.decision.None? && k.answer.None?
    requires var r := Reply(k.existing.value, balance); ReadFromEntry(s, k, r) || ReadFromWallet(s, k, r)
    ensures Traced(s, FinishReplay(read, call, k, balance), call, k)
  {
    hide ReadFromEntry, ReadFromWallet, Found, Replayed, Reported, Unread;
    ReplayIsKnown(k, FinishReplay(read, call, k, balance).clients[call], balance);
  }

  lemma ReplayIsKnown(k: Client, k': Client, balance: Money)
    requires k.existing.Some? && k.decision.None? && k.answer.None?
    requires k' == k.(pc := CompleteInbox, balance := Some(balance))
             || k' == k.(pc := Done, balance := Some(balance), answer := FreshAnswer(k, balance))
    ensures Replayed(k') == Some(Reply(k.existing.value, balance)) && Reported(k').None? && Unread(k')
  {
  }

  lemma ReplayEntryTraced(s: State, call: Id, k: Client)
    requires At(s, call, k, ReplayEntry)
    ensures Traced(s, StepReplayEntry(s, call, k), call, k)
  {
    hide EntryFor, FinishReplay, StepTraced, GoesOn, Identified, Refuse;
    if k.existing.value.payload != k.tx.payload {
      RefusalGoesOn(s, call, k, IdempotencyConflict);
      GoingOnIsTraced(s, k, Refuse(s, call, k, IdempotencyConflict).clients[call]);
    } else if Found(s.db, k.existing.value.id) {
      FinishedIsTraced(s, s, call, k, s.db.FindLedgerEntry(k.existing.value.id).value.balanceAfter);
    } else {
      InVainIsTraced(s, k);
    }
  }

  lemma InVainIsTraced(s: State, k: Client)
    requires k.pc == ReplayEntry && k.existing.Some? && !Found(s.db, k.existing.value.id) && k.answer.None?
    ensures StepTraced(s, k, k.(pc := ReplayWallet))
  {
    hide Found;
  }

  lemma ReplayWalletTraced(s: State, call: Id, k: Client)
    requires At(s, call, k, ReplayWallet)
    ensures Traced(s, StepReplayWallet(s, call, k), call, k)
  {
    hide FinishReplay, Settles, EntryFor, Identified, Release;
    if k.tx.WalletId() in s.db.wallets && MayRead(s, call, k) {
      FinishedIsTraced(s, Read(s, call, k), call, k, s.db.wallets[k.tx.WalletId()].balance);
    }
  }

  /** A row found under its key is settled only with its entry. */
  lemma FoundRowHasEntry(db: Db, key: Key)
    requires RowsOk(db) && SettledHaveEntries(db)
    ensures var found := db.FindByKey(key); found.Some? && Settles(found.value) ==> Found(db, found.value.id)
  {
    hide WellFormed, Settles, HasEntry, Found;
    var found := db.FindByKey(key);
    if found.Some? {
      FoundExactly(db, found.value.id);
    }
  }

  lemma PreCheckTraced(s: State, call: Id, k: Client)
    requires RowsOk(s.db) && SettledHaveEntries(s.db) && At(s, call, k, PreCheck)
    ensures Traced(s, StepPreCheck(s, call, k), call, k)
  {
    hide WellFormed, Settles, Found, RowsOk, SettledHaveEntries, Uncommitted;
    FoundRowHasEntry(s.db, k.tx.key);
  }

  lemma LookupTraced(s: State, call: Id, k: Client)
    requires RowsOk(s.db) && SettledHaveEntries(s.db) && At(s, call, k, Lookup)
    ensures Traced(s, StepLookup(s, call, k), call, k)
  {
    hide WellFormed, Settles, Found, RowsOk, SettledHaveEntries, Identified, Release;
    FoundRowHasEntry(s.db, k.tx.key);
  }

  lemma CommitTraced(s: State, call: Id, k: Client)
    requires At(s, call, k, Commit)
    ensures Traced(s, StepCommit(s, call, k), call, k)
  {
    hide Apply, Settles, Staged, Found, StepCommit, Saved, Replays;
    CommittedClient(s, call, k);
    if k.decision.Some? {
      HeldUntilCommit(s, call, k);
    }
  }

  /** A rejection under the lock answers with the balance read there, which is still the wallet's. */
  lemma HeldUntilCommit(s: State, call: Id, k: Client)
    requires Saved(s, call, k)
    ensures var d := k.decision.value;
            d.balance.Some? && !Settles(d.tx) ==>
              && k.balance == d.balance
              && d.tx.WalletId() in s.db.wallets && s.db.wallets[d.tx.WalletId()].balance == d.balance.value
  {
    hide WellFormed, Grounded, ParkReference, FinishLoss, Move, Settle;
    DecidedRow(call, k);
    RejectionsOnly(call, k);
  }

  /** Only a rejection under the lock brings a balance and moves nothing. */
  lemma RejectionsOnly(call: Id, k: Client)
    requires Decided(call, k)
    ensures var d := k.decision.value;
            d.balance.Some? && !Settles(d.tx) ==>
              k.via == Locked && k.wallet.Some? && d.balance == Some(k.wallet.value.balance)
  {
  }

  lemma CompleteInboxTraced(s: State, call: Id, k: Client)
    requires At(s, call, k, CompleteInbox)
    ensures Traced(s, StepCompleteInbox(s, call, k), call, k)
  {
    hide Found, Settles, ReadyToCommit, Release;
  }

  lemma DeleteTraced(s: State, call: Id, k: Client)
    requires At(s, call, k, Delete)
    ensures Traced(s, StepDelete(s, call, k), call, k)
  {
    hide Found, Settles, AnswerOk, MessageDone;
  }

  // ----- the other steps -----

  lemma RefusalGoesOn(s: State, call: Id, k: Client, e: Error)
    ensures Proceeds(Refuse(s, call, k, e), call, k)
  {
    hide Release;
  }

  /** At these points a call is not replaying, unless it has an answer. */
  lemma EarlyPointsGoOn(k: Client, k': Client)
    requires k'.answer.None? && SameRow(k, k')
    requires k'.pc != ReplayEntry && k'.pc != ReplayWallet
             && (k'.pc == CompleteInbox || k'.pc == Commit ==> k'.decision.Some?)
    requires Unread(k) ==> Unread(k') && Reported(k').None?
    ensures GoesOn(k, k')
  {
    hide Unread, Reported;
  }

  lemma ReadReferenceGoesOn(s: State, call: Id, k: Client)
    requires k.answer.None? && k.pc == ReadReference
    ensures Proceeds(StepReadReference(s, call, k), call, k)
  {
    hide Refuse, GoesOn, OnReference;
    if k.tx.payload.referenceExternalId.None? {
      RefusalGoesOn(s, call, k, MissingReference);
    } else {
      var found := s.db.FindByKey(Key(k.tx.key.providerId, k.tx.payload.referenceExternalId.value));
      match OnReference(k.tx, found, call) {
        case Stop(e) => RefusalGoesOn(s, call, k, e);
        case Continue(tx, reference) =>
          ContinuationKeepsIdentity(k.tx, found, call);
          EarlyPointsGoOn(k, k.(pc := LockWallet, tx := tx, reference := Some(reference)));
        case Settled(d) =>
          EarlyPointsGoOn(k, k.(pc := Schedule));
          EarlyPointsGoOn(k, k.(pc := Save, decision := Some(d), via := if found.None? then Parked else BadReference));
      }
    }
  }

  lemma ReadLossWalletGoesOn(s: State, call: Id, k: Client)
    requires k.answer.None? && call in s.clients && s.clients[call] == k && k.pc == ReadLossWallet
    ensures Proceeds(StepReadLossWallet(s, call, k), call, k)
  {
    hide Refuse, FinishLoss, GoesOn;
    EarlyPointsGoOn(k, k);
    if k.tx.WalletId() !in s.db.wallets {
      RefusalGoesOn(s, call, k, WalletNotFound);
    } else {
      var w := s.db.wallets[k.tx.WalletId()];
      match FinishLoss(k.tx, w, call) {
        case Err(e) => RefusalGoesOn(s, call, k, e);
        case Ok(d) => EarlyPointsGoOn(k, k.(pc := Save, wallet := Some(w), decision := Some(d), via := NoMovement));
      }
    }
  }

  lemma LockWalletGoesOn(s: State, call: Id, k: Client)
    requires k.answer.None? && call in s.clients && s.clients[call] == k && k.pc == LockWallet
    ensures Proceeds(StepLockWallet(s, call, k), call, k)
  {
    hide Refuse, GoesOn, MovementDirection;
    RefusalGoesOn(s, call, k, NoMovementDefined);
    RefusalGoesOn(s, call, k, WalletNotFound);
    EarlyPointsGoOn(k, k);
    if k.tx.WalletId() in s.db.wallets {
      EarlyPointsGoOn(k, k.(pc := if k.tx.Kind().IsReversal() then CheckReversal else Decide,
                            wallet := Some(s.db.wallets[k.tx.WalletId()])));
    }
  }

  lemma CheckReversalGoesOn(s: State, call: Id, k: Client)
    requires k.answer.None? && k.pc == CheckReversal
    ensures Proceeds(StepCheckReversal(s, call, k), call, k)
  {
    hide Refuse;
    RefusalGoesOn(s, call, k, MissingReference);
  }

  lemma DecideGoesOn(s: State, call: Id, k: Client)
    requires k.answer.None? && k.pc == Decide
    ensures Proceeds(StepDecide(s, call, k), call, k)
  {
    hide Refuse, GoesOn, Settle;
    if k.wallet.None? {
      RefusalGoesOn(s, call, k, WalletNotFound);
    } else {
      match Settle(k.tx, k.reference, k.wallet.value, k.reversed, call) {
        case Err(e) => RefusalGoesOn(s, call, k, e);
        case Ok(d) => EarlyPointsGoOn(k, k.(pc := Save, decision := Some(d), via := Locked, balance := d.balance));
      }
    }
  }

  lemma SaveGoesOn(s: State, call: Id, k: Client)
    requires k.answer.None? && call in s.clients && s.clients[call] == k && k.pc == Save
    ensures Proceeds(StepSave(s, call, k), call, k)
  {
    hide EntryCollides, Refuse, GoesOn, Release;
    RefusalGoesOn(s, call, k, ConstraintViolation);
    RefusalGoesOn(s, call, k, TransactionAborted);
    EarlyPointsGoOn(k, k);
    if k.decision.Some? {
      EarlyPointsGoOn(k, k.(pc := AfterSave(k)));
      EarlyPointsGoOn(k, k.(pc := Lookup, decision := None, balance := None));
    }
  }

  lemma ReadBalanceTraced(s: State, call: Id, k: Client)
    requires At(s, call, k, ReadBalance)
    ensures Traced(s, StepReadBalance(s, call, k), call, k)
  {
    hide GoesOn, StepTraced, Saved, Committed, Refuse, Settles;
    if k.tx.WalletId() in s.db.wallets {
      DecidedWallet(s, call, k);
      var balance := s.db.wallets[k.tx.WalletId()].balance;
      StandingIsTraced(s, k);
      OwnReadIsTraced(s, k, k.(pc := CompleteInbox, balance := Some(balance)), balance);
      OwnReadIsTraced(s, k, k.(pc := Done, balance := Some(balance), answer := FreshAnswer(k, balance)), balance);
    } else {
      RefusalGoesOn(s, call, k, WalletNotFound);
      GoingOnIsTraced(s, k, Refuse(s, call, k, WalletNotFound).clients[call]);
    }
  }

  lemma DecidedWallet(s: State, call: Id, k: Client)
    requires At(s, call, k, ReadBalance)
    ensures k.decision.Some? && k.answer.None? && k.decision.value.tx.WalletId() == k.tx.WalletId()
  {
    hide WellFormed, Grounded, Decided, HoldsWallet, Unreversed;
    if k.origin.Sqs? {
      DecidedRow(call, k);
    }
  }

  lemma OwnReadIsTraced(s: State, k: Client, k': Client, balance: Money)
    requires k.pc == ReadBalance && k.decision.Some? && k.answer.None? && k.tx.WalletId() in s.db.wallets
    requires k.decision.value.tx.WalletId() == k.tx.WalletId() && balance == s.db.wallets[k.tx.WalletId()].balance
    requires k' == k.(pc := CompleteInbox, balance := Some(balance))
             || k' == k.(pc := Done, balance := Some(balance), answer := FreshAnswer(k, balance))
    ensures StepTraced(s, k, k')
  {
    hide Found, Settles;
  }

  lemma StandingIsTraced(s: State, k: Client)
    ensures StepTraced(s, k, k)
  {
    hide LooksUpNext, LookedInVainNow, ReportTraced, Replayed;
  }

  /** The points of a replay, and of the end of a delivery or of a submission that moves nothing. */
  predicate OfAReplay(pc: Pc) {
    pc == PreCheck || pc == Lookup || pc == ReplayEntry || pc == ReplayWallet || pc == Commit || pc == CompleteInbox
    || pc == Delete || pc == ReadBalance
  }

  lemma OtherStepsGoOn(s: State, call: Id, k: Client)
    requires Core(s) && At(s, call, k, k.pc) && !OfAReplay(k.pc)
    ensures Proceeds(Advance(s, call), call, k) || Advance(s, call) == s
  {
    hide Core, StepReadReference, StepReadLossWallet, StepLockWallet, StepCheckReversal, StepDecide, StepSave,
      Uncommitted, HasDecision, HoldsWallet, Saved, Committed, AnswerOk, InboxHeld, Unreversed, GoesOn, Replays,
      Identified;
    match k.pc {
      case ReadReference => ReadReferenceGoesOn(s, call, k);
      case ReadLossWallet => ReadLossWalletGoesOn(s, call, k);
      case LockWallet => LockWalletGoesOn(s, call, k);
      case CheckReversal => CheckReversalGoesOn(s, call, k);
      case Decide => DecideGoesOn(s, call, k);
      case Save => SaveGoesOn(s, call, k);
      case InsertInbox =>
        EarlyPointsGoOn(k, k.(pc := PreCheck, inbox := StepInsertInbox(s, call, k).clients[call].inbox));
      case Schedule => EarlyPointsGoOn(k, k.(pc := Done));
      case _ =>
    }
  }

  lemma AdvanceTraced(s: State, call: Id, k: Client)
    requires Core(s) && At(s, call, k, k.pc)
    ensures Traced(s, Advance(s, call), call, k)
  {
    hide Sound, IdsKnown, DeletedOk, ClientsOk, ClientOk, RowsOk, IndexOk, WalletsOk, LedgerOk, EventsOk, ReversalsOk,
      SettledHaveEntries, StepPreCheck, StepReadReference, StepReadLossWallet, StepLockWallet, StepCheckReversal,
      StepDecide, StepSave, StepReadBalance, StepCompleteInbox, StepCommit, StepLookup, StepReplayEntry,
      StepReplayWallet, StepDelete, GoesOn;
    SoundParts(s.db);
    match k.pc {
      case PreCheck => PreCheckTraced(s, call, k);
      case Lookup => LookupTraced(s, call, k);
      case ReplayEntry => ReplayEntryTraced(s, call, k);
      case ReplayWallet => ReplayWalletTraced(s, call, k);
      case Commit => CommitTraced(s, call, k);
      case CompleteInbox => CompleteInboxTraced(s, call, k);
      case Delete => DeleteTraced(s, call, k);
      case ReadBalance => ReadBalanceTraced(s, call, k);
      case _ =>
        OtherStepsGoOn(s, call, k);
        if Proceeds(Advance(s, call), call, k) {
          GoingOnIsTraced(s, k, Advance(s, call).clients[call]);
        }
    }
  }

  // ----- a call's first step -----

  /** A call that has just begun replays and reports nothing, and a resolver's row is waiting. */
  predicate Begun(db: Db, k: Client) {
    NotReplaying(k) && Unread(k) && Reported(k).None?
    && (k.origin.Resolver? ==> k.tx.id in db.txs && db.txs[k.tx.id].status == PendingReference)
  }

  predicate NewHere(s: State, later: State, c: Id) {
    c !in s.clients && c in later.clients
  }

  predicate BegunIn(later: State, c: Id) {
    c in later.clients && Begun(later.db, later.clients[c])
  }

  lemma OpeningBegins(s: State, call: Id, now: int, playerId: Id, initialBalance: Money, c: Id)
    requires NewHere(s, BeginOpenWallet(s, call, now, playerId, initialBalance), c)
    ensures BegunIn(BeginOpenWallet(s, call, now, playerId, initialBalance), c)
  {
    hide OpenWallet, Apply;
  }

  lemma SubmissionBegins(s: State, call: Id, now: int, input: Input, c: Id)
    requires NewHere(s, BeginSubmit(s, call, now, input), c)
    ensures BegunIn(BeginSubmit(s, call, now, input), c)
  {
    hide NewTransaction;
  }

  lemma DeliveryBegins(s: State, call: Id, now: int, delivery: Id, c: Id)
    requires NewHere(s, BeginDelivery(s, call, now, delivery), c)
    ensures BegunIn(BeginDelivery(s, call, now, delivery), c)
  {
    hide NewTransaction, Begun;
    if delivery in s.queue {
      var message := s.queue[delivery];
      match NewTransaction(call, now, message.input) {
        case Err(_) =>
        case Ok(tx) => DeliveriesBegin(s.db, delivery, message, tx);
      }
    }
  }

  lemma DeliveriesBegin(db: Db, delivery: Id, message: Message, tx: Tx)
    ensures var k := Start(Sqs(delivery, message), InsertInbox, tx);
            && Begun(db, k) && Begun(db, k.(pc := Done, answer := Some(Refused(PayloadChanged))))
            && Begun(db, k.(pc := Delete))
            && (message.messageId in db.inbox ==>
                  Begun(db, k.(pc := PreCheck, inbox := Some(db.inbox[message.messageId]))))
  {
  }

  lemma ResolutionBegins(s: State, call: Id, id: Id, expired: bool, c: Id)
    requires NewHere(s, BeginResolve(s, call, id, expired), c)
    requires id in s.db.txs ==> s.db.txs[id].id == id
    ensures BegunIn(BeginResolve(s, call, id, expired), c)
  {
    hide RejectTx;
  }

  lemma CallsBegin(s: State, l: Label, c: Id)
    requires Core(s) && NewHere(s, Next(s, l), c)
    ensures BegunIn(Next(s, l), c)
  {
    RowIds(s);
    hide Core, Advance, Crash, Begun, BeginOpenWallet, BeginSubmit, BeginDelivery, BeginResolve;
    match l {
      case OpenWalletCall(call, now, playerId, initialBalance) =>
        OpeningBegins(s, call, now, playerId, initialBalance, c);
      case SubmitCall(call, now, input) => SubmissionBegins(s, call, now, input, c);
      case DeliverCall(call, now, delivery) => DeliveryBegins(s, call, now, delivery, c);
      case ResolveCall(call, id, expired) => ResolutionBegins(s, call, id, expired, c);
      case AdvanceCall(call) => AdvanceKeepsCalls(s, call);
      case CrashCall(call) => CrashKeepsCalls(s, call);
      case SendMessage(_, _) =>
    }
  }

  // ----- any step -----

  /** A step that is not the call's own advance leaves it as it is, or crashes it. */
  predicate SparedOrCrashed(later: State, c: Id, k: Client) {
    c in later.clients && (later.clients[c] == k || later.clients[c] == k.(pc := Dead, answer := None))
  }

  lemma OthersSpare(s: State, l: Label, c: Id, k: Client)
    requires Core(s) && At(s, c, k, k.pc) && l != AdvanceCall(c)
    ensures SparedOrCrashed(Next(s, l), c, k)
  {
    hide Core, ClientOk, Advance, NewTransaction, OpenWallet, RejectTx, Apply, Release;
    if Actor(l) != Some(c) {
      OthersUntouched(s, l, c);
    } else if !l.CrashCall? {
      BegunCallsOnlyAdvance(s, l, c);
    }
  }
}
