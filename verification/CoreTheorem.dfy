/** The core invariant holds in every state of every run, however many resolvers there are. */
module CoreTheorem {
  import opened Prelude
  import opened Moneys
  import opened Wallets
  import opened Wagers
  import opened Tables
  import opened Decisions
  import opened Protocol
  import opened Integrity
  import opened Calls
  import opened CoreSteps
  import opened CoreCommits

  // ----- calls beginning -----

  lemma CandidateIsWellFormed(id: Id, now: int, input: Input)
    ensures var r := NewTransaction(id, now, input);
            r.Ok? ==> WellFormed(r.value) && r.value.Kind() != Opening && r.value.id == id && r.value.status == Pending
                      && r.value.key == Key(input.providerId, input.externalId) && r.value.referenceId.None?
  {
  }

  lemma BeginSubmitKept(s: State, call: Id, now: int, input: Input)
    requires IdsKnown(s) && call !in s.clients && NewTransaction(call, now, input).Ok?
    ensures Kept(s, BeginSubmit(s, call, now, input), call)
  {
    hide LocalTo, NewTransaction;
    CandidateIsWellFormed(call, now, input);
    PutIsLocal(s, call, Start(Http, PreCheck, NewTransaction(call, now, input).value));
  }

  lemma BeginDeliveryKept(s: State, call: Id, now: int, delivery: Id)
    requires IdsKnown(s) && InboxOk(s.db) && call !in s.clients && delivery in s.queue
             && s.queue[delivery].messageId != ""
    requires NewTransaction(call, now, s.queue[delivery].input).Ok?
    ensures Kept(s, BeginDelivery(s, call, now, delivery), call)
  {
    hide NewTransaction, Kept, Put, Uncommitted;
    var message := s.queue[delivery];
    var tx := NewTransaction(call, now, message.input).value;
    CandidateIsWellFormed(call, now, message.input);
    DeliveryBegins(s, call, delivery, message, tx);
    var k := Start(Sqs(delivery, message), InsertInbox, tx);
    if message.messageId in s.db.inbox {
      var row := s.db.inbox[message.messageId];
      MovesOn(s, call, if row.hashed != message then k.(pc := Done, answer := Some(Refused(PayloadChanged)))
                       else if row.completed then k.(pc := Delete) else k.(pc := PreCheck, inbox := Some(row)));
    } else {
      MovesOn(s, call, k);
    }
  }

  lemma DeliveryBegins(s: State, call: Id, delivery: Id, message: Message, tx: Tx)
    requires IdsKnown(s) && call !in s.clients
    requires WellFormed(tx) && tx.Kind() != Opening && tx.id == call && tx.status == Pending
             && tx.key == MessageKey(message)
    requires tx.referenceId.None?
    ensures var k := Start(Sqs(delivery, message), InsertInbox, tx);
            Uncommitted(s, call, k)
            && (message.messageId in s.db.inbox ==>
                  Uncommitted(s, call, k.(pc := PreCheck, inbox := Some(s.db.inbox[message.messageId]))))
  {
    hide Decided, WellFormed;
  }

  lemma BeginResolveKept(s: State, call: Id, id: Id, expired: bool)
    requires RowsOk(s.db) && IndexOk(s.db) && call !in s.clients && id in s.db.txs
             && s.db.txs[id].status == PendingReference
    ensures Kept(s, BeginResolve(s, call, id, expired), call)
  {
    hide Kept, Put, RejectTx, HasDecision, Uncommitted;
    var tx := s.db.txs[id];
    if expired {
      RejectionExists(tx, call);
      var d := RejectTx(tx, ReferenceNotFound, call).value;
      var k := Start(Resolver, Save, tx).(decision := Some(d), via := Protocol.Expired);
      ExpiryDecided(s, call, tx, d);
      MovesOn(s, call, k);
    } else {
      RetryBegins(s, call, tx);
      MovesOn(s, call, Start(Resolver, Entry(tx.Kind()), tx));
    }
  }

  lemma RejectionExists(tx: Tx, call: Id)
    requires tx.status == PendingReference
    ensures var r := RejectTx(tx, ReferenceNotFound, call); r.Ok? && r.value.balance.None? && r.value.writes.entry.None?
  {
  }

  lemma ExpiryDecided(s: State, call: Id, tx: Tx, d: Decision)
    requires RowsOk(s.db) && tx.id in s.db.txs && s.db.txs[tx.id] == tx && tx.status == PendingReference
    requires RejectTx(tx, ReferenceNotFound, call) == Ok(d) && d.balance.None?
    ensures HasDecision(s, call, Start(Resolver, Save, tx).(decision := Some(d), via := Protocol.Expired))
  {
    hide RejectTx;
  }

  lemma RetryBegins(s: State, call: Id, tx: Tx)
    requires RowsOk(s.db) && tx.id in s.db.txs && s.db.txs[tx.id] == tx && tx.status == PendingReference
    ensures Uncommitted(s, call, Start(Resolver, Entry(tx.Kind()), tx)) && tx.Kind().IsReversal()
  {
    hide Decided;
  }

  lemma EnqueueKeepsCore(s: State, delivery: Id, message: Message)
    requires Core(s)
    ensures Core(Enqueue(s, delivery, message))
  {
    hide Sound, ClientOk;
    var later := Enqueue(s, delivery, message);
    forall c | c in later.clients
      ensures ClientOk(later, c, later.clients[c])
    {
      QueueIsIrrelevant(s, later, c, s.clients[c]);
    }
  }

  lemma QueueIsIrrelevant(s: State, later: State, c: Id, k: Client)
    requires ClientOk(s, c, k) && later == s.(queue := later.queue)
    ensures ClientOk(later, c, k)
  {
    hide Decided;
  }

  // ----- opening a wallet -----

  lemma OpeningWritesOk(db: Db, call: Id, now: int, playerId: Id, initialBalance: Money)
    requires LedgerOk(db) && call !in db.txs && call !in db.wallets
    requires OpenWallet(call, now, playerId, initialBalance).Ok?
    ensures WritesOk(db, OpenWallet(call, now, playerId, initialBalance).value)
  {
    var w := OpenWallet(call, now, playerId, initialBalance).value;
    if w.entry.Some? {
      LedgerEntryAcceptedExactly(w.entry.value);
      MovementEvents(w.wallet.value, w.entry.value, w.row.value, call);
      assert forall i :: 0 <= i < |db.ledger| ==> EntryOk(db, db.ledger[i]);
    }
  }

  /** What opening a wallet leaves to the calls under way: nobody can hold it yet. */
  lemma OpeningLeaves(s: State, later: State, call: Id, w: Writes, c: Id)
    requires IdsKnown(s) && call !in s.clients && c in s.clients
    requires later == s.(db := Apply(s.db, w), clients := later.clients) && Evolves(s.db, later.db)
    requires w.wallet.Some? && w.wallet.value.id == call
             && (w.row.Some? ==> w.row.value.id == call && w.row.value.Kind() == Opening)
    requires w.entry.Some? ==> w.entry.value.walletId == call
    ensures Leaves(s, later, c)
  {
    hide Evolves;
    forall id | id in s.walletLocks && s.walletLocks[id] == c
      ensures LedgerOf(later.db.ledger, id) == LedgerOf(s.db.ledger, id)
    {
      if w.entry.Some? {
        LedgerOfAppend(s.db.ledger, w.entry.value, id);
      }
    }
  }

  lemma OpeningShape(call: Id, now: int, playerId: Id, initialBalance: Money)
    requires OpenWallet(call, now, playerId, initialBalance).Ok?
    ensures var w := OpenWallet(call, now, playerId, initialBalance).value;
            && w.wallet.Some? && w.wallet.value.id == call
            && (w.row.Some? ==> w.row.value.id == call && w.row.value.Kind() == Opening)
            && (w.entry.Some? ==> w.entry.value.walletId == call)
  {
  }

  lemma OpeningIdsKnown(s: State, later: State, call: Id, w: Writes)
    requires IdsKnown(s) && later.db == Apply(s.db, w) && later.walletLocks == s.walletLocks
    requires later.clients.Keys == s.clients.Keys + {call}
    requires w.wallet.Some? && w.wallet.value.id == call && (w.row.Some? ==> w.row.value.id == call)
    ensures IdsKnown(later)
  {
  }

  lemma OpenWalletKeepsCore(s: State, call: Id, now: int, playerId: Id, initialBalance: Money)
    requires Core(s)
    ensures Core(BeginOpenWallet(s, call, now, playerId, initialBalance))
  {
    hide Sound, ClientOk, IdsKnown, DeletedOk, WritesOk, OpenWallet, Evolves, Leaves, Apply;
    var later := BeginOpenWallet(s, call, now, playerId, initialBalance);
    if later != s {
      var w := OpenWallet(call, now, playerId, initialBalance).value;
      SoundParts(s.db);
      FreshIds(s, call);
      OpeningShape(call, now, playerId, initialBalance);
      OpeningWritesOk(s.db, call, now, playerId, initialBalance);
      WritesKeepSound(s.db, w);
      OpeningIdsKnown(s, later, call, w);
      EvolvingKeepsDeleted(s, later);
      SoundParts(later.db);
      forall c | c in later.clients
        ensures ClientOk(later, c, later.clients[c])
      {
        if c == call {
          FinishedIsOk(later, call, later.clients[call]);
        } else {
          OpeningLeaves(s, later, call, w, c);
          ClientStaysOk(s, later, c, s.clients[c]);
        }
      }
    }
  }

  lemma FreshIds(s: State, call: Id)
    requires IdsKnown(s) && call !in s.clients
    ensures call !in s.db.txs && call !in s.db.wallets
  {
  }

  lemma FinishedIsOk(s: State, call: Id, k: Client)
    requires k.pc == Done && k.origin == Http && k.answer.None? && k.inbox.None?
    ensures ClientOk(s, call, k)
  {
  }

  // ----- counting attempts, deleting messages -----

  lemma AttemptsAreIrrelevant(db: Db, later: Db)
    requires Sound(db) && later == db.(attempts := later.attempts)
    ensures Sound(later) && Evolves(db, later)
  {
    hide LedgerOf, Moves, BalanceEvents, EventOk, WalletOk, EventsOk, WalletsOk;
    EventsIgnoreAttempts(db, later);
    WalletsIgnoreAttempts(db, later);
  }

  lemma EventsIgnoreAttempts(db: Db, later: Db)
    requires EventsOk(db) && later == db.(attempts := later.attempts)
    ensures EventsOk(later)
  {
    hide LedgerOf, Moves, BalanceEvents, Announces;
    forall i | 0 <= i < |later.ledger|
      ensures EventOk(later, i)
    {
      assert EventOk(db, i);
    }
  }

  lemma WalletsIgnoreAttempts(db: Db, later: Db)
    requires WalletsOk(db) && later == db.(attempts := later.attempts)
    ensures WalletsOk(later)
  {
    hide LedgerOf, Moves, Chained;
    forall w | w in later.wallets
      ensures WalletOk(later, w)
    {
      assert WalletOk(db, w);
    }
  }

  /** Steps that change neither rows nor locks. */
  lemma BookkeepingKeepsCore(s: State, later: State, call: Id)
    requires Core(s) && call in s.clients
    requires later == s.(db := later.db, clients := later.clients, queue := later.queue, deleted := later.deleted)
    requires later.db == s.db.(attempts := later.db.attempts) && later.db.attempts.Keys == s.db.attempts.Keys
    requires call in later.clients && later.clients == s.clients[call := later.clients[call]]
    requires ClientOk(later, call, later.clients[call]) && DeletedOk(later)
    ensures Core(later)
  {
    hide Sound, ClientOk, DeletedOk, Evolves, Leaves;
    AttemptsAreIrrelevant(s.db, later.db);
    SoundParts(later.db);
    forall c | c in later.clients
      ensures ClientOk(later, c, later.clients[c])
    {
      if c != call {
        BookkeepingLeaves(s, later, c);
        ClientStaysOk(s, later, c, s.clients[c]);
      }
    }
  }

  lemma BookkeepingLeaves(s: State, later: State, c: Id)
    requires later.walletLocks == s.walletLocks && later.keyLocks == s.keyLocks
    requires later.db == s.db.(attempts := later.db.attempts) && Evolves(s.db, later.db)
    ensures Leaves(s, later, c)
  {
    hide Evolves;
  }

  lemma DeleteKeepsCore(s: State, call: Id, k: Client)
    requires Core(s) && At(s, call, k, Delete)
    ensures Core(StepDelete(s, call, k))
  {
    hide Sound, ClientsOk, IdsKnown;
    BookkeepingKeepsCore(s, StepDelete(s, call, k), call);
  }

  lemma ScheduleKeepsCore(s: State, call: Id, k: Client)
    requires Core(s) && At(s, call, k, Schedule)
    ensures Core(StepSchedule(s, call, k))
  {
    hide Sound, ClientsOk, Decided;
    BookkeepingKeepsCore(s, StepSchedule(s, call, k), call);
  }

  // ----- the theorem -----

  lemma LocalAdvanceKept(s: State, call: Id, k: Client)
    requires call in s.clients && s.clients[call] == k && ClientOk(s, call, k)
    requires k.pc != Commit && k.pc != Delete && k.pc != Schedule && k.pc != Done && k.pc != Dead
    requires RowsOk(s.db) && IndexOk(s.db) && LedgerOk(s.db) && WalletsOk(s.db)
    ensures Kept(s, Advance(s, call), call)
  {
    hide ClientOk, Kept, RowsOk, IndexOk, LedgerOk, WalletsOk, StepInsertInbox, StepPreCheck, StepReadReference,
      StepReadLossWallet, StepLockWallet, StepCheckReversal, StepDecide, StepSave, StepReadBalance, StepCompleteInbox,
      StepLookup, StepReplayEntry, StepReplayWallet;
    match k.pc {
      case InsertInbox => InsertInboxKept(s, call, k);
      case PreCheck => PreCheckKept(s, call, k);
      case ReadReference => ReadReferenceKept(s, call, k);
      case ReadLossWallet => ReadLossWalletKept(s, call, k);
      case LockWallet => LockWalletKept(s, call, k);
      case CheckReversal => CheckReversalKept(s, call, k);
      case Decide => DecideKept(s, call, k);
      case Save => SaveKept(s, call, k);
      case ReadBalance => ReadBalanceKept(s, call, k);
      case CompleteInbox => CompleteInboxKept(s, call, k);
      case Lookup => LookupKept(s, call, k);
      case ReplayEntry => ReplayEntryKept(s, call, k);
      case ReplayWallet => ReplayWalletKept(s, call, k);
    }
  }

  lemma KeptKeepsCore(s: State, later: State, call: Id)
    requires Core(s) && Kept(s, later, call)
    ensures Core(later)
  {
    hide Core, LocalTo, ClientOk;
    LocalStepKeepsCore(s, later, call);
  }

  lemma AdvanceKeepsCore(s: State, call: Id)
    requires Core(s)
    ensures Core(Advance(s, call))
  {
    hide Sound, ClientOk, IdsKnown, DeletedOk, Kept, StepInsertInbox, StepPreCheck, StepReadReference,
      StepReadLossWallet, StepLockWallet, StepCheckReversal, StepDecide, StepSave, StepReadBalance, StepCompleteInbox,
      StepCommit, StepLookup, StepReplayEntry, StepReplayWallet, StepDelete, StepSchedule;
    if call in s.clients {
      var k := s.clients[call];
      match k.pc {
        case Commit => CommitKeepsCore(s, call, k);
        case Delete => DeleteKeepsCore(s, call, k);
        case Schedule => ScheduleKeepsCore(s, call, k);
        case Done =>
        case Dead =>
        case _ =>
          SoundParts(s.db);
          LocalAdvanceKept(s, call, k);
          KeptKeepsCore(s, Advance(s, call), call);
      }
    }
  }

  lemma NextKeepsCore(s: State, l: Label)
    requires Core(s)
    ensures Core(Next(s, l))
  {
    hide Sound, ClientOk, Kept, LocalTo, Advance, BeginOpenWallet, Enqueue, NewTransaction, InboxOk, RowsOk, IndexOk,
      WalletsOk, LedgerOk;
    SoundParts(s.db);
    match l {
      case OpenWalletCall(call, now, playerId, initialBalance) =>
        OpenWalletKeepsCore(s, call, now, playerId, initialBalance);
      case SendMessage(delivery, message) => EnqueueKeepsCore(s, delivery, message);
      case AdvanceCall(call) => AdvanceKeepsCore(s, call);
      case CrashCall(call) =>
        if call in s.clients {
          CrashKept(s, call);
          KeptKeepsCore(s, Crash(s, call), call);
        } else {
          assert Crash(s, call) == s;
        }
      case SubmitCall(call, now, input) =>
        if BeginSubmit(s, call, now, input) != s {
          BeginSubmitKept(s, call, now, input);
          KeptKeepsCore(s, Next(s, l), call);
        }
      case DeliverCall(call, now, delivery) =>
        if BeginDelivery(s, call, now, delivery) != s {
          BeginDeliveryKept(s, call, now, delivery);
          KeptKeepsCore(s, Next(s, l), call);
        }
      case ResolveCall(call, id, expired) =>
        if BeginResolve(s, call, id, expired) != s {
          BeginResolveKept(s, call, id, expired);
          KeptKeepsCore(s, Next(s, l), call);
        }
    }
  }

  /** Every reachable state is sound, whatever the interleaving, the crashes and the resolvers. */
  lemma {:induction false} ReachableIsCore(schedule: seq<Label>)
    ensures Core(Run(schedule))
  {
    if schedule == [] {
      EmptyIsSound();
    } else {
      ReachableIsCore(schedule[..|schedule| - 1]);
      NextKeepsCore(Run(schedule[..|schedule| - 1]), schedule[|schedule| - 1]);
    }
  }
}
