/** One key, one transaction: what concurrent submissions of the same (provider, external id) are
    answered, and what a message does however often it is delivered. Any number of resolvers. */
module Idempotency {
  import opened Prelude
  import opened Moneys
  import opened Wagers
  import opened Tables
  import opened Decisions
  import opened Protocol
  import opened Integrity
  import opened Calls
  import opened CoreSteps
  import opened CoreCommits
  import opened CoreTheorem
  import opened Histories

  // ----- answers -----

  /** The submission was answered with a transaction. */
  predicate Answered(s: State, c: Id) {
    && c in s.clients && !s.clients[c].origin.Resolver?
    && s.clients[c].answer.Some? && s.clients[c].answer.value.Accepted?
  }

  function AnswerOf(s: State, c: Id): Answer
    requires Answered(s, c)
  {
    s.clients[c].answer.value
  }

  lemma AnswerIsOfTheKey(s: State, c: Id)
    requires Core(s) && Answered(s, c)
    ensures var t := AnswerOf(s, c).tx;
            && Answers(s.db, s.clients[c], t)
            && (!AnswerOf(s, c).replay ==> t.id == c)
            && s.clients[c].tx.key in s.db.index && s.db.index[s.clients[c].tx.key] == t.id
  {
    hide WalletsOk, LedgerOk, EventsOk, InboxOk, IdsKnown, DeletedOk, Saved, HasDecision, Uncommitted, Replays, Decided,
      Settles, EntryLeaves, WellFormed, MessageDone, ReadyToCommit;
    assert ClientOk(s, c, s.clients[c]);
  }

  /** All who are answered for one key are answered the same transaction, whose content is what
      each of them submitted, and at most one of them is not a replay. */
  lemma OneTransactionPerKey(schedule: seq<Label>, a: Id, b: Id)
    requires var s := Run(schedule);
             Answered(s, a) && Answered(s, b) && s.clients[a].tx.key == s.clients[b].tx.key
    ensures var s := Run(schedule);
            && AnswerOf(s, a).tx.id == AnswerOf(s, b).tx.id
            && AnswerOf(s, a).tx.payload == s.clients[a].tx.payload == s.clients[b].tx.payload
            && (!AnswerOf(s, a).replay && !AnswerOf(s, b).replay ==> a == b)
  {
    hide Core, Next;
    ReachableIsCore(schedule);
    AnswerIsOfTheKey(Run(schedule), a);
    AnswerIsOfTheKey(Run(schedule), b);
    var s := Run(schedule);
    assert s.db.txs[AnswerOf(s, a).tx.id].payload == s.clients[a].tx.payload;
    assert s.db.txs[AnswerOf(s, b).tx.id].payload == s.clients[b].tx.payload;
  }

  /** A key has one row, and the row one ledger entry, for good. */
  lemma OneRowAndEntryPerKey(schedule: seq<Label>, tail: seq<Label>, a: Id, b: Id, i: nat, j: nat)
    requires var db, later := Run(schedule).db, Run(schedule + tail).db;
             && a in db.txs && b in later.txs && db.txs[a].Kind() != Opening && later.txs[b].Kind() != Opening
             && db.txs[a].key == later.txs[b].key
    ensures a == b
    ensures var db, later := Run(schedule).db, Run(schedule + tail).db;
            i < |db.ledger| && j < |later.ledger|
            && db.ledger[i].transactionId == a && later.ledger[j].transactionId == b ==>
              i == j
  {
    hide Next, WalletsOk, EventsOk, InboxOk, RowsOk, IdsKnown, DeletedOk, ClientsOk, EntryOk;
    ReachableIsCore(schedule + tail);
    EvolvesAlong(schedule, tail);
    var db, later := Run(schedule).db, Run(schedule + tail).db;
    assert later.txs[a].SameBusiness(db.txs[a]);
    if i < |db.ledger| && j < |later.ledger| {
      assert later.ledger[i] == db.ledger[i];
    }
  }

  // ----- a key that is already there -----

  /** A submission whose key is already in the table, before or after it noticed. */
  predicate Latecomer(s: State, call: Id, t: Tx) {
    && call in s.clients
    && t.key in s.db.index && s.db.index[t.key] in s.db.txs
    && LateAt(s.db, s.clients[call], s.db.txs[s.db.index[t.key]], t)
  }

  predicate LateAt(db: Db, k: Client, row: Tx, t: Tx) {
    && !k.origin.Resolver? && k.tx == t && k.decision.None?
    && match k.pc
       case InsertInbox => k.answer.None?
       case PreCheck => k.answer.None?
       case Lookup => k.answer.None?
       case ReplayEntry => k.answer.None? && Knows(k, row)
       case ReplayWallet => k.answer.None? && Knows(k, row) && row.payload == t.payload
       case CompleteInbox =>
         k.origin.Sqs? && k.answer.None? && Knows(k, row) && row.payload == t.payload && k.balance.Some?
       case Commit => k.origin.Sqs? && k.answer.None? && Knows(k, row) && row.payload == t.payload && k.balance.Some?
       case Delete => k.origin.Sqs? && row.payload == t.payload && LateAnswer(k.answer, row, t)
       case Done =>
         LateAnswer(k.answer, row, t)
         && (k.origin.Sqs? && row.payload == t.payload ==> MessageDone(db, k.origin.message))
       case Dead => true
       case _ => false
  }

  predicate Knows(k: Client, row: Tx) {
    k.existing.Some? && k.existing.value.SameBusiness(row)
  }

  /** The row as a replay when the content is the same, and the conflict when it is not. */
  predicate LateAnswer(answer: Option<Answer>, row: Tx, t: Tx) {
    answer.Some?
    && if row.payload == t.payload then
         answer.value.Accepted? && answer.value.replay && answer.value.tx.SameBusiness(row)
       else
         answer == Some(Refused(IdempotencyConflict))
  }

  /** The call, changed by a step that leaves the tables alone, is late still. */
  lemma StillLate(s: State, later: State, call: Id, t: Tx, k': Client)
    requires Latecomer(s, call, t) && later.db == s.db && call in later.clients && later.clients[call] == k'
    requires t.key in s.db.index && s.db.index[t.key] in s.db.txs && LateAt(s.db, k', s.db.txs[s.db.index[t.key]], t)
    ensures Latecomer(later, call, t)
  {
    hide LateAt;
  }

  lemma LatecomerLooksUp(s: State, call: Id, t: Tx)
    requires Latecomer(s, call, t) && RowsOk(s.db) && IndexOk(s.db)
    requires s.clients[call].pc == PreCheck || s.clients[call].pc == Lookup
    ensures var k := s.clients[call];
            var later := if k.pc == PreCheck then StepPreCheck(s, call, k) else StepLookup(s, call, k);
            Latecomer(later, call, t)
  {
    hide WellFormed;
    assert s.db.FindByKey(t.key) == Some(s.db.txs[s.db.index[t.key]]);
  }

  lemma LatecomerCompares(s: State, call: Id, t: Tx)
    requires Latecomer(s, call, t) && s.clients[call].pc == ReplayEntry
    ensures Latecomer(StepReplayEntry(s, call, s.clients[call]), call, t)
  {
    hide EntryFor, FinishReplay, Latecomer, Release;
    KnownRow(s, call, t);
    var k := s.clients[call];
    if k.existing.value.payload == t.payload {
      var entry := s.db.FindLedgerEntry(k.existing.value.id);
      if entry.Some? {
        LatecomerFinishes(s, s, call, t, entry.value.balanceAfter);
      } else {
        StillLate(s, StepReplayEntry(s, call, k), call, t, k.(pc := ReplayWallet));
      }
    } else {
      var k' := k.(pc := Done, answer := Some(Refused(IdempotencyConflict)));
      StillLate(s, End(s, call, k'), call, t, k');
    }
  }

  lemma KnownRow(s: State, call: Id, t: Tx)
    requires Latecomer(s, call, t) && (s.clients[call].pc == ReplayEntry || s.clients[call].pc == ReplayWallet)
    ensures call in s.clients && t.key in s.db.index && s.db.index[t.key] in s.db.txs
    ensures LateAt(s.db, s.clients[call], s.db.txs[s.db.index[t.key]], t)
    ensures s.clients[call].existing.Some?
            && s.clients[call].existing.value.payload == s.db.txs[s.db.index[t.key]].payload
  {
  }

  lemma LatecomerFinishes(s: State, read: State, call: Id, t: Tx, balance: Money)
    requires Latecomer(s, call, t) && (s.clients[call].pc == ReplayEntry || s.clients[call].pc == ReplayWallet)
    requires s.clients[call].existing.value.payload == t.payload && read.db == s.db
    ensures Latecomer(FinishReplay(read, call, s.clients[call], balance), call, t)
  {
    hide Latecomer;
    KnownRow(s, call, t);
    var k := s.clients[call];
    StillLate(s, FinishReplay(read, call, k, balance), call, t,
              if k.origin.Sqs? then k.(pc := CompleteInbox, balance := Some(balance))
              else k.(pc := Done, balance := Some(balance), answer := FreshAnswer(k, balance)));
  }

  lemma LatecomerReadsWallet(s: State, call: Id, t: Tx)
    requires Latecomer(s, call, t) && RowsOk(s.db) && IndexOk(s.db) && s.clients[call].pc == ReplayWallet
    ensures Latecomer(StepReplayWallet(s, call, s.clients[call]), call, t)
  {
    hide WellFormed, FinishReplay;
    LateWalletIsThere(s, call, t);
    if MayRead(s, call, s.clients[call]) {
      LatecomerFinishes(s, Read(s, call, s.clients[call]), call, t, s.db.wallets[t.WalletId()].balance);
    }
  }

  lemma LateWalletIsThere(s: State, call: Id, t: Tx)
    requires Latecomer(s, call, t) && RowsOk(s.db) && s.clients[call].pc == ReplayWallet
    ensures t.WalletId() in s.db.wallets && s.clients[call].tx == t
            && s.clients[call].existing.value.payload == t.payload
  {
    hide WellFormed;
  }

  /** A late delivery's own steps around the replay: its inbox row can always be completed. */
  lemma LateDeliveryCompletes(s: State, call: Id, t: Tx)
    requires Latecomer(s, call, t) && InboxHeld(s.clients[call])
    requires s.clients[call].pc == InsertInbox || s.clients[call].pc == CompleteInbox
    ensures Latecomer(Advance(s, call), call, t)
  {
    hide Latecomer, Release;
    LateParts(s, call, t);
    var k := s.clients[call];
    StillLate(s, Advance(s, call), call, t, Advance(s, call).clients[call]);
  }

  lemma LateParts(s: State, call: Id, t: Tx)
    requires Latecomer(s, call, t)
    ensures call in s.clients && t.key in s.db.index && s.db.index[t.key] in s.db.txs
    ensures LateAt(s.db, s.clients[call], s.db.txs[s.db.index[t.key]], t)
  {
    hide LateAt;
  }

  lemma LateDeliveryDeletes(s: State, call: Id, t: Tx)
    requires Latecomer(s, call, t) && At(s, call, s.clients[call], Delete)
    ensures Latecomer(StepDelete(s, call, s.clients[call]), call, t)
  {
    hide Latecomer, AnswerOk, MessageDone;
    LateParts(s, call, t);
    var k := s.clients[call];
    StillLate(s, StepDelete(s, call, k), call, t, k.(pc := Done));
  }

  lemma LateDeliveryCommits(s: State, call: Id, t: Tx)
    requires Latecomer(s, call, t) && At(s, call, s.clients[call], Commit)
    requires Evolves(s.db, StepCommit(s, call, s.clients[call]).db)
    ensures Latecomer(StepCommit(s, call, s.clients[call]), call, t)
  {
    hide Latecomer, StepCommit, ReadyToCommit, Evolves;
    LateParts(s, call, t);
    var k := s.clients[call];
    var k' := k.(pc := Delete, answer := FreshAnswer(k, k.balance.value));
    CommittedClient(s, call, k);
    StillLate(s, Put(s, call, k'), call, t, k');
    LatecomerWaits(Put(s, call, k'), StepCommit(s, call, k), call, t);
  }

  lemma LatecomerAdvances(s: State, call: Id, t: Tx)
    requires Core(s) && Latecomer(s, call, t) && Evolves(s.db, Advance(s, call).db)
    ensures Latecomer(Advance(s, call), call, t)
  {
    hide Sound, IdsKnown, DeletedOk, Evolves, AtPc, Latecomer, LateAt, InboxHeld, RowsOk, IndexOk, WalletsOk, LedgerOk,
      EventsOk, ReversalsOk, SettledHaveEntries, StepPreCheck, StepLookup, StepReplayEntry, StepReplayWallet,
      StepDelete, StepCommit, StepInsertInbox, StepCompleteInbox;
    LateParts(s, call, t);
    LatePoints(s, call, t);
    SoundParts(s.db);
    var k := s.clients[call];
    assert ClientOk(s, call, k);
    match k.pc {
      case PreCheck => LatecomerLooksUp(s, call, t);
      case Lookup => LatecomerLooksUp(s, call, t);
      case ReplayEntry => LatecomerCompares(s, call, t);
      case ReplayWallet => LatecomerReadsWallet(s, call, t);
      case InsertInbox => LateDeliveryCompletes(s, call, t);
      case CompleteInbox => LateDeliveryCompletes(s, call, t);
      case Commit => LateDeliveryCommits(s, call, t);
      case Delete => LateDeliveryDeletes(s, call, t);
      case Done =>
      case Dead =>
    }
  }

  lemma LatePoints(s: State, call: Id, t: Tx)
    requires Latecomer(s, call, t)
    ensures var pc := s.clients[call].pc;
            || pc == InsertInbox || pc == PreCheck || pc == Lookup || pc == ReplayEntry || pc == ReplayWallet
            || pc == CompleteInbox || pc == Commit || pc == Delete || pc == Done || pc == Dead
  {
  }

  lemma LatecomerWaits(s: State, later: State, call: Id, t: Tx)
    requires Latecomer(s, call, t) && Evolves(s.db, later.db)
    requires call in later.clients && later.clients[call] == s.clients[call]
    ensures Latecomer(later, call, t)
  {
  }

  lemma LatecomerCrashes(s: State, call: Id, t: Tx)
    requires Latecomer(s, call, t)
    ensures Latecomer(Crash(s, call), call, t)
  {
    hide Release;
  }

  lemma LatecomerStays(s: State, l: Label, call: Id, t: Tx)
    requires Core(s) && Latecomer(s, call, t)
    ensures Latecomer(Next(s, l), call, t)
  {
    hide Core, Next, Latecomer, LateAt, Evolves;
    LateParts(s, call, t);
    NextEvolves(s, l);
    if Actor(l) != Some(call) {
      OthersUntouched(s, l, call);
      LatecomerWaits(s, Next(s, l), call, t);
    } else if l.AdvanceCall? {
      AdvanceIsNext(s, call);
      LatecomerAdvances(s, call, t);
    } else if l.CrashCall? {
      LatecomerCrashes(s, call, t);
      CrashIsNext(s, call);
    } else {
      BegunCallsOnlyAdvance(s, l, call);
    }
  }

  /** A submission that has decided nothing: it is about to save its inbox row, to look the key up, or
      has just lost the race to insert it. */
  predicate Undecided(s: State, call: Id) {
    && call in s.clients && !s.clients[call].origin.Resolver?
    && (s.clients[call].pc == InsertInbox || s.clients[call].pc == PreCheck || s.clients[call].pc == Lookup)
  }

  /** Once a key has a row, such a submission of it, by HTTP or from the queue, ends with the row as a
      replay or, for different content, with the conflict; with nothing else, whatever else happens. A
      delivery that ends with the replay has its completed inbox row committed. */
  lemma {:induction false} KnownKeyIsReplayed(schedule: seq<Label>, tail: seq<Label>, call: Id)
    requires var s := Run(schedule); Undecided(s, call) && s.clients[call].tx.key in s.db.index
    ensures Latecomer(Run(schedule + tail), call, Run(schedule).clients[call].tx)
    decreases |tail|
  {
    hide Core, Next, Latecomer;
    ReachableIsCore(schedule);
    if tail == [] {
      assert schedule + tail == schedule;
      FirstLate(Run(schedule), call);
    } else {
      var n := |tail| - 1;
      KnownKeyIsReplayed(schedule, tail[..n], call);
      ReachableIsCore(schedule + tail[..n]);
      assert schedule + tail == schedule + tail[..n] + [tail[n]];
      RunStep(schedule + tail[..n], tail[n]);
      LatecomerStays(Run(schedule + tail[..n]), tail[n], call, Run(schedule).clients[call].tx);
    }
  }

  lemma FirstLate(s: State, call: Id)
    requires Core(s) && Undecided(s, call) && s.clients[call].tx.key in s.db.index
    ensures Latecomer(s, call, s.clients[call].tx)
  {
    hide RowsOk, WalletsOk, LedgerOk, EventsOk, InboxOk, ReversalsOk, SettledHaveEntries, IdsKnown, DeletedOk,
      InboxHeld, Uncommitted, Identified, HasDecision, Saved, Replays, ReadyToCommit, AnswerOk, Committed, MessageDone;
    assert ClientOk(s, call, s.clients[call]);
  }

  /** A delivery about to compare its content with a row that differs. */
  predicate FindsOtherContent(s: State, call: Id, k: Client) {
    && IsCall(s, call, k) && k.origin.Sqs? && k.pc == ReplayEntry
    && k.tx.key in s.db.index && s.db.index[k.tx.key] in s.db.txs
    && s.db.txs[s.db.index[k.tx.key]].payload != k.tx.payload
  }

  /** Such a delivery ends with the conflict: nothing is committed, the locks are given back, and the
      message stays in the queue. */
  lemma {:induction false} ConflictLeavesTheMessage(schedule: seq<Label>, call: Id, k: Client)
    requires FindsOtherContent(Run(schedule), call, k)
    ensures GivesUp(Run(schedule), Run(schedule + [AdvanceCall(call)]), call, IdempotencyConflict)
  {
    hide Run, Next, Advance, Sound, IdsKnown, DeletedOk, ClientsOk, RowsOk, IndexOk, WalletsOk, LedgerOk, EventsOk,
      ReversalsOk, SettledHaveEntries, InboxOk, At, Refuse, GivesUp;
    NextStepAt(schedule, call, k);
    SoundParts(Run(schedule).db);
    DifferentContentIsRefused(Run(schedule), call, k);
    RefusalGivesUp(Run(schedule), call, IdempotencyConflict);
  }

  lemma DifferentContentIsRefused(s: State, call: Id, k: Client)
    requires RowsOk(s.db) && IndexOk(s.db) && At(s, call, k, ReplayEntry) && FindsOtherContent(s, call, k)
    ensures Advance(s, call) == Refuse(s, call, k, IdempotencyConflict)
  {
    hide WellFormed, Refuse, EntryFor, FinishReplay;
    assert Advance(s, call) == StepReplayEntry(s, call, k);
  }

  /** The call ends with an error; the tables and the queue are as they were, and it holds no lock. */
  predicate GivesUp(s: State, later: State, call: Id, e: Error) {
    && call in later.clients && later.clients[call].pc == Done && later.clients[call].answer == Some(Refused(e))
    && later.db == s.db && later.queue == s.queue && later.deleted == s.deleted
    && (forall w :: w in later.walletLocks ==> later.walletLocks[w] != call)
    && (forall key :: key in later.keyLocks ==> later.keyLocks[key] != call)
  }

  lemma RefusalGivesUp(s: State, call: Id, e: Error)
    requires call in s.clients
    ensures GivesUp(s, Refuse(s, call, s.clients[call], e), call, e)
  {
  }

  /** The call is about to insert its row, and the key has got one. */
  predicate LosesTheInsert(s: State, call: Id, k: Client) {
    IsCall(s, call, k) && k.pc == Save && !k.origin.Resolver? && k.tx.key in s.db.index
  }

  predicate LooksTheWinnerUp(s: State, later: State, call: Id) {
    call in later.clients && later.clients[call].pc == Lookup && later.db == s.db
  }

  /** An HTTP submission that finds its key taken at the insert goes on to look the winner up. */
  lemma {:induction false} LostInsertIsLookedUp(schedule: seq<Label>, call: Id, k: Client)
    requires LosesTheInsert(Run(schedule), call, k) && k.origin == Http
    ensures LooksTheWinnerUp(Run(schedule), Run(schedule + [AdvanceCall(call)]), call)
  {
    hide Run, Next, Advance, Core, LedgerOk, At, Release;
    NextStepAt(schedule, call, k);
    CoreLedgerOk(Run(schedule));
    LostInsert(Run(schedule), call, k);
  }

  /** Inside a delivery the lost insert dooms the whole transaction: nothing is committed, the locks
      are given back, and the message stays in the queue. */
  lemma {:induction false} LostInsertAbortsTheDelivery(schedule: seq<Label>, call: Id, k: Client)
    requires LosesTheInsert(Run(schedule), call, k) && k.origin.Sqs?
    ensures GivesUp(Run(schedule), Run(schedule + [AdvanceCall(call)]), call, TransactionAborted)
  {
    hide Run, Next, Advance, Core, LedgerOk, At, Refuse, GivesUp;
    NextStepAt(schedule, call, k);
    CoreLedgerOk(Run(schedule));
    LostInsert(Run(schedule), call, k);
    RefusalGivesUp(Run(schedule), call, TransactionAborted);
  }

  predicate IsCall(s: State, call: Id, k: Client) {
    call in s.clients && s.clients[call] == k
  }

  /** The next step, when it is this call's. */
  lemma NextStepAt(schedule: seq<Label>, call: Id, k: Client)
    requires IsCall(Run(schedule), call, k)
    ensures Core(Run(schedule)) && Run(schedule + [AdvanceCall(call)]) == Advance(Run(schedule), call)
    ensures At(Run(schedule), call, k, k.pc)
  {
    hide Run, Next, Advance, Core, At;
    ReachableIsCore(schedule);
    RunStep(schedule, AdvanceCall(call));
    AdvanceIsNext(Run(schedule), call);
    AtItsPoint(Run(schedule), call);
  }

  lemma LostInsert(s: State, call: Id, k: Client)
    requires LedgerOk(s.db) && At(s, call, k, Save) && LosesTheInsert(s, call, k)
    ensures Advance(s, call) == if k.origin.Sqs? then Refuse(s, call, k, TransactionAborted)
                                else End(s, call, k.(pc := Lookup, decision := None, balance := None))
  {
    hide ParkReference, RejectTx, FinishLoss, Settle, WellFormed, EntryCollides, Refuse, End;
    DecidedRow(call, k);
    DecisionShape(call, k);
    FreshEntryDoesNotCollide(s.db, k.decision.value.writes, call);
    assert Advance(s, call) == StepSave(s, call, k);
  }

  // ----- messages -----

  predicate Deleted(s: State, delivery: Id, m: Message) {
    delivery in s.deleted && s.deleted[delivery] == m
  }

  predicate InboxRowCompleted(db: Db, messageId: string) {
    messageId in db.inbox && db.inbox[messageId].completed && MessageKey(db.inbox[messageId].hashed) in db.index
  }

  predicate HasItsRow(db: Db, m: Message) {
    && MessageKey(m) in db.index && db.index[MessageKey(m)] in db.txs
    && db.txs[db.index[MessageKey(m)]].key == MessageKey(m)
  }

  /** A deleted message is done: its inbox row is completed and its submission's row committed. */
  lemma DeletedMessagesAreDone(schedule: seq<Label>, delivery: Id, m: Message)
    requires Deleted(Run(schedule), delivery, m)
    ensures InboxRowCompleted(Run(schedule).db, m.messageId) && HasItsRow(Run(schedule).db, m)
  {
    hide Next, WalletsOk, EventsOk, LedgerOk, RowsOk, IdsKnown, ClientsOk, ReversalsOk, SettledHaveEntries;
    ReachableIsCore(schedule);
  }

  /** No inbox row is ever half done, and each one's submission is committed. */
  lemma InboxRowsAreComplete(schedule: seq<Label>, messageId: string)
    requires messageId in Run(schedule).db.inbox
    ensures InboxRowCompleted(Run(schedule).db, messageId)
  {
    hide Next, WalletsOk, EventsOk, LedgerOk, RowsOk, IdsKnown, ClientsOk, ReversalsOk, SettledHaveEntries;
    ReachableIsCore(schedule);
  }

  /** However often a message is delivered, by whatever calls, the wallet moves once for its key. */
  lemma MessageMovesOnce(schedule: seq<Label>, m: Message, i: nat, j: nat)
    requires var db := Run(schedule).db;
             && i < |db.ledger| && j < |db.ledger|
             && IsEntryFor(db, i, MessageKey(m)) && IsEntryFor(db, j, MessageKey(m))
    ensures i == j
  {
    hide Next, WalletsOk, EventsOk, InboxOk, RowsOk, IdsKnown, DeletedOk, ClientsOk;
    ReachableIsCore(schedule);
    var db := Run(schedule).db;
    assert db.ledger[i].transactionId == db.index[MessageKey(m)] == db.ledger[j].transactionId;
  }

  predicate IsEntryFor(db: Db, i: nat, key: Key)
    requires i < |db.ledger|
  {
    var id := db.ledger[i].transactionId;
    id in db.txs && db.txs[id].Kind() != Opening && db.txs[id].key == key
  }
}
