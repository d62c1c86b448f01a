/** Saving and committing keep the core invariant, however many resolvers there are. */
module CoreCommits {
  import opened Prelude
  import opened Moneys
  import opened Wallets
  import opened Wagers
  import opened Tables
  import opened Decisions
  import opened Protocol
  import opened Integrity
  import opened Calls
  import opened CoreSteps

  // ----- saving -----

  lemma DecidedRow(call: Id, k: Client)
    requires Decided(call, k)
    ensures k.decision.Some?
    ensures var d := k.decision.value;
            && d.writes.row == Some(d.tx) && d.tx.SameBusiness(k.tx) && d.writes.inbox.None?
            && (d.tx.status == PendingReference ==> k.tx.Kind().IsReversal())
            && (d.writes.entry.Some? ==>
                  k.via == Locked && k.wallet.Some? && d.writes.entry.value.transactionId == k.tx.id
                  && d.writes.entry.value.walletId == k.wallet.value.id)
  {
    hide Settle, RejectTx, ParkReference, FinishLoss;
    DecisionShape(call, k);
  }

  /** The ledger's unique (wallet, transaction) index is enough to know that a transaction has
      no entry at all. */
  lemma NoCollisionMeansNoEntry(db: Db, w: Writes, id: Id, walletId: Id)
    requires LedgerOk(db) && !EntryCollides(db, w)
    requires w.entry.Some? && w.entry.value.transactionId == id && w.entry.value.walletId == walletId
    requires id in db.txs ==> db.txs[id].WalletId() == walletId
    ensures NoEntryFor(db, id)
  {
    forall i | 0 <= i < |db.ledger|
      ensures db.ledger[i].transactionId != id
    {
      assert EntryOk(db, db.ledger[i]);
    }
  }

  /** The entry of a row that does not exist yet is the first for it. */
  lemma FreshEntryDoesNotCollide(db: Db, w: Writes, call: Id)
    requires LedgerOk(db) && call !in db.txs && (w.entry.Some? ==> w.entry.value.transactionId == call)
    ensures !EntryCollides(db, w)
  {
    assert forall i :: 0 <= i < |db.ledger| ==> EntryOk(db, db.ledger[i]);
  }

  lemma SaveKept(s: State, call: Id, k: Client)
    requires RowsOk(s.db) && LedgerOk(s.db) && WalletsOk(s.db) && At(s, call, k, Save)
    ensures Kept(s, StepSave(s, call, k), call)
  {
    hide Decided, LocalTo, EntryCollides, RowsOk, LedgerOk, WalletsOk;
    DecidedRow(call, k);
    var d := k.decision.value;
    if EntryCollides(s.db, d.writes) {
      RefusalKept(s, call, k, ConstraintViolation);
    } else if d.tx.id in s.db.txs {
      SavedKept(s, call, k, s.keyLocks);
    } else if d.tx.key in s.db.index {
      if k.origin.Sqs? {
        RefusalKept(s, call, k, TransactionAborted);
      } else {
        ShapedIsLocal(s, End(s, call, k.(pc := Lookup, decision := None, balance := None)), call);
      }
    } else if !Free(s.keyLocks, d.tx.key, call) {
      ShapedIsLocal(s, s, call);
    } else if d.tx.WalletId() !in s.db.wallets {
      RefusalKept(s, call, k, ConstraintViolation);
    } else {
      SavedKept(s, call, k, s.keyLocks[d.tx.key := call]);
    }
  }

  /** The row can be written: the call moves on with everything saved. */
  lemma SavedKept(s: State, call: Id, k: Client, keyLocks: map<Key, Id>)
    requires RowsOk(s.db) && LedgerOk(s.db) && WalletsOk(s.db) && At(s, call, k, Save)
    requires k.decision.Some? && !EntryCollides(s.db, k.decision.value.writes)
    requires Reserved(s, call, k, keyLocks)
    ensures Kept(s, Put(s, call, k.(pc := AfterSave(k))).(keyLocks := keyLocks), call)
  {
    hide LocalTo, Decided, Saved, HasDecision, RowsOk, LedgerOk, WalletsOk, EntryCollides;
    var k' := k.(pc := AfterSave(k));
    var later := Put(s, call, k').(keyLocks := keyLocks);
    ShapedIsLocal(s, later, call);
    NowSaved(s, later, call, k, k');
  }

  /** An inserted row has its key to itself; an updated one needs none. */
  predicate Reserved(s: State, call: Id, k: Client, keyLocks: map<Key, Id>) {
    if k.origin.Resolver? then keyLocks == s.keyLocks
    else
      && keyLocks == s.keyLocks[k.tx.key := call] && Free(s.keyLocks, k.tx.key, call)
      && k.tx.key !in s.db.index && k.tx.WalletId() in s.db.wallets
  }

  lemma NowSaved(s: State, later: State, call: Id, k: Client, k': Client)
    requires RowsOk(s.db) && LedgerOk(s.db) && WalletsOk(s.db) && HasDecision(s, call, k)
    requires !EntryCollides(s.db, k.decision.value.writes)
    requires later.db == s.db && later.walletLocks == s.walletLocks && Reserved(s, call, k, later.keyLocks)
    requires k' == k.(pc := k'.pc)
    ensures Saved(later, call, k')
  {
    hide Decided, EntryCollides, RowsOk, LedgerOk, WalletsOk, NoEntryFor;
    DecidedIgnoresProgress(call, k, k');
    if k.origin.Resolver? {
      ResolverRowHasWallet(s, call, k);
    }
    DecidedRow(call, k);
    if Moving(k) {
      NoEntryBesideTheDecision(s, call, k);
    }
  }

  lemma ResolverRowHasWallet(s: State, call: Id, k: Client)
    requires RowsOk(s.db) && Identified(s, call, k) && k.origin.Resolver?
    ensures k.tx.WalletId() in s.db.wallets
  {
  }

  lemma NoEntryBesideTheDecision(s: State, call: Id, k: Client)
    requires LedgerOk(s.db) && WalletsOk(s.db) && Moving(k)
    requires Decided(call, k) && HoldsWallet(s, call, k)
    requires k.tx.id in s.db.txs ==> s.db.txs[k.tx.id].WalletId() == k.tx.WalletId()
    requires !EntryCollides(s.db, k.decision.value.writes)
    ensures NoEntryFor(s.db, k.tx.id)
  {
    hide Decided, LedgerOk, EntryCollides, NoEntryFor;
    DecidedRow(call, k);
    assert WalletOk(s.db, k.tx.WalletId());
    NoCollisionMeansNoEntry(s.db, k.decision.value.writes, k.tx.id, k.tx.WalletId());
  }

  // ----- committing -----

  lemma RowOnlyWritesOk(db: Db, call: Id, k: Client, d: Decision, inbox: Option<InboxRow>)
    requires IsRowOnly(call, k, d)
    ensures WalletWriteOk(db, d.writes.(inbox := inbox))
  {
    var event := EventFor(d.tx, call);
    assert [event][..0] == [] && BalanceEvents([]) == [];
  }

  lemma MovementEvents(w: WalletRow, e: LedgerEntry, tx: Tx, call: Id)
    requires e.walletId == w.id && e.transactionId == tx.id
    ensures var events := [ProcessedEvent(tx, call), BalanceChangedEvent(w, e, call)];
            && BalanceEvents(events) == [events[1]]
            && Announces(events, events[1], e, w.version)
  {
    var events := [ProcessedEvent(tx, call), BalanceChangedEvent(w, e, call)];
    assert events[..1] == [events[0]] && [events[0]][..0] == [];
    assert BalanceEvents([]) == [] && BalanceEvents([events[0]]) == [];
    assert events[0].id == events[1].causationId.value && events[0].body.TransactionProcessed?;
  }

  lemma MovementWritesOk(s: State, call: Id, k: Client, inbox: Option<InboxRow>)
    requires WalletsOk(s.db) && HoldsWallet(s, call, k) && NoEntryFor(s.db, k.tx.id) && k.tx.Kind() != Opening
    requires k.decision.Some? && IsMovement(call, k, k.decision.value)
    ensures WalletWriteOk(s.db, k.decision.value.writes.(inbox := inbox))
  {
    var d := k.decision.value;
    var w, e := k.wallet.value, d.writes.entry.value;
    assert WalletOk(s.db, w.id);
    MovedWallet(w, e.direction, k.tx.Amount());
    LedgerEntryAcceptedExactly(e);
    MovementEvents(d.writes.wallet.value, e, d.tx, call);
  }

  lemma RowOfDecisionOk(s: State, call: Id, k: Client)
    requires Saved(s, call, k)
    ensures RowWriteOk(s.db, Staged(k))
  {
    hide Settle, RejectTx, ParkReference, FinishLoss;
    DecidedRow(call, k);
  }

  lemma WalletOfDecisionOk(s: State, call: Id, k: Client)
    requires WalletsOk(s.db) && Saved(s, call, k)
    ensures WalletWriteOk(s.db, Staged(k))
  {
    hide Settle, RejectTx, ParkReference, FinishLoss, IsMovement, IsRowOnly, WalletWriteOk, WalletsOk;
    DecisionShape(call, k);
    if Moving(k) {
      MovementWritesOk(s, call, k, k.inbox);
    } else {
      RowOnlyWritesOk(s.db, call, k, k.decision.value, k.inbox);
    }
  }

  /** A reversal is settled only by a movement, decided when the reference was found unreversed. */
  lemma SettledReversalMoves(call: Id, k: Client)
    requires Decided(call, k) && k.tx.Kind().IsReversal() && k.decision.value.tx.status == Processed
    ensures Moving(k) && k.via == Locked && !k.reversed && k.decision.value.tx.referenceId == k.tx.referenceId
  {
    hide Settle, RejectTx, ParkReference, FinishLoss, Decided;
    DecisionShape(call, k);
  }

  lemma ReversalOfDecisionOk(s: State, call: Id, k: Client)
    requires Saved(s, call, k)
    ensures ReversalWriteOk(s.db, Staged(k))
  {
    hide Decided, WellFormed;
    DecidedRow(call, k);
    if k.tx.Kind().IsReversal() && k.decision.value.tx.status == Processed {
      SettledReversalMoves(call, k);
    }
  }

  /** The submission's key is in the index once the staged writes are applied. */
  lemma KeyIsIndexed(s: State, call: Id, k: Client)
    requires RowsOk(s.db) && IndexOk(s.db) && ReadyToCommit(s, call, k)
    ensures k.tx.key in Apply(s.db, Staged(k)).index
  {
    hide Settle, RejectTx, ParkReference, FinishLoss;
    if k.decision.Some? {
      DecidedRow(call, k);
    }
  }

  lemma StagedWritesOk(s: State, call: Id, k: Client)
    requires RowsOk(s.db) && IndexOk(s.db) && WalletsOk(s.db) && At(s, call, k, Commit)
    ensures WritesOk(s.db, Staged(k))
  {
    hide RowsOk, IndexOk, WalletsOk, Saved, Replays, RowWriteOk, WalletWriteOk;
    KeyIsIndexed(s, call, k);
    if k.decision.Some? {
      RowOfDecisionOk(s, call, k);
      WalletOfDecisionOk(s, call, k);
      ReversalOfDecisionOk(s, call, k);
    } else {
      EmptyWritesOk(s.db, Staged(k));
    }
    if k.origin.Sqs? {
      MessageKeyOf(s, call, k);
    }
  }

  lemma MessageKeyOf(s: State, call: Id, k: Client)
    requires ReadyToCommit(s, call, k) && k.origin.Sqs?
    ensures k.tx.key == MessageKey(k.origin.message)
  {
    hide Decided;
  }

  lemma EmptyWritesOk(db: Db, w: Writes)
    requires w.row.None? && w.entry.None? && w.wallet.None? && w.events == []
    ensures RowWriteOk(db, w) && WalletWriteOk(db, w)
  {
  }

  /** A commit touches one row, which is the call's own or already there, one key and one wallet
      the call holds. */
  predicate Footprint(s: State, call: Id, k: Client, w: Writes) {
    && (w.row.Some? ==> w.row.value.id == k.tx.id && w.row.value.key == k.tx.key
                        && (if k.origin.Resolver? then k.tx.id in s.db.txs
                            else k.tx.id == call && k.tx.key in s.keyLocks && s.keyLocks[k.tx.key] == call))
    && (w.wallet.Some? ==> w.wallet.value.id in s.walletLocks && s.walletLocks[w.wallet.value.id] == call
                           && w.wallet.value.id in s.db.wallets)
    && (w.entry.Some? <==> w.wallet.Some?)
    && (w.entry.Some? ==> w.entry.value.walletId == w.wallet.value.id)
    && (w.row.Some? && w.row.value.Kind().IsReversal() && w.row.value.status == Processed ==>
          w.wallet.Some? && w.wallet.value.id == w.row.value.WalletId())
  }

  lemma StagedFootprint(s: State, call: Id, k: Client)
    requires WalletsOk(s.db) && ReadyToCommit(s, call, k)
    ensures Footprint(s, call, k, Staged(k))
  {
    hide Settle, RejectTx, ParkReference, FinishLoss;
    if k.decision.Some? {
      DecidedRow(call, k);
      MovedWalletIsHeld(s, call, k);
      assert Moving(k) ==> HoldsWallet(s, call, k) && WalletOk(s.db, k.tx.WalletId());
      if k.tx.Kind().IsReversal() && k.decision.value.tx.status == Processed {
        SettledReversalMoves(call, k);
      }
    }
  }

  lemma MovedWalletIsHeld(s: State, call: Id, k: Client)
    requires HasDecision(s, call, k)
    ensures var w := k.decision.value.writes;
            && (w.entry.Some? <==> w.wallet.Some?)
            && (w.entry.Some? ==>
                  k.wallet.Some? && w.wallet.value.id == k.wallet.value.id
                  && w.entry.value.walletId == w.wallet.value.id)
  {
    hide Settle, RejectTx, ParkReference, FinishLoss, HoldsWallet, Uncommitted;
    DecisionShape(call, k);
    if Moving(k) {
      MovedKeepsId(k.wallet.value, k.decision.value.writes.entry.value.direction, k.tx.Amount());
    }
  }

  lemma MovedKeepsId(w: WalletRow, direction: Direction, amount: Money)
    ensures w.Moved(direction, amount).Ok? ==> w.Moved(direction, amount).value.id == w.id
  {
  }

  /** What everyone else finds after a commit. */
  lemma CommitLeaves(s: State, later: State, call: Id, k: Client, w: Writes, c: Id)
    requires Footprint(s, call, k, w) && RowWriteOk(s.db, w) && ReversalWriteOk(s.db, w) && c != call
    requires later.db == Apply(s.db, w) && Evolves(s.db, later.db)
    requires later.walletLocks == Release(s.walletLocks, call) && later.keyLocks == Release(s.keyLocks, call)
    ensures Leaves(s, later, c)
  {
    hide Evolves, NoNewReversals, RowWriteOk, ReversalWriteOk;
    forall id | id in s.walletLocks && s.walletLocks[id] == c
      ensures LedgerOf(later.db.ledger, id) == LedgerOf(s.db.ledger, id) && NoNewReversals(s.db, later.db, id)
    {
      if w.entry.Some? {
        LedgerOfAppend(s.db.ledger, w.entry.value, id);
      }
      CommitReversesElsewhere(s, call, k, w, id);
    }
  }

  /** A commit settles a reversal only in the wallet its call holds. */
  lemma CommitReversesElsewhere(s: State, call: Id, k: Client, w: Writes, walletId: Id)
    requires Footprint(s, call, k, w) && RowWriteOk(s.db, w) && ReversalWriteOk(s.db, w)
    requires walletId in s.walletLocks && s.walletLocks[walletId] != call
    ensures NoNewReversals(s.db, Apply(s.db, w), walletId)
  {
    hide Apply, RowWriteOk;
    var later := Apply(s.db, w);
    if w.row.Some? {
      UpsertedRow(s.db, w);
    } else {
      RowlessKeepsRows(s.db, w);
    }
    forall r | r in s.db.txs && s.db.txs[r].WalletId() == walletId && later.HasReversal(r)
      ensures s.db.HasReversal(r)
    {
      var id :| id in later.txs && later.IsReversalOf(id, r);
      assert s.db.IsReversalOf(id, r);
    }
  }

  lemma CommitIdsKnown(s: State, later: State, call: Id, k: Client, w: Writes)
    requires IdsKnown(s) && call in s.clients && Footprint(s, call, k, w)
    requires later.db == Apply(s.db, w) && later.clients.Keys == s.clients.Keys
    requires later.walletLocks == Release(s.walletLocks, call)
    ensures IdsKnown(later)
  {
  }

  lemma EvolvingKeepsDeleted(s: State, later: State)
    requires DeletedOk(s) && Evolves(s.db, later.db) && later.deleted == s.deleted
    ensures DeletedOk(later)
  {
  }

  // ----- the call that committed -----

  /** The committed row is what the call answers with, and a movement's entry carries the balance
      it answers with. */
  lemma CommittedDecision(s: State, later: Db, call: Id, k: Client)
    requires Saved(s, call, k) && RowsOk(s.db) && later == Apply(s.db, Staged(k))
    ensures var t := k.decision.value.tx;
            && Committed(later, call, k, t)
            && (Settles(t) ==>
                  k.decision.value.balance.Some? && EntryLeaves(later, t.id, k.decision.value.balance.value))
  {
    hide Settle, RejectTx, ParkReference, FinishLoss, RowsOk;
    DecidedRow(call, k);
    SettledDecisionMoves(call, k);
    if Settles(k.decision.value.tx) {
      assert later.ledger[|s.db.ledger|] == k.decision.value.writes.entry.value;
    }
  }

  lemma SettledDecisionMoves(call: Id, k: Client)
    requires Decided(call, k)
    ensures var d := k.decision.value;
            Settles(d.tx) ==> d.writes.entry.Some? && d.balance == Some(d.writes.entry.value.balanceAfter)
                              && d.writes.entry.value.transactionId == d.tx.id
  {
    hide Settle, RejectTx, ParkReference, FinishLoss;
    DecisionShape(call, k);
  }

  lemma CommitterOk(s: State, later: State, call: Id, k: Client)
    requires RowsOk(s.db) && IndexOk(s.db) && At(s, call, k, Commit) && later == StepCommit(s, call, k)
    requires Evolves(s.db, later.db)
    ensures call in later.clients && ClientOk(later, call, later.clients[call])
  {
    hide RowsOk, IndexOk, Apply, Evolves, ReadyToCommit, Committed, Settles, AnswerOk, MessageDone, StepCommit,
      FreshAnswer;
    CommitterPoint(s, call, k);
    CommittedClient(s, call, k);
    if k.balance.None? {
      UnansweredYet(s, later, call, k);
    } else {
      AnswersRight(s, later, call, k);
    }
  }

  lemma CommitterPoint(s: State, call: Id, k: Client)
    requires At(s, call, k, Commit)
    ensures ReadyToCommit(s, call, k) && InboxHeld(k)
    ensures if k.origin.Sqs? then k.balance.Some? && k.inbox.Some? && k.inbox.value.completed else k.decision.Some?
  {
    hide ReadyToCommit;
  }

  /** The call once it has committed. */
  lemma CommittedClient(s: State, call: Id, k: Client)
    ensures var later := StepCommit(s, call, k);
            && call in later.clients && later.db == Apply(s.db, Staged(k))
            && later.clients[call] == if k.balance.None? then k.(pc := ReadBalance)
                                      else k.(pc := if k.origin.Sqs? then Delete else Done,
                                              answer := FreshAnswer(k, k.balance.value))
  {
    hide Apply, Staged, Release, FreshAnswer;
  }

  lemma UnansweredYet(s: State, later: State, call: Id, k: Client)
    requires RowsOk(s.db) && At(s, call, k, Commit) && k.balance.None? && later.db == Apply(s.db, Staged(k))
    ensures k.decision.Some? && !k.origin.Sqs? && !Settles(k.decision.value.tx)
            && Committed(later.db, call, k.(pc := ReadBalance), k.decision.value.tx)
  {
    hide Saved, Replays, RowsOk, Apply, EntryLeaves, Settles, InboxHeld;
    CommittedDecision(s, later.db, call, k);
    KnownBalance(s, call, k);
  }

  lemma AnswersRight(s: State, later: State, call: Id, k: Client)
    requires RowsOk(s.db) && IndexOk(s.db) && At(s, call, k, Commit) && k.balance.Some?
    requires later.db == Apply(s.db, Staged(k)) && Evolves(s.db, later.db)
    ensures if k.origin.Sqs?
            then AnswerOk(later, call, k.(pc := Delete, answer := FreshAnswer(k, k.balance.value)))
                 && MessageDone(later.db, k.origin.message)
            else AnswerOk(later, call, k.(pc := Done, answer := FreshAnswer(k, k.balance.value)))
  {
    hide ReadyToCommit, RowsOk, IndexOk, Apply, EntryLeaves, Settles, Evolves, AnswerOk, MessageDone, FreshAnswer;
    CommitterPoint(s, call, k);
    if k.origin.Sqs? {
      AnswerIsOk(s, later, call, k, k.(pc := Delete, answer := FreshAnswer(k, k.balance.value)));
      MessageIsDone(s, later.db, call, k);
    } else {
      AnswerIsOk(s, later, call, k, k.(pc := Done, answer := FreshAnswer(k, k.balance.value)));
    }
  }

  lemma KnownBalance(s: State, call: Id, k: Client)
    requires Saved(s, call, k)
    ensures k.decision.value.balance.Some? ==> k.balance == k.decision.value.balance
  {
    hide Decided;
  }

  lemma AnswerIsOk(s: State, later: State, call: Id, k: Client, k': Client)
    requires RowsOk(s.db) && ReadyToCommit(s, call, k) && k.balance.Some?
    requires later.db == Apply(s.db, Staged(k)) && Evolves(s.db, later.db)
    requires k' == k.(pc := k'.pc, answer := FreshAnswer(k, k.balance.value))
    ensures AnswerOk(later, call, k')
  {
    hide Saved, RowsOk, Apply, EntryLeaves, Settles;
    if k.decision.Some? {
      CommittedDecision(s, later.db, call, k);
      KnownBalance(s, call, k);
    }
  }

  lemma MessageIsDone(s: State, later: Db, call: Id, k: Client)
    requires RowsOk(s.db) && IndexOk(s.db) && ReadyToCommit(s, call, k) && k.origin.Sqs?
    requires k.inbox.Some? && k.inbox.value.messageId == k.origin.message.messageId
    requires later == Apply(s.db, Staged(k))
    ensures MessageDone(later, k.origin.message)
  {
    hide RowsOk, IndexOk, ReadyToCommit;
    KeyIsIndexed(s, call, k);
    MessageKeyOf(s, call, k);
    CommittedInbox(s.db, Staged(k));
  }

  lemma CommittedInbox(db: Db, w: Writes)
    requires w.inbox.Some?
    ensures w.inbox.value.messageId in Apply(db, w).inbox
  {
  }

  lemma CommitKeepsCore(s: State, call: Id, k: Client)
    requires Core(s) && At(s, call, k, Commit)
    ensures Core(StepCommit(s, call, k))
  {
    hide ClientOk, Sound, WritesOk, IdsKnown, Evolves, StepCommit, Footprint, DeletedOk, WalletsOk, RowWriteOk,
      ReversalWriteOk;
    var later, w := StepCommit(s, call, k), Staged(k);
    SoundParts(s.db);
    CommitEffect(s, call, k);
    StagedWritesOk(s, call, k);
    WritesKeepSound(s.db, w);
    CommitFootprint(s, call, k);
    CommitIdsKnown(s, later, call, k, w);
    EvolvingKeepsDeleted(s, later);
    SoundParts(later.db);
    forall c | c in later.clients
      ensures ClientOk(later, c, later.clients[c])
    {
      if c == call {
        CommitterOk(s, later, call, k);
      } else {
        WritesOkParts(s.db, w);
        CommitLeaves(s, later, call, k, w, c);
        ClientStaysOk(s, later, c, s.clients[c]);
      }
    }
  }

  lemma SoundParts(db: Db)
    requires Sound(db)
    ensures RowsOk(db) && IndexOk(db) && WalletsOk(db) && LedgerOk(db) && InboxOk(db)
    ensures EventsOk(db) && ReversalsOk(db) && SettledHaveEntries(db)
  {
    hide RowsOk, IndexOk, WalletsOk, LedgerOk, EventsOk, InboxOk, ReversalsOk, SettledHaveEntries;
  }

  lemma WritesOkParts(db: Db, w: Writes)
    requires WritesOk(db, w)
    ensures RowWriteOk(db, w) && ReversalWriteOk(db, w)
  {
    hide RowWriteOk, WalletWriteOk, InboxWriteOk, ReversalWriteOk;
  }

  lemma CommitFootprint(s: State, call: Id, k: Client)
    requires WalletsOk(s.db) && At(s, call, k, Commit)
    ensures Footprint(s, call, k, Staged(k))
  {
    hide WalletsOk, Footprint, ReadyToCommit;
    StagedFootprint(s, call, k);
  }

  /** What a commit does to the state. */
  lemma CommitEffect(s: State, call: Id, k: Client)
    requires call in s.clients
    ensures var later := StepCommit(s, call, k);
            && later.db == Apply(s.db, Staged(k)) && later.deleted == s.deleted
            && later.walletLocks == Release(s.walletLocks, call) && later.keyLocks == Release(s.keyLocks, call)
            && later.clients.Keys == s.clients.Keys
            && forall c :: c in s.clients && c != call ==> later.clients[c] == s.clients[c]
  {
    hide Apply, Staged;
  }
}
