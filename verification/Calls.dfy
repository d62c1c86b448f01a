/** What holds of every call in every reachable state, however many resolvers there are. */
module Calls {
  import opened Prelude
  import opened Moneys
  import opened Wagers
  import opened Tables
  import opened Decisions
  import opened Protocol
  import opened Integrity

  // ----- the parts of a call's invariant -----

  /** The reference a call has read belongs to the transaction's own wallet and is the one it
      names; what reverses nothing has none. */
  predicate Grounded(s: State, k: Client) {
    && (k.reference.Some? ==>
          var r := k.reference.value.id;
          && k.tx.referenceId == Some(r)
          && r in s.db.txs && s.db.txs[r].WalletId() == k.tx.WalletId())
    && (!k.tx.Kind().IsReversal() ==> k.reference.None? && k.tx.referenceId.None?)
  }

  /** A submission keeps the id of its own call; a resolver drives a row that exists. */
  predicate Identified(s: State, call: Id, k: Client) {
    && WellFormed(k.tx) && k.tx.Kind() != Opening && Grounded(s, k)
    && (k.origin.Sqs? ==> k.tx.key == MessageKey(k.origin.message))
    && if k.origin.Resolver? then
         k.tx.id in s.db.txs && k.tx.SameBusiness(s.db.txs[k.tx.id]) && k.tx.Kind().IsReversal()
       else
         k.tx.id == call
  }

  /** Nothing of the call is committed. */
  predicate Uncommitted(s: State, call: Id, k: Client) {
    && Identified(s, call, k)
    && (!k.origin.Resolver? ==> call !in s.db.txs)
    && k.tx.status == (if k.origin.Resolver? then PendingReference else Pending)
  }

  predicate HoldsWallet(s: State, call: Id, k: Client) {
    var w := k.tx.WalletId();
    && w in s.walletLocks && s.walletLocks[w] == call
    && w in s.db.wallets && k.wallet == Some(s.db.wallets[w])
  }

  /** What was found unreversed under the lock still is. */
  predicate Unreversed(s: State, k: Client) {
    k.tx.Kind().IsReversal() ==>
      k.reference.Some? && (!k.reversed ==> !s.db.HasReversal(k.reference.value.id))
  }

  /** The wallet of a loss still has the currency that was read. */
  predicate SameCurrency(s: State, k: Client) {
    k.wallet.Some? && k.tx.WalletId() in s.db.wallets
    && s.db.wallets[k.tx.WalletId()].balance.currency == k.wallet.value.balance.currency
  }

  predicate Moving(k: Client) {
    k.decision.Some? && k.decision.value.writes.entry.Some?
  }

  /** The decision is the one the program makes from what the call has read. */
  predicate Decided(call: Id, k: Client) {
    && k.decision.Some?
    && var d := Ok(k.decision.value);
       match k.via
       case Parked => ParkReference(k.tx, call) == d && k.tx.status == Pending && k.tx.Kind().IsReversal()
       case BadReference => RejectTx(k.tx, InvalidReferenceCode, call) == d
       case Expired => k.origin.Resolver? && RejectTx(k.tx, ReferenceNotFound, call) == d
       case NoMovement => k.tx.Kind() == Loss && k.wallet.Some? && FinishLoss(k.tx, k.wallet.value, call) == d
       case Locked => k.wallet.Some? && Settle(k.tx, k.reference, k.wallet.value, k.reversed, call) == d
  }

  /** A decision made under the wallet's lock is kept under it. */
  predicate HasDecision(s: State, call: Id, k: Client) {
    && Uncommitted(s, call, k)
    && Decided(call, k)
    && (k.via == Locked ==> HoldsWallet(s, call, k) && Unreversed(s, k))
    && (k.via == NoMovement ==> SameCurrency(s, k))
    && (k.decision.value.balance.Some? ==> k.balance == k.decision.value.balance)
  }

  predicate NoEntryFor(db: Db, id: Id) {
    forall i :: 0 <= i < |db.ledger| ==> db.ledger[i].transactionId != id
  }

  /** Everything is saved, nothing is committed: the key is reserved. */
  predicate Saved(s: State, call: Id, k: Client) {
    && HasDecision(s, call, k)
    && k.tx.WalletId() in s.db.wallets
    && (!k.origin.Resolver? ==>
          k.tx.key in s.keyLocks && s.keyLocks[k.tx.key] == call && k.tx.key !in s.db.index)
    && (Moving(k) ==> NoEntryFor(s.db, k.tx.id))
  }

  /** A row under the submission's own key, to be answered with. */
  predicate Replays(s: State, call: Id, k: Client) {
    && Identified(s, call, k)
    && !k.origin.Resolver? && k.decision.None?
    && k.existing.Some?
    && k.existing.value.key == k.tx.key && k.existing.value.Kind() != Opening
    && k.existing.value.id in s.db.txs && k.existing.value.SameBusiness(s.db.txs[k.existing.value.id])
  }

  predicate Agrees(k: Client) {
    k.existing.Some? && k.existing.value.payload == k.tx.payload
  }

  predicate ReadyToCommit(s: State, call: Id, k: Client) {
    if k.decision.Some? then Saved(s, call, k) else Replays(s, call, k) && Agrees(k)
  }

  /** The message's work is in the database. */
  predicate MessageDone(db: Db, m: Message) {
    MessageKey(m) in db.index && m.messageId in db.inbox
  }

  predicate EntryLeaves(db: Db, id: Id, balance: Money) {
    exists i :: 0 <= i < |db.ledger| && db.ledger[i].transactionId == id && db.ledger[i].balanceAfter == balance
  }

  /** A row the call answers for: its key and payload are the submission's. */
  predicate Answers(db: Db, k: Client, t: Tx) {
    && t.key == k.tx.key && t.payload == k.tx.payload && t.Kind() != Opening
    && t.id in db.txs && t.SameBusiness(db.txs[t.id])
  }

  /** The call's own decision is committed. */
  predicate Committed(db: Db, call: Id, k: Client, t: Tx) {
    Answers(db, k, t) && (!k.origin.Resolver? ==> t.id == call)
  }

  predicate AnswerOk(s: State, call: Id, k: Client) {
    k.answer.Some? && k.answer.value.Accepted? ==>
      var a := k.answer.value;
      if a.replay then !k.origin.Resolver? && Answers(s.db, k, a.tx)
      else Committed(s.db, call, k, a.tx) && (Settles(a.tx) ==> EntryLeaves(s.db, a.tx.id, a.balance))
  }

  /** The consumer is between saving its inbox row and completing it. */
  predicate InboxOpen(pc: Pc) {
    pc != InsertInbox && pc != Commit && pc != Delete && pc != Done && pc != Dead
  }

  /** The staged inbox row is the message's own, and not completed before its time. */
  predicate InboxHeld(k: Client) {
    if k.origin.Sqs? then
      && (k.inbox.Some? ==>
            k.inbox.value.messageId == k.origin.message.messageId && k.inbox.value.hashed == k.origin.message)
      && (InboxOpen(k.pc) ==> k.inbox.Some? && !k.inbox.value.completed)
    else
      k.inbox.None?
  }

  predicate AtPc(s: State, call: Id, k: Client) {
    match k.pc
    case InsertInbox => Uncommitted(s, call, k) && k.origin.Sqs? && k.decision.None?
    case PreCheck => Uncommitted(s, call, k) && !k.origin.Resolver? && k.decision.None?
    case ReadReference => Uncommitted(s, call, k) && k.tx.Kind().IsReversal()
    case ReadLossWallet => Uncommitted(s, call, k) && k.tx.Kind() == Loss
    case LockWallet => Uncommitted(s, call, k)
    case CheckReversal => Uncommitted(s, call, k) && HoldsWallet(s, call, k) && k.tx.Kind().IsReversal()
    case Decide => Uncommitted(s, call, k) && HoldsWallet(s, call, k) && Unreversed(s, k)
    case Save => HasDecision(s, call, k)
    case ReadBalance =>
      if k.origin.Sqs? then k.decision.Some? && k.balance.None? && Saved(s, call, k)
      else k.decision.Some? && Committed(s.db, call, k, k.decision.value.tx) && !Settles(k.decision.value.tx)
    case CompleteInbox => k.origin.Sqs? && k.balance.Some? && ReadyToCommit(s, call, k)
    case Commit =>
      && ReadyToCommit(s, call, k)
      && if k.origin.Sqs? then k.balance.Some? && k.inbox.Some? && k.inbox.value.completed else k.decision.Some?
    case Lookup => Identified(s, call, k) && k.origin == Http && k.decision.None? && k.tx.key in s.db.index
    case ReplayEntry => Replays(s, call, k)
    case ReplayWallet => Replays(s, call, k) && Agrees(k)
    case Delete => k.origin.Sqs? && MessageDone(s.db, k.origin.message) && AnswerOk(s, call, k)
    case Schedule => k.origin.Resolver?
    case Done => AnswerOk(s, call, k)
    case Dead => true
  }

  predicate ClientOk(s: State, call: Id, k: Client) {
    && InboxHeld(k)
    && AtPc(s, call, k)
    && (k.pc != Done && k.pc != Delete ==> k.answer.None?)
  }

  predicate ClientsOk(s: State) {
    forall c :: c in s.clients ==> ClientOk(s, c, s.clients[c])
  }

  /** Ids come only from calls that have begun, and only wallets that exist are locked. */
  predicate IdsKnown(s: State) {
    && (forall id :: id in s.db.txs ==> id in s.clients)
    && (forall w :: w in s.db.wallets ==> w in s.clients)
    && (forall w :: w in s.walletLocks ==> w in s.db.wallets)
    && s.db.attempts.Keys == s.db.txs.Keys
  }

  predicate DeletedOk(s: State) {
    forall d :: d in s.deleted ==> MessageDone(s.db, s.deleted[d])
  }

  predicate Core(s: State) {
    Sound(s.db) && IdsKnown(s) && ClientsOk(s) && DeletedOk(s)
  }

  // ----- a call under the steps of others -----

  /** No row of the wallet has a reversal that had none before. */
  predicate NoNewReversals(db: Db, later: Db, w: Id) {
    forall r :: r in db.txs && db.txs[r].WalletId() == w && later.HasReversal(r) ==> db.HasReversal(r)
  }

  /** What a step of someone else leaves to a call. */
  predicate Leaves(s: State, later: State, c: Id) {
    && Evolves(s.db, later.db)
    && (c !in s.db.txs ==> c !in later.db.txs)
    && (forall w :: w in s.walletLocks && s.walletLocks[w] == c ==>
          && w in later.walletLocks && later.walletLocks[w] == c
          && (w in s.db.wallets ==> w in later.db.wallets && later.db.wallets[w] == s.db.wallets[w])
          && LedgerOf(later.db.ledger, w) == LedgerOf(s.db.ledger, w)
          && NoNewReversals(s.db, later.db, w))
    && (forall key :: key in s.keyLocks && s.keyLocks[key] == c ==>
          && key in later.keyLocks && later.keyLocks[key] == c
          && (key !in s.db.index ==> key !in later.db.index))
  }

  lemma EntryLeavesStays(db: Db, later: Db, id: Id, balance: Money)
    requires db.ledger <= later.ledger && EntryLeaves(db, id, balance)
    ensures EntryLeaves(later, id, balance)
  {
    var i :| 0 <= i < |db.ledger| && db.ledger[i].transactionId == id && db.ledger[i].balanceAfter == balance;
    assert later.ledger[i] == db.ledger[i];
  }

  /** No entry of a transaction appears while its wallet's ledger stands still. */
  lemma NoEntryStays(db: Db, later: Db, id: Id, w: Id)
    requires LedgerOk(later) && NoEntryFor(db, id)
    requires id in later.txs ==> later.txs[id].WalletId() == w
    requires LedgerOf(later.ledger, w) == LedgerOf(db.ledger, w)
    ensures NoEntryFor(later, id)
  {
    forall i | 0 <= i < |later.ledger|
      ensures later.ledger[i].transactionId != id
    {
      var e := later.ledger[i];
      assert EntryOk(later, e);
      assert e.transactionId == id ==> e in LedgerOf(later.ledger, w);
      assert e.transactionId == id ==> e in db.ledger;
    }
  }

  lemma AnswerStaysOk(s: State, later: State, c: Id, k: Client)
    requires Evolves(s.db, later.db) && AnswerOk(s, c, k)
    ensures AnswerOk(later, c, k)
  {
    if k.answer.Some? && k.answer.value.Accepted? && !k.answer.value.replay && Settles(k.answer.value.tx) {
      EntryLeavesStays(s.db, later.db, k.answer.value.tx.id, k.answer.value.balance);
    }
  }

  lemma OnlyLockedMoves(call: Id, k: Client)
    requires Decided(call, k)
    ensures Moving(k) ==> k.via == Locked
  {
    hide Settle;
  }

  lemma SavedStays(s: State, later: State, c: Id, k: Client)
    requires LedgerOk(later.db) && Leaves(s, later, c) && Saved(s, c, k)
    ensures Saved(later, c, k)
  {
    hide Settle, ParkReference, RejectTx, FinishLoss;
    OnlyLockedMoves(c, k);
    if Moving(k) {
      NoEntryStays(s.db, later.db, k.tx.id, k.tx.WalletId());
    }
  }

  lemma ClientStaysOk(s: State, later: State, c: Id, k: Client)
    requires LedgerOk(later.db) && Leaves(s, later, c) && ClientOk(s, c, k)
    ensures ClientOk(later, c, k)
  {
    hide Decided, LedgerOk, Saved, AnswerOk, WellFormed, Settles, InboxHeld;
    if k.pc == Done || k.pc == Delete {
      AnswerStaysOk(s, later, c, k);
    } else if k.decision.Some? && (k.pc == ReadBalance || k.pc == CompleteInbox || k.pc == Commit) && Saved(s, c, k) {
      SavedStays(s, later, c, k);
    }
  }

  /** A step that leaves the database alone, and everyone else's locks. */
  predicate LocalTo(s: State, later: State, call: Id) {
    && later.db == s.db && later.queue == s.queue && later.deleted == s.deleted
    && later.clients.Keys == s.clients.Keys + {call}
    && (forall c :: c in s.clients && c != call ==> later.clients[c] == s.clients[c])
    && (forall w :: w in s.walletLocks && s.walletLocks[w] != call ==>
          w in later.walletLocks && later.walletLocks[w] == s.walletLocks[w])
    && (forall w :: w in later.walletLocks ==> w in s.walletLocks || w in s.db.wallets)
    && (forall key :: key in s.keyLocks && s.keyLocks[key] != call ==>
          key in later.keyLocks && later.keyLocks[key] == s.keyLocks[key])
  }

  lemma BystanderStaysOk(s: State, later: State, call: Id, c: Id)
    requires LedgerOk(s.db) && LocalTo(s, later, call)
    requires c in s.clients && c != call && ClientOk(s, c, s.clients[c])
    ensures c in later.clients && ClientOk(later, c, later.clients[c])
  {
    hide ClientOk, LedgerOk;
    assert Evolves(s.db, later.db);
    assert Leaves(s, later, c);
    ClientStaysOk(s, later, c, s.clients[c]);
  }

  lemma LocalStepKeepsCore(s: State, later: State, call: Id)
    requires Core(s) && LocalTo(s, later, call)
    requires ClientOk(later, call, later.clients[call])
    ensures Core(later)
  {
    hide ClientOk, RowsOk, IndexOk, WalletsOk, LedgerOk, EventsOk, InboxOk, ReversalsOk, SettledHaveEntries,
      MessageDone;
    assert IdsKnown(later) && DeletedOk(later);
    BystandersStayOk(s, later, call);
  }

  lemma BystandersStayOk(s: State, later: State, call: Id)
    requires LedgerOk(s.db) && ClientsOk(s) && LocalTo(s, later, call)
    requires ClientOk(later, call, later.clients[call])
    ensures ClientsOk(later)
  {
    hide ClientOk, LedgerOk;
    forall c | c in later.clients
      ensures ClientOk(later, c, later.clients[c])
    {
      if c != call {
        BystanderStaysOk(s, later, call, c);
      }
    }
  }
}
