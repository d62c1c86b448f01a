/** What every committed database keeps, whoever writes it: rows and their unique index, wallets
    and their chained ledgers, balance events and completed messages. */
module Integrity {
  import opened Prelude
  import opened Moneys
  import opened Wallets
  import opened Wagers
  import opened Tables

  /** What the constructors of a transaction demand of its fields, and who may wait for a
      reference. */
  predicate WellFormed(t: Tx) {
    && (t.Kind() != Opening ==> t.key.providerId != "" && t.key.externalId != "")
    && (if t.Kind() == Loss then t.Amount().IsZero() else t.Amount().IsPositive())
    && (t.Kind().IsReversal() ==> t.payload.referenceExternalId.Some?)
    && (t.status == PendingReference ==> t.Kind().IsReversal())
    && (t.Kind() == Bet || t.Kind() == Opening ==> t.payload.referenceExternalId.None?)
  }

  /** A row settled by moving the wallet. */
  predicate Settles(t: Tx) {
    t.status == Processed && t.Kind() != Loss
  }

  predicate HasEntry(db: Db, id: Id) {
    exists i :: 0 <= i < |db.ledger| && db.ledger[i].transactionId == id
  }

  /** Every settled row has its entry. */
  predicate SettledHaveEntries(db: Db) {
    forall id :: id in db.txs && Settles(db.txs[id]) ==> HasEntry(db, id)
  }

  predicate IsOpening(txs: map<Id, Tx>, e: LedgerEntry) {
    e.transactionId in txs && txs[e.transactionId].Kind() == Opening
  }

  /** The number of entries that do not stem from an opening. */
  function Moves(txs: map<Id, Tx>, own: seq<LedgerEntry>): nat {
    if own == [] then 0
    else Moves(txs, own[..|own| - 1]) + if IsOpening(txs, own[|own| - 1]) then 0 else 1
  }

  /** Only the first entry may stem from an opening. */
  predicate OpensFirst(txs: map<Id, Tx>, own: seq<LedgerEntry>) {
    forall i :: 0 < i < |own| ==> !IsOpening(txs, own[i])
  }

  function BalanceEvents(events: seq<Event>): (r: seq<Event>)
    ensures forall i :: 0 <= i < |r| ==> r[i].body.WalletBalanceChanged? && r[i] in events
  {
    if events == [] then []
    else
      var init, last := BalanceEvents(events[..|events| - 1]), events[|events| - 1];
      if last.body.WalletBalanceChanged? then init + [last] else init
  }

  predicate RowsOk(db: Db) {
    forall id :: id in db.txs ==>
      && db.txs[id].id == id
      && WellFormed(db.txs[id])
      && db.txs[id].WalletId() in db.wallets
  }

  /** The unique index holds each provider row under its key, and nothing else. */
  predicate IndexOk(db: Db) {
    && (forall key :: key in db.index ==>
          db.index[key] in db.txs && db.txs[db.index[key]].key == key && db.txs[db.index[key]].Kind() != Opening)
    && (forall id :: id in db.txs && db.txs[id].Kind() != Opening ==>
          db.txs[id].key in db.index && db.index[db.txs[id].key] == id)
  }

  /** The stored balance is what the wallet's chained ledger comes to, and the version counts
      its movements. */
  predicate WalletOk(db: Db, walletId: Id)
    requires walletId in db.wallets
  {
    var w, own := db.wallets[walletId], LedgerOf(db.ledger, walletId);
    && w.id == walletId && w.Valid()
    && Chained(own, w.balance.currency)
    && w.balance.amount == Closing(own)
    && w.version == 1 + Moves(db.txs, own)
    && OpensFirst(db.txs, own)
  }

  predicate WalletsOk(db: Db) {
    forall w :: w in db.wallets ==> WalletOk(db, w)
  }

  predicate EntryOk(db: Db, e: LedgerEntry) {
    && e.walletId in db.wallets
    && e.transactionId in db.txs
    && db.txs[e.transactionId].WalletId() == e.walletId
    && db.txs[e.transactionId].Amount() == e.amount
  }

  /** Every entry belongs to a row of its wallet, and no row has two. */
  predicate LedgerOk(db: Db) {
    && (forall i :: 0 <= i < |db.ledger| ==> EntryOk(db, db.ledger[i]))
    && (forall i, j :: 0 <= i < j < |db.ledger| ==> db.ledger[i].transactionId != db.ledger[j].transactionId)
  }

  /** The wallet's version once the first n entries of the ledger are in. */
  function VersionAt(db: Db, walletId: Id, n: nat): int
    requires n <= |db.ledger|
  {
    1 + Moves(db.txs, LedgerOf(db.ledger[..n], walletId))
  }

  predicate IsCause(events: seq<Event>, cause: Option<EventId>, transactionId: Id) {
    cause.Some? && exists i :: 0 <= i < |events|
                               && events[i].id == cause.value
                               && events[i].body.TransactionProcessed?
                               && events[i].body.transactionId == transactionId
  }

  /** The event tells the entry and the version it brought, and names the processed event beside
      it as its cause. */
  predicate Announces(events: seq<Event>, b: Event, e: LedgerEntry, version: int) {
    && b.body == WalletBalanceChanged(e.walletId, e.transactionId, e.direction, e.amount,
                                      e.balanceBefore, e.balanceAfter, version)
    && IsCause(events, b.causationId, e.transactionId)
  }

  /** The i-th balance event announces the i-th ledger entry. */
  predicate EventOk(db: Db, i: nat)
    requires i < |db.ledger|
  {
    && i < |BalanceEvents(db.events)|
    && Announces(db.events, BalanceEvents(db.events)[i], db.ledger[i], VersionAt(db, db.ledger[i].walletId, i + 1))
  }

  /** Balance events and ledger entries correspond one to one, in order. */
  predicate EventsOk(db: Db) {
    && |BalanceEvents(db.events)| == |db.ledger|
    && forall i :: 0 <= i < |db.ledger| ==> EventOk(db, i)
  }

  /** No transaction has two processed reversals. */
  predicate SingleReversals(db: Db) {
    forall a, b :: a in db.txs && b in db.txs && db.txs[a].referenceId.Some?
                   && db.IsReversalOf(a, db.txs[a].referenceId.value) && db.IsReversalOf(b, db.txs[a].referenceId.value)
                   ==> a == b
  }

  /** A processed reversal points at a row of its own wallet. */
  predicate Targets(db: Db) {
    forall id :: id in db.txs && db.txs[id].Kind().IsReversal() && db.txs[id].status == Processed ==>
      && db.txs[id].referenceId.Some? && db.txs[id].referenceId.value in db.txs
      && db.txs[db.txs[id].referenceId.value].WalletId() == db.txs[id].WalletId()
  }

  predicate ReversalsOk(db: Db) {
    Targets(db) && SingleReversals(db)
  }

  function MessageKey(m: Message): Key {
    Key(m.input.providerId, m.input.externalId)
  }

  /** Every inbox row is completed, and its submission's row exists. */
  predicate InboxOk(db: Db) {
    forall m :: m in db.inbox ==>
      && db.inbox[m].messageId == m
      && db.inbox[m].completed
      && MessageKey(db.inbox[m].hashed) in db.index
  }

  predicate Sound(db: Db) {
    RowsOk(db) && IndexOk(db) && WalletsOk(db) && LedgerOk(db) && EventsOk(db) && InboxOk(db)
    && ReversalsOk(db) && SettledHaveEntries(db)
  }

  // ----- how a database may grow -----

  /** Nothing committed is lost or rewritten, except a row's status, reference and failure code. */
  predicate Evolves(db: Db, later: Db) {
    && (forall id :: id in db.txs ==> id in later.txs && later.txs[id].SameBusiness(db.txs[id]))
    && (forall key :: key in db.index ==> key in later.index && later.index[key] == db.index[key])
    && (forall w :: w in db.wallets ==> w in later.wallets
                                        && later.wallets[w].balance.currency == db.wallets[w].balance.currency)
    && db.ledger <= later.ledger
    && db.events <= later.events
    && (forall m :: m in db.inbox ==> m in later.inbox && later.inbox[m].hashed == db.inbox[m].hashed)
  }

  lemma EvolvesTransitive(a: Db, b: Db, c: Db)
    requires Evolves(a, b) && Evolves(b, c)
    ensures Evolves(a, c)
  {
  }

  // ----- writes that keep a database sound -----

  predicate RowWriteOk(db: Db, w: Writes) {
    w.row.Some? ==>
      var row := w.row.value;
      && WellFormed(row)
      && (row.WalletId() in db.wallets || (w.wallet.Some? && w.wallet.value.id == row.WalletId()))
      && (if row.id in db.txs then row.SameBusiness(db.txs[row.id])
          else row.Kind() != Opening ==> row.key !in db.index)
  }

  /** A movement of an existing wallet, or the opening of a new one. */
  predicate MovementOk(db: Db, row: Tx, after: WalletRow, e: LedgerEntry) {
    && e.Consistent()
    && e.walletId == after.id == row.WalletId()
    && e.transactionId == row.id && e.amount == row.Amount()
    && e.balanceAfter == after.balance
    && (forall i :: 0 <= i < |db.ledger| ==> db.ledger[i].transactionId != row.id)
    && if after.id in db.wallets then
         && e.balanceBefore == db.wallets[after.id].balance
         && after.version == db.wallets[after.id].version + 1
         && row.Kind() != Opening
       else
         && e.balanceBefore.amount == 0
         && after.version == 1
         && row.Kind() == Opening
  }

  predicate WalletWriteOk(db: Db, w: Writes) {
    match w.entry
    case None =>
      && BalanceEvents(w.events) == []
      && (w.row.Some? ==> !Settles(w.row.value))
      && (w.wallet.Some? ==>
            var after := w.wallet.value;
            after.id !in db.wallets && after.Valid() && after.balance.amount == 0 && after.version == 1)
    case Some(e) =>
      && w.row.Some? && w.wallet.Some?
      && MovementOk(db, w.row.value, w.wallet.value, e)
      && |BalanceEvents(w.events)| == 1
      && Announces(w.events, BalanceEvents(w.events)[0], e, w.wallet.value.version)
  }

  predicate InboxWriteOk(db: Db, w: Writes) {
    w.inbox.Some? ==> w.inbox.value.completed && MessageKey(w.inbox.value.hashed) in Apply(db, w).index
  }

  /** A row written as a processed reversal is the first of a row of its own wallet. */
  predicate ReversalWriteOk(db: Db, w: Writes) {
    w.row.Some? && w.row.value.Kind().IsReversal() && w.row.value.status == Processed ==>
      var t := w.row.value;
      && t.referenceId.Some? && t.referenceId.value in db.txs
      && db.txs[t.referenceId.value].WalletId() == t.WalletId() && !db.HasReversal(t.referenceId.value)
  }

  predicate WritesOk(db: Db, w: Writes) {
    RowWriteOk(db, w) && WalletWriteOk(db, w) && InboxWriteOk(db, w) && ReversalWriteOk(db, w)
  }

  // ----- lemmas -----

  /** Counting looks only at the kinds of the rows the entries belong to. */
  lemma {:induction false} MovesFrame(txs: map<Id, Tx>, later: map<Id, Tx>, own: seq<LedgerEntry>)
    requires forall e :: e in own ==> e.transactionId in txs && e.transactionId in later
                                      && later[e.transactionId].Kind() == txs[e.transactionId].Kind()
    ensures Moves(later, own) == Moves(txs, own)
  {
    if own != [] {
      var n := |own| - 1;
      assert forall e :: e in own[..n] ==> e in own;
      assert own[n] in own;
      MovesFrame(txs, later, own[..n]);
    }
  }

  lemma MovesAppend(txs: map<Id, Tx>, own: seq<LedgerEntry>, e: LedgerEntry)
    ensures Moves(txs, own + [e]) == Moves(txs, own) + if IsOpening(txs, e) then 0 else 1
  {
    assert (own + [e])[..|own|] == own;
  }

  lemma {:induction false} BalanceEventsConcat(a: seq<Event>, b: seq<Event>)
    ensures BalanceEvents(a + b) == BalanceEvents(a) + BalanceEvents(b)
  {
    if b == [] {
      assert a + b == a;
    } else {
      var n := |b| - 1;
      assert (a + b)[..|a + b| - 1] == a + b[..n];
      BalanceEventsConcat(a, b[..n]);
    }
  }

  lemma CauseFrame(events: seq<Event>, before: seq<Event>, after: seq<Event>, cause: Option<EventId>, id: Id)
    requires IsCause(events, cause, id)
    ensures IsCause(before + events + after, cause, id)
  {
    var i :| 0 <= i < |events| && events[i].id == cause.value
             && events[i].body.TransactionProcessed? && events[i].body.transactionId == id;
    assert (before + events + after)[|before| + i] == events[i];
  }

  lemma RowsStayOk(db: Db, w: Writes)
    requires RowsOk(db) && IndexOk(db) && RowWriteOk(db, w)
    ensures RowsOk(Apply(db, w)) && IndexOk(Apply(db, w))
  {
  }

  lemma WritesEvolve(db: Db, w: Writes)
    requires RowsOk(db) && IndexOk(db) && RowWriteOk(db, w)
    ensures Evolves(db, Apply(db, w))
  {
  }

  /** Entries already in the ledger keep the kinds of their rows. */
  lemma OldMovesFrame(db: Db, w: Writes, own: seq<LedgerEntry>)
    requires RowsOk(db) && IndexOk(db) && LedgerOk(db) && RowWriteOk(db, w)
    requires forall e :: e in own ==> e in db.ledger
    ensures Moves(Apply(db, w).txs, own) == Moves(db.txs, own)
    ensures OpensFirst(Apply(db, w).txs, own) == OpensFirst(db.txs, own)
  {
    WritesEvolve(db, w);
    MovesFrame(db.txs, Apply(db, w).txs, own);
    assert forall i :: 0 <= i < |own| ==> own[i] in own;
  }

  lemma {:induction false} NoEntriesForStrangers(ledger: seq<LedgerEntry>, walletId: Id)
    requires forall i :: 0 <= i < |ledger| ==> ledger[i].walletId != walletId
    ensures LedgerOf(ledger, walletId) == []
  {
    if ledger != [] {
      NoEntriesForStrangers(ledger[..|ledger| - 1], walletId);
    }
  }

  lemma NoEntriesWithoutWallet(db: Db, walletId: Id)
    requires LedgerOk(db) && walletId !in db.wallets
    ensures LedgerOf(db.ledger, walletId) == []
  {
    assert forall i :: 0 <= i < |db.ledger| ==> EntryOk(db, db.ledger[i]);
    NoEntriesForStrangers(db.ledger, walletId);
  }

  /** Writes that touch neither the wallet nor its ledger. */
  lemma OtherWalletStaysOk(db: Db, w: Writes, walletId: Id)
    requires RowsOk(db) && IndexOk(db) && LedgerOk(db) && RowWriteOk(db, w)
    requires walletId in db.wallets && WalletOk(db, walletId)
    requires w.wallet.Some? ==> w.wallet.value.id != walletId
    requires w.entry.Some? ==> w.entry.value.walletId != walletId
    ensures WalletOk(Apply(db, w), walletId)
  {
    OldMovesFrame(db, w, LedgerOf(db.ledger, walletId));
    if w.entry.Some? {
      LedgerOfAppend(db.ledger, w.entry.value, walletId);
    }
  }

  /** What appending an entry does to its wallet's ledger and movement count. */
  lemma GrownLedger(db: Db, w: Writes, row: Tx, e: LedgerEntry)
    requires RowsOk(db) && IndexOk(db) && LedgerOk(db) && RowWriteOk(db, w)
    requires w.row == Some(row) && w.entry == Some(e) && e.transactionId == row.id
    ensures var own, later := LedgerOf(db.ledger, e.walletId), Apply(db, w);
            && LedgerOf(later.ledger, e.walletId) == own + [e]
            && Moves(later.txs, own + [e]) == Moves(db.txs, own) + (if row.Kind() == Opening then 0 else 1)
            && (OpensFirst(db.txs, own) && (own == [] || row.Kind() != Opening) ==> OpensFirst(later.txs, own + [e]))
  {
    var own, later := LedgerOf(db.ledger, e.walletId), Apply(db, w);
    LedgerOfAppend(db.ledger, e, e.walletId);
    OldMovesFrame(db, w, own);
    MovesAppend(later.txs, own, e);
  }

  /** The wallet the writes move or open. */
  lemma MovedWalletStaysOk(db: Db, w: Writes, row: Tx, after: WalletRow, e: LedgerEntry)
    requires RowsOk(db) && IndexOk(db) && LedgerOk(db) && RowWriteOk(db, w)
    requires w.row == Some(row) && w.wallet == Some(after) && w.entry == Some(e)
    requires MovementOk(db, row, after, e)
    requires after.id in db.wallets ==> WalletOk(db, after.id)
    ensures WalletOk(Apply(db, w), after.id)
  {
    GrownLedger(db, w, row, e);
    MovedRowIsOk(db, Apply(db, w), w, row, after, e);
  }

  lemma MovedRowIsOk(db: Db, later: Db, w: Writes, row: Tx, after: WalletRow, e: LedgerEntry)
    requires LedgerOk(db) && later.wallets == UpsertWallet(db.wallets, after)
    requires MovementOk(db, row, after, e)
    requires after.id in db.wallets ==> WalletOk(db, after.id)
    requires var own := LedgerOf(db.ledger, e.walletId);
             && LedgerOf(later.ledger, e.walletId) == own + [e]
             && Moves(later.txs, own + [e]) == Moves(db.txs, own) + (if row.Kind() == Opening then 0 else 1)
             && (OpensFirst(db.txs, own) && (own == [] || row.Kind() != Opening) ==> OpensFirst(later.txs, own + [e]))
    ensures WalletOk(later, after.id)
  {
    hide LedgerOf, Moves, Chained, OpensFirst, Closing, LedgerOk;
    if after.id !in db.wallets {
      NoEntriesWithoutWallet(db, after.id);
      EmptyLedger(db.txs, e.amount.currency);
    }
    LastCloses(LedgerOf(db.ledger, e.walletId), e);
    ChainedAppend(LedgerOf(db.ledger, e.walletId), e, e.amount.currency);
  }

  lemma EmptyLedger(txs: map<Id, Tx>, currency: Currency)
    ensures Chained([], currency) && Closing([]) == 0 && Moves(txs, []) == 0 && OpensFirst(txs, [])
  {
  }

  lemma LastCloses(own: seq<LedgerEntry>, e: LedgerEntry)
    ensures Closing(own + [e]) == e.balanceAfter.amount
  {
  }

  /** A wallet opened empty. */
  lemma EmptyWalletIsOk(db: Db, w: Writes)
    requires LedgerOk(db)
    requires w.wallet.Some? && w.entry.None? && WalletWriteOk(db, w)
    ensures WalletOk(Apply(db, w), w.wallet.value.id)
  {
    NoEntriesWithoutWallet(db, w.wallet.value.id);
  }

  lemma WalletsStayOk(db: Db, w: Writes)
    requires RowsOk(db) && IndexOk(db) && WalletsOk(db) && LedgerOk(db)
    requires RowWriteOk(db, w) && WalletWriteOk(db, w)
    ensures WalletsOk(Apply(db, w))
  {
    forall id | id in Apply(db, w).wallets
      ensures WalletOk(Apply(db, w), id)
    {
      if w.wallet.Some? && w.wallet.value.id == id {
        if w.entry.Some? {
          MovedWalletStaysOk(db, w, w.row.value, w.wallet.value, w.entry.value);
        } else {
          EmptyWalletIsOk(db, w);
        }
      } else {
        OtherWalletStaysOk(db, w, id);
      }
    }
  }

  lemma EntryStaysOk(db: Db, later: Db, e: LedgerEntry)
    requires Evolves(db, later) && EntryOk(db, e)
    ensures EntryOk(later, e)
  {
  }

  lemma LedgerStaysOk(db: Db, w: Writes)
    requires LedgerOk(db) && Evolves(db, Apply(db, w)) && WalletWriteOk(db, w)
    requires w.row.Some? && w.row.value.id in db.txs ==> w.row.value.SameBusiness(db.txs[w.row.value.id])
    ensures LedgerOk(Apply(db, w))
  {
    var later := Apply(db, w);
    forall i | 0 <= i < |db.ledger|
      ensures EntryOk(later, db.ledger[i])
    {
      EntryStaysOk(db, later, db.ledger[i]);
    }
    if w.entry.Some? {
      assert EntryOk(later, w.entry.value);
    }
  }

  /** The versions announced so far are not disturbed. */
  lemma VersionFrame(db: Db, w: Writes, walletId: Id, n: nat)
    requires RowsOk(db) && IndexOk(db) && LedgerOk(db) && RowWriteOk(db, w) && n <= |db.ledger|
    ensures VersionAt(Apply(db, w), walletId, n) == VersionAt(db, walletId, n)
  {
    var later := Apply(db, w);
    assert later.ledger[..n] == db.ledger[..n];
    OldMovesFrame(db, w, LedgerOf(db.ledger[..n], walletId));
  }

  lemma AnnouncementFrame(events: seq<Event>, before: seq<Event>, after: seq<Event>, b: Event, e: LedgerEntry,
                          version: int)
    requires Announces(events, b, e, version)
    ensures Announces(before + events + after, b, e, version)
  {
    CauseFrame(events, before, after, b.causationId, e.transactionId);
  }

  lemma OldEventStaysOk(db: Db, w: Writes, i: nat)
    requires RowsOk(db) && IndexOk(db) && LedgerOk(db) && RowWriteOk(db, w)
    requires i < |db.ledger| && EventOk(db, i)
    ensures EventOk(Apply(db, w), i)
  {
    hide LedgerOf, Moves, BalanceEvents, IsCause, Announces, RowsOk, IndexOk, LedgerOk, RowWriteOk;
    var b, e := BalanceEvents(db.events)[i], db.ledger[i];
    VersionFrame(db, w, e.walletId, i + 1);
    AnnouncementFrame(db.events, [], w.events, b, e, VersionAt(db, e.walletId, i + 1));
    assert [] + db.events + w.events == Apply(db, w).events;
    BalanceEventsConcat(db.events, w.events);
  }

  lemma NewEventIsOk(db: Db, w: Writes, e: LedgerEntry, after: WalletRow)
    requires w.entry == Some(e) && w.wallet == Some(after) && |BalanceEvents(db.events)| == |db.ledger|
    requires |BalanceEvents(w.events)| == 1 && Announces(w.events, BalanceEvents(w.events)[0], e, after.version)
    requires e.walletId == after.id && after.id in Apply(db, w).wallets && WalletOk(Apply(db, w), after.id)
    ensures EventOk(Apply(db, w), |db.ledger|)
  {
    AnnouncementFrame(w.events, db.events, [], BalanceEvents(w.events)[0], e, after.version);
    assert db.events + w.events + [] == db.events + w.events;
    BalanceEventsConcat(db.events, w.events);
    var later := Apply(db, w);
    assert later.ledger[..|db.ledger| + 1] == later.ledger;
  }

  lemma OldEventsStayOk(db: Db, w: Writes)
    requires RowsOk(db) && IndexOk(db) && LedgerOk(db) && EventsOk(db) && RowWriteOk(db, w)
    ensures forall i :: 0 <= i < |db.ledger| ==> EventOk(Apply(db, w), i)
  {
    forall i | 0 <= i < |db.ledger|
      ensures EventOk(Apply(db, w), i)
    {
      OldEventStaysOk(db, w, i);
    }
  }

  lemma LedgerGrowsByEntry(db: Db, w: Writes)
    ensures |Apply(db, w).ledger| == |db.ledger| + if w.entry.Some? then 1 else 0
  {
  }

  lemma MovedWalletIsThere(db: Db, w: Writes)
    requires w.entry.Some? && WalletWriteOk(db, w)
    ensures w.wallet.value.id == w.entry.value.walletId && w.wallet.value.id in Apply(db, w).wallets
  {
  }

  lemma NewEventsAreOk(db: Db, w: Writes)
    requires WalletWriteOk(db, w) && |BalanceEvents(db.events)| == |db.ledger|
    requires w.entry.Some? ==> w.wallet.value.id in Apply(db, w).wallets && WalletOk(Apply(db, w), w.wallet.value.id)
    requires forall i :: 0 <= i < |db.ledger| ==> EventOk(Apply(db, w), i)
    ensures EventsOk(Apply(db, w))
  {
    hide LedgerOf, Moves, BalanceEvents, WalletOk, Announces, MovementOk, EventOk, Apply;
    EventCountsAgree(db, w);
    LedgerGrowsByEntry(db, w);
    if w.entry.Some? {
      MovedWalletIsThere(db, w);
      NewEventIsOk(db, w, w.entry.value, w.wallet.value);
    }
  }

  lemma EventsStayOk(db: Db, w: Writes)
    requires RowsOk(db) && IndexOk(db) && LedgerOk(db) && EventsOk(db) && RowWriteOk(db, w)
    requires WalletWriteOk(db, w) && WalletsOk(Apply(db, w))
    ensures EventsOk(Apply(db, w))
  {
    OldEventsStayOk(db, w);
    NewEventsAreOk(db, w);
  }

  lemma EventCountsAgree(db: Db, w: Writes)
    requires |BalanceEvents(db.events)| == |db.ledger|
    requires |BalanceEvents(w.events)| == if w.entry.Some? then 1 else 0
    ensures |BalanceEvents(Apply(db, w).events)| == |Apply(db, w).ledger|
  {
    BalanceEventsConcat(db.events, w.events);
  }

  lemma InboxStaysOk(db: Db, w: Writes)
    requires InboxOk(db) && InboxWriteOk(db, w) && Evolves(db, Apply(db, w))
    ensures InboxOk(Apply(db, w))
  {
  }

  /** The row as it stands after it has been written. */
  lemma UpsertedRow(db: Db, w: Writes)
    requires w.row.Some? && RowWriteOk(db, w)
    ensures Apply(db, w).txs == db.txs[w.row.value.id := w.row.value]
  {
    hide WellFormed;
  }

  lemma ReversalsStayOk(db: Db, w: Writes)
    requires ReversalsOk(db) && RowWriteOk(db, w) && ReversalWriteOk(db, w)
    ensures ReversalsOk(Apply(db, w))
  {
    hide Apply;
    if w.row.Some? {
      UpsertedRow(db, w);
      TargetsStay(db, Apply(db, w), w);
      SingleReversalsStay(db, Apply(db, w), w.row.value);
    } else {
      RowlessKeepsRows(db, w);
    }
  }

  lemma RowlessKeepsRows(db: Db, w: Writes)
    requires w.row.None?
    ensures Apply(db, w).txs == db.txs
  {
  }

  lemma HasEntryStays(db: Db, later: Db, id: Id)
    requires HasEntry(db, id) && db.ledger <= later.ledger
    ensures HasEntry(later, id)
  {
    var i :| 0 <= i < |db.ledger| && db.ledger[i].transactionId == id;
    assert later.ledger[i] == db.ledger[i];
  }

  /** Writes that settle a row carry its entry. */
  lemma SettledStayEntered(db: Db, w: Writes)
    requires SettledHaveEntries(db) && RowWriteOk(db, w) && WalletWriteOk(db, w)
    ensures SettledHaveEntries(Apply(db, w))
  {
    hide WellFormed, HasEntry;
    var later := Apply(db, w);
    forall id | id in later.txs && Settles(later.txs[id])
      ensures HasEntry(later, id)
    {
      if w.row.Some? && w.row.value.id == id {
        NewEntryIsThere(db, w);
      } else {
        HasEntryStays(db, later, id);
      }
    }
  }

  lemma NewEntryIsThere(db: Db, w: Writes)
    requires w.entry.Some?
    ensures HasEntry(Apply(db, w), w.entry.value.transactionId)
  {
    assert Apply(db, w).ledger[|db.ledger|] == w.entry.value;
  }

  lemma TargetsStay(db: Db, later: Db, w: Writes)
    requires Targets(db) && w.row.Some? && RowWriteOk(db, w) && ReversalWriteOk(db, w)
    requires later.txs == db.txs[w.row.value.id := w.row.value]
    ensures Targets(later)
  {
    hide WellFormed;
  }

  lemma SingleReversalsStay(db: Db, later: Db, t: Tx)
    requires SingleReversals(db) && later.txs == db.txs[t.id := t]
    requires t.Kind().IsReversal() && t.status == Processed && t.referenceId.Some? ==>
               !db.HasReversal(t.referenceId.value)
    ensures SingleReversals(later)
  {
    forall a, b | a in later.txs && b in later.txs && later.txs[a].referenceId.Some?
                  && later.IsReversalOf(a, later.txs[a].referenceId.value)
                  && later.IsReversalOf(b, later.txs[a].referenceId.value)
      ensures a == b
    {
      var r := later.txs[a].referenceId.value;
      assert a != t.id ==> db.IsReversalOf(a, r);
      assert b != t.id ==> db.IsReversalOf(b, r);
    }
  }

  /** A database stays sound under writes that are all right for it. */
  lemma WritesKeepSound(db: Db, w: Writes)
    requires Sound(db) && WritesOk(db, w)
    ensures Sound(Apply(db, w)) && Evolves(db, Apply(db, w))
  {
    RowsStayOk(db, w);
    WritesEvolve(db, w);
    WalletsStayOk(db, w);
    LedgerStaysOk(db, w);
    EventsStayOk(db, w);
    InboxStaysOk(db, w);
    ReversalsStayOk(db, w);
    SettledStayEntered(db, w);
  }

  lemma EmptyIsSound()
    ensures Sound(EmptyDb)
  {
  }
}
