/** What a committed database keeps beyond soundness. As long as no PROCESSED row is written over,
    statuses agree with the ledger and references are valid; as long as no terminal row is, each row
    is also announced as it stands. */
module Settlements {
  import opened Prelude
  import opened Wallets
  import opened Wagers
  import opened Tables
  import opened Decisions
  import opened Integrity

  /** Statuses, failure codes and currencies of persisted rows. */
  predicate StatusOk(db: Db, t: Tx) {
    && (t.status == PendingReference || t.status == Processed || t.status == Rejected)
    && (t.failure.Some? <==> t.status == Rejected)
    && (t.Kind() == Opening ==> t.status == Processed)
    && (t.status == PendingReference ==> t.Kind().IsReversal() && t.referenceId.None?)
    && (t.status == Processed ==>
          t.WalletId() in db.wallets && t.Amount().currency == db.wallets[t.WalletId()].balance.currency)
  }

  predicate StatusesOk(db: Db) {
    forall id :: id in db.txs ==> StatusOk(db, db.txs[id])
  }

  /** Which way a settled row moved its wallet. */
  function DirectionOf(db: Db, t: Tx): Result<Direction> {
    if t.Kind() == Opening then Ok(Credit)
    else MovementDirection(t.Kind(), if t.referenceId.Some? && t.referenceId.value in db.txs
                                     then Some(db.txs[t.referenceId.value]) else None)
  }

  /** A processed reversal points at a processed row it validly references. */
  predicate ReferenceOk(db: Db, t: Tx) {
    t.Kind().IsReversal() && t.status == Processed ==>
      && t.referenceId.Some? && t.referenceId.value in db.txs
      && t.ValidateReference(db.txs[t.referenceId.value]) == Ok(())
  }

  predicate ReferencesOk(db: Db) {
    forall id :: id in db.txs ==> ReferenceOk(db, db.txs[id])
  }

  /** Every entry is that of a settled row, in its direction, and a reversal's comes after the
      entry of what it reverses. */
  predicate EntrySettles(db: Db, i: nat)
    requires i < |db.ledger|
  {
    var e := db.ledger[i];
    && e.transactionId in db.txs
    && var t := db.txs[e.transactionId];
       && Settles(t)
       && DirectionOf(db, t) == Ok(e.direction)
       && (t.Kind().IsReversal() ==>
             t.referenceId.Some? && exists j :: 0 <= j < i && db.ledger[j].transactionId == t.referenceId.value)
  }

  predicate EntriesSettle(db: Db) {
    forall i :: 0 <= i < |db.ledger| ==> EntrySettles(db, i)
  }

  // ----- events about one transaction -----

  predicate IsTerminalEvent(e: Event, id: Id) {
    (e.body.TransactionProcessed? || e.body.TransactionRejected?) && e.body.transactionId == id
  }

  predicate IsPendingEvent(e: Event, id: Id) {
    e.body.TransactionPendingReference? && e.body.transactionId == id
  }

  function TerminalBodies(events: seq<Event>, id: Id): seq<EventBody> {
    if events == [] then []
    else
      var init, last := TerminalBodies(events[..|events| - 1], id), events[|events| - 1];
      if IsTerminalEvent(last, id) then init + [last.body] else init
  }

  function PendingCount(events: seq<Event>, id: Id): nat {
    if events == [] then 0
    else PendingCount(events[..|events| - 1], id) + if IsPendingEvent(events[|events| - 1], id) then 1 else 0
  }

  /** The one terminal event a row in this state has announced. */
  function ExpectedBodies(t: Tx): seq<EventBody> {
    match t.status
    case Processed => [TransactionProcessed(t.id, t.Kind(), t.Amount())]
    case Rejected => [TransactionRejected(t.id, t.Kind(), t.failure)]
    case _ => []
  }

  predicate AnnouncedOk(db: Db, id: Id) {
    if id in db.txs then
      && TerminalBodies(db.events, id) == ExpectedBodies(db.txs[id])
      && PendingCount(db.events, id) <= 1
      && (db.txs[id].status == PendingReference ==> PendingCount(db.events, id) == 1)
    else
      TerminalBodies(db.events, id) == [] && PendingCount(db.events, id) == 0
  }

  ghost predicate AllAnnounced(db: Db) {
    forall id: Id :: AnnouncedOk(db, id)
  }

  /** Rows, references and entries agree. */
  predicate Consistent(db: Db) {
    StatusesOk(db) && ReferencesOk(db) && EntriesSettle(db)
  }

  /** And so do the events. */
  ghost predicate Coherent(db: Db) {
    Consistent(db) && AllAnnounced(db)
  }

  // ----- writes that keep it -----

  /** The row as written, and whom it may overwrite. */
  predicate RowSettlesOk(db: Db, t: Tx) {
    && (t.id in db.txs ==> t.SameBusiness(db.txs[t.id]) && db.txs[t.id].status != Processed
                           && t.status != PendingReference)
    && (t.status == PendingReference || t.status == Processed || t.status == Rejected)
    && (t.failure.Some? <==> t.status == Rejected)
    && (t.Kind() == Opening ==> t.status == Processed && t.id !in db.txs)
    && (t.status == PendingReference ==> t.Kind().IsReversal() && t.referenceId.None?)
    && (t.Kind().IsReversal() && t.status == Processed ==>
          && t.referenceId.Some? && t.referenceId.value in db.txs
          && t.ValidateReference(db.txs[t.referenceId.value]) == Ok(()))
  }

  predicate CurrencySettlesOk(db: Db, w: Writes, t: Tx) {
    t.status == Processed ==>
      var wallets := Apply(db, w).wallets;
      t.WalletId() in wallets && t.Amount().currency == wallets[t.WalletId()].balance.currency
  }

  predicate EntrySettlesOk(db: Db, w: Writes, t: Tx) {
    && (w.entry.Some? <==> Settles(t))
    && (w.entry.Some? ==> w.entry.value.transactionId == t.id && DirectionOf(db, t) == Ok(w.entry.value.direction))
  }

  ghost predicate EventsSettleOk(w: Writes, t: Tx) {
    && TerminalBodies(w.events, t.id) == ExpectedBodies(t)
    && PendingCount(w.events, t.id) == (if t.status == PendingReference then 1 else 0)
    && forall id: Id :: id != t.id ==> TerminalBodies(w.events, id) == [] && PendingCount(w.events, id) == 0
  }

  predicate WritesSettle(db: Db, w: Writes) {
    if w.row.None? then w.entry.None?
    else
      var t := w.row.value;
      RowSettlesOk(db, t) && CurrencySettlesOk(db, w, t) && EntrySettlesOk(db, w, t)
  }

  /** The row written was waiting, or not there, and is announced as written. */
  ghost predicate AnnouncesOk(db: Db, w: Writes) {
    if w.row.None? then w.events == []
    else
      var t := w.row.value;
      && EventsSettleOk(w, t) && (t.status == PendingReference || t.status == Processed || t.status == Rejected)
      && (t.id in db.txs ==> db.txs[t.id].status == PendingReference && t.status != PendingReference)
  }

  // ----- lemmas -----

  lemma {:induction false} BodiesConcat(a: seq<Event>, b: seq<Event>, id: Id)
    ensures TerminalBodies(a + b, id) == TerminalBodies(a, id) + TerminalBodies(b, id)
    ensures PendingCount(a + b, id) == PendingCount(a, id) + PendingCount(b, id)
  {
    if b == [] {
      assert a + b == a;
    } else {
      assert (a + b)[..|a + b| - 1] == a + b[..|b| - 1];
      BodiesConcat(a, b[..|b| - 1], id);
    }
  }

  /** An upsert that keeps the business fields leaves exactly the row written. */
  lemma WrittenRow(db: Db, w: Writes, t: Tx)
    requires w.row == Some(t) && RowSettlesOk(db, t)
    ensures Apply(db, w).txs == db.txs[t.id := t]
  {
  }

  lemma StatusesStay(db: Db, w: Writes, t: Tx)
    requires StatusesOk(db) && w.row == Some(t) && RowSettlesOk(db, t) && CurrencySettlesOk(db, w, t)
    requires forall id :: id in db.wallets ==> id in Apply(db, w).wallets
                                               && Apply(db, w).wallets[id].balance.currency ==
                                                 db.wallets[id].balance.currency
    ensures StatusesOk(Apply(db, w))
  {
    hide Apply;
    WrittenRow(db, w, t);
  }

  lemma ReferencesStay(db: Db, w: Writes, t: Tx)
    requires ReferencesOk(db) && w.row == Some(t) && RowSettlesOk(db, t)
    ensures ReferencesOk(Apply(db, w))
  {
    hide Apply;
    WrittenRow(db, w, t);
    forall id | id in Apply(db, w).txs
      ensures ReferenceOk(Apply(db, w), Apply(db, w).txs[id])
    {
      if id != t.id {
        assert ReferenceOk(db, db.txs[id]);
      }
    }
  }

  lemma OldEntrySettles(db: Db, w: Writes, t: Tx, i: nat)
    requires ReferencesOk(db) && w.row == Some(t) && RowSettlesOk(db, t)
    requires i < |db.ledger| && EntrySettles(db, i)
    ensures EntrySettles(Apply(db, w), i)
  {
    var later, e := Apply(db, w), db.ledger[i];
    WrittenRow(db, w, t);
    var row := db.txs[e.transactionId];
    assert later.ledger[i] == e && later.txs[e.transactionId] == row;
    if row.Kind().IsReversal() {
      assert ReferenceOk(db, row);
      var j :| 0 <= j < i && db.ledger[j].transactionId == row.referenceId.value;
      assert later.ledger[j] == db.ledger[j];
    }
  }

  lemma NewEntrySettles(db: Db, w: Writes, t: Tx)
    requires SettledHaveEntries(db) && EntriesSettle(db)
    requires w.row == Some(t) && RowSettlesOk(db, t) && EntrySettlesOk(db, w, t) && w.entry.Some?
    ensures EntrySettles(Apply(db, w), |db.ledger|)
  {
    var later := Apply(db, w);
    WrittenRow(db, w, t);
    if t.Kind().IsReversal() {
      var r := t.referenceId.value;
      assert r in db.txs && Settles(db.txs[r]) && r != t.id;
      var j :| 0 <= j < |db.ledger| && db.ledger[j].transactionId == r;
      assert later.ledger[j] == db.ledger[j];
    }
  }

  lemma EntriesStaySettled(db: Db, w: Writes, t: Tx)
    requires ReferencesOk(db) && SettledHaveEntries(db) && EntriesSettle(db)
    requires w.row == Some(t) && RowSettlesOk(db, t) && EntrySettlesOk(db, w, t)
    ensures EntriesSettle(Apply(db, w))
  {
    hide EntrySettles, RowSettlesOk, ReferencesOk, SettledHaveEntries;
    forall i | 0 <= i < |db.ledger|
      ensures EntrySettles(Apply(db, w), i)
    {
      OldEntrySettles(db, w, t, i);
    }
    if w.entry.Some? {
      NewEntrySettles(db, w, t);
    }
  }

  lemma AnnouncementsStay(db: Db, later: Db, w: Writes)
    requires AllAnnounced(db) && AnnouncesOk(db, w) && later.events == db.events + w.events
    requires later.txs == if w.row.Some? then db.txs[w.row.value.id := w.row.value] else db.txs
    ensures AllAnnounced(later)
  {
    forall id: Id
      ensures AnnouncedOk(later, id)
    {
      assert AnnouncedOk(db, id);
      BodiesConcat(db.events, w.events, id);
      if w.row.None? {
        assert later.events == db.events;
      }
    }
  }

  /** Only rows, wallets and ledger matter here. */
  lemma ConsistentIgnores(db: Db, later: Db)
    requires Consistent(db) && later.txs == db.txs && later.wallets == db.wallets && later.ledger == db.ledger
    ensures Consistent(later)
  {
    hide MovementDirection;
    assert EntriesSettle(later) by {
      forall i | 0 <= i < |later.ledger|
        ensures EntrySettles(later, i)
      {
        assert EntrySettles(db, i);
      }
    }
  }

  lemma WritesKeepConsistent(db: Db, w: Writes)
    requires SettledHaveEntries(db) && Consistent(db) && WritesSettle(db, w) && (w.row.None? ==> w.wallet.None?)
    requires forall id :: id in db.wallets ==> id in Apply(db, w).wallets
                                               && Apply(db, w).wallets[id].balance.currency ==
                                                 db.wallets[id].balance.currency
    ensures Consistent(Apply(db, w))
  {
    hide StatusesOk, ReferencesOk, SettledHaveEntries, EntriesSettle, RowSettlesOk, EntrySettlesOk, CurrencySettlesOk;
    if w.row.None? {
      ConsistentIgnores(db, Apply(db, w));
    } else {
      var t := w.row.value;
      StatusesStay(db, w, t);
      ReferencesStay(db, w, t);
      EntriesStaySettled(db, w, t);
    }
  }
}
