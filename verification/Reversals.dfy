/** Reversals. In every reachable state a transaction has at most one processed reversal, and over time
    the same one as long as that row is left alone. As long as no commit writes over a PROCESSED row,
    references stay valid, and each wallet's balance is made of trees that come to nothing or to their
    root's own movement. */
module Reversals {
  import opened Prelude
  import opened Wagers
  import opened Tables
  import opened Protocol
  import opened Integrity
  import opened Calls
  import opened CoreCommits
  import opened CoreTheorem
  import opened Settlements
  import opened Readings
  import opened SettledTheorem
  import opened Conservation
  import opened Histories
  import opened Standing

  /** In every reachable state, however many submitters and resolvers there are, at most one
      processed refund or rollback points at a transaction, and it lies in that one's wallet. */
  lemma {:induction false} AtMostOneReversal(schedule: seq<Label>, a: Id, b: Id, ref: Id)
    requires Run(schedule).db.IsReversalOf(a, ref) && Run(schedule).db.IsReversalOf(b, ref)
    ensures var db := Run(schedule).db;
            a == b && ref in db.txs && db.txs[ref].WalletId() == db.txs[a].WalletId()
  {
    hide Next, Run, RowsOk, IndexOk, WalletsOk, LedgerOk, EventsOk, InboxOk, SettledHaveEntries, IdsKnown, ClientsOk,
      DeletedOk;
    ReachableIsCore(schedule);
    assert Run(schedule).db.txs[a].referenceId == Some(ref);
  }

  /** Over time, too, a transaction is reversed once, by the same reversal in every later state, if and
      only if no commit in between decides about that reversal's row again. */
  lemma {:induction false} ReversedOnceForAll(schedule: seq<Label>, tail: seq<Label>, a: Id, b: Id, ref: Id)
    requires Run(schedule).db.IsReversalOf(a, ref) && Run(schedule + tail).db.IsReversalOf(b, ref)
    ensures a == b <==> LeftAlone(schedule, tail, a)
  {
    hide Run, LeftAlone, HasEntry;
    ProcessedRowsStandExactly(schedule, tail, a);
    if LeftAlone(schedule, tail, a) {
      AtMostOneReversal(schedule + tail, a, b, ref);
    }
  }

  // ----- references -----

  /** What a processed reversal is to what it reverses. */
  predicate Undoes(db: Db, t: Tx, r: Tx) {
    && r.status == Processed && r.WalletId() == t.WalletId() && r.Amount() == t.Amount()
    && t.referenceId == Some(r.id) && r.id in db.txs && db.txs[r.id] == r
    && DirectionOf(db, t).Ok? && DirectionOf(db, r) == Ok(DirectionOf(db, t).value.Opposite())
    && (r.Kind() == Bet || r.Kind() == Win || r.Kind() == Refund)
  }

  /** Processed references are at most two deep, and each reversal moves the same amount the
      opposite way of what it reverses. */
  lemma ReversalsUndo(schedule: seq<Label>, id: Id)
    requires SettledRun(schedule)
    requires id in Run(schedule).db.txs && Run(schedule).db.txs[id].Kind().IsReversal()
             && Run(schedule).db.txs[id].status == Processed
    ensures var db := Run(schedule).db;
            var t := db.txs[id];
            && t.referenceId.Some? && t.referenceId.value in db.txs
            && var r := db.txs[t.referenceId.value];
               && Undoes(db, t, r)
               && (r.Kind() == Refund ==>
                     r.referenceId.Some? && r.referenceId.value in db.txs
                     && Undoes(db, r, db.txs[r.referenceId.value]) && db.txs[r.referenceId.value].Kind() == Bet)
  {
    hide Next, Core, SettledRun, StatusesOk, EntriesSettle, StrongAt, Undoes;
    ReachableIsStrong(schedule);
    ReachableIsCore(schedule);
    var db := Run(schedule).db;
    RowIds(Run(schedule));
    ReferenceUndone(db, id);
    var r := db.txs[db.txs[id].referenceId.value];
    if r.Kind() == Refund {
      assert Undoes(db, db.txs[id], r);
      UndoneIsProcessed(db, db.txs[id], r);
      ReferenceUndone(db, r.id);
      RefundsReferToBets(db, r);
    }
  }

  lemma UndoneIsProcessed(db: Db, t: Tx, r: Tx)
    requires Undoes(db, t, r)
    ensures r.status == Processed && r.id in db.txs && db.txs[r.id] == r
  {
  }

  lemma RefundsReferToBets(db: Db, t: Tx)
    requires ReferenceOk(db, t) && t.Kind() == Refund && t.status == Processed
    ensures db.txs[t.referenceId.value].Kind() == Bet
  {
  }

  lemma ReferenceUndone(db: Db, id: Id)
    requires ReferencesOk(db) && id in db.txs && db.txs[id].Kind().IsReversal() && db.txs[id].status == Processed
    requires forall x :: x in db.txs ==> db.txs[x].id == x
    ensures var t := db.txs[id];
            t.referenceId.Some? && t.referenceId.value in db.txs && ReferenceOk(db, t)
            && Undoes(db, t, db.txs[t.referenceId.value])
  {
    var t := db.txs[id];
    assert ReferenceOk(db, t);
    var r := db.txs[t.referenceId.value];
    if r.Kind().IsReversal() {
      assert ReferenceOk(db, r);
    }
  }

  /** The reference a reversal was settled against is the same valid row ever after. */
  lemma ReferencesStand(schedule: seq<Label>, tail: seq<Label>, id: Id)
    requires SettledRun(schedule + tail)
    requires id in Run(schedule).db.txs && Run(schedule).db.txs[id].Kind().IsReversal()
             && Run(schedule).db.txs[id].status == Processed
    ensures var db, later := Run(schedule).db, Run(schedule + tail).db;
            var t := db.txs[id];
            && t.referenceId.Some? && t.referenceId.value in db.txs && t.referenceId.value in later.txs
            && later.txs[t.referenceId.value] == db.txs[t.referenceId.value]
            && t.ValidateReference(later.txs[t.referenceId.value]) == Ok(())
  {
    hide Next, Core, Unsettles, StatusesOk, EntriesSettle, StrongAt, LeftAlone, HasEntry;
    SettledPrefix(schedule + tail, |schedule|);
    assert (schedule + tail)[..|schedule|] == schedule;
    ReachableIsStrong(schedule);
    var db := Run(schedule).db;
    assert ReferenceOk(db, db.txs[id]);
    SettledRunsLeaveAlone(schedule, tail, db.txs[id].referenceId.value);
    ProcessedRowsStandExactly(schedule, tail, db.txs[id].referenceId.value);
  }

  // ----- conservation -----

  /** Everything booked on a root and its reversals comes to nothing when the root is reversed for
      good, and to the root's own movement otherwise. */
  lemma TreesComeToNothingOrTheirRoot(schedule: seq<Label>, root: Id)
    requires SettledRun(schedule) && IsRoot(Run(schedule).db, root)
    ensures var db := Run(schedule).db;
            Net(db, |db.ledger|, root) ==
            if ReversedForGood(db, root) then 0 else OwnMovement(db.txs[root])
  {
    hide Next, Core, SettledRun, Consistent, StrongAt, IsRoot;
    ReachableIsStrong(schedule);
    ReachableIsCore(schedule);
    CoreLedger(Run(schedule));
    CoreSettled(Run(schedule));
    TreeNets(Run(schedule).db, root);
  }

  lemma CoreSettled(s: State)
    requires Core(s)
    ensures ReversalsOk(s.db) && SettledHaveEntries(s.db)
  {
    hide IdsKnown, DeletedOk, ClientsOk, Sound;
    SoundParts(s.db);
  }

  lemma CoreLedger(s: State)
    requires Core(s)
    ensures LedgerOk(s.db) && WalletsOk(s.db)
  {
    hide IdsKnown, DeletedOk, ClientsOk, RowsOk, IndexOk, WalletsOk, LedgerOk, EventsOk, InboxOk;
  }

  /** A wallet's balance is the sum of its trees: of its opening, its bets and its wins. */
  lemma BalanceIsItsTrees(schedule: seq<Label>, w: Id)
    requires SettledRun(schedule) && w in Run(schedule).db.wallets
    ensures var db := Run(schedule).db; db.wallets[w].balance.amount == Trees(db, |db.ledger|, |db.ledger|, w)
  {
    hide Next, Core, SettledRun, StrongAt, StatusesOk, ReferencesOk, EntriesSettle, Trees, LedgerOk, Moves, Chained,
      OpensFirst;
    var db := Run(schedule).db;
    ReachableIsStrong(schedule);
    ReachableIsCore(schedule);
    CoreLedger(Run(schedule));
    assert WalletOk(db, w);
    ChainedCloses(LedgerOf(db.ledger, w), db.wallets[w].balance.currency);
    TotalIsTrees(db, |db.ledger|, w);
    assert db.ledger[..|db.ledger|] == db.ledger;
  }
}
