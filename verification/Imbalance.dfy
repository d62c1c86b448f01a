/** Conservation holds all along a run if and only if no commit of it writes over a PROCESSED row. */
module Imbalance {
  import opened Prelude
  import opened Wallets
  import opened Wagers
  import opened Tables
  import opened Protocol
  import opened Integrity
  import opened Calls
  import opened CoreSteps
  import opened CoreCommits
  import opened CoreTheorem
  import opened Settlements
  import opened Readings
  import opened SettledTheorem
  import opened Histories
  import opened Conservation
  import opened Reversals
  import opened Standing

  // ----- a PROCESSED reversal written over -----


  /** Both results at once, and that every processed reversal's reference is a valid one. */
  ghost predicate Conserved(db: Db) {
    && (forall root: Id :: IsRoot(db, root) ==>
          Net(db, |db.ledger|, root) ==
          if ReversedForGood(db, root) then 0 else OwnMovement(db.txs[root]))
    && (forall w :: w in db.wallets ==> db.wallets[w].balance.amount == Trees(db, |db.ledger|, |db.ledger|, w))
    && ReferencesOk(db)
  }

  /** The row of a processed reversal is rejected, its ledger entry stays, and the reference it was settled
      against is dropped or kept. */
  predicate RejectedLate(db: Db, later: Db, x: Id) {
    && x in db.txs && db.txs[x].Kind().IsReversal() && db.txs[x].status == Processed
    && x in later.txs && later.txs == db.txs[x := later.txs[x]]
    && later.txs[x].SameBusiness(db.txs[x]) && later.txs[x].status == Rejected
    && (later.txs[x].referenceId.None? || later.txs[x].referenceId == db.txs[x].referenceId)
    && later.ledger == db.ledger && later.wallets == db.wallets
  }

  /** Its own reversal, if it has one, is left with a reference that is not valid. */
  lemma ReversedIsNotValid(db: Db, later: Db, x: Id)
    requires ReferencesOk(db) && RejectedLate(db, later, x) && db.HasReversal(x)
    ensures !ReferencesOk(later)
  {
    var y :| y in db.txs && db.IsReversalOf(y, x);
    assert ReferenceOk(db, db.txs[y]);
    assert y != x && later.txs[y] == db.txs[y];
    assert !ReferenceOk(later, later.txs[y]);
  }

  /** With its reference gone, the entry leaves its tree, and no other does. */
  lemma RootAfterwards(db: Db, later: Db, x: Id, i: nat)
    requires ReferencesOk(db) && EntriesSettle(db) && RejectedLate(db, later, x) && later.txs[x].referenceId.None?
    requires !db.HasReversal(x) && i < |db.ledger|
    ensures var y := db.ledger[i].transactionId; RootOf(later, y) == if y == x then x else RootOf(db, y)
  {
    var y := db.ledger[i].transactionId;
    assert EntrySettles(db, i);
    if y != x && db.txs[y].Kind().IsReversal() {
      assert ReferenceOk(db, db.txs[y]) && db.IsReversalOf(y, db.txs[y].referenceId.value);
      var r := db.txs[y].referenceId.value;
      if db.txs[r].Kind().IsReversal() {
        assert ReferenceOk(db, db.txs[r]) && db.IsReversalOf(r, db.txs[r].referenceId.value);
      }
    }
  }

  lemma {:induction false} NetAfterwards(db: Db, later: Db, x: Id, i: nat, n: nat, root: Id)
    requires LedgerOk(db) && ReferencesOk(db) && EntriesSettle(db) && RejectedLate(db, later, x)
    requires later.txs[x].referenceId.None? && !db.HasReversal(x)
    requires i < |db.ledger| && db.ledger[i].transactionId == x && n <= |db.ledger| && root != x
    ensures Net(later, n, root) ==
            Net(db, n, root) - if i < n && RootOf(db, x) == root then db.ledger[i].Movement() else 0
  {
    hide ReferencesOk, EntriesSettle, RootOf;
    if n > 0 {
      NetAfterwards(db, later, x, i, n - 1, root);
      RootAfterwards(db, later, x, n - 1);
    }
  }

  lemma {:induction false} TreesAfterwards(db: Db, later: Db, x: Id, i: nat, j: nat, m: nat, w: Id)
    requires LedgerOk(db) && ReferencesOk(db) && EntriesSettle(db) && RejectedLate(db, later, x)
    requires later.txs[x].referenceId.None? && !db.HasReversal(x)
    requires i < |db.ledger| && db.ledger[i].transactionId == x
    requires j < |db.ledger| && db.ledger[j].transactionId == RootOf(db, x) && IsRootEntry(db, w, db.ledger[j])
    requires m <= |db.ledger|
    ensures Trees(later, m, |db.ledger|, w) ==
            Trees(db, m, |db.ledger|, w) - if j < m then db.ledger[i].Movement() else 0
  {
    hide ReferencesOk, EntriesSettle, Net, RootOf;
    if m > 0 {
      TreesAfterwards(db, later, x, i, j, m - 1, w);
      SameRootEntries(db, later, x, w, db.ledger[m - 1]);
      if IsRootEntry(db, w, db.ledger[m - 1]) {
        NetAfterwards(db, later, x, i, |db.ledger|, db.ledger[m - 1].transactionId);
      }
    }
  }

  lemma SameRootEntries(db: Db, later: Db, x: Id, w: Id, e: LedgerEntry)
    requires RejectedLate(db, later, x)
    ensures IsRootEntry(later, w, e) == IsRootEntry(db, w, e)
    ensures IsRootEntry(db, w, e) ==> e.transactionId != x
  {
  }

  /** Its reference dropped: the wallet has what no tree of it has. */
  lemma DroppedIsMissed(db: Db, later: Db, x: Id)
    requires RowsOk(db) && LedgerOk(db) && SettledHaveEntries(db) && Consistent(db) && Conserved(db)
    requires RejectedLate(db, later, x) && later.txs[x].referenceId.None? && !db.HasReversal(x)
    ensures !Conserved(later)
  {
    hide ReferencesOk, EntriesSettle, StatusesOk, LedgerOk, Trees, Net, RootOf;
    var i := EntryOfSettled(db, x);
    var j := RootAppears(db, i);
    TreesAfterwards(db, later, x, i, j, |db.ledger|, db.ledger[i].walletId);
    EntryIsBooked(db, i);
  }

  lemma {:induction false} EntryOfSettled(db: Db, x: Id) returns (i: nat)
    requires SettledHaveEntries(db) && x in db.txs && db.txs[x].Kind().IsReversal() && db.txs[x].status == Processed
    ensures i < |db.ledger| && db.ledger[i].transactionId == x
  {
    assert HasEntry(db, x);
    i :| 0 <= i < |db.ledger| && db.ledger[i].transactionId == x;
  }

  lemma EntryIsBooked(db: Db, i: nat)
    requires RowsOk(db) && LedgerOk(db) && i < |db.ledger|
    requires db.ledger[i].transactionId in db.txs && db.txs[db.ledger[i].transactionId].Kind().IsReversal()
    ensures db.ledger[i].walletId in db.wallets && db.ledger[i].Movement() != 0
  {
    assert EntryOk(db, db.ledger[i]);
  }

  lemma {:induction false} SameNets(db: Db, later: Db, n: nat, root: Id)
    requires later.ledger == db.ledger && n <= |db.ledger|
    requires forall y: Id :: RootOf(later, y) == RootOf(db, y)
    ensures Net(later, n, root) == Net(db, n, root)
  {
    hide RootOf;
    if n > 0 {
      SameNets(db, later, n - 1, root);
    }
  }

  lemma RootsStay(db: Db, later: Db, x: Id, y: Id)
    requires RejectedLate(db, later, x) && later.txs[x].referenceId == db.txs[x].referenceId
    ensures RootOf(later, y) == RootOf(db, y)
  {
  }

  /** A reversal's root, and what the one reversal of that root is: the reversal itself, or the refund it
      takes back. */
  lemma RootOfReversal(db: Db, x: Id)
    requires SingleReversals(db) && ReferencesOk(db)
    requires x in db.txs && db.txs[x].Kind().IsReversal() && db.txs[x].status == Processed
    ensures var root := RootOf(db, x);
            && IsRoot(db, root)
            && ((db.IsReversalOf(x, root) && forall y :: db.IsReversalOf(y, root) ==> y == x)
                || exists r :: r != x && db.IsReversalOf(r, root) && db.IsReversalOf(x, r)
                               && forall y :: db.IsReversalOf(y, root) ==> y == r)
  {
    var t := db.txs[x];
    assert ReferenceOk(db, t);
    var r := t.referenceId.value;
    assert db.IsReversalOf(x, r);
    if db.txs[r].Kind().IsReversal() {
      assert ReferenceOk(db, db.txs[r]);
      assert db.IsReversalOf(r, db.txs[r].referenceId.value);
    }
  }

  /** With its status gone but not its reference, its root's tree is booked as before and read otherwise. */
  lemma ReadOtherwise(db: Db, later: Db, x: Id)
    requires SingleReversals(db) && ReferencesOk(db) && !db.HasReversal(x)
    requires RejectedLate(db, later, x)
    ensures IsRoot(db, RootOf(db, x))
    ensures ReversedForGood(later, RootOf(db, x)) != ReversedForGood(db, RootOf(db, x))
  {
    hide ReferencesOk, RootOf;
    var root := RootOf(db, x);
    RootOfReversal(db, x);
    OtherReversals(db, later, x);
    if db.IsReversalOf(x, root) && forall y :: db.IsReversalOf(y, root) ==> y == x {
      assert ReversedForGood(db, root);
    } else {
      var r :| r != x && db.IsReversalOf(r, root) && db.IsReversalOf(x, r)
               && forall y :: db.IsReversalOf(y, root) ==> y == r;
      assert db.HasReversal(r) && later.IsReversalOf(r, root);
      assert !later.HasReversal(r) by {
        assert forall y :: y in db.txs && db.IsReversalOf(y, r) ==> y == x;
      }
    }
  }

  lemma OtherReversals(db: Db, later: Db, x: Id)
    requires RejectedLate(db, later, x)
    ensures forall y, ref :: later.IsReversalOf(y, ref) <==> y != x && db.IsReversalOf(y, ref)
  {
  }

  /** Its reference kept: its root's tree does not come to what it should. */
  lemma KeptIsMiscounted(db: Db, later: Db, x: Id)
    requires RowsOk(db) && SingleReversals(db) && ReferencesOk(db) && !db.HasReversal(x) && Conserved(db)
    requires RejectedLate(db, later, x) && later.txs[x].referenceId == db.txs[x].referenceId
    ensures !Conserved(later)
  {
    hide ReferencesOk, RootOf, Net, Trees, ReversedForGood;
    var root := RootOf(db, x);
    ReadOtherwise(db, later, x);
    forall y: Id
      ensures RootOf(later, y) == RootOf(db, y)
    {
      RootsStay(db, later, x, y);
    }
    SameNets(db, later, |db.ledger|, root);
    assert IsRoot(later, root) && later.txs[root] == db.txs[root];
    assert WellFormed(db.txs[root]) && OwnMovement(db.txs[root]) != 0;
  }

  /** Whatever is left of its reference, conservation is lost. */
  lemma RejectedLateIsLost(db: Db, later: Db, x: Id)
    requires RowsOk(db) && LedgerOk(db) && SingleReversals(db) && SettledHaveEntries(db) && Consistent(db)
    requires Conserved(db) && RejectedLate(db, later, x)
    ensures !Conserved(later)
  {
    hide RowsOk, LedgerOk, SingleReversals, SettledHaveEntries, StatusesOk, EntriesSettle, ReferencesOk, Conserved;
    if db.HasReversal(x) {
      ReversedIsNotValid(db, later, x);
      assert !Conserved(later) by { NotValidIsLost(later); }
    } else if later.txs[x].referenceId.None? {
      DroppedIsMissed(db, later, x);
    } else {
      KeptIsMiscounted(db, later, x);
    }
  }

  lemma NotValidIsLost(db: Db)
    requires !ReferencesOk(db)
    ensures !Conserved(db)
  {
  }

  // ----- the run that writes over one -----

  /** A rejection moves nothing and keeps the reference it was made with. */
  lemma RejectionMovesNothing(call: Id, k: Client)
    requires Decided(call, k) && k.decision.value.tx.status == Rejected
    ensures var d := k.decision.value;
            d.writes.wallet.None? && d.writes.entry.None? && d.tx.referenceId == k.tx.referenceId
  {
  }

  /** Both references lie under the key the reversal names, and that key has one row. */
  lemma SameReference(s: State, k: Client, x: Id)
    requires IndexOk(s.db) && ReferencesOk(s.db) && DecidedCurrent(s, k)
    requires x in s.db.txs && s.db.txs[x].Kind().IsReversal() && s.db.txs[x].status == Processed
    requires k.tx.key == s.db.txs[x].key && k.tx.payload == s.db.txs[x].payload
    ensures k.tx.referenceId.None? || k.tx.referenceId == s.db.txs[x].referenceId
  {
    assert ReferenceOk(s.db, s.db.txs[x]);
  }

  lemma RejectingWrites(s: State, call: Id, k: Client)
    requires At(s, call, k, Commit) && WritesOk(s.db, Staged(k))
    requires k.decision.Some? && k.decision.value.tx.status == Rejected
    ensures var later, t := Apply(s.db, Staged(k)), k.decision.value.tx;
            && later.wallets == s.db.wallets && later.ledger == s.db.ledger && later.txs == s.db.txs[k.tx.id := t]
            && t.referenceId == k.tx.referenceId
  {
    hide WalletWriteOk, InboxWriteOk, ReversalWriteOk, Decided, HoldsWallet, Unreversed, Identified, SameCurrency;
    SavedIsDecided(s, call, k);
    RejectionMovesNothing(call, k);
    UpsertedRow(s.db, Staged(k));
  }

  /** What a commit that finds its row PROCESSED does to it. */
  lemma UnsettlingRejectsLate(s: State, l: Label)
    requires Core(s) && Strong(s) && Unsettles(s, l)
    ensures RejectedLate(s.db, Next(s, l).db, s.clients[l.call].tx.id)
  {
    hide Core, Next, Consistent, DecidedCurrent, Decided, WritesOk, Footprint, Apply, At, Staged;
    var k := s.clients[l.call];
    CommitStep(s, l);
    OnlyReversalsAgain(s, l.call, k);
    ProcessedIsRejected(s, l, k.tx.id);
    StepWritesAsDecided(s, l, k.tx.id);
    RejectingWrites(s, l.call, k);
    DecidedAbout(s, l.call, k);
    CoreIndex(s);
    StrongReferences(s, l.call);
    SameReference(s, k, k.tx.id);
  }

  lemma DecidedAbout(s: State, call: Id, k: Client)
    requires At(s, call, k, Commit) && k.decision.Some? && k.tx.id in s.db.txs
    ensures k.tx.SameBusiness(s.db.txs[k.tx.id])
  {
    hide HoldsWallet, Unreversed, WellFormed, Grounded, Replays, Decided;
    OnlyReversalsAgain(s, call, k);
    SavedIsDecided(s, call, k);
  }

  lemma CoreIndex(s: State)
    requires Core(s)
    ensures IndexOk(s.db) && RowsOk(s.db)
  {
    hide IdsKnown, DeletedOk, ClientsOk, Sound;
    SoundParts(s.db);
  }

  lemma StrongReferences(s: State, call: Id)
    requires Strong(s) && call in s.clients && s.clients[call].pc == Commit && s.clients[call].decision.Some?
    ensures ReferencesOk(s.db) && DecidedCurrent(s, s.clients[call])
  {
    hide StatusesOk, ReferencesOk, EntriesSettle, DecidedCurrent;
  }

  lemma UnsettlingIsLost(s: State, l: Label)
    requires Core(s) && Strong(s) && Unsettles(s, l) && Conserved(s.db)
    ensures !Conserved(Next(s, l).db)
  {
    hide Core, Next, Consistent, StrongAt, NotSettled, Conserved, RejectedLate;
    UnsettlingRejectsLate(s, l);
    CoreIndex(s);
    CoreLedger(s);
    CoreSettled(s);
    StrongRows(s);
    RejectedLateIsLost(s.db, Next(s, l).db, s.clients[l.call].tx.id);
  }

  lemma StrongRows(s: State)
    requires Strong(s)
    ensures Consistent(s.db)
  {
    hide Consistent, StrongAt;
  }

  lemma SettledIsConserved(schedule: seq<Label>)
    requires SettledRun(schedule)
    ensures Conserved(Run(schedule).db)
  {
    hide Run, SettledRun, Net, Trees, ReversedForGood, StatusesOk, EntriesSettle, ReferencesOk, StrongAt;
    ReachableIsStrong(schedule);
    forall root: Id | IsRoot(Run(schedule).db, root)
      ensures var db := Run(schedule).db;
              Net(db, |db.ledger|, root) == if ReversedForGood(db, root) then 0 else OwnMovement(db.txs[root])
    {
      TreesComeToNothingOrTheirRoot(schedule, root);
    }
    forall w | w in Run(schedule).db.wallets
      ensures var db := Run(schedule).db; db.wallets[w].balance.amount == Trees(db, |db.ledger|, |db.ledger|, w)
    {
      BalanceIsItsTrees(schedule, w);
    }
  }

  lemma {:induction false} ConservedThroughoutIsSettled(schedule: seq<Label>, n: nat)
    requires n <= |schedule| && forall m :: 0 <= m <= |schedule| ==> Conserved(Run(schedule[..m]).db)
    ensures SettledRun(schedule[..n])
  {
    hide Run, Next, Core, Strong, Unsettles, Conserved;
    if n > 0 {
      ConservedThroughoutIsSettled(schedule, n - 1);
      var init := schedule[..n - 1];
      assert schedule[..n] == init + [schedule[n - 1]];
      RunStep(init, schedule[n - 1]);
      ReachableIsCore(init);
      ReachableIsStrong(init);
      assert Conserved(Run(init).db) && Conserved(Run(schedule[..n]).db);
      if Unsettles(Run(init), schedule[n - 1]) {
        UnsettlingIsLost(Run(init), schedule[n - 1]);
      }
      OneMoreSettled(init, schedule[n - 1]);
    }
  }

  lemma OneMoreSettled(schedule: seq<Label>, l: Label)
    requires SettledRun(schedule) && !Unsettles(Run(schedule), l)
    ensures SettledRun(schedule + [l])
  {
    hide Run, Unsettles;
    var longer := schedule + [l];
    forall n | 0 <= n < |longer|
      ensures !Unsettles(Run(longer[..n]), longer[n])
    {
      assert longer[..n] == if n < |schedule| then schedule[..n] else schedule;
    }
  }

  /** All along a run every tree comes to nothing or to its root's movement, every balance is made of
      its trees and every processed reversal validly references a processed row, if and only if no
      commit of the run finds its row PROCESSED. */
  lemma {:induction false} ConservationExactly(schedule: seq<Label>)
    ensures (forall n :: 0 <= n <= |schedule| ==> Conserved(Run(schedule[..n]).db)) <==> SettledRun(schedule)
  {
    hide Run, SettledRun, Conserved;
    if SettledRun(schedule) {
      forall n | 0 <= n <= |schedule|
        ensures Conserved(Run(schedule[..n]).db)
      {
        SettledPrefix(schedule, n);
        SettledIsConserved(schedule[..n]);
      }
    }
    if forall n :: 0 <= n <= |schedule| ==> Conserved(Run(schedule[..n]).db) {
      ConservedThroughoutIsSettled(schedule, |schedule|);
      assert schedule[..|schedule|] == schedule;
    }
  }
}
