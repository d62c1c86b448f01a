/** What a transaction and everything that reverses it, directly or through its refund, come to
    in the ledger; and how a wallet's balance is made of these. */
module Conservation {
  import opened Prelude
  import opened Wallets
  import opened Wagers
  import opened Tables
  import opened Integrity
  import opened Settlements

  /** The transaction at the end of the references: a rollback of a refund goes back to the bet. */
  function RootOf(db: Db, id: Id): Id {
    var r := ReferenceOf(db, id);
    if r.None? then id
    else
      var rr := ReferenceOf(db, r.value);
      if rr.None? then r.value else rr.value
  }

  function ReferenceOf(db: Db, id: Id): Option<Id> {
    if id in db.txs && db.txs[id].Kind().IsReversal() then db.txs[id].referenceId else None
  }

  /** The movements, among the first n entries, of a root and of everything that reverses it. */
  function Net(db: Db, n: nat, root: Id): int
    requires n <= |db.ledger|
  {
    if n == 0 then 0
    else
      Net(db, n - 1, root) +
      if RootOf(db, db.ledger[n - 1].transactionId) == root then db.ledger[n - 1].Movement() else 0
  }

  predicate Appears(db: Db, n: nat, id: Id)
    requires n <= |db.ledger|
  {
    exists i :: 0 <= i < n && db.ledger[i].transactionId == id
  }

  /** The one processed reversal of a transaction, if there is one. */
  ghost predicate IsTheReversal(db: Db, ref: Id, x: Option<Id>) {
    forall id: Id :: db.IsReversalOf(id, ref) <==> x == Some(id)
  }

  lemma {:induction false} TheReversalExists(db: Db, ref: Id) returns (x: Option<Id>)
    requires SingleReversals(db)
    ensures IsTheReversal(db, ref, x)
    ensures x.Some? <==> db.HasReversal(ref)
  {
    if db.HasReversal(ref) {
      var id :| id in db.txs && db.IsReversalOf(id, ref);
      x := Some(id);
      forall other: Id
        ensures db.IsReversalOf(other, ref) <==> x == Some(other)
      {
        assert db.txs[id].referenceId == Some(ref);
      }
    } else {
      x := None;
    }
  }

  /** A root: a settled transaction that reverses nothing. */
  predicate IsRoot(db: Db, id: Id) {
    id in db.txs && Settles(db.txs[id]) && !db.txs[id].Kind().IsReversal()
  }

  /** The signed movement of a settled transaction of this kind and amount. */
  function OwnMovement(t: Tx): int {
    var a: int := t.Amount().amount;
    if t.Kind() == Bet then -a else a
  }

  /** Whose root a settled transaction has: its own, its reference's, or its reference's
      reference's; and which way it moves. */
  lemma RootedMovement(db: Db, i: nat, root: Id, x: Option<Id>, y: Option<Id>)
    requires LedgerOk(db) && Consistent(db) && i < |db.ledger| && IsRoot(db, root)
    requires IsTheReversal(db, root, x) && (x.Some? ==> IsTheReversal(db, x.value, y)) && (x.None? ==> y.None?)
    ensures var e := db.ledger[i];
            && (RootOf(db, e.transactionId) == root <==>
                  e.transactionId == root || Some(e.transactionId) == x || Some(e.transactionId) == y)
            && (e.transactionId == root ==> e.Movement() == OwnMovement(db.txs[root]))
            && (Some(e.transactionId) == x ==> e.Movement() == -OwnMovement(db.txs[root]))
            && (Some(e.transactionId) == y ==> e.Movement() == OwnMovement(db.txs[root]))
  {
    hide StatusesOk;
    var e := db.ledger[i];
    assert EntrySettles(db, i) && EntryOk(db, e);
    var t := db.txs[e.transactionId];
    if t.Kind().IsReversal() {
      assert ReferenceOk(db, t) && db.IsReversalOf(e.transactionId, t.referenceId.value);
      var r := db.txs[t.referenceId.value];
      assert ReferenceOk(db, r);
      ReversalMovesBack(db, e, t, r);
      if r.Kind().IsReversal() {
        assert db.IsReversalOf(t.referenceId.value, r.referenceId.value);
        var rr := db.txs[r.referenceId.value];
        assert rr.Kind() == Bet && rr.Amount() == r.Amount();
      }
    }
  }

  /** A reversal moves the same amount the opposite way. */
  lemma ReversalMovesBack(db: Db, e: LedgerEntry, t: Tx, r: Tx)
    requires t.Kind().IsReversal() && t.referenceId.Some? && t.referenceId.value in db.txs
             && r == db.txs[t.referenceId.value]
    requires t.ValidateReference(r) == Ok(()) && DirectionOf(db, t) == Ok(e.direction) && e.amount == t.Amount()
    ensures e.Movement() == -OwnMovement(r)
    ensures r.Kind() != Bet && t.Kind() == Refund ==> false
    ensures r.Kind().IsReversal() ==> r.Kind() == Refund
  {
  }

  /** The count of the entries of a tree among the first n. */
  lemma {:induction false} NetSoFar(db: Db, n: nat, root: Id, x: Option<Id>, y: Option<Id>)
    requires LedgerOk(db) && Consistent(db) && n <= |db.ledger| && IsRoot(db, root)
    requires IsTheReversal(db, root, x) && (x.Some? ==> IsTheReversal(db, x.value, y)) && (x.None? ==> y.None?)
    ensures var a := OwnMovement(db.txs[root]);
            Net(db, n, root) == (if Appears(db, n, root) then a else 0)
                                - (if x.Some? && Appears(db, n, x.value) then a else 0)
                                + (if y.Some? && Appears(db, n, y.value) then a else 0)
  {
    hide Consistent, IsTheReversal;
    if n > 0 {
      NetSoFar(db, n - 1, root, x, y);
      RootedMovement(db, n - 1, root, x, y);
      DistinctTree(db, root, x, y);
      AppearsStep(db, n, root);
      if x.Some? {
        AppearsStep(db, n, x.value);
      }
      if y.Some? {
        AppearsStep(db, n, y.value);
      }
    }
  }

  /** One more entry, of a transaction that had none before. */
  lemma AppearsStep(db: Db, n: nat, id: Id)
    requires LedgerOk(db) && 0 < n <= |db.ledger|
    ensures Appears(db, n, id) <==> Appears(db, n - 1, id) || db.ledger[n - 1].transactionId == id
    ensures db.ledger[n - 1].transactionId == id ==> !Appears(db, n - 1, id)
  {
  }

  lemma DistinctTree(db: Db, root: Id, x: Option<Id>, y: Option<Id>)
    requires Consistent(db) && IsRoot(db, root)
    requires IsTheReversal(db, root, x) && (x.Some? ==> IsTheReversal(db, x.value, y)) && (x.None? ==> y.None?)
    ensures x != Some(root) && y != Some(root) && (x.Some? ==> x != y)
  {
    hide StatusesOk, EntriesSettle;
    if x.Some? {
      assert db.IsReversalOf(x.value, root) && db.txs[x.value].referenceId == Some(root);
      if y.Some? {
        assert db.IsReversalOf(y.value, x.value) && db.txs[y.value].referenceId == Some(x.value);
      }
    }
  }

  /** It is reversed, and its reversal is not itself reversed. */
  ghost predicate ReversedForGood(db: Db, root: Id) {
    exists x :: db.IsReversalOf(x, root) && !db.HasReversal(x)
  }

  /** A bet, win or opening and everything that reverses it come to nothing exactly when it is
      reversed and its reversal is not itself reversed; otherwise they come to its own movement. */
  lemma TreeNets(db: Db, root: Id)
    requires LedgerOk(db) && ReversalsOk(db) && SettledHaveEntries(db) && Consistent(db) && IsRoot(db, root)
    ensures Net(db, |db.ledger|, root) ==
            if ReversedForGood(db, root) then 0 else OwnMovement(db.txs[root])
  {
    var n := |db.ledger|;
    var x := TheReversalExists(db, root);
    var y: Option<Id> := None;
    if x.Some? {
      y := TheReversalExists(db, x.value);
      assert db.IsReversalOf(x.value, root);
      assert HasEntry(db, x.value) && Appears(db, n, x.value);
    }
    if y.Some? {
      assert db.IsReversalOf(y.value, x.value);
      assert HasEntry(db, y.value) && Appears(db, n, y.value);
    }
    assert HasEntry(db, root) && Appears(db, n, root);
    NetSoFar(db, n, root, x, y);
  }

  // ----- a wallet as the sum of its trees -----

  predicate IsRootEntry(db: Db, walletId: Id, e: LedgerEntry) {
    e.walletId == walletId && e.transactionId in db.txs && !db.txs[e.transactionId].Kind().IsReversal()
  }

  /** The trees of the roots among the wallet's first m entries, each counted over the first n. */
  function Trees(db: Db, m: nat, n: nat, walletId: Id): int
    requires m <= n <= |db.ledger|
  {
    if m == 0 then 0
    else Trees(db, m - 1, n, walletId)
         + if IsRootEntry(db, walletId, db.ledger[m - 1]) then Net(db, n, db.ledger[m - 1].transactionId) else 0
  }

  /** The root of an entry has its own entry no later, in the same wallet. */
  lemma {:induction false} RootAppears(db: Db, i: nat) returns (j: nat)
    requires LedgerOk(db) && ReferencesOk(db) && EntriesSettle(db) && i < |db.ledger|
    ensures j <= i && db.ledger[j].transactionId == RootOf(db, db.ledger[i].transactionId)
    ensures db.ledger[j].walletId == db.ledger[i].walletId && IsRootEntry(db, db.ledger[i].walletId, db.ledger[j])
    ensures j == i || db.txs[db.ledger[i].transactionId].Kind().IsReversal()
  {
    var e := db.ledger[i];
    assert EntrySettles(db, i) && EntryOk(db, e);
    var t := db.txs[e.transactionId];
    j := i;
    if t.Kind().IsReversal() {
      j :| 0 <= j < i && db.ledger[j].transactionId == t.referenceId.value;
      assert EntrySettles(db, j) && EntryOk(db, db.ledger[j]) && ReferenceOk(db, t);
      var r := db.txs[db.ledger[j].transactionId];
      if r.Kind().IsReversal() {
        assert ReferenceOk(db, r);
        var before := j;
        j :| 0 <= j < before && db.ledger[j].transactionId == r.referenceId.value;
        assert EntrySettles(db, j) && EntryOk(db, db.ledger[j]);
      }
    }
  }

  /** Counting one entry more changes the tree of its root, and of no other. */
  lemma {:induction false} TreesStep(db: Db, m: nat, n: nat, walletId: Id, j: nat)
    requires LedgerOk(db) && m <= n < |db.ledger| && j < |db.ledger|
    requires db.ledger[j].transactionId == RootOf(db, db.ledger[n].transactionId)
    ensures Trees(db, m, n + 1, walletId) ==
            Trees(db, m, n, walletId)
            + if j < m && IsRootEntry(db, walletId, db.ledger[j]) then db.ledger[n].Movement() else 0
  {
    if m > 0 {
      TreesStep(db, m - 1, n, walletId, j);
      assert db.ledger[m - 1].transactionId == db.ledger[j].transactionId ==> m - 1 == j;
    }
  }

  /** Among the first n entries, a wallet's total is the sum of its trees. */
  lemma {:induction false} TotalIsTrees(db: Db, n: nat, walletId: Id)
    requires LedgerOk(db) && ReferencesOk(db) && EntriesSettle(db) && n <= |db.ledger|
    ensures Total(LedgerOf(db.ledger[..n], walletId)) == Trees(db, n, n, walletId)
  {
    hide LedgerOk, ReferencesOk, EntriesSettle, LedgerOf, Total, Trees, Net, RootOf, IsRootEntry;
    if n == 0 {
      NothingYet(db, walletId);
    } else {
      var e := db.ledger[n - 1];
      TotalIsTrees(db, n - 1, walletId);
      assert db.ledger[..n] == db.ledger[..n - 1] + [e];
      LedgerOfAppend(db.ledger[..n - 1], e, walletId);
      TotalAppend(LedgerOf(db.ledger[..n - 1], walletId), e);
      TreesUnfold(db, n, n, walletId);
      var j := RootAppears(db, n - 1);
      TreesStep(db, n - 1, n - 1, walletId, j);
      LastTree(db, n, walletId, j);
      RootEntryWallet(db, walletId, e, db.ledger[j]);
    }
  }

  lemma NothingYet(db: Db, walletId: Id)
    ensures Total(LedgerOf(db.ledger[..0], walletId)) == 0 && Trees(db, 0, 0, walletId) == 0
  {
  }

  lemma TreesUnfold(db: Db, m: nat, n: nat, walletId: Id)
    requires 0 < m <= n <= |db.ledger|
    ensures Trees(db, m, n, walletId) ==
            Trees(db, m - 1, n, walletId)
            + if IsRootEntry(db, walletId, db.ledger[m - 1]) then Net(db, n, db.ledger[m - 1].transactionId) else 0
  {
  }

  /** A root entry of its own wallet is one of this wallet's just when it lies in this wallet. */
  lemma RootEntryWallet(db: Db, walletId: Id, e: LedgerEntry, root: LedgerEntry)
    requires IsRootEntry(db, e.walletId, root)
    ensures IsRootEntry(db, walletId, root) <==> e.walletId == walletId
    ensures e.walletId != walletId ==> !IsRootEntry(db, walletId, e)
  {
  }

  /** The tree of the newest root holds nothing but its own entry yet. */
  lemma LastTree(db: Db, n: nat, walletId: Id, j: nat)
    requires LedgerOk(db) && ReferencesOk(db) && EntriesSettle(db) && 0 < n <= |db.ledger| && j <= n - 1
    requires db.ledger[j].transactionId == RootOf(db, db.ledger[n - 1].transactionId)
    requires IsRootEntry(db, db.ledger[n - 1].walletId, db.ledger[j])
    requires j == n - 1 || db.txs[db.ledger[n - 1].transactionId].Kind().IsReversal()
    ensures db.ledger[n - 1].transactionId in db.txs
    ensures IsRootEntry(db, walletId, db.ledger[n - 1]) ==>
              j == n - 1 && Net(db, n, db.ledger[n - 1].transactionId) == db.ledger[n - 1].Movement()
    ensures db.ledger[n - 1].walletId == walletId && !IsRootEntry(db, walletId, db.ledger[n - 1]) ==> j < n - 1
  {
    assert EntrySettles(db, n - 1);
    NoTreeBeforeItsRoot(db, n - 1, n - 1);
  }

  lemma {:induction false} NoTreeBeforeItsRoot(db: Db, m: nat, n: nat)
    requires LedgerOk(db) && ReferencesOk(db) && EntriesSettle(db) && m <= n < |db.ledger|
    ensures Net(db, m, db.ledger[n].transactionId) == 0
  {
    if m > 0 {
      NoTreeBeforeItsRoot(db, m - 1, n);
      var j := RootAppears(db, m - 1);
      assert j < n ==> db.ledger[j].transactionId != db.ledger[n].transactionId;
    }
  }
}
