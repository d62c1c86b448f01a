/** A commit that does not find its row PROCESSED keeps the database consistent and everyone's
    readings current. */
module SettledCommits {
  import opened Prelude
  import opened Wallets
  import opened Wagers
  import opened Tables
  import opened Decisions
  import opened Protocol
  import opened Integrity
  import opened Calls
  import opened CoreSteps
  import opened CoreCommits
  import opened Settlements
  import opened Readings

  // ----- what is written -----

  lemma EventBodies(t: Tx, call: Id, id: Id)
    requires t.status == PendingReference || t.status == Processed || t.status == Rejected
    ensures var events := [EventFor(t, call)];
            && TerminalBodies(events, id) == (if id == t.id then ExpectedBodies(t) else [])
            && PendingCount(events, id) == (if id == t.id && t.status == PendingReference then 1 else 0)
  {
    var events := [EventFor(t, call)];
    assert events[..0] == [];
    assert TerminalBodies([], id) == [] && PendingCount([], id) == 0;
  }

  lemma MovementBodies(t: Tx, w: WalletRow, e: LedgerEntry, call: Id, id: Id)
    requires t.status == Processed
    ensures var events := [ProcessedEvent(t, call), BalanceChangedEvent(w, e, call)];
            && TerminalBodies(events, id) == (if id == t.id then ExpectedBodies(t) else [])
            && PendingCount(events, id) == 0
  {
    var a, b := [ProcessedEvent(t, call)], [BalanceChangedEvent(w, e, call)];
    EventBodies(t, call, id);
    assert a == [EventFor(t, call)];
    assert b[..0] == [] && TerminalBodies([], id) == [] && PendingCount([], id) == 0;
    BodiesConcat(a, b, id);
    assert a + b == [ProcessedEvent(t, call), BalanceChangedEvent(w, e, call)];
  }

  lemma RowOnlyEventsSettle(call: Id, k: Client)
    requires k.decision.Some? && IsRowOnly(call, k, k.decision.value)
    ensures EventsSettleOk(Staged(k), k.decision.value.tx)
  {
    hide TerminalBodies, PendingCount, ExpectedBodies, EventFor;
    var t := k.decision.value.tx;
    forall id: Id
      ensures id == t.id ==> TerminalBodies(Staged(k).events, id) == ExpectedBodies(t)
                             && PendingCount(Staged(k).events, id) == (if t.status == PendingReference then 1 else 0)
      ensures id != t.id ==> TerminalBodies(Staged(k).events, id) == [] && PendingCount(Staged(k).events, id) == 0
    {
      EventBodies(t, call, id);
    }
  }

  lemma MovementEventsSettle(call: Id, k: Client)
    requires k.decision.Some? && IsMovement(call, k, k.decision.value)
    ensures EventsSettleOk(Staged(k), k.decision.value.tx)
  {
    hide TerminalBodies, PendingCount, ExpectedBodies, MovementDirection, NewLedgerEntry;
    var d := k.decision.value;
    forall id: Id
      ensures id == d.tx.id ==>
                TerminalBodies(Staged(k).events, id) == ExpectedBodies(d.tx) && PendingCount(Staged(k).events, id) == 0
      ensures id != d.tx.id ==> TerminalBodies(Staged(k).events, id) == [] && PendingCount(Staged(k).events, id) == 0
    {
      MovementBodies(d.tx, d.writes.wallet.value, d.writes.entry.value, call, id);
    }
  }

  lemma StagedEventsSettle(call: Id, k: Client)
    requires Decided(call, k)
    ensures EventsSettleOk(Staged(k), k.decision.value.tx)
  {
    hide Decided, IsMovement, IsRowOnly, EventsSettleOk;
    assert k.decision.Some? by {
      DecidedRow(call, k);
    }
    DecisionShape(call, k);
    if Moving(k) {
      MovementEventsSettle(call, k);
    } else {
      RowOnlyEventsSettle(call, k);
    }
  }

  /** A decided row is a change of status, and a processed reversal was found unreversed. */
  lemma DecidedStatus(call: Id, k: Client)
    requires Decided(call, k)
    ensures var t := k.decision.value.tx;
            && t == k.tx.(status := t.status, failure := t.failure)
            && (t.status == PendingReference || t.status == Processed || t.status == Rejected)
            && (t.status == PendingReference ==> k.tx.Kind().IsReversal() && k.tx.status == Pending && k.via == Parked)
            && (t.status == Rejected ==> t.failure.Some?)
            && (t.status != Rejected ==> t.failure == k.tx.failure)
            && (Settles(t) <==> Moving(k))
            && (Moving(k) ==> k.via == Locked && (k.tx.Kind().IsReversal() ==> !k.reversed))
            && (t.status == Processed && !Settles(t) ==> k.via == NoMovement)
  {
    hide Decided, MovementDirection, NewLedgerEntry;
    DecisionShape(call, k);
    if Moving(k) {
      LossNeverMoves(call, k);
    }
  }

  lemma LossNeverMoves(call: Id, k: Client)
    requires k.decision.Some? && IsMovement(call, k, k.decision.value)
    ensures k.tx.Kind() != Loss
  {
  }

  lemma StagedRowSettles(s: State, call: Id, k: Client)
    requires k.decision.Some? && Saved(s, call, k) && DecidedCurrent(s, k) && NotSettled(s.db, k)
    ensures RowSettlesOk(s.db, k.decision.value.tx)
  {
    hide Decided, HoldsWallet, WellFormed;
    DecidedStatus(call, k);
    var t := k.decision.value.tx;
    if k.reference.Some? {
      ValidityIgnoresStatus(k.tx, t, k.reference.value);
    }
  }

  lemma ValidityIgnoresStatus(tx: Tx, t: Tx, reference: Tx)
    requires t == tx.(status := t.status, failure := t.failure)
    ensures t.ValidateReference(reference) == tx.ValidateReference(reference)
  {
  }

  lemma StagedCurrencySettles(s: State, call: Id, k: Client)
    requires WalletsOk(s.db) && k.decision.Some? && Saved(s, call, k) && DecidedCurrent(s, k)
             && Evolves(s.db, Apply(s.db, Staged(k)))
    ensures CurrencySettlesOk(s.db, Staged(k), k.decision.value.tx)
  {
    hide Decided, WalletsOk, Aimed, Plain, ReversalCurrent, WellFormed, Apply;
    DecidedStatus(call, k);
    if k.decision.value.tx.status == Processed {
      DecidedCurrency(s, call, k);
    }
  }

  lemma DecidedCurrency(s: State, call: Id, k: Client)
    requires HasDecision(s, call, k) && k.tx.WalletId() in s.db.wallets && WalletsOk(s.db) && DecidedCurrent(s, k)
    requires k.decision.value.tx.status == Processed
    ensures k.tx.Amount().currency == s.db.wallets[k.tx.WalletId()].balance.currency
  {
    hide Aimed, Plain, ReversalCurrent, WellFormed, Settle, Chained;
    DecisionShape(call, k);
    if Moving(k) {
      assert WalletOk(s.db, k.tx.WalletId());
      MovedWallet(k.wallet.value, k.decision.value.writes.entry.value.direction, k.tx.Amount());
    }
  }

  lemma StagedEntrySettles(s: State, call: Id, k: Client)
    requires Saved(s, call, k) && DecidedCurrent(s, k)
    ensures EntrySettlesOk(s.db, Staged(k), k.decision.value.tx)
  {
    hide Decided, WellFormed, HoldsWallet, NewLedgerEntry;
    DecidedStatus(call, k);
    DecisionShape(call, k);
  }

  lemma StagedWritesSettle(s: State, call: Id, k: Client)
    requires WalletsOk(s.db) && ReadyToCommit(s, call, k)
    requires k.decision.Some? ==> DecidedCurrent(s, k) && NotSettled(s.db, k)
    requires Evolves(s.db, Apply(s.db, Staged(k)))
    ensures WritesSettle(s.db, Staged(k))
  {
    hide RowSettlesOk, CurrencySettlesOk, EntrySettlesOk, DecidedCurrent, WalletsOk, Replays, Evolves;
    if k.decision.Some? {
      assert Decided(call, k) by {
        hide Decided;
      }
      DecidedRow(call, k);
      StagedRowSettles(s, call, k);
      StagedCurrencySettles(s, call, k);
      StagedEntrySettles(s, call, k);
    }
  }

  // ----- what everyone else finds -----

  /** The one row a commit writes, as it stands afterwards. */
  predicate RowChange(s: State, later: State, call: Id, k: Client, t: Tx) {
    && later.db.txs == s.db.txs[t.id := t]
    && RowSettlesOk(s.db, t)
    && (if k.origin.Resolver? then t.id == k.tx.id else t.id == call)
    && (t.Kind().IsReversal() && t.status == Processed ==>
          t.WalletId() in s.walletLocks && s.walletLocks[t.WalletId()] == call)
  }

  lemma OthersStayDriven(s: State, later: State, call: Id, k: Client, t: Tx, kc: Client)
    requires RowChange(s, later, call, k, t) && Driven(s, kc)
    ensures Driven(later, kc)
  {
  }

  lemma ReversalsStayAsFound(s: State, later: State, call: Id, k: Client, t: Tx, r: Tx, c: Id)
    requires RowChange(s, later, call, k, t) && c != call
    requires r.id in s.db.txs && s.db.txs[r.id] == r && r.status == Processed
    requires r.WalletId() in s.walletLocks && s.walletLocks[r.WalletId()] == c
    ensures later.db.HasReversal(r.id) == s.db.HasReversal(r.id)
  {
    forall id
      ensures later.db.IsReversalOf(id, r.id) <==> s.db.IsReversalOf(id, r.id)
    {
      if id == t.id {
        NotAReversalOf(s, later, call, k, t, r, c);
      }
    }
  }

  /** A row committed as a reversal of r would have needed the wallet's lock. */
  lemma NotAReversalOf(s: State, later: State, call: Id, k: Client, t: Tx, r: Tx, c: Id)
    requires RowChange(s, later, call, k, t) && c != call
    requires r.id in s.db.txs && s.db.txs[r.id] == r
    requires r.WalletId() in s.walletLocks && s.walletLocks[r.WalletId()] == c
    ensures !later.db.IsReversalOf(t.id, r.id) && !s.db.IsReversalOf(t.id, r.id)
  {
  }

  lemma OthersStayAimed(s: State, later: State, call: Id, k: Client, t: Tx, kc: Client)
    requires RowChange(s, later, call, k, t) && Aimed(s, kc) && Driven(later, kc)
    ensures Aimed(later, kc)
  {
  }

  /** One call's readings, under a commit of another. */
  lemma OthersStayStrong(s: State, later: State, call: Id, k: Client, t: Tx, c: Id)
    requires c in s.clients && c != call && RowChange(s, later, call, k, t)
    requires Evolves(s.db, later.db) && ClientOk(s, c, s.clients[c]) && StrongAt(s, s.clients[c])
    ensures StrongAt(later, s.clients[c])
  {
    hide RowChange, Decided, WellFormed, ReversalCurrent, Aimed, Driven, EntryLeaves;
    var kc := s.clients[c];
    if kc.pc != Done && kc.pc != Dead {
      AimedIsDriven(s, kc);
      if Driven(s, kc) {
        OthersStayDriven(s, later, call, k, t, kc);
      }
      if Aimed(s, kc) && Driven(later, kc) {
        OthersStayAimed(s, later, call, k, t, kc);
        if HoldsWallet(s, c, kc) {
          OthersReversalStays(s, later, call, k, t, c);
        }
      }
    }
  }

  lemma AimedIsDriven(s: State, k: Client)
    ensures Aimed(s, k) ==> Driven(s, k)
  {
  }

  lemma OthersReversalStays(s: State, later: State, call: Id, k: Client, t: Tx, c: Id)
    requires RowChange(s, later, call, k, t) && c in s.clients && c != call
    requires Aimed(s, s.clients[c]) && HoldsWallet(s, c, s.clients[c])
    ensures ReversalCurrent(s, s.clients[c]) ==> ReversalCurrent(later, s.clients[c])
  {
    hide RowChange;
    var kc := s.clients[c];
    if kc.tx.Kind().IsReversal() {
      ReversalsStayAsFound(s, later, call, k, t, kc.reference.value, c);
    }
  }

  lemma SameRowsStayStrong(s: State, later: State, k: Client)
    requires later.db.txs == s.db.txs && later.db.wallets == s.db.wallets && StrongAt(s, k)
    ensures StrongAt(later, k)
  {
    hide Chained, WellFormed;
    assert forall r :: later.db.HasReversal(r) == s.db.HasReversal(r) by {
      forall r
        ensures later.db.HasReversal(r) == s.db.HasReversal(r)
      {
        assert forall id :: later.db.IsReversalOf(id, r) == s.db.IsReversalOf(id, r);
      }
    }
  }

  // ----- commits -----

  /** A commit of a decided row, as everyone else sees it. */
  lemma CommitChangesOneRow(s: State, later: State, call: Id, k: Client)
    requires k.decision.Some? && Saved(s, call, k) && DecidedCurrent(s, k) && later.db == Apply(s.db, Staged(k))
    requires RowSettlesOk(s.db, k.decision.value.tx)
    ensures RowChange(s, later, call, k, k.decision.value.tx)
  {
    hide Decided, DecidedCurrent, RowSettlesOk, WellFormed, Apply;
    var t := k.decision.value.tx;
    DecidedRow(call, k);
    DecidedStatus(call, k);
    WrittenRow(s.db, Staged(k), t);
  }

  lemma CommitKeepsStrong(s: State, call: Id, k: Client)
    requires Core(s) && Strong(s) && At(s, call, k, Commit) && (k.decision.Some? ==> NotSettled(s.db, k))
    requires Core(StepCommit(s, call, k))
    ensures Strong(StepCommit(s, call, k))
  {
    hide ClientOk, Sound, WritesOk, IdsKnown, Evolves, StepCommit, Consistent, StrongAt, DeletedOk, WritesSettle;
    var later := StepCommit(s, call, k);
    SoundParts(s.db);
    CommitEffect(s, call, k);
    StagedWritesOk(s, call, k);
    WritesKeepSound(s.db, Staged(k));
    CommitPoint(s, call, k);
    StagedWritesSettle(s, call, k);
    RowlessMovesNothing(s, call, k);
    EvolvingCurrencies(s.db, later.db);
    WritesKeepConsistent(s.db, Staged(k));
    forall c | c in later.clients
      ensures StrongAt(later, later.clients[c])
    {
      if c == call {
        CommitterIsStrong(s, call, k);
      } else {
        CommitBystander(s, later, call, k, c);
      }
    }
  }

  lemma CommitPoint(s: State, call: Id, k: Client)
    requires At(s, call, k, Commit) && StrongAt(s, k)
    ensures ReadyToCommit(s, call, k) && (k.decision.Some? ==> DecidedCurrent(s, k))
  {
    hide Saved, Replays, DecidedCurrent;
  }

  lemma RowlessMovesNothing(s: State, call: Id, k: Client)
    requires ReadyToCommit(s, call, k)
    ensures Staged(k).row.None? ==> Staged(k).wallet.None?
  {
    hide Decided;
    if k.decision.Some? {
      DecidedRow(call, k);
    }
  }

  lemma EvolvingCurrencies(db: Db, later: Db)
    requires Evolves(db, later)
    ensures forall id :: id in db.wallets ==> id in later.wallets
                                              && later.wallets[id].balance.currency == db.wallets[id].balance.currency
  {
  }

  lemma CommitterIsStrong(s: State, call: Id, k: Client)
    requires At(s, call, k, Commit)
    ensures StrongAt(StepCommit(s, call, k), StepCommit(s, call, k).clients[call])
  {
    hide Apply, Staged, ReadyToCommit, DecidedCurrent, Plain, Aimed, FreshAnswer;
  }

  lemma CommitBystander(s: State, later: State, call: Id, k: Client, c: Id)
    requires At(s, call, k, Commit) && c in s.clients && c != call && ReadyToCommit(s, call, k)
    requires k.decision.Some? ==> DecidedCurrent(s, k) && NotSettled(s.db, k)
    requires later.db == Apply(s.db, Staged(k)) && Evolves(s.db, later.db)
    requires ClientOk(s, c, s.clients[c]) && StrongAt(s, s.clients[c])
    ensures StrongAt(later, s.clients[c])
  {
    hide ClientOk, StrongAt, DecidedCurrent, Saved, Evolves, RowChange, Replays;
    if k.decision.Some? {
      StagedRowSettles(s, call, k);
      CommitChangesOneRow(s, later, call, k);
      OthersStayStrong(s, later, call, k, k.decision.value.tx, c);
    } else {
      SameRowsStayStrong(s, later, s.clients[c]);
    }
  }
}
