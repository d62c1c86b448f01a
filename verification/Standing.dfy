/** When a committed row stays as it is: exactly which steps, and which stretches of a run, change it.
    Any number of resolvers. */
module Standing {
  import opened Prelude
  import opened Wagers
  import opened Tables
  import opened Decisions
  import opened Protocol
  import opened Integrity
  import opened Calls
  import opened CoreSteps
  import opened CoreCommits
  import opened CoreTheorem
  import opened Histories
  import opened Readings
  import opened SettledCommits
  import opened SettledTheorem

  function RowOf(s: State, id: Id): Option<Tx> {
    if id in s.db.txs then Some(s.db.txs[id]) else None
  }

  // ----- one step -----

  /** The step writes this row with another status, reference or failure code. */
  predicate DecidesDifferently(s: State, l: Label, id: Id) {
    DecidesAbout(s, l, id) && id in s.db.txs
    && var t, row := s.clients[l.call].decision.value.tx, s.db.txs[id];
       t.status != row.status || t.referenceId != row.referenceId || t.failure != row.failure
  }

  /** The row is as decided, if the step decides about it, and else as it was. */
  predicate WrittenAsDecided(s: State, later: State, l: Label, id: Id) {
    && id in later.db.txs
    && (!DecidesAbout(s, l, id) ==> RowOf(later, id) == RowOf(s, id))
    && (DecidesAbout(s, l, id) ==> later.db.txs[id] == s.clients[l.call].decision.value.tx)
  }

  lemma StepWritesAsDecided(s: State, l: Label, id: Id)
    requires Core(s) && id in s.db.txs
    ensures WrittenAsDecided(s, Next(s, l), l, id)
  {
    hide Core, Next, At, WritesOk, Footprint, Apply, OpenWallet;
    if Commits(s, l) {
      CommitStep(s, l);
      AtItsPoint(s, l.call);
      CommitWritesAsDecided(s, l.call, s.clients[l.call], id);
    } else if Opens(s, l) {
      OpenStep(s, l);
      OpenKeepsRows(s.db, OpenWallet(l.call, l.now, l.playerId, l.initialBalance).value, l.call, id);
    } else if l.OpenWalletCall? {
      UnopenedStep(s, l);
    } else {
      QuietStep(s, l);
    }
  }

  lemma CommitWritesAsDecided(s: State, call: Id, k: Client, id: Id)
    requires At(s, call, k, Commit) && WritesOk(s.db, Staged(k)) && id in s.db.txs
    ensures var later := Apply(s.db, Staged(k));
            && id in later.txs
            && later.txs[id] == if k.decision.Some? && k.tx.id == id then k.decision.value.tx else s.db.txs[id]
  {
    hide WalletWriteOk, InboxWriteOk, ReversalWriteOk, Apply, Saved, Replays;
    if k.decision.Some? {
      SavedIsDecided(s, call, k);
      UpsertedRow(s.db, Staged(k));
    } else {
      RowlessKeepsRows(s.db, Staged(k));
    }
  }

  lemma SavedIsDecided(s: State, call: Id, k: Client)
    requires Saved(s, call, k)
    ensures Staged(k).row == Some(k.decision.value.tx) && k.decision.value.tx.SameBusiness(k.tx)
  {
    hide Decided;
    DecidedRow(call, k);
  }

  lemma OpenKeepsRows(db: Db, w: Writes, call: Id, id: Id)
    requires w.row.Some? ==> w.row.value.id == call
    requires call !in db.txs && id in db.txs
    ensures id in Apply(db, w).txs && Apply(db, w).txs[id] == db.txs[id]
  {
  }

  /** A row that has its ledger entry, decided about once more, is rejected: it cannot be booked again. */
  lemma EnteredIsRejected(s: State, call: Id, k: Client)
    requires At(s, call, k, Commit) && k.decision.Some? && k.tx.id in s.db.txs && HasEntry(s.db, k.tx.id)
    ensures k.decision.value.tx.status == Rejected
  {
    hide HoldsWallet, Unreversed, WellFormed, Grounded, Replays, Decided;
    DecidedStatus(call, k);
  }

  /** Only a reversal's row is decided about again, by a resolver. */
  lemma OnlyReversalsAgain(s: State, call: Id, k: Client)
    requires At(s, call, k, Commit) && k.decision.Some? && k.tx.id in s.db.txs
    ensures k.origin.Resolver? && s.db.txs[k.tx.id].Kind().IsReversal()
            && k.decision.value.tx.SameBusiness(s.db.txs[k.tx.id])
  {
    hide HoldsWallet, Unreversed, WellFormed, Grounded, Replays, Decided;
    SavedIsDecided(s, call, k);
  }

  lemma ReversalHasEntry(s: State, id: Id)
    requires Core(s) && id in s.db.txs && s.db.txs[id].status == Processed && s.db.txs[id].Kind().IsReversal()
    ensures HasEntry(s.db, id)
  {
    hide RowsOk, IndexOk, WalletsOk, LedgerOk, EventsOk, InboxOk, ReversalsOk, IdsKnown, ClientsOk, DeletedOk, HasEntry;
  }

  /** A PROCESSED row a step decides about is rejected by it. */
  lemma ProcessedIsRejected(s: State, l: Label, id: Id)
    requires Core(s) && DecidesAbout(s, l, id) && IsProcessed(RowOf(s, id))
    ensures IsRejected(RowOf(Next(s, l), id)) && HasEntry(s.db, id)
  {
    hide Core, Next, At, HasEntry;
    AtItsPoint(s, l.call);
    OnlyReversalsAgain(s, l.call, s.clients[l.call]);
    ReversalHasEntry(s, id);
    EnteredIsRejected(s, l.call, s.clients[l.call]);
    StepWritesAsDecided(s, l, id);
  }

  predicate IsProcessed(row: Option<Tx>) {
    row.Some? && row.value.status == Processed
  }

  predicate IsRejected(row: Option<Tx>) {
    row.Some? && row.value.status == Rejected
  }

  /** A row changes in a step if and only if the step commits a decision about it that differs from it;
      for a PROCESSED row every decision about it does, and rejects it. */
  lemma RowChangesExactly(s: State, l: Label, id: Id)
    requires Core(s) && id in s.db.txs
    ensures RowOf(Next(s, l), id) != RowOf(s, id) <==> DecidesDifferently(s, l, id)
    ensures IsProcessed(RowOf(s, id)) ==> (DecidesDifferently(s, l, id) <==> DecidesAbout(s, l, id))
    ensures IsProcessed(RowOf(s, id)) && DecidesAbout(s, l, id) ==> IsRejected(RowOf(Next(s, l), id))
  {
    hide Core, Next, At;
    StepWritesAsDecided(s, l, id);
    if DecidesAbout(s, l, id) {
      AtItsPoint(s, l.call);
      OnlyReversalsAgain(s, l.call, s.clients[l.call]);
      if IsProcessed(RowOf(s, id)) {
        ProcessedIsRejected(s, l, id);
      }
    }
  }

  // ----- rows with an entry -----

  predicate IsDecided(row: Option<Tx>) {
    IsProcessed(row) || IsRejected(row)
  }

  lemma MovingIsProcessed(call: Id, k: Client)
    requires Decided(call, k) && k.decision.value.writes.entry.Some?
    ensures k.decision.value.tx.status == Processed && k.decision.value.writes.entry.value.transactionId == k.tx.id
  {
  }

  /** The commit that enters a row in the ledger leaves it PROCESSED. */
  lemma EnteringProcesses(s: State, l: Label, id: Id)
    requires Core(s) && !HasEntry(s.db, id) && HasEntry(Next(s, l).db, id)
    ensures IsProcessed(RowOf(Next(s, l), id))
  {
    hide Core, Next, At, WritesOk, Footprint, OpenWallet;
    if Commits(s, l) {
      CommitStep(s, l);
      WritesOkParts(s.db, Staged(s.clients[l.call]));
      CommittedEntry(s, l.call, s.clients[l.call], id);
    } else if Opens(s, l) {
      OpenStep(s, l);
      OpenedEntry(s, l, id);
    } else if l.OpenWalletCall? {
      UnopenedStep(s, l);
    } else {
      QuietStep(s, l);
    }
  }

  lemma CommittedEntry(s: State, call: Id, k: Client, id: Id)
    requires At(s, call, k, Commit) && RowWriteOk(s.db, Staged(k))
    requires !HasEntry(s.db, id) && HasEntry(Apply(s.db, Staged(k)), id)
    ensures var later := Apply(s.db, Staged(k)); id in later.txs && later.txs[id].status == Processed
  {
    hide Decided, HoldsWallet, Unreversed, WellFormed, Grounded, Replays;
    var later := Apply(s.db, Staged(k));
    var i :| 0 <= i < |later.ledger| && later.ledger[i].transactionId == id;
    assert i == |s.db.ledger|;
    SavedIsDecided(s, call, k);
    MovingIsProcessed(call, k);
    UpsertedRow(s.db, Staged(k));
  }

  lemma OpenedEntry(s: State, l: Label, id: Id)
    requires l.OpenWalletCall? && OpenWallet(l.call, l.now, l.playerId, l.initialBalance).Ok? && l.call !in s.db.txs
    requires !HasEntry(s.db, id)
             && HasEntry(Apply(s.db, OpenWallet(l.call, l.now, l.playerId, l.initialBalance).value), id)
    ensures var later := Apply(s.db, OpenWallet(l.call, l.now, l.playerId, l.initialBalance).value);
            id in later.txs && later.txs[id].status == Processed
  {
    var later := Apply(s.db, OpenWallet(l.call, l.now, l.playerId, l.initialBalance).value);
    var i :| 0 <= i < |later.ledger| && later.ledger[i].transactionId == id;
    assert i == |s.db.ledger|;
  }

  lemma EnteredStaysDecided(s: State, l: Label, id: Id)
    requires Core(s) && HasEntry(s.db, id) && IsDecided(RowOf(s, id))
    ensures IsDecided(RowOf(Next(s, l), id))
  {
    hide Core, Next, At, HasEntry;
    StepWritesAsDecided(s, l, id);
    if DecidesAbout(s, l, id) {
      AtItsPoint(s, l.call);
      EnteredIsRejected(s, l.call, s.clients[l.call]);
    }
  }

  /** In every run a row that has a ledger entry is PROCESSED or REJECTED: none that waits has one. */
  lemma {:induction false} EnteredRowsAreDecided(schedule: seq<Label>, id: Id)
    requires HasEntry(Run(schedule).db, id)
    ensures IsDecided(RowOf(Run(schedule), id))
  {
    hide Core, Next, HasEntry, RowOf, IsDecided;
    if schedule == [] {
      NothingEntered(id);
    } else {
      var n := |schedule| - 1;
      var s := Run(schedule[..n]);
      ReachableIsCore(schedule[..n]);
      if HasEntry(s.db, id) {
        EnteredRowsAreDecided(schedule[..n], id);
        EnteredStaysDecided(s, schedule[n], id);
      } else {
        EnteringProcesses(s, schedule[n], id);
        assert IsDecided(RowOf(Run(schedule), id)) by { ProcessedIsDecided(RowOf(Run(schedule), id)); }
      }
    }
  }

  lemma ProcessedIsDecided(row: Option<Tx>)
    requires IsProcessed(row)
    ensures IsDecided(row)
  {
  }

  lemma NothingEntered(id: Id)
    ensures !HasEntry(EmptyDb, id)
  {
  }

  // ----- a stretch of a run -----

  /** No step of the tail decides about the row. */
  ghost predicate LeftAlone(schedule: seq<Label>, tail: seq<Label>, id: Id) {
    forall n :: 0 <= n < |tail| ==> !DecidesAbout(Run(schedule + tail[..n]), tail[n], id)
  }

  /** No step of the tail decides differently about the row. */
  ghost predicate LeftAsItWas(schedule: seq<Label>, tail: seq<Label>, id: Id) {
    forall n :: 0 <= n < |tail| ==> !DecidesDifferently(Run(schedule + tail[..n]), tail[n], id)
  }

  /** The row is the same at every moment of the tail. */
  ghost predicate StandsThroughout(schedule: seq<Label>, tail: seq<Label>, id: Id) {
    forall n :: 0 <= n <= |tail| ==> RowOf(Run(schedule + tail[..n]), id) == RowOf(Run(schedule), id)
  }

  /** Any row, PROCESSED, REJECTED or waiting, stands at every moment of a tail if and only if no commit
      of the tail writes another status, reference or failure code over it. */
  lemma {:induction false} RowsStandExactly(schedule: seq<Label>, tail: seq<Label>, id: Id)
    requires id in Run(schedule).db.txs
    ensures StandsThroughout(schedule, tail, id) <==> LeftAsItWas(schedule, tail, id)
  {
    hide Run, Core, Next, RowOf, DecidesDifferently;
    if StandsThroughout(schedule, tail, id) {
      forall n | 0 <= n < |tail|
        ensures !DecidesDifferently(Run(schedule + tail[..n]), tail[n], id)
      {
        StandingStep(schedule, tail, n, id);
        assert RowOf(Run(schedule + tail[..n]), id) == RowOf(Run(schedule), id);
        assert RowOf(Run(schedule + tail[..n + 1]), id) == RowOf(Run(schedule), id);
      }
    }
    if LeftAsItWas(schedule, tail, id) {
      forall n | 0 <= n <= |tail|
        ensures RowOf(Run(schedule + tail[..n]), id) == RowOf(Run(schedule), id)
      {
        StandsSoFar(schedule, tail, n, id);
      }
    }
  }

  lemma StandingStep(schedule: seq<Label>, tail: seq<Label>, n: nat, id: Id)
    requires n < |tail| && id in Run(schedule).db.txs
    ensures RowOf(Run(schedule + tail[..n + 1]), id) != RowOf(Run(schedule + tail[..n]), id) <==>
              DecidesDifferently(Run(schedule + tail[..n]), tail[n], id)
  {
    hide Run, Core, Next, RowOf, DecidesDifferently, Evolves;
    assert schedule + tail[..n + 1] == schedule + tail[..n] + [tail[n]];
    RunStep(schedule + tail[..n], tail[n]);
    ReachableIsCore(schedule + tail[..n]);
    RowIsThere(schedule, tail[..n], id);
    RowChangesExactly(Run(schedule + tail[..n]), tail[n], id);
  }

  lemma RowIsThere(schedule: seq<Label>, tail: seq<Label>, id: Id)
    requires id in Run(schedule).db.txs
    ensures id in Run(schedule + tail).db.txs
  {
    hide Run;
    EvolvesAlong(schedule, tail);
  }

  lemma {:induction false} StandsSoFar(schedule: seq<Label>, tail: seq<Label>, n: nat, id: Id)
    requires id in Run(schedule).db.txs && LeftAsItWas(schedule, tail, id) && n <= |tail|
    ensures RowOf(Run(schedule + tail[..n]), id) == RowOf(Run(schedule), id)
  {
    hide Run, RowOf, DecidesDifferently;
    if n == 0 {
      assert schedule + tail[..0] == schedule;
    } else {
      StandsSoFar(schedule, tail, n - 1, id);
      StandingStep(schedule, tail, n - 1, id);
    }
  }

  /** A PROCESSED row is left alone and stands, or it is rejected for good. */
  lemma {:induction false} StandsOrIsRejected(schedule: seq<Label>, tail: seq<Label>, id: Id)
    requires IsProcessed(RowOf(Run(schedule), id))
    ensures if LeftAlone(schedule, tail, id) then RowOf(Run(schedule + tail), id) == RowOf(Run(schedule), id)
            else IsRejected(RowOf(Run(schedule + tail), id)) && HasEntry(Run(schedule + tail).db, id)
    decreases |tail|
  {
    hide Run, Core, Next, RowOf, DecidesAbout, IsProcessed, IsRejected, HasEntry, Evolves;
    if tail == [] {
      assert schedule + tail == schedule;
    } else {
      var n := |tail| - 1;
      var init := tail[..n];
      StandsOrIsRejected(schedule, init, id);
      assert schedule + tail == schedule + init + [tail[n]];
      ReachableIsCore(schedule + init);
      RunStep(schedule + init, tail[n]);
      LeftAloneStep(schedule, tail, id);
      OneStepMore(Run(schedule + init), tail[n], id, RowOf(Run(schedule), id), LeftAlone(schedule, init, id));
    }
  }

  lemma LeftAloneStep(schedule: seq<Label>, tail: seq<Label>, id: Id)
    requires tail != []
    ensures var init := tail[..|tail| - 1];
            LeftAlone(schedule, tail, id) <==>
              LeftAlone(schedule, init, id) && !DecidesAbout(Run(schedule + init), tail[|tail| - 1], id)
  {
    hide Run, DecidesAbout;
    var init := tail[..|tail| - 1];
    assert forall n :: 0 <= n < |init| ==> init[..n] == tail[..n] && init[n] == tail[n];
  }

  lemma OneStepMore(s: State, l: Label, id: Id, row: Option<Tx>, alone: bool)
    requires Core(s) && IsProcessed(row)
    requires if alone then RowOf(s, id) == row else IsRejected(RowOf(s, id)) && HasEntry(s.db, id)
    ensures if alone && !DecidesAbout(s, l, id) then RowOf(Next(s, l), id) == row
            else IsRejected(RowOf(Next(s, l), id)) && HasEntry(Next(s, l).db, id)
  {
    hide Core, Next, At, HasEntry, DecidesAbout, DecidesDifferently;
    StepWritesAsDecided(s, l, id);
    NextEvolves(s, l);
    if DecidesAbout(s, l, id) {
      if alone {
        ProcessedIsRejected(s, l, id);
      } else {
        StaysRejected(s, l, id);
      }
      HasEntryStays(s.db, Next(s, l).db, id);
    } else if !alone {
      HasEntryStays(s.db, Next(s, l).db, id);
    }
  }

  lemma StaysRejected(s: State, l: Label, id: Id)
    requires Core(s) && DecidesAbout(s, l, id) && id in s.db.txs && HasEntry(s.db, id)
    ensures IsRejected(RowOf(Next(s, l), id))
  {
    hide Core, Next, At, HasEntry;
    AtItsPoint(s, l.call);
    EnteredIsRejected(s, l.call, s.clients[l.call]);
    StepWritesAsDecided(s, l, id);
  }

  /** A PROCESSED row is the same after a tail if and only if no commit of the tail decides about it;
      once one has, the row is REJECTED for good, and its ledger entry stays. */
  lemma {:induction false} ProcessedRowsStandExactly(schedule: seq<Label>, tail: seq<Label>, id: Id)
    requires IsProcessed(RowOf(Run(schedule), id))
    ensures RowOf(Run(schedule + tail), id) == RowOf(Run(schedule), id) <==> LeftAlone(schedule, tail, id)
    ensures !LeftAlone(schedule, tail, id) ==>
              IsRejected(RowOf(Run(schedule + tail), id)) && HasEntry(Run(schedule + tail).db, id)
  {
    hide Run, RowOf, HasEntry, LeftAlone;
    StandsOrIsRejected(schedule, tail, id);
  }

  /** Where no commit finds its row PROCESSED, every PROCESSED row is left alone. */
  lemma {:induction false} SettledRunsLeaveAlone(schedule: seq<Label>, tail: seq<Label>, id: Id)
    requires SettledRun(schedule + tail) && IsProcessed(RowOf(Run(schedule), id))
    ensures LeftAlone(schedule, tail, id)
    decreases |tail|
  {
    hide Run, RowOf, DecidesAbout, Unsettles, IsProcessed;
    if tail != [] {
      var n := |tail| - 1;
      var before := schedule + tail[..n];
      assert schedule + tail == before + [tail[n]];
      SettledPrefix(schedule + tail, |before|);
      assert (schedule + tail)[..|before|] == before && (schedule + tail)[|before|] == tail[n];
      SettledRunsLeaveAlone(schedule, tail[..n], id);
      StandsOrIsRejected(schedule, tail[..n], id);
      LeftAloneStep(schedule, tail, id);
      DecidingUnsettles(Run(before), tail[n], id);
    }
  }

  lemma DecidingUnsettles(s: State, l: Label, id: Id)
    requires IsProcessed(RowOf(s, id))
    ensures DecidesAbout(s, l, id) ==> Unsettles(s, l)
  {
  }
}
