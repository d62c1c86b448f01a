/** How one step, and a whole stretch of a run, may change the database and the wallet locks,
    however many resolvers there are. */
module Histories {
  import opened Prelude
  import opened Wagers
  import opened Tables
  import opened Decisions
  import opened Protocol
  import opened Integrity
  import opened Calls
  import opened CoreSteps
  import opened CoreCommits
  import opened CoreTheorem

  predicate Commits(s: State, l: Label) {
    l.AdvanceCall? && l.call in s.clients && s.clients[l.call].pc == Commit
  }

  predicate Opens(s: State, l: Label) {
    l.OpenWalletCall? && l.call !in s.clients
    && OpenWallet(l.call, l.now, l.playerId, l.initialBalance).Ok?
    && Next(s, l) != s
  }

  lemma RunStep(schedule: seq<Label>, l: Label)
    ensures Run(schedule + [l]) == Next(Run(schedule), l)
  {
    assert (schedule + [l])[..|schedule|] == schedule;
  }

  lemma AdvanceIsNext(s: State, call: Id)
    ensures Next(s, AdvanceCall(call)) == Advance(s, call)
  {
    hide Advance;
  }

  lemma CrashIsNext(s: State, call: Id)
    ensures Next(s, CrashCall(call)) == Crash(s, call)
  {
    hide Crash;
  }

  lemma AtItsPoint(s: State, c: Id)
    requires Core(s) && c in s.clients
    ensures At(s, c, s.clients[c], s.clients[c].pc)
  {
    hide Sound, IdsKnown, DeletedOk, ClientOk;
  }

  lemma CoreLedgerOk(s: State)
    requires Core(s)
    ensures LedgerOk(s.db)
  {
    hide ClientsOk, DeletedOk, RowsOk, IndexOk, WalletsOk, LedgerOk, EventsOk, InboxOk, IdsKnown, ReversalsOk,
      SettledHaveEntries;
  }

  // ----- what one step does to the tables -----

  /** Only a commit or the opening of a wallet changes the tables; a scheduled retry is counted. */
  lemma QuietStep(s: State, l: Label)
    requires Core(s) && !Commits(s, l) && !l.OpenWalletCall?
    ensures Next(s, l).db == s.db.(attempts := Next(s, l).db.attempts)
  {
    hide Sound, ClientOk, Kept, LocalTo, NewTransaction, RejectTx, RowsOk, IndexOk, WalletsOk, LedgerOk, Advance;
    match l {
      case AdvanceCall(call) => QuietAdvance(s, call);
      case _ =>
    }
  }

  lemma QuietAdvance(s: State, call: Id)
    requires Core(s) && (call in s.clients ==> s.clients[call].pc != Commit)
    ensures Advance(s, call).db == s.db.(attempts := Advance(s, call).db.attempts)
  {
    hide Sound, ClientOk, IdsKnown, DeletedOk, RowsOk, IndexOk, WalletsOk, LedgerOk, StepInsertInbox, StepPreCheck,
      StepReadReference, StepReadLossWallet, StepLockWallet, StepCheckReversal, StepDecide, StepSave, StepReadBalance,
      StepCompleteInbox, StepCommit, StepLookup, StepReplayEntry, StepReplayWallet;
    if call in s.clients {
      var k := s.clients[call];
      match k.pc {
        case Delete =>
        case Schedule =>
        case Done =>
        case Dead =>
        case _ =>
          SoundParts(s.db);
          LocalAdvanceKept(s, call, k);
      }
    }
  }

  lemma CommitStep(s: State, l: Label)
    requires Core(s) && Commits(s, l)
    ensures var k := s.clients[l.call];
            && Next(s, l) == StepCommit(s, l.call, k) && Next(s, l).db == Apply(s.db, Staged(k))
            && At(s, l.call, k, Commit) && WritesOk(s.db, Staged(k)) && Footprint(s, l.call, k, Staged(k))
            && Next(s, l).walletLocks == Release(s.walletLocks, l.call)
  {
    hide Sound, IdsKnown, DeletedOk, ClientOk, WritesOk, Footprint, StepCommit, RowsOk, IndexOk, WalletsOk, LedgerOk;
    var k := s.clients[l.call];
    SoundParts(s.db);
    CommitEffect(s, l.call, k);
    StagedWritesOk(s, l.call, k);
    CommitFootprint(s, l.call, k);
  }

  lemma OpenStep(s: State, l: Label)
    requires Core(s) && Opens(s, l)
    ensures var w := OpenWallet(l.call, l.now, l.playerId, l.initialBalance).value;
            && Next(s, l).db == Apply(s.db, w) && WritesOk(s.db, w)
            && l.call !in s.db.txs && l.call !in s.db.wallets
            && w.wallet.Some? && w.wallet.value.id == l.call
            && (w.row.Some? ==> w.row.value.id == l.call && w.row.value.Kind() == Opening)
            && (w.entry.Some? ==> w.entry.value.walletId == l.call)
            && Next(s, l).walletLocks == s.walletLocks
  {
    hide Sound, ClientsOk, DeletedOk, WritesOk, OpenWallet, IdsKnown, RowsOk, IndexOk, WalletsOk;
    SoundParts(s.db);
    FreshIds(s, l.call);
    OpeningShape(l.call, l.now, l.playerId, l.initialBalance);
    OpeningWritesOk(s.db, l.call, l.now, l.playerId, l.initialBalance);
  }

  lemma NextEvolves(s: State, l: Label)
    requires Core(s)
    ensures Evolves(s.db, Next(s, l).db)
  {
    hide Sound, ClientsOk, IdsKnown, DeletedOk, WritesOk, Footprint, At, Apply, Evolves, Next, OpenWallet;
    if Commits(s, l) {
      CommitStep(s, l);
      WritesKeepSound(s.db, Staged(s.clients[l.call]));
    } else if Opens(s, l) {
      OpenStep(s, l);
      WritesKeepSound(s.db, OpenWallet(l.call, l.now, l.playerId, l.initialBalance).value);
    } else if l.OpenWalletCall? {
      UnopenedStep(s, l);
      AttemptsAreIrrelevant(s.db, s.db);
    } else {
      QuietStep(s, l);
      AttemptsAreIrrelevant(s.db, Next(s, l).db);
    }
  }

  lemma UnopenedStep(s: State, l: Label)
    requires l.OpenWalletCall? && !Opens(s, l)
    ensures Next(s, l) == s
  {
    hide OpenWallet, Apply;
  }

  /** Whatever happens next, nothing committed is lost or rewritten. */
  lemma {:induction false} EvolvesAlong(schedule: seq<Label>, tail: seq<Label>)
    ensures Evolves(Run(schedule).db, Run(schedule + tail).db)
    decreases |tail|
  {
    hide Evolves, Core, Next;
    ReachableIsCore(schedule);
    if tail == [] {
      assert schedule + tail == schedule;
      NothingEvolves(Run(schedule).db);
    } else {
      var n := |tail| - 1;
      EvolvesAlong(schedule, tail[..n]);
      ReachableIsCore(schedule + tail[..n]);
      NextEvolves(Run(schedule + tail[..n]), tail[n]);
      assert schedule + tail == schedule + tail[..n] + [tail[n]];
      RunStep(schedule + tail[..n], tail[n]);
      EvolvesTransitive(Run(schedule).db, Run(schedule + tail[..n]).db, Run(schedule + tail).db);
    }
  }

  lemma NothingEvolves(db: Db)
    ensures Evolves(db, db)
  {
  }

  lemma RowIds(s: State)
    requires Core(s)
    ensures forall id :: id in s.db.txs ==> s.db.txs[id].id == id
  {
    hide IndexOk, WalletsOk, LedgerOk, EventsOk, InboxOk, ReversalsOk, SettledHaveEntries, IdsKnown, DeletedOk,
      ClientsOk, WellFormed;
  }

  // ----- whose step it is -----

  function Actor(l: Label): Option<Id> {
    match l
    case SendMessage(_, _) => None
    case OpenWalletCall(call, _, _, _) => Some(call)
    case SubmitCall(call, _, _) => Some(call)
    case DeliverCall(call, _, _) => Some(call)
    case ResolveCall(call, _, _) => Some(call)
    case AdvanceCall(call) => Some(call)
    case CrashCall(call) => Some(call)
  }

  /** A step changes no call but its own. */
  lemma OthersUntouched(s: State, l: Label, c: Id)
    requires Core(s) && c in s.clients && Actor(l) != Some(c)
    ensures c in Next(s, l).clients && Next(s, l).clients[c] == s.clients[c]
  {
    hide Sound, ClientOk, IdsKnown, DeletedOk, NewTransaction, OpenWallet, RejectTx, Apply, RowsOk, IndexOk, WalletsOk,
      LedgerOk, Advance;
    match l {
      case AdvanceCall(call) => OthersUntouchedByAdvance(s, call, c);
      case _ =>
    }
  }

  lemma OthersUntouchedByAdvance(s: State, call: Id, c: Id)
    requires Core(s) && c in s.clients && c != call
    ensures c in Advance(s, call).clients && Advance(s, call).clients[c] == s.clients[c]
  {
    hide Sound, ClientOk, IdsKnown, DeletedOk, RowsOk, IndexOk, WalletsOk, LedgerOk, StepInsertInbox, StepPreCheck,
      StepReadReference, StepReadLossWallet, StepLockWallet, StepCheckReversal, StepDecide, StepSave, StepReadBalance,
      StepCompleteInbox, StepCommit, StepLookup, StepReplayEntry, StepReplayWallet;
    if call in s.clients {
      var k := s.clients[call];
      match k.pc {
        case Commit => CommitEffect(s, call, k);
        case Delete =>
        case Schedule =>
        case Done =>
        case Dead =>
        case _ =>
          SoundParts(s.db);
          LocalAdvanceKept(s, call, k);
      }
    }
  }

  lemma AdvanceKeepsCalls(s: State, call: Id)
    requires Core(s)
    ensures Advance(s, call).clients.Keys == s.clients.Keys
  {
    hide Sound, ClientOk, IdsKnown, DeletedOk, RowsOk, IndexOk, WalletsOk, LedgerOk, StepInsertInbox, StepPreCheck,
      StepReadReference, StepReadLossWallet, StepLockWallet, StepCheckReversal, StepDecide, StepSave, StepReadBalance,
      StepCompleteInbox, StepCommit, StepLookup, StepReplayEntry, StepReplayWallet;
    if call in s.clients {
      var k := s.clients[call];
      match k.pc {
        case Commit => CommitEffect(s, call, k);
        case Delete =>
        case Schedule =>
        case Done =>
        case Dead =>
        case _ =>
          SoundParts(s.db);
          LocalAdvanceKept(s, call, k);
      }
    }
  }

  lemma CrashKeepsCalls(s: State, call: Id)
    ensures Crash(s, call).clients.Keys == s.clients.Keys
  {
  }

  /** A delivery reads wallets inside its transaction: where somebody else holds the wallet it waits, and where
      nobody does it goes on holding it, unless it ends. */
  lemma DeliveriesReadUnderLock(s: State, call: Id)
    requires call in s.clients && s.clients[call].origin.Sqs? && s.clients[call].tx.WalletId() in s.db.wallets
    requires var pc := s.clients[call].pc; pc == ReadLossWallet || pc == ReadBalance || pc == ReplayWallet
    ensures var w, later := s.clients[call].tx.WalletId(), Next(s, AdvanceCall(call));
            if w in s.walletLocks && s.walletLocks[w] != call then later == s
            else call in later.clients && (later.clients[call].pc == Done || HeldBy(later, w, call))
  {
    hide FinishLoss, Release, FreshAnswer, StepInsertInbox, StepPreCheck, StepReadReference, StepLockWallet,
      StepCheckReversal, StepDecide, StepSave, StepCompleteInbox, StepCommit, StepLookup, StepReplayEntry, StepDelete,
      StepSchedule;
    AdvanceIsNext(s, call);
  }

  /** A call that crashes leaves tables, queue and everybody else's call and locks as they are, and none of its
      own locks. */
  lemma CrashFreesItsLocks(s: State, call: Id)
    requires call in s.clients && s.clients[call].pc != Done
    ensures var later := Next(s, CrashCall(call));
            && later.db == s.db && later.queue == s.queue && later.deleted == s.deleted
            && later.clients == s.clients[call := s.clients[call].(pc := Dead, answer := None)]
            && (forall w :: w in later.walletLocks <==> w in s.walletLocks && s.walletLocks[w] != call)
            && (forall w :: w in later.walletLocks ==> later.walletLocks[w] == s.walletLocks[w])
            && (forall key :: key in later.keyLocks <==> key in s.keyLocks && s.keyLocks[key] != call)
            && (forall key :: key in later.keyLocks ==> later.keyLocks[key] == s.keyLocks[key])
  {
    assert Next(s, CrashCall(call)) == Crash(s, call);
  }

  /** A call that has begun does not begin again. */
  lemma BegunCallsOnlyAdvance(s: State, l: Label, c: Id)
    requires c in s.clients && Actor(l) == Some(c) && !l.AdvanceCall? && !l.CrashCall?
    ensures Next(s, l) == s
  {
    hide NewTransaction, OpenWallet, RejectTx, Apply;
  }

  // ----- what one step does to one wallet -----

  /** A wallet's row and its ledger, together. */
  predicate SameWallet(db: Db, later: Db, w: Id) {
    && w in db.wallets && w in later.wallets && later.wallets[w] == db.wallets[w]
    && LedgerOf(later.ledger, w) == LedgerOf(db.ledger, w)
  }

  predicate HeldBy(s: State, w: Id, call: Id) {
    w in s.walletLocks && s.walletLocks[w] == call
  }

  /** Only the call that holds a wallet's lock changes its row or its ledger, and it does so by
      committing, which gives the lock up. */
  lemma OnlyTheHolderMovesAWallet(s: State, l: Label, w: Id)
    requires Core(s) && w in s.db.wallets
    ensures SameWallet(s.db, Next(s, l).db, w)
            || (Commits(s, l) && HeldBy(s, w, l.call) && w !in Next(s, l).walletLocks)
  {
    hide Sound, ClientsOk, DeletedOk, WritesOk, At, Next, IdsKnown, OpenWallet, StepCommit;
    if Commits(s, l) {
      CommitStep(s, l);
      CommittedWallet(s, Next(s, l), l.call, s.clients[l.call], Staged(s.clients[l.call]), w);
    } else if Opens(s, l) {
      OpenStep(s, l);
      OpenedWallet(s, Next(s, l), l.call, OpenWallet(l.call, l.now, l.playerId, l.initialBalance).value, w);
    } else if l.OpenWalletCall? {
      UnopenedStep(s, l);
    } else {
      QuietStep(s, l);
    }
  }

  lemma CommittedWallet(s: State, later: State, call: Id, k: Client, w: Writes, walletId: Id)
    requires Footprint(s, call, k, w) && later.db == Apply(s.db, w) && walletId in s.db.wallets
    requires later.walletLocks == Release(s.walletLocks, call)
    ensures SameWallet(s.db, later.db, walletId) || (HeldBy(s, walletId, call) && walletId !in later.walletLocks)
  {
    if w.entry.Some? {
      LedgerOfAppend(s.db.ledger, w.entry.value, walletId);
    }
  }

  lemma OpenedWallet(s: State, later: State, call: Id, w: Writes, walletId: Id)
    requires later.db == Apply(s.db, w) && walletId in s.db.wallets && call !in s.db.wallets
    requires w.wallet.Some? && w.wallet.value.id == call && (w.entry.Some? ==> w.entry.value.walletId == call)
    ensures SameWallet(s.db, later.db, walletId)
  {
    if w.entry.Some? {
      LedgerOfAppend(s.db.ledger, w.entry.value, walletId);
    }
  }

  // ----- lock refinement -----

  /** The call holds the wallet's lock at every moment of the stretch. */
  ghost predicate HeldThroughout(schedule: seq<Label>, tail: seq<Label>, w: Id, call: Id) {
    forall n :: 0 <= n <= |tail| ==> HeldBy(Run(schedule + tail[..n]), w, call)
  }

  /** While a call holds a wallet's lock, however long and whatever the others do, the committed
      wallet and its ledger stand still. */
  lemma {:induction false} HeldWalletStandsStill(schedule: seq<Label>, tail: seq<Label>, w: Id, call: Id)
    requires HeldThroughout(schedule, tail, w, call)
    ensures SameWallet(Run(schedule).db, Run(schedule + tail).db, w)
    decreases |tail|
  {
    hide Core, Next, SameWallet, HeldBy;
    ReachableIsCore(schedule);
    assert schedule + tail[..0] == schedule;
    HeldWalletExists(Run(schedule), w, call);
    if tail == [] {
      assert schedule + tail == schedule;
    } else {
      var n := |tail| - 1;
      var init := tail[..n];
      forall m | 0 <= m <= n
        ensures HeldBy(Run(schedule + init[..m]), w, call)
      {
        assert init[..m] == tail[..m];
      }
      HeldWalletStandsStill(schedule, init, w, call);
      ReachableIsCore(schedule + init);
      assert schedule + tail == schedule + init + [tail[n]];
      RunStep(schedule + init, tail[n]);
      assert tail[..n + 1] == tail;
      HeldStep(Run(schedule + init), tail[n], w, call);
      SameWalletTransitive(Run(schedule).db, Run(schedule + init).db, Run(schedule + tail).db, w);
    }
  }

  lemma HeldWalletExists(s: State, w: Id, call: Id)
    requires Core(s) && HeldBy(s, w, call)
    ensures SameWallet(s.db, s.db, w)
  {
    hide Sound, ClientsOk, DeletedOk;
  }

  lemma SameWalletTransitive(a: Db, b: Db, c: Db, w: Id)
    requires SameWallet(a, b, w) && SameWallet(b, c, w)
    ensures SameWallet(a, c, w)
  {
  }

  lemma HeldStep(s: State, l: Label, w: Id, call: Id)
    requires Core(s) && HeldBy(s, w, call) && HeldBy(Next(s, l), w, call)
    ensures SameWallet(s.db, Next(s, l).db, w)
  {
    hide Sound, ClientsOk, DeletedOk, Next, IdsKnown;
    HeldWalletExists(s, w, call);
    OnlyTheHolderMovesAWallet(s, l, w);
  }
}
