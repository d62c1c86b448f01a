/** Every state of a run in which no commit writes over a PROCESSED row is consistent, and what its
    calls have read is still so. */
module SettledTheorem {
  import opened Prelude
  import opened Moneys
  import opened Wagers
  import opened Tables
  import opened Decisions
  import opened Protocol
  import opened Integrity
  import opened Calls
  import opened CoreSteps
  import opened CoreCommits
  import opened CoreTheorem
  import opened Settlements
  import opened Readings
  import opened SettledCommits

  // ----- calls beginning -----

  lemma BeginSubmitIsStrong(s: State, call: Id, now: int, input: Input)
    requires call !in s.clients && NewTransaction(call, now, input).Ok?
    ensures var later := BeginSubmit(s, call, now, input); StrongAt(later, later.clients[call])
  {
    hide NewTransaction;
    CandidateIsPlain(call, now, input);
  }

  lemma CandidateIsPlain(call: Id, now: int, input: Input)
    requires NewTransaction(call, now, input).Ok?
    ensures var tx := NewTransaction(call, now, input).value; tx.referenceId.None? && tx.failure.None?
  {
  }

  lemma BeginDeliveryIsStrong(s: State, call: Id, now: int, delivery: Id)
    requires call !in s.clients && delivery in s.queue && s.queue[delivery].messageId != ""
    requires NewTransaction(call, now, s.queue[delivery].input).Ok?
    ensures var later := BeginDelivery(s, call, now, delivery); StrongAt(later, later.clients[call])
  {
    hide NewTransaction;
    CandidateIsPlain(call, now, s.queue[delivery].input);
  }

  lemma BeginResolveIsStrong(s: State, call: Id, id: Id, expired: bool)
    requires Consistent(s.db) && RowsOk(s.db)
    requires call !in s.clients && id in s.db.txs && s.db.txs[id].status == PendingReference
    ensures var later := BeginResolve(s, call, id, expired); StrongAt(later, later.clients[call])
  {
    hide ReferencesOk, EntriesSettle;
    assert StatusOk(s.db, s.db.txs[id]);
  }

  lemma EnqueueKeepsStrong(s: State, delivery: Id, message: Message)
    requires Strong(s)
    ensures Strong(Enqueue(s, delivery, message))
  {
    hide Consistent, StrongAt;
    var later := Enqueue(s, delivery, message);
    forall c | c in later.clients
      ensures StrongAt(later, later.clients[c])
    {
      SameDbStaysStrong(s, later, s.clients[c]);
    }
  }

  lemma CrashKeepsStrong(s: State, call: Id)
    requires Strong(s) && call in s.clients && Kept(s, Crash(s, call), call)
    ensures Strong(Crash(s, call))
  {
    hide Consistent, ClientOk, LocalTo, Plain, Aimed, DecidedCurrent, ReversalCurrent;
    LocalStepKeepsStrong(s, Crash(s, call), call);
  }

  // ----- opening a wallet, counting attempts -----

  lemma OpeningWritesSettle(db: Db, call: Id, now: int, playerId: Id, initialBalance: Money)
    requires call !in db.txs && call !in db.wallets && OpenWallet(call, now, playerId, initialBalance).Ok?
    ensures WritesSettle(db, OpenWallet(call, now, playerId, initialBalance).value)
  {
  }

  lemma OpeningIsAnnounced(db: Db, call: Id, now: int, playerId: Id, initialBalance: Money)
    requires call !in db.txs && OpenWallet(call, now, playerId, initialBalance).Ok?
    ensures AnnouncesOk(db, OpenWallet(call, now, playerId, initialBalance).value)
  {
    hide TerminalBodies, PendingCount, ExpectedBodies;
    var w := OpenWallet(call, now, playerId, initialBalance).value;
    if w.row.Some? {
      forall id: Id
        ensures TerminalBodies(w.events, id) == (if id == call then ExpectedBodies(w.row.value) else [])
                && PendingCount(w.events, id) == 0
      {
        MovementBodies(w.row.value, w.wallet.value, w.entry.value, call, id);
      }
    }
  }

  lemma EmptyOpeningStays(db: Db, later: Db)
    requires Consistent(db) && later == db.(wallets := later.wallets)
    requires forall w :: w in db.wallets ==> w in later.wallets && later.wallets[w] == db.wallets[w]
    ensures Consistent(later)
  {
    hide MovementDirection;
    assert StatusesOk(later);
    assert EntriesSettle(later) by {
      forall i | 0 <= i < |later.ledger|
        ensures EntrySettles(later, i)
      {
        assert EntrySettles(db, i);
      }
    }
  }

  lemma OpeningKeepsConsistent(db: Db, call: Id, now: int, playerId: Id, initialBalance: Money)
    requires SettledHaveEntries(db) && Consistent(db) && call !in db.txs && call !in db.wallets
    requires OpenWallet(call, now, playerId, initialBalance).Ok?
    requires Evolves(db, Apply(db, OpenWallet(call, now, playerId, initialBalance).value))
    ensures Consistent(Apply(db, OpenWallet(call, now, playerId, initialBalance).value))
  {
    hide Consistent, WritesSettle, OpenWallet, Evolves, Apply;
    var w := OpenWallet(call, now, playerId, initialBalance).value;
    OpeningWritesSettle(db, call, now, playerId, initialBalance);
    OpeningShape(call, now, playerId, initialBalance);
    if w.row.Some? {
      EvolvingCurrencies(db, Apply(db, w));
      WritesKeepConsistent(db, w);
    } else {
      EmptyOpening(db, call, now, playerId, initialBalance);
      EmptyOpeningStays(db, Apply(db, w));
    }
  }

  lemma EmptyOpening(db: Db, call: Id, now: int, playerId: Id, initialBalance: Money)
    requires call !in db.wallets && OpenWallet(call, now, playerId, initialBalance).Ok?
    requires OpenWallet(call, now, playerId, initialBalance).value.row.None?
    ensures var later := Apply(db, OpenWallet(call, now, playerId, initialBalance).value);
            && later == db.(wallets := later.wallets)
            && forall w :: w in db.wallets ==> w in later.wallets && later.wallets[w] == db.wallets[w]
  {
  }

  /** An opening writes no reversal, and no row anyone refers to. */
  lemma OpeningBystander(s: State, later: State, call: Id, k: Client)
    requires StrongAt(s, k) && call !in s.db.txs
    requires later.db.txs == s.db.txs
             || (exists t: Tx :: t.id == call && t.Kind() == Opening && later.db.txs == s.db.txs[call := t])
    requires forall w :: w in s.db.wallets ==> w in later.db.wallets && later.db.wallets[w] == s.db.wallets[w]
    ensures StrongAt(later, k)
  {
    hide WellFormed;
    assert forall r :: later.db.HasReversal(r) == s.db.HasReversal(r) by {
      forall r
        ensures later.db.HasReversal(r) == s.db.HasReversal(r)
      {
        assert forall id :: later.db.IsReversalOf(id, r) == s.db.IsReversalOf(id, r);
      }
    }
  }

  lemma OpeningTables(db: Db, call: Id, now: int, playerId: Id, initialBalance: Money)
    requires call !in db.txs && call !in db.wallets && OpenWallet(call, now, playerId, initialBalance).Ok?
    ensures var later := Apply(db, OpenWallet(call, now, playerId, initialBalance).value);
            && (later.txs == db.txs
                || (exists t: Tx :: t.id == call && t.Kind() == Opening && later.txs == db.txs[call := t]))
            && forall w :: w in db.wallets ==> w in later.wallets && later.wallets[w] == db.wallets[w]
  {
  }

  lemma OpenWalletKeepsStrong(s: State, call: Id, now: int, playerId: Id, initialBalance: Money)
    requires Core(s) && Strong(s)
    ensures Strong(BeginOpenWallet(s, call, now, playerId, initialBalance))
  {
    hide Sound, ClientsOk, IdsKnown, DeletedOk, WritesOk, OpenWallet, Evolves, Consistent, StrongAt, Apply;
    var later := BeginOpenWallet(s, call, now, playerId, initialBalance);
    if later != s {
      var w := OpenWallet(call, now, playerId, initialBalance).value;
      SoundParts(s.db);
      FreshIds(s, call);
      OpeningWritesOk(s.db, call, now, playerId, initialBalance);
      WritesKeepSound(s.db, w);
      OpeningKeepsConsistent(s.db, call, now, playerId, initialBalance);
      OpeningTables(s.db, call, now, playerId, initialBalance);
      forall c | c in later.clients
        ensures StrongAt(later, later.clients[c])
      {
        if c == call {
          AnsweredIsStrong(later, later.clients[call]);
        } else {
          OpeningBystander(s, later, call, s.clients[c]);
        }
      }
    }
  }

  lemma ScheduleKeepsStrong(s: State, call: Id, k: Client)
    requires Strong(s) && call in s.clients && s.clients[call] == k && k.pc == Schedule
    ensures Strong(StepSchedule(s, call, k))
  {
    hide Consistent, StrongAt;
    var later := StepSchedule(s, call, k);
    ConsistentIgnores(s.db, later.db);
    forall c | c in later.clients
      ensures StrongAt(later, later.clients[c])
    {
      if c == call {
        AnsweredIsStrong(later, later.clients[call]);
      } else {
        SameRowsStayStrong(s, later, s.clients[c]);
      }
    }
  }

  lemma DeleteKeepsStrong(s: State, call: Id, k: Client)
    requires Strong(s) && call in s.clients && s.clients[call] == k && k.pc == Delete
    ensures Strong(StepDelete(s, call, k))
  {
    hide Consistent, StrongAt;
    var later := StepDelete(s, call, k);
    forall c | c in later.clients
      ensures StrongAt(later, later.clients[c])
    {
      if c == call && k.origin.Sqs? {
        AnsweredIsStrong(later, later.clients[call]);
      } else {
        SameDbStaysStrong(s, later, s.clients[c]);
      }
    }
  }

  // ----- the theorem -----

  lemma AdvanceKeepsStrong(s: State, call: Id)
    requires Core(s) && Strong(s) && Core(Advance(s, call)) && !Unsettles(s, AdvanceCall(call))
    ensures Strong(Advance(s, call))
  {
    hide Sound, IdsKnown, DeletedOk, Consistent, StrongAt, ClientOk, LocalTo, StepInsertInbox, StepPreCheck,
      StepReadReference, StepReadLossWallet, StepLockWallet, StepCheckReversal, StepDecide, StepSave, StepReadBalance,
      StepCompleteInbox, StepCommit, StepLookup, StepReplayEntry, StepReplayWallet, StepDelete, StepSchedule;
    if call in s.clients {
      var k := s.clients[call];
      SoundParts(s.db);
      match k.pc {
        case Commit => CommitKeepsStrong(s, call, k);
        case Schedule => ScheduleKeepsStrong(s, call, k);
        case Delete => DeleteKeepsStrong(s, call, k);
        case Done =>
        case Dead =>
        case _ =>
          LocalAdvanceKept(s, call, k);
          QuietAdvanceIsStrong(s, call, k);
          LocalStepKeepsStrong(s, Advance(s, call), call);
      }
    }
  }

  lemma NextKeepsStrong(s: State, l: Label)
    requires Core(s) && Strong(s) && !Unsettles(s, l)
    ensures Strong(Next(s, l))
  {
    hide Sound, ClientOk, Consistent, LocalTo, StrongAt, Advance, Crash, BeginOpenWallet, Enqueue, NewTransaction,
      RowsOk, IndexOk, WalletsOk, LedgerOk, InboxOk;
    SoundParts(s.db);
    match l {
      case OpenWalletCall(call, now, playerId, initialBalance) =>
        OpenWalletKeepsStrong(s, call, now, playerId, initialBalance);
      case SendMessage(delivery, message) => EnqueueKeepsStrong(s, delivery, message);
      case AdvanceCall(call) =>
        AdvanceKeepsCore(s, call);
        AdvanceKeepsStrong(s, call);
      case CrashCall(call) => CrashStaysStrong(s, call);
      case SubmitCall(call, now, input) =>
        if BeginSubmit(s, call, now, input) != s {
          BeginSubmitKept(s, call, now, input);
          BeginSubmitIsStrong(s, call, now, input);
          LocalStepKeepsStrong(s, Next(s, l), call);
        }
      case DeliverCall(call, now, delivery) =>
        if BeginDelivery(s, call, now, delivery) != s {
          BeginDeliveryKept(s, call, now, delivery);
          BeginDeliveryIsStrong(s, call, now, delivery);
          LocalStepKeepsStrong(s, Next(s, l), call);
        }
      case ResolveCall(call, id, expired) =>
        if BeginResolve(s, call, id, expired) != s {
          BeginResolveKept(s, call, id, expired);
          BeginResolveIsStrong(s, call, id, expired);
          LocalStepKeepsStrong(s, Next(s, l), call);
        }
    }
  }

  lemma CrashStaysStrong(s: State, call: Id)
    requires Core(s) && Strong(s)
    ensures Strong(Crash(s, call))
  {
    hide Sound, ClientOk, Strong;
    if call in s.clients {
      CrashKept(s, call);
      CrashKeepsStrong(s, call);
    }
  }

  /** No commit of the schedule finds its row PROCESSED. */
  ghost predicate SettledRun(schedule: seq<Label>) {
    forall n :: 0 <= n < |schedule| ==> !Unsettles(Run(schedule[..n]), schedule[n])
  }

  lemma SettledPrefix(schedule: seq<Label>, n: nat)
    requires SettledRun(schedule) && n <= |schedule|
    ensures SettledRun(schedule[..n])
  {
    hide Run, Unsettles;
    var init := schedule[..n];
    forall m | 0 <= m < n
      ensures !Unsettles(Run(init[..m]), init[m])
    {
      assert init[..m] == schedule[..m] && init[m] == schedule[m];
    }
  }

  lemma InitIsStrong()
    ensures Strong(Init)
  {
  }

  lemma {:induction false} ReachableIsStrong(schedule: seq<Label>)
    requires SettledRun(schedule)
    ensures Strong(Run(schedule))
  {
    hide Strong, Core, Unsettles, Next;
    if schedule == [] {
      InitIsStrong();
    } else {
      var n := |schedule| - 1;
      SettledPrefix(schedule, n);
      ReachableIsStrong(schedule[..n]);
      ReachableIsCore(schedule[..n]);
      NextKeepsStrong(Run(schedule[..n]), schedule[n]);
    }
  }

  // ----- the stricter guard -----

  /** No commit of the schedule finds its row processed or rejected already. */
  ghost predicate GuardedRun(schedule: seq<Label>) {
    forall n :: 0 <= n < |schedule| ==> !Overwrites(Run(schedule[..n]), schedule[n])
  }

  lemma GuardedPrefix(schedule: seq<Label>, n: nat)
    requires GuardedRun(schedule) && n <= |schedule|
    ensures GuardedRun(schedule[..n])
  {
    hide Run, Overwrites;
    var init := schedule[..n];
    forall m | 0 <= m < n
      ensures !Overwrites(Run(init[..m]), init[m])
    {
      assert init[..m] == schedule[..m] && init[m] == schedule[m];
    }
  }

  lemma GuardedRunsAreSettled(schedule: seq<Label>)
    requires GuardedRun(schedule)
    ensures SettledRun(schedule)
  {
    hide Run;
  }
}
