/** Giving a parked reversal up, in runs of the protocol: a resolver's uninterrupted attempt does there
    what the resolver's program does, so the bound on its attempts holds along any run. */
module ResolverRuns {
  import opened Prelude
  import opened Wallets
  import opened Wagers
  import opened Tables
  import opened Decisions
  import opened Protocol
  import opened Integrity
  import opened Calls
  import opened CoreSteps
  import opened CoreCommits
  import opened CoreTheorem
  import opened Settlements
  import opened Histories
  import opened Standing
  import opened Serializability
  import opened Solo
  import opened Resolvers

  // ----- one attempt -----

  /** An attempt with nobody in between: taken up, and counted, or saved, committed and answered. */
  function AttemptLabels(call: Id, id: Id, expired: bool): seq<Label> {
    [ResolveCall(call, id, expired), AdvanceCall(call), AdvanceCall(call)] + if expired then [AdvanceCall(call)] else []
  }

  function DeskAt(s: State): Desk {
    Desk(s.db, map[])
  }

  function TakenUp(tx: Tx, call: Id, expired: bool): Client {
    if expired then
      var d := Decision(GivenUp(tx), RowWithEvent(GivenUp(tx), RejectedEvent(GivenUp(tx), call)), None);
      Start(Resolver, Save, tx).(decision := Some(d), via := Protocol.Expired)
    else Start(Resolver, ReadReference, tx)
  }

  lemma TakesItUp(s: State, call: Id, id: Id, expired: bool)
    requires Waiting(DeskAt(s), id) && call !in s.clients
    ensures Next(s, ResolveCall(call, id, expired)) == Put(s, call, TakenUp(s.db.txs[id], call, expired))
  {
    assert Next(s, ResolveCall(call, id, expired)) == BeginResolve(s, call, id, expired);
  }

  /** The reference is missing: the call goes on to count the attempt. */
  lemma FindsNoReference(s: State, call: Id, id: Id)
    requires Waiting(DeskAt(s), id)
    ensures var k := TakenUp(s.db.txs[id], call, false);
            Advance(Put(s, call, k), call) == Put(s, call, k.(pc := Schedule))
  {
    var k := TakenUp(s.db.txs[id], call, false);
    assert Advance(Put(s, call, k), call) == StepReadReference(Put(s, call, k), call, k);
  }

  lemma CountsTheAttempt(s: State, call: Id, id: Id)
    requires Waiting(DeskAt(s), id)
    ensures var k := TakenUp(s.db.txs[id], call, false).(pc := Schedule);
            Advance(Put(s, call, k), call).db == s.db.(attempts := s.db.attempts[id := s.db.attempts[id] + 1])
  {
    var k := TakenUp(s.db.txs[id], call, false).(pc := Schedule);
    assert Advance(Put(s, call, k), call) == StepSchedule(Put(s, call, k), call, k);
  }

  lemma SavesTheRejection(s: State, call: Id, id: Id)
    requires Waiting(DeskAt(s), id)
    ensures var k := TakenUp(s.db.txs[id], call, true);
            Advance(Put(s, call, k), call) == Put(s, call, k.(pc := Commit))
  {
    var k := TakenUp(s.db.txs[id], call, true);
    assert Advance(Put(s, call, k), call) == StepSave(Put(s, call, k), call, k);
  }

  /** What the rejection leaves of the tables. */
  function Rejecting(db: Db, id: Id, call: Id): Db
    requires id in db.txs
  {
    db.(txs := db.txs[id := GivenUp(db.txs[id])], events := db.events + [RejectedEvent(GivenUp(db.txs[id]), call)])
  }

  predicate BooksTheRejection(s: State, later: State, call: Id, id: Id) {
    && id in s.db.txs && later.db == Rejecting(s.db, id, call)
    && call in later.clients && later.clients[call].pc == ReadBalance && later.clients[call].origin == Resolver
  }

  lemma CommitsTheRejection(s: State, call: Id, id: Id)
    requires Waiting(DeskAt(s), id)
    ensures BooksTheRejection(s, Advance(Put(s, call, TakenUp(s.db.txs[id], call, true).(pc := Commit)), call), call,
                              id)
  {
    hide Release;
    var k := TakenUp(s.db.txs[id], call, true).(pc := Commit);
    assert Advance(Put(s, call, k), call) == StepCommit(Put(s, call, k), call, k);
    assert Apply(s.db, Staged(k)) == Rejecting(s.db, id, call);
  }

  lemma AnswersOnly(s: State, call: Id)
    requires call in s.clients && s.clients[call].pc == ReadBalance && s.clients[call].origin == Resolver
    ensures Advance(s, call).db == s.db
  {
    hide Release, FreshAnswer;
    assert Advance(s, call) == StepReadBalance(s, call, s.clients[call]);
  }

  /** The desk after an uninterrupted attempt is the one the resolver's program leaves. */
  lemma {:induction false} AttemptsAgree(schedule: seq<Label>, config: Config, now: int, id: Id, call: Id)
    requires Waiting(DeskAt(Run(schedule)), id) && call !in Run(schedule).clients
    ensures var desk := DeskAt(Run(schedule));
            var item := ItemOf(desk, id);
            Run(schedule + AttemptLabels(call, id, Resolvers.Expired(config, now, item))).db ==
            Resolved(desk, config, now, item, call).0.db
  {
    hide Run, Next, Advance, Waiting, Resolved, TakenUp;
    var s := Run(schedule);
    WaitingRow(DeskAt(s), id);
    var item := ItemOf(DeskAt(s), id);
    var labels := AttemptLabels(call, id, Resolvers.Expired(config, now, item));
    WaitingAttempt(DeskAt(s), config, now, id, call);
    FirstThree(schedule, call, id, Resolvers.Expired(config, now, item));
    TakesItUp(s, call, id, Resolvers.Expired(config, now, item));
    if Resolvers.Expired(config, now, item) {
      SavesTheRejection(s, call, id);
      CommitsTheRejection(s, call, id);
      FourthLabel(schedule, call, id);
      AnswersOnly(Run(schedule + labels[..3]), call);
    } else {
      FindsNoReference(s, call, id);
      CountsTheAttempt(s, call, id);
      assert labels[..3] == labels;
    }
  }

  lemma WaitingRow(desk: Desk, id: Id)
    requires Waiting(desk, id)
    ensures id in desk.db.txs && id in desk.db.attempts
  {
  }

  lemma {:induction false} FirstThree(schedule: seq<Label>, call: Id, id: Id, expired: bool)
    ensures var s := Next(Run(schedule), ResolveCall(call, id, expired));
            Run(schedule + AttemptLabels(call, id, expired)[..3]) == Advance(Advance(s, call), call)
  {
    hide Run, Next, Advance;
    var a, b := schedule + [ResolveCall(call, id, expired)],
                schedule + [ResolveCall(call, id, expired)] + [AdvanceCall(call)];
    RunStep(schedule, ResolveCall(call, id, expired));
    RunStep(a, AdvanceCall(call));
    RunStep(b, AdvanceCall(call));
    AdvanceIsNext(Run(a), call);
    AdvanceIsNext(Run(b), call);
    assert schedule + AttemptLabels(call, id, expired)[..3] == b + [AdvanceCall(call)];
  }

  lemma {:induction false} FourthLabel(schedule: seq<Label>, call: Id, id: Id)
    ensures var labels := AttemptLabels(call, id, true);
            Run(schedule + labels) == Advance(Run(schedule + labels[..3]), call)
  {
    hide Run, Next, Advance;
    var labels := AttemptLabels(call, id, true);
    assert schedule + labels == schedule + labels[..3] + [AdvanceCall(call)];
    RunStep(schedule + labels[..3], AdvanceCall(call));
    AdvanceIsNext(Run(schedule + labels[..3]), call);
  }

  // ----- an attempt at any parked row -----

  /** A parked row that has no entry, and a call that can take it up: nobody holds what it will need. */
  predicate TakesUp(s: State, id: Id, call: Id) {
    && StillParked(DeskAt(s), id) && s.db.txs[id].id == id && s.db.txs[id].Kind().IsReversal()
    && s.db.txs[id].payload.referenceExternalId.Some?
    && s.db.txs[id].WalletId() in s.db.wallets && NoEntryFor(s.db, id)
    && call !in s.clients
    && Free(s.walletLocks, s.db.txs[id].WalletId(), call) && Free(s.keyLocks, s.db.txs[id].key, call)
  }

  lemma Begins(s: State, id: Id, call: Id, expired: bool)
    requires TakesUp(s, id, call)
    ensures Next(s, ResolveCall(call, id, expired)) == Put(s, call, TakenUp(s.db.txs[id], call, expired))
  {
    assert Next(s, ResolveCall(call, id, expired)) == BeginResolve(s, call, id, expired);
  }

  /** What the resolver's program leaves of the tables when its attempt does not park the row again. */
  lemma ProgramDecides(s: State, config: Config, now: int, id: Id, call: Id)
    requires TakesUp(s, id, call) && !Resolvers.Expired(config, now, ItemOf(DeskAt(s), id))
    requires !StillMissing(s, TakenUp(s.db.txs[id], call, false))
    ensures Resolved(DeskAt(s), config, now, ItemOf(DeskAt(s), id), call).0.db ==
            DbAfter(s.db, TakenUp(s.db.txs[id], call, false), ProcessAlone(s.db, s.db.txs[id], call))
  {
    hide ProcessAlone, Apply, Backoff.BackoffDelay, StillMissing;
    var tx := s.db.txs[id];
    if ProcessAlone(s.db, tx, call).Ok? {
      AttemptDecides(s.db, tx, call);
      DecidesARow(s, tx, call);
      OwnEntry(s.db, tx, call);
    }
  }

  lemma DecidesARow(s: State, tx: Tx, call: Id)
    requires tx.status == PendingReference && tx.Kind().IsReversal() && tx.payload.referenceExternalId.Some?
    requires ProcessAlone(s.db, tx, call).Ok? && !StillMissing(s, TakenUp(tx, call, false))
    ensures ProcessAlone(s.db, tx, call).value.writes.row.Some?
  {
    hide NewLedgerEntry;
  }

  lemma OwnEntry(db: Db, tx: Tx, call: Id)
    requires tx.status == PendingReference && ProcessAlone(db, tx, call).Ok? && NoEntryFor(db, tx.id)
    ensures var w := ProcessAlone(db, tx, call).value.writes; !EntryCollides(db, w) && w.inbox.None?
  {
    hide NewLedgerEntry;
  }

  lemma ProgramGivesUp(s: State, config: Config, now: int, id: Id, call: Id)
    requires TakesUp(s, id, call) && Resolvers.Expired(config, now, ItemOf(DeskAt(s), id))
    ensures var k := TakenUp(s.db.txs[id], call, true);
            Resolved(DeskAt(s), config, now, ItemOf(DeskAt(s), id), call).0.db ==
            Written(s.db, k, k.decision.value)
  {
    hide Apply;
    var k := TakenUp(s.db.txs[id], call, true);
    assert k.decision.value.writes.(inbox := None) == k.decision.value.writes;
  }

  /** An attempt at a row without an entry, whatever its outcome. */
  lemma {:induction false} AttemptAgrees(s: State, config: Config, now: int, id: Id, call: Id) returns (n: nat)
    requires TakesUp(s, id, call)
    ensures var item := ItemOf(DeskAt(s), id);
            AdvanceTimes(Next(s, ResolveCall(call, id, Resolvers.Expired(config, now, item))), call, n).db ==
            Resolved(DeskAt(s), config, now, item, call).0.db
  {
    hide Next, Advance, Resolved, TakenUp, ProcessAlone, Written, DbAfter, Apply, NoEntryFor, Release, StillMissing;
    var item := ItemOf(DeskAt(s), id);
    var expired := Resolvers.Expired(config, now, item);
    var k := TakenUp(item.tx, call, expired);
    var begun := Put(s, call, k);
    Begins(s, id, call, expired);
    StandsAtFirst(begun, call);
    if expired {
      ProgramGivesUp(s, config, now, id, call);
      n := GivesUpAlone(s, id, call);
    } else if StillMissing(begun, k) {
      n := 2;
      MissingIsWaiting(s, id, call);
      CountsAlone(s, config, now, id, call);
    } else {
      StillMissingInTables(s, begun, k);
      ProgramDecides(s, config, now, id, call);
      n := DecidesAlone(s, id, call);
    }
  }

  /** In every run: an attempt of the protocol at a parked row, interrupted by nobody, leaves the tables as the
      resolver's program does, whatever comes of it: given up, parked again, rejected, or settled at last. */
  lemma {:induction false} ResolverAndProtocolAgree(schedule: seq<Label>, config: Config, now: int, id: Id, call: Id)
    returns (n: nat)
    requires StillParked(DeskAt(Run(schedule)), id) && call !in Run(schedule).clients
    requires var s := Run(schedule);
             Free(s.walletLocks, s.db.txs[id].WalletId(), call) && Free(s.keyLocks, s.db.txs[id].key, call)
    ensures var item := ItemOf(DeskAt(Run(schedule)), id);
            var begun := Run(schedule + [ResolveCall(call, id, Resolvers.Expired(config, now, item))]);
            AdvanceTimes(begun, call, n).db == Resolved(DeskAt(Run(schedule)), config, now, item, call).0.db
  {
    hide Run, Next, Core, AdvanceTimes, Resolved;
    var item := ItemOf(DeskAt(Run(schedule)), id);
    RunStep(schedule, ResolveCall(call, id, Resolvers.Expired(config, now, item)));
    ReachableIsCore(schedule);
    ParkedIsReady(Run(schedule), id);
    if HasEntry(Run(schedule).db, id) {
      EnteredRowsAreDecided(schedule, id);
    }
    n := AttemptAgrees(Run(schedule), config, now, id, call);
  }

  lemma ParkedIsReady(s: State, id: Id)
    requires Core(s) && StillParked(DeskAt(s), id)
    ensures var t := s.db.txs[id];
            t.id == id && t.Kind().IsReversal() && t.payload.referenceExternalId.Some? && t.WalletId() in s.db.wallets
  {
    hide IndexOk, WalletsOk, LedgerOk, EventsOk, InboxOk, ReversalsOk, SettledHaveEntries, ClientsOk, DeletedOk;
  }

  lemma StillMissingInTables(s: State, t: State, k: Client)
    requires t.db == s.db
    ensures StillMissing(t, k) == StillMissing(s, k)
  {
  }

  lemma {:induction false} DecidesAlone(s: State, id: Id, call: Id) returns (n: nat)
    requires TakesUp(s, id, call) && !StillMissing(s, TakenUp(s.db.txs[id], call, false))
    ensures var k := TakenUp(s.db.txs[id], call, false);
            AdvanceTimes(Put(s, call, k), call, n).db == DbAfter(s.db, k, ProcessAlone(s.db, s.db.txs[id], call))
  {
    hide Advance, AdvanceTimes, ProcessAlone, DbAfter, NoEntryFor, Release, StillMissing, AnswerAfter;
    var k := TakenUp(s.db.txs[id], call, false);
    var begun := Put(s, call, k);
    StandsAtFirst(begun, call);
    StillMissingInTables(s, begun, k);
    n := ProcessesAlone(begun, 0, call, k);
  }

  lemma {:induction false} GivesUpAlone(s: State, id: Id, call: Id) returns (n: nat)
    requires TakesUp(s, id, call)
    ensures var k := TakenUp(s.db.txs[id], call, true);
            AdvanceTimes(Put(s, call, k), call, n).db == Written(s.db, k, k.decision.value)
  {
    hide Advance, AdvanceTimes, Written, NoEntryFor, Release;
    var k := TakenUp(s.db.txs[id], call, true);
    var begun := Put(s, call, k);
    StandsAtFirst(begun, call);
    n := FromSave(begun, 0, call, k, k.decision.value);
  }

  lemma MissingIsWaiting(s: State, id: Id, call: Id)
    requires TakesUp(s, id, call)
    requires var k := TakenUp(s.db.txs[id], call, false); StillMissing(Put(s, call, k), k)
    ensures Waiting(DeskAt(s), id)
  {
  }

  lemma CountsAlone(s: State, config: Config, now: int, id: Id, call: Id)
    requires TakesUp(s, id, call) && Waiting(DeskAt(s), id)
    requires !Resolvers.Expired(config, now, ItemOf(DeskAt(s), id))
    ensures var k := TakenUp(s.db.txs[id], call, false);
            AdvanceTimes(Put(s, call, k), call, 2).db ==
            Resolved(DeskAt(s), config, now, ItemOf(DeskAt(s), id), call).0.db
  {
    hide Advance, Resolved, TakenUp, NoEntryFor;
    var k := TakenUp(s.db.txs[id], call, false);
    var begun := Put(s, call, k);
    WaitingAttempt(DeskAt(s), config, now, id, call);
    FindsNoReference(s, call, id);
    CountsTheAttempt(s, call, id);
    assert AdvanceTimes(begun, call, 1) == Advance(AdvanceTimes(begun, call, 0), call);
    assert AdvanceTimes(begun, call, 2) == Advance(AdvanceTimes(begun, call, 1), call);
  }

  // ----- what the count counts -----

  /** The step counts an attempt at this row: a resolver that found its reference missing, while it is parked. */
  predicate CountsATry(s: State, l: Label, id: Id) {
    && l.AdvanceCall? && l.call in s.clients && s.clients[l.call].pc == Schedule && s.clients[l.call].tx.id == id
    && id in s.db.txs && s.db.txs[id].status == PendingReference
  }

  function Tries(schedule: seq<Label>, id: Id): nat {
    if schedule == [] then 0
    else
      var n := |schedule| - 1;
      Tries(schedule[..n], id) + if CountsATry(Run(schedule[..n]), schedule[n], id) then 1 else 0
  }

  /** A row's count, or nothing yet. */
  function TriesOf(db: Db, id: Id): nat {
    if id in db.txs && id in db.attempts then db.attempts[id] else 0
  }

  lemma QuietTries(s: State, l: Label, id: Id)
    requires Core(s) && l.AdvanceCall? && !Histories.Commits(s, l)
    ensures TriesOf(Next(s, l).db, id) == TriesOf(s.db, id) + if CountsATry(s, l, id) then 1 else 0
  {
    hide Sound, ClientOk, IdsKnown, DeletedOk, RowsOk, IndexOk, WalletsOk, LedgerOk, StepInsertInbox, StepPreCheck,
      StepReadReference, StepReadLossWallet, StepLockWallet, StepCheckReversal, StepDecide, StepSave, StepReadBalance,
      StepCompleteInbox, StepCommit, StepLookup, StepReplayEntry, StepReplayWallet;
    var call := l.call;
    AdvanceIsNext(s, call);
    if call in s.clients {
      var k := s.clients[call];
      match k.pc {
        case Schedule => ScheduleTries(s, call, k, id);
        case Delete =>
        case Done =>
        case Dead =>
        case _ =>
          SoundParts(s.db);
          LocalAdvanceKept(s, call, k);
      }
    }
  }

  lemma ScheduleTries(s: State, call: Id, k: Client, id: Id)
    requires IdsKnown(s) && call in s.clients && s.clients[call] == k && k.pc == Schedule
    ensures TriesOf(StepSchedule(s, call, k).db, id) ==
            TriesOf(s.db, id) + if CountsATry(s, AdvanceCall(call), id) then 1 else 0
  {
  }

  /** Writing a row leaves its count, and a new one starts from nothing. */
  lemma WritingKeepsTries(db: Db, w: Writes, id: Id)
    requires db.attempts.Keys == db.txs.Keys
    ensures TriesOf(Apply(db, w), id) == TriesOf(db, id)
  {
  }

  lemma TriesStep(s: State, l: Label, id: Id)
    requires Core(s)
    ensures TriesOf(Next(s, l).db, id) == TriesOf(s.db, id) + if CountsATry(s, l, id) then 1 else 0
  {
    hide Core, Next, Apply, TriesOf, At, WritesOk, Footprint, OpenWallet;
    AttemptsKnown(s);
    if Histories.Commits(s, l) {
      CommitStep(s, l);
      WritingKeepsTries(s.db, Staged(s.clients[l.call]), id);
    } else if Opens(s, l) {
      OpenStep(s, l);
      WritingKeepsTries(s.db, OpenWallet(l.call, l.now, l.playerId, l.initialBalance).value, id);
    } else if l.OpenWalletCall? {
      UnopenedStep(s, l);
    } else if l.AdvanceCall? {
      QuietTries(s, l, id);
    } else {
      BeginningsLeaveTables(s, l);
    }
  }

  lemma AttemptsKnown(s: State)
    requires Core(s)
    ensures s.db.attempts.Keys == s.db.txs.Keys
  {
    hide Sound, ClientsOk, DeletedOk;
  }

  lemma BeginningsLeaveTables(s: State, l: Label)
    requires !l.AdvanceCall? && !l.OpenWalletCall?
    ensures Next(s, l).db == s.db
  {
    hide NewTransaction, RejectTx, Release;
  }

  /** In every run the count of a row is the number of attempts that found its reference missing: a new row
      starts from nothing, and nothing else counts. */
  lemma {:induction false} AttemptsAreCounted(schedule: seq<Label>, id: Id)
    ensures TriesOf(Run(schedule).db, id) == Tries(schedule, id)
    ensures id in Run(schedule).db.txs ==> id in Run(schedule).db.attempts
  {
    hide Core, Next, TriesOf, CountsATry;
    ReachableIsCore(schedule);
    AttemptsKnown(Run(schedule));
    if schedule == [] {
      assert TriesOf(EmptyDb, id) == 0 by { NoTries(id); }
    } else {
      var n := |schedule| - 1;
      AttemptsAreCounted(schedule[..n], id);
      ReachableIsCore(schedule[..n]);
      TriesStep(Run(schedule[..n]), schedule[n], id);
    }
  }

  lemma NoTries(id: Id)
    ensures TriesOf(EmptyDb, id) == 0
  {
  }

  // ----- attempts along a run -----

  /** An attempt begun after this much of the run, at this time. */
  datatype Attempt = Attempt(start: seq<Label>, now: int)

  /** The run once the attempt is over; a row that is no longer parked is not taken up. */
  function EndOf(config: Config, a: Attempt, id: Id, call: Id): seq<Label> {
    var desk := DeskAt(Run(a.start));
    if StillParked(desk, id)
    then a.start + AttemptLabels(call, id, Resolvers.Expired(config, a.now, ItemOf(desk, id)))
    else a.start
  }

  function RoundOf(a: Attempt): Round {
    Round(DeskAt(Run(a.start)), a.now)
  }

  function RoundsOf(attempts: seq<Attempt>): seq<Round> {
    seq(|attempts|, i requires 0 <= i < |attempts| => RoundOf(attempts[i]))
  }

  /** The attempts follow each other along one run: each begins where the run has come to some time after
      the last one, whatever everybody did in between, as long as they left this row alone. */
  ghost predicate AlongARun(config: Config, attempts: seq<Attempt>, id: Id, first: Id) {
    && (forall i :: 0 <= i < |attempts| ==> first + i !in Run(attempts[i].start).clients)
    && (forall i :: 0 < i < |attempts| ==>
          Continues(EndOf(config, attempts[i - 1], id, first + i - 1), attempts[i].start, id))
  }

  predicate Continues(end: seq<Label>, start: seq<Label>, id: Id) {
    end <= start && Spared(Run(end).db, Run(start).db, id)
  }

  /** A parked row of a reachable state waits, if its reference is missing. */
  lemma ParkedIsWaiting(s: State, id: Id)
    requires Core(s) && StillParked(DeskAt(s), id)
    requires var t := s.db.txs[id];
             t.payload.referenceExternalId.Some? ==>
               s.db.FindByKey(Key(t.key.providerId, t.payload.referenceExternalId.value)).None?
    ensures Waiting(DeskAt(s), id)
  {
    hide IndexOk, WalletsOk, LedgerOk, EventsOk, InboxOk, ReversalsOk, SettledHaveEntries, ClientsOk, DeletedOk;
  }

  lemma SparedIsMissing(db: Db, later: Db, id: Id)
    requires Spared(db, later, id)
    ensures id in later.txs
    ensures var t := later.txs[id];
            t.payload.referenceExternalId.Some? ==>
              later.FindByKey(Key(t.key.providerId, t.payload.referenceExternalId.value)).None?
  {
    hide TerminalBodies, PendingCount;
  }

  lemma ParkedAttemptWaits(config: Config, attempts: seq<Attempt>, id: Id, first: Id, i: nat)
    requires i < |attempts| && Waiting(DeskAt(Run(attempts[0].start)), id) && AlongARun(config, attempts, id, first)
    ensures StillParked(DeskAt(Run(attempts[i].start)), id) ==> Waiting(DeskAt(Run(attempts[i].start)), id)
  {
    hide Run, Core, EndOf, Spared, Waiting, StillParked;
    if i > 0 && StillParked(DeskAt(Run(attempts[i].start)), id) {
      ReachableIsCore(attempts[i].start);
      SparedIsMissing(Run(EndOf(config, attempts[i - 1], id, first + i - 1)).db, Run(attempts[i].start).db, id);
      ParkedIsWaiting(Run(attempts[i].start), id);
    }
  }

  /** The run's tables after an attempt are those the program leaves. */
  lemma AttemptIsARound(config: Config, a: Attempt, id: Id, call: Id)
    requires StillParked(DeskAt(Run(a.start)), id) ==> Waiting(DeskAt(Run(a.start)), id)
    requires call !in Run(a.start).clients
    ensures Run(EndOf(config, a, id, call)).db == AfterRound(config, RoundOf(a), id, call).db
  {
    hide Run, Waiting, Resolved, StillParked, AttemptLabels;
    if StillParked(DeskAt(Run(a.start)), id) {
      AttemptsAgree(a.start, config, a.now, id, call);
    }
  }

  lemma AttemptsAreLive(config: Config, attempts: seq<Attempt>, id: Id, first: Id)
    requires attempts != [] && Waiting(DeskAt(Run(attempts[0].start)), id) && AlongARun(config, attempts, id, first)
    ensures LiveRounds(config, RoundsOf(attempts), id, first)
  {
    hide Run, Waiting, StillParked, EndOf, AfterRound, Spared, Evolves;
    var rounds := RoundsOf(attempts);
    forall i | 0 < i < |rounds|
      ensures Meantime(AfterRound(config, rounds[i - 1], id, first + i - 1), rounds[i].start, id)
    {
      var end := EndOf(config, attempts[i - 1], id, first + i - 1);
      ParkedAttemptWaits(config, attempts, id, first, i - 1);
      AttemptIsARound(config, attempts[i - 1], id, first + i - 1);
      assert Continues(end, attempts[i].start, id);
      EvolvesAlong(end, attempts[i].start[|end|..]);
      assert end + attempts[i].start[|end|..] == attempts[i].start;
    }
  }

  // ----- main result -----

  /** In every run: a reversal whose reference never comes in is parked again by each attempt until the
      first that finds it out of attempts or time, which rejects it with REFERENCE_NOT_FOUND and announces
      that once; within its limit it never exceeds it, and the attempt after the remaining ones is the
      last. Everybody else may do anything in between but touch this row. */
  lemma {:induction false} GivenUpInEveryRun(config: Config, attempts: seq<Attempt>, id: Id, first: Id, i: nat)
    requires i < |attempts| && Waiting(DeskAt(Run(attempts[0].start)), id) && AlongARun(config, attempts, id, first)
    ensures StillParked(RoundsOf(attempts)[0].start, id)
    ensures var desk, later := DeskAt(Run(attempts[0].start)), DeskAt(Run(EndOf(config, attempts[i], id, first + i)));
            var n := FirstOut(config, RoundsOf(attempts), id, |attempts|);
            && (if i < n then ParkedAgain(desk, later, id, i + 1) else Abandoned(desk, later, id, n))
            && (id in desk.db.attempts && desk.db.attempts[id] <= config.maxAttempts ==>
                  n <= config.maxAttempts - desk.db.attempts[id])
  {
    hide Run, Waiting, StillParked, EndOf, AfterRound, AlongARun, ParkedAgain, Abandoned, FirstOut, LiveRounds,
      Resolved;
    ParkedAttemptWaits(config, attempts, id, first, i);
    FreshCall(config, attempts, id, first, i);
    AttemptIsARound(config, attempts[i], id, first + i);
    AttemptsAreLive(config, attempts, id, first);
    GivesUpInTheEnd(config, RoundsOf(attempts), id, first, i);
    WaitingRow(DeskAt(Run(attempts[0].start)), id);
    OutcomeIsOfTheTables(DeskAt(Run(attempts[0].start)), AfterRound(config, RoundsOf(attempts)[i], id, first + i),
                         DeskAt(Run(EndOf(config, attempts[i], id, first + i))), id);
    WithinTheLimit(config, RoundsOf(attempts), id);
  }

  lemma FreshCall(config: Config, attempts: seq<Attempt>, id: Id, first: Id, i: nat)
    requires i < |attempts| && AlongARun(config, attempts, id, first)
    ensures first + i !in Run(attempts[i].start).clients
  {
    hide Run, EndOf, Continues;
  }

  lemma OutcomeIsOfTheTables(desk: Desk, later: Desk, same: Desk, id: Id)
    requires same.db == later.db
    ensures forall n: nat :: ParkedAgain(desk, later, id, n) ==> ParkedAgain(desk, same, id, n)
    ensures forall n: nat :: Abandoned(desk, later, id, n) ==> Abandoned(desk, same, id, n)
  {
    hide TerminalBodies, PendingCount;
  }

  lemma WithinTheLimit(config: Config, rounds: seq<Round>, id: Id)
    requires rounds != [] && StillParked(rounds[0].start, id)
    ensures var left := config.maxAttempts - rounds[0].start.db.attempts[id];
            left >= 0 ==> FirstOut(config, rounds, id, |rounds|) <= left
  {
    FirstOutIsFirst(config, rounds, id, |rounds|);
    var left := config.maxAttempts - rounds[0].start.db.attempts[id];
    if 0 <= left < |rounds| {
      assert RunsOut(config, rounds, id, left);
    }
  }
}
