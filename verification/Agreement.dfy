/** Rows, ledger and events tell the same story: of every wallet in every run, and of every
    transaction as long as no commit writes over a PROCESSED row, or announces one again. */
module Agreement {
  import opened Prelude
  import opened Wallets
  import opened Wagers
  import opened Tables
  import opened Decisions
  import opened Protocol
  import opened Integrity
  import opened Calls
  import opened CoreSteps
  import opened CoreCommits
  import opened CoreTheorem
  import opened Settlements
  import opened Readings
  import opened SettledTheorem
  import opened SettledCommits
  import opened Histories
  import opened Reversals
  import opened Standing

  // ----- a wallet and its ledger -----

  /** A stored balance is never negative, is credits minus debits of a ledger in which every entry
      takes over where the one before it left off, and its version counts the movements. */
  lemma BalanceIsItsLedger(schedule: seq<Label>, w: Id)
    requires w in Run(schedule).db.wallets
    ensures var db := Run(schedule).db;
            var own := LedgerOf(db.ledger, w);
            && db.wallets[w].balance.amount == Total(own) && Total(own) >= 0
            && Chained(own, db.wallets[w].balance.currency)
            && db.wallets[w].version == 1 + Moves(db.txs, own)
  {
    hide Next, Core, Moves, Chained, OpensFirst, LedgerOk;
    ReachableIsCore(schedule);
    CoreLedger(Run(schedule));
    var db := Run(schedule).db;
    assert WalletOk(db, w);
    ChainedCloses(LedgerOf(db.ledger, w), db.wallets[w].balance.currency);
  }

  // ----- a wallet and its events -----

  /** The balance events of one wallet, in order. */
  function EventsOf(events: seq<Event>, w: Id): (own: seq<Event>)
    ensures forall e :: e in own ==> e.body.WalletBalanceChanged? && e.body.walletId == w
  {
    if events == [] then []
    else
      var init, last := EventsOf(events[..|events| - 1], w), events[|events| - 1];
      if last.body.WalletBalanceChanged? && last.body.walletId == w then init + [last] else init
  }

  /** What the fold of a wallet's balance events comes to: balance and version. */
  function Rebuilt(own: seq<Event>): (int, int)
    requires forall e :: e in own ==> e.body.WalletBalanceChanged?
  {
    if own == [] then (0, 1)
    else
      var n := |own| - 1;
      assert own[n] in own;
      var before := Rebuilt(own[..n]);
      (before.0 + own[n].body.direction.Signed(own[n].body.amount.amount), own[n].body.walletVersion)
  }

  /** The wallet was opened with money. */
  predicate Opened(db: Db, own: seq<LedgerEntry>) {
    own != [] && IsOpening(db.txs, own[0])
  }

  /** One event per entry, announcing it, with consecutive versions. */
  predicate Mirrors(db: Db, events: seq<Event>, own: seq<LedgerEntry>) {
    && |events| == |own|
    && forall i :: 0 <= i < |own| ==>
         Announces(db.events, events[i], own[i], if Opened(db, own) then i + 1 else i + 2)
  }

  /** A wallet's versions run on from one entry to the next. */
  lemma {:induction false} MovesCount(db: Db, own: seq<LedgerEntry>, n: nat)
    requires OpensFirst(db.txs, own) && n <= |own|
    ensures Moves(db.txs, own[..n]) == if Opened(db, own) && n > 0 then n - 1 else n
  {
    if n > 0 {
      assert own[..n][..n - 1] == own[..n - 1];
      MovesCount(db, own, n - 1);
    }
  }

  /** The i-th event announces the i-th entry. */
  predicate TellsOf(db: Db, e: Event, own: seq<LedgerEntry>, i: nat)
    requires i < |own|
  {
    Announces(db.events, e, own[i], 1 + Moves(db.txs, own[..i + 1]))
  }

  predicate Tells(db: Db, events: seq<Event>, own: seq<LedgerEntry>) {
    |events| <= |own| && forall i :: 0 <= i < |events| ==> TellsOf(db, events[i], own, i)
  }

  lemma TellsOneMore(db: Db, events: seq<Event>, own: seq<LedgerEntry>, e: Event)
    requires Tells(db, events, own) && |events| < |own| && TellsOf(db, e, own, |events|)
    ensures Tells(db, events + [e], own)
  {
    hide TellsOf;
  }

  /** The balance events, cut at the n-th, tell the wallet's part of the first n entries. */
  lemma {:induction false} EventsTell(db: Db, n: nat, w: Id)
    requires EventsOk(db) && n <= |db.ledger|
    ensures |EventsOf(BalanceEvents(db.events)[..n], w)| == |LedgerOf(db.ledger[..n], w)|
    ensures Tells(db, EventsOf(BalanceEvents(db.events)[..n], w), LedgerOf(db.ledger, w))
  {
    if n > 0 {
      hide Moves, IsCause, TellsOf, Tells, EventOk, EventsOf, LedgerOf, BalanceEvents;
      EventsTell(db, n - 1, w);
      EventsTellOneMore(db, n - 1, w);
    }
  }

  lemma EventsTellOneMore(db: Db, n: nat, w: Id)
    requires n < |db.ledger| && |BalanceEvents(db.events)| == |db.ledger| && EventOk(db, n)
    requires |EventsOf(BalanceEvents(db.events)[..n], w)| == |LedgerOf(db.ledger[..n], w)|
    requires Tells(db, EventsOf(BalanceEvents(db.events)[..n], w), LedgerOf(db.ledger, w))
    ensures |EventsOf(BalanceEvents(db.events)[..n + 1], w)| == |LedgerOf(db.ledger[..n + 1], w)|
    ensures Tells(db, EventsOf(BalanceEvents(db.events)[..n + 1], w), LedgerOf(db.ledger, w))
  {
    hide Moves, IsCause, Tells, EventsOf, BalanceEvents, LedgerOf;
    var b := BalanceEvents(db.events);
    var e := db.ledger[n];
    EventsOfAppend(b[..n], b[n], w);
    assert b[..n + 1] == b[..n] + [b[n]] && db.ledger[..n + 1] == db.ledger[..n] + [e];
    LedgerOfAppend(db.ledger[..n], e, w);
    if e.walletId == w {
      var own := LedgerOf(db.ledger[..n + 1], w);
      PrefixesGrow(db.ledger, n + 1, w);
      assert LedgerOf(db.ledger, w)[..|own|] == own;
      TellsOneMore(db, EventsOf(b[..n], w), LedgerOf(db.ledger, w), b[n]);
    }
  }

  lemma EventsOfAppend(events: seq<Event>, e: Event, w: Id)
    ensures EventsOf(events + [e], w) ==
            if e.body.WalletBalanceChanged? && e.body.walletId == w then EventsOf(events, w) + [e]
            else EventsOf(events, w)
  {
    assert (events + [e])[..|events|] == events;
  }

  lemma {:induction false} PrefixesGrow(ledger: seq<LedgerEntry>, n: nat, w: Id)
    requires n <= |ledger|
    ensures LedgerOf(ledger[..n], w) <= LedgerOf(ledger, w)
    decreases |ledger| - n
  {
    if n < |ledger| {
      PrefixesGrow(ledger, n + 1, w);
      assert ledger[..n + 1] == ledger[..n] + [ledger[n]];
      LedgerOfAppend(ledger[..n], ledger[n], w);
    } else {
      assert ledger[..n] == ledger;
    }
  }

  lemma {:induction false} OnlyBalanceEventsCount(events: seq<Event>, w: Id)
    ensures EventsOf(BalanceEvents(events), w) == EventsOf(events, w)
  {
    if events != [] {
      var n := |events| - 1;
      OnlyBalanceEventsCount(events[..n], w);
      if events[n].body.WalletBalanceChanged? {
        assert BalanceEvents(events)[..|BalanceEvents(events)| - 1] == BalanceEvents(events[..n]);
      }
    }
  }

  lemma {:induction false} MirrorRebuilds(db: Db, events: seq<Event>, own: seq<LedgerEntry>, n: nat)
    requires Mirrors(db, events, own) && n <= |own|
    requires forall e :: e in events ==> e.body.WalletBalanceChanged?
    ensures Rebuilt(events[..n]).0 == Total(own[..n])
    ensures Rebuilt(events[..n]).1 == if n == 0 then 1 else if Opened(db, own) then n else n + 1
  {
    if n > 0 {
      assert events[..n][..n - 1] == events[..n - 1] && own[..n][..n - 1] == own[..n - 1];
      MirrorRebuilds(db, events, own, n - 1);
      assert Announces(db.events, events[n - 1], own[n - 1], if Opened(db, own) then n else n + 1);
    }
  }

  /** The committed balance events of a wallet are one per ledger entry, each names the processed
      event beside it as its cause, their versions run from 1 (2 for a wallet opened empty) without
      gap or repeat, and folding them rebuilds the stored balance and version. */
  lemma EventsRebuildTheWallet(schedule: seq<Label>, w: Id)
    requires w in Run(schedule).db.wallets
    ensures var db := Run(schedule).db;
            var events, own := EventsOf(db.events, w), LedgerOf(db.ledger, w);
            && Mirrors(db, events, own)
            && Rebuilt(events) == (db.wallets[w].balance.amount, db.wallets[w].version)
  {
    hide Run, Core, WalletsOk, LedgerOk, EventsOk, WalletOk, Mirrors, EventsOf, LedgerOf, Rebuilt;
    ReachableIsCore(schedule);
    CoreLedger(Run(schedule));
    CoreEvents(Run(schedule));
    var db := Run(schedule).db;
    assert WalletsOk(db) ==> WalletOk(db, w) by {
      WalletIsOk(db, w);
    }
    AllEventsTell(db, w);
    TellingMirrors(db, EventsOf(db.events, w), w);
    MirrorsRebuild(db, EventsOf(db.events, w), w);
  }

  lemma WalletIsOk(db: Db, w: Id)
    requires w in db.wallets
    ensures WalletsOk(db) ==> WalletOk(db, w)
  {
    hide WalletOk;
  }

  lemma AllEventsTell(db: Db, w: Id)
    requires EventsOk(db) && |BalanceEvents(db.events)| == |db.ledger|
    ensures |EventsOf(db.events, w)| == |LedgerOf(db.ledger, w)|
    ensures Tells(db, EventsOf(db.events, w), LedgerOf(db.ledger, w))
  {
    hide EventsOk, Tells, EventsOf, LedgerOf, BalanceEvents;
    assert db.ledger[..|db.ledger|] == db.ledger;
    assert BalanceEvents(db.events)[..|db.ledger|] == BalanceEvents(db.events);
    EventsTell(db, |db.ledger|, w);
    OnlyBalanceEventsCount(db.events, w);
  }

  lemma TellingMirrors(db: Db, events: seq<Event>, w: Id)
    requires w in db.wallets && WalletOk(db, w)
    requires |events| == |LedgerOf(db.ledger, w)| && Tells(db, events, LedgerOf(db.ledger, w))
    ensures Mirrors(db, events, LedgerOf(db.ledger, w))
  {
    hide Announces, Moves, Chained, OpensFirst, LedgerOf;
    var own := LedgerOf(db.ledger, w);
    forall i | 0 <= i < |own|
      ensures Announces(db.events, events[i], own[i], if Opened(db, own) then i + 1 else i + 2)
    {
      assert TellsOf(db, events[i], own, i);
      MovesCount(db, own, i + 1);
    }
  }

  lemma MirrorsRebuild(db: Db, events: seq<Event>, w: Id)
    requires w in db.wallets && WalletOk(db, w) && Mirrors(db, events, LedgerOf(db.ledger, w))
    requires forall e :: e in events ==> e.body.WalletBalanceChanged?
    ensures Rebuilt(events) == (db.wallets[w].balance.amount, db.wallets[w].version)
  {
    hide Announces, Moves, Chained, OpensFirst, LedgerOf, Rebuilt;
    var own := LedgerOf(db.ledger, w);
    MovesCount(db, own, |own|);
    assert own[..|own|] == own && events[..|events|] == events;
    assert |events| == |own|;
    MirrorRebuilds(db, events, own, |own|);
    ChainedCloses(own, db.wallets[w].balance.currency);
  }

  lemma CoreEvents(s: State)
    requires Core(s)
    ensures EventsOk(s.db) && |BalanceEvents(s.db.events)| == |s.db.ledger|
  {
    hide IdsKnown, DeletedOk, ClientsOk, RowsOk, IndexOk, WalletsOk, LedgerOk, InboxOk, EventOk;
  }

  // ----- a transaction, its entry and its events -----

  /** The statuses, codes, currencies and entries of persisted rows. */
  lemma RowsAgree(schedule: seq<Label>, id: Id)
    requires SettledRun(schedule) && id in Run(schedule).db.txs
    ensures var db := Run(schedule).db;
            var t := db.txs[id];
            && (t.status == PendingReference || t.status == Processed || t.status == Rejected)
            && (t.status == PendingReference ==> t.Kind().IsReversal())
            && (t.failure.Some? <==> t.status == Rejected)
            && (t.status == Processed ==>
                  t.WalletId() in db.wallets && t.Amount().currency == db.wallets[t.WalletId()].balance.currency)
            && (HasEntry(db, id) <==> t.status == Processed && t.Kind() != Loss)
  {
    hide Next, Core, SettledRun, StrongAt, ReferencesOk;
    ReachableIsStrong(schedule);
    ReachableIsCore(schedule);
    CoreSettled(Run(schedule));
    var db := Run(schedule).db;
    assert StatusOk(db, db.txs[id]);
    if HasEntry(db, id) {
      var i :| 0 <= i < |db.ledger| && db.ledger[i].transactionId == id;
      assert EntrySettles(db, i);
    }
  }

  /** Each entry is the one entry of a settled row of its wallet, with the row's amount, in the
      direction the program gives its kind and reference. */
  lemma EntriesAgree(schedule: seq<Label>, i: nat)
    requires SettledRun(schedule) && i < |Run(schedule).db.ledger|
    ensures var db := Run(schedule).db;
            var e := db.ledger[i];
            && e.transactionId in db.txs
            && var t := db.txs[e.transactionId];
               && Settles(t) && t.WalletId() == e.walletId && t.Amount() == e.amount
               && DirectionOf(db, t) == Ok(e.direction)
               && forall j :: 0 <= j < |db.ledger| && db.ledger[j].transactionId == t.id ==> j == i
  {
    hide Next, Core, SettledRun, StrongAt, StatusesOk, ReferencesOk, SettledHaveEntries, DirectionOf;
    ReachableIsStrong(schedule);
    ReachableIsCore(schedule);
    CoreLedger(Run(schedule));
    RowIds(Run(schedule));
    var db := Run(schedule).db;
    assert EntrySettles(db, i) && EntryOk(db, db.ledger[i]);
  }

  /** Each terminal row has exactly one terminal event, the one that tells its outcome; a row still
      waiting has none; and no row is announced as waiting more than once. */
  lemma EventsAgree(schedule: seq<Label>, id: Id)
    requires GuardedRun(schedule)
    ensures var db := Run(schedule).db;
            && TerminalBodies(db.events, id) == (if id in db.txs then ExpectedBodies(db.txs[id]) else [])
            && PendingCount(db.events, id) <= (if id in db.txs then 1 else 0)
            && (id in db.txs && db.txs[id].status == PendingReference ==> PendingCount(db.events, id) == 1)
  {
    hide Next, GuardedRun, TerminalBodies, PendingCount, ExpectedBodies;
    ReachableIsAnnounced(schedule);
    assert AnnouncedOk(Run(schedule).db, id);
  }

  // ----- exactly when it does -----

  lemma CommitIsAnnounced(s: State, l: Label)
    requires Core(s) && Commits(s, l) && !Overwrites(s, l)
    ensures AnnouncesOk(s.db, Staged(s.clients[l.call]))
  {
    hide Core, Next, WritesOk, Footprint, EventsSettleOk, Decided, ClientOk;
    CommitStep(s, l);
    AtItsPoint(s, l.call);
    var k := s.clients[l.call];
    if k.decision.Some? {
      DecisionIsAnnounced(s, l.call, k);
    }
  }

  lemma DecisionIsAnnounced(s: State, call: Id, k: Client)
    requires At(s, call, k, Commit) && k.decision.Some?
    ensures var t := k.decision.value.tx;
            && Staged(k).row == Some(t) && EventsSettleOk(Staged(k), t) && t.id == k.tx.id
            && (t.status == PendingReference || t.status == Processed || t.status == Rejected)
            && (t.id in s.db.txs ==> t.status != PendingReference)
  {
    hide HoldsWallet, Unreversed, WellFormed, Grounded, Replays, Decided, EventsSettleOk;
    assert Decided(call, k);
    DecidedRow(call, k);
    DecidedStatus(call, k);
    StagedEventsSettle(call, k);
  }

  lemma WrittenRows(db: Db, w: Writes)
    requires WritesOk(db, w)
    ensures Apply(db, w).txs == if w.row.Some? then db.txs[w.row.value.id := w.row.value] else db.txs
    ensures Apply(db, w).events == db.events + w.events
  {
    hide WalletWriteOk, InboxWriteOk, ReversalWriteOk, RowWriteOk;
    if w.row.Some? {
      UpsertedRow(db, w);
    }
  }

  lemma SameAnnouncements(db: Db, later: Db)
    requires AllAnnounced(db) && later.txs == db.txs && later.events == db.events
    ensures AllAnnounced(later)
  {
    forall id: Id
      ensures AnnouncedOk(later, id)
    {
      assert AnnouncedOk(db, id);
    }
  }

  lemma NextKeepsAnnounced(s: State, l: Label)
    requires Core(s) && AllAnnounced(s.db) && !Overwrites(s, l)
    ensures AllAnnounced(Next(s, l).db)
  {
    hide Core, Next, At, AllAnnounced, AnnouncesOk, WritesOk, Footprint, Apply, OpenWallet, Overwrites;
    if Commits(s, l) {
      CommitStep(s, l);
      CommitIsAnnounced(s, l);
      WrittenRows(s.db, Staged(s.clients[l.call]));
      AnnouncementsStay(s.db, Next(s, l).db, Staged(s.clients[l.call]));
    } else if Opens(s, l) {
      OpenStep(s, l);
      var w := OpenWallet(l.call, l.now, l.playerId, l.initialBalance).value;
      OpeningIsAnnounced(s.db, l.call, l.now, l.playerId, l.initialBalance);
      WrittenRows(s.db, w);
      AnnouncementsStay(s.db, Next(s, l).db, w);
    } else if l.OpenWalletCall? {
      UnopenedStep(s, l);
    } else {
      QuietStep(s, l);
      SameAnnouncements(s.db, Next(s, l).db);
    }
  }

  lemma {:induction false} ReachableIsAnnounced(schedule: seq<Label>)
    requires GuardedRun(schedule)
    ensures AllAnnounced(Run(schedule).db)
  {
    hide Core, Overwrites, Next, AnnouncedOk;
    if schedule == [] {
      NothingIsAnnounced();
    } else {
      var n := |schedule| - 1;
      GuardedPrefix(schedule, n);
      ReachableIsAnnounced(schedule[..n]);
      ReachableIsCore(schedule[..n]);
      NextKeepsAnnounced(Run(schedule[..n]), schedule[n]);
    }
  }

  lemma NothingIsAnnounced()
    ensures AllAnnounced(EmptyDb)
  {
  }

  /** A commit announces the row it decides. */
  lemma CommitAnnounces(s: State, l: Label, id: Id)
    requires Core(s) && Commits(s, l)
    ensures var k := s.clients[l.call];
            TerminalBodies(Next(s, l).db.events, id) == TerminalBodies(s.db.events, id)
            + if k.decision.Some? && k.decision.value.tx.id == id then ExpectedBodies(k.decision.value.tx) else []
  {
    hide Core, Next, WritesOk, Footprint, At, TerminalBodies, ExpectedBodies, Decided;
    var k := s.clients[l.call];
    CommitStep(s, l);
    BodiesConcat(s.db.events, Staged(k).events, id);
    CommittedEvents(s, l.call, k, id);
    assert Next(s, l).db.events == s.db.events + Staged(k).events by {
      hide TerminalBodies;
    }
  }

  lemma CommittedEvents(s: State, call: Id, k: Client, id: Id)
    requires At(s, call, k, Commit)
    ensures TerminalBodies(Staged(k).events, id) ==
            if k.decision.Some? && k.decision.value.tx.id == id then ExpectedBodies(k.decision.value.tx) else []
  {
    hide TerminalBodies, ExpectedBodies, Decided, HoldsWallet, Uncommitted, Replays, PendingCount;
    if k.decision.Some? {
      assert Decided(call, k);
      StagedEventsSettle(call, k);
    } else {
      NothingAnnounced(id);
    }
  }

  lemma NothingAnnounced(id: Id)
    ensures TerminalBodies([], id) == []
  {
  }

  /** The row decided is the call's own; one that exists is decided for good. */
  lemma DecisionOfRow(s: State, call: Id, k: Client)
    requires At(s, call, k, Commit) && k.decision.Some?
    ensures var t := k.decision.value.tx;
            t.id == k.tx.id && (t.id in s.db.txs ==> t.status == Processed || t.status == Rejected)
  {
    hide HoldsWallet, Unreversed, WellFormed, Grounded, Replays, Decided;
    assert Decided(call, k);
    DecidedRow(call, k);
    DecidedStatus(call, k);
  }

  /** The terminal events of a row that is processed or rejected already change in a step if and only
      if the step commits a decision about that row: the upsert and its event lack a guard. */
  lemma AnnouncedAgainExactly(s: State, l: Label, id: Id)
    requires Core(s) && id in s.db.txs && s.db.txs[id].status.IsTerminal()
    ensures TerminalBodies(Next(s, l).db.events, id) != TerminalBodies(s.db.events, id) <==>
            Commits(s, l) && s.clients[l.call].decision.Some? && s.clients[l.call].tx.id == id
  {
    hide Core, Next, TerminalBodies, At, WritesOk, Footprint, OpenWallet;
    if Commits(s, l) {
      CommitAnnounces(s, l, id);
      CommitStep(s, l);
      if s.clients[l.call].decision.Some? {
        DecisionOfRow(s, l.call, s.clients[l.call]);
      }
    } else if Opens(s, l) {
      OpenStep(s, l);
      OpeningAnnouncesItself(s.db, l, id);
    } else if l.OpenWalletCall? {
      UnopenedStep(s, l);
    } else {
      QuietStep(s, l);
    }
  }

  lemma OpeningAnnouncesItself(db: Db, l: Label, id: Id)
    requires l.OpenWalletCall? && id != l.call && OpenWallet(l.call, l.now, l.playerId, l.initialBalance).Ok?
    ensures var later := Apply(db, OpenWallet(l.call, l.now, l.playerId, l.initialBalance).value);
            TerminalBodies(later.events, id) == TerminalBodies(db.events, id)
  {
    hide TerminalBodies, ExpectedBodies, PendingCount;
    var w := OpenWallet(l.call, l.now, l.playerId, l.initialBalance).value;
    BodiesConcat(db.events, w.events, id);
    if w.row.Some? {
      MovementBodies(w.row.value, w.wallet.value, w.entry.value, l.call, id);
    } else {
      NothingAnnounced(id);
    }
  }

  /** An overwritten row is announced a second time. */
  lemma OverwritingDisagrees(s: State, l: Label)
    requires Core(s) && Coherent(s.db) && Overwrites(s, l)
    ensures !Coherent(Next(s, l).db)
  {
    hide Core, Next, TerminalBodies, Consistent, PendingCount, At;
    var id := s.clients[l.call].tx.id;
    assert AnnouncedOk(s.db, id) && StatusOk(s.db, s.db.txs[id]) by {
      hide AnnouncedOk, StatusOk;
      RowIsOk(s.db, id);
    }
    CommitStep(s, l);
    CommitAnnounces(s, l, id);
    DecisionOfRow(s, l.call, s.clients[l.call]);
    assert |TerminalBodies(Next(s, l).db.events, id)| == 2;
    assert !AnnouncedOk(Next(s, l).db, id);
  }

  lemma RowIsOk(db: Db, id: Id)
    requires Coherent(db) && id in db.txs
    ensures AnnouncedOk(db, id) && StatusOk(db, db.txs[id])
  {
    hide AnnouncedOk, StatusOk, ReferencesOk, EntriesSettle;
  }

  /** Rows, entries and events agree all along a run if and only if no commit of it overwrites a
      terminal row. */
  lemma {:induction false} AgreementExactly(schedule: seq<Label>)
    ensures (forall n :: 0 <= n <= |schedule| ==> Coherent(Run(schedule[..n]).db)) <==> GuardedRun(schedule)
  {
    hide Run, Next, Core, Consistent, Coherent, AllAnnounced, Strong, Overwrites;
    if GuardedRun(schedule) {
      forall n | 0 <= n <= |schedule|
        ensures Coherent(Run(schedule[..n]).db)
      {
        GuardedPrefix(schedule, n);
        GuardedRunsAreSettled(schedule[..n]);
        ReachableIsStrong(schedule[..n]);
        ReachableIsAnnounced(schedule[..n]);
        StrongIsCoherent(Run(schedule[..n]));
      }
    }
    if forall n :: 0 <= n <= |schedule| ==> Coherent(Run(schedule[..n]).db) {
      forall n | 0 <= n < |schedule|
        ensures !Overwrites(Run(schedule[..n]), schedule[n])
      {
        assert Coherent(Run(schedule[..n]).db) && Coherent(Run(schedule[..n + 1]).db);
        assert schedule[..n + 1] == schedule[..n] + [schedule[n]];
        RunStep(schedule[..n], schedule[n]);
        ReachableIsCore(schedule[..n]);
        if Overwrites(Run(schedule[..n]), schedule[n]) {
          OverwritingDisagrees(Run(schedule[..n]), schedule[n]);
        }
      }
    }
  }

  lemma StrongIsCoherent(s: State)
    requires Strong(s) && AllAnnounced(s.db)
    ensures Coherent(s.db)
  {
    hide AnnouncedOk, StrongAt;
  }

  lemma StrongIsConsistent(s: State)
    requires Strong(s)
    ensures Consistent(s.db)
  {
    hide StrongAt, Consistent;
  }

  /** A PROCESSED row written over keeps its entry but not its status. */
  lemma UnsettlingDisagrees(s: State, l: Label)
    requires Core(s) && Unsettles(s, l)
    ensures !Consistent(Next(s, l).db)
  {
    hide Core, Next, StatusesOk, ReferencesOk, At;
    var id := s.clients[l.call].tx.id;
    ProcessedIsRejected(s, l, id);
    NextEvolves(s, l);
    HasEntryStays(s.db, Next(s, l).db, id);
    RejectedWithAnEntry(Next(s, l).db, id);
  }

  lemma RejectedWithAnEntry(db: Db, id: Id)
    requires id in db.txs && db.txs[id].status == Rejected && HasEntry(db, id)
    ensures !EntriesSettle(db)
  {
    var i :| 0 <= i < |db.ledger| && db.ledger[i].transactionId == id;
    assert !EntrySettles(db, i);
  }

  /** Rows, references and entries agree all along a run if and only if no commit of it writes over a
      PROCESSED row. */
  lemma {:induction false} SettlementsAgreeExactly(schedule: seq<Label>)
    ensures (forall n :: 0 <= n <= |schedule| ==> Consistent(Run(schedule[..n]).db)) <==> SettledRun(schedule)
  {
    hide Run, Next, Core, Consistent, Strong, Unsettles;
    if SettledRun(schedule) {
      forall n | 0 <= n <= |schedule|
        ensures Consistent(Run(schedule[..n]).db)
      {
        SettledPrefix(schedule, n);
        ReachableIsStrong(schedule[..n]);
        StrongIsConsistent(Run(schedule[..n]));
      }
    }
    if forall n :: 0 <= n <= |schedule| ==> Consistent(Run(schedule[..n]).db) {
      forall n | 0 <= n < |schedule|
        ensures !Unsettles(Run(schedule[..n]), schedule[n])
      {
        assert Consistent(Run(schedule[..n + 1]).db);
        assert schedule[..n + 1] == schedule[..n] + [schedule[n]];
        RunStep(schedule[..n], schedule[n]);
        ReachableIsCore(schedule[..n]);
        if Unsettles(Run(schedule[..n]), schedule[n]) {
          UnsettlingDisagrees(Run(schedule[..n]), schedule[n]);
        }
      }
    }
  }
}
