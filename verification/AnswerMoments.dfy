/** Two accepted answers about one row, in any run, carry the same balance if and only if the wallet's
    movements between the moments at which they were read come to nothing. A moment is a length of the
    ledger. Any number of resolvers. */
module AnswerMoments {
  import opened Prelude
  import opened Moneys
  import opened Wallets
  import opened Wagers
  import opened Tables
  import opened Decisions
  import opened Protocol
  import opened Integrity
  import opened Calls
  import opened CoreSteps
  import opened CoreCommits
  import opened CoreTheorem
  import opened Histories
  import opened ReplayStability
  import opened Reversals
  import opened Agreement

  // ----- a wallet at a moment -----

  /** The wallet's balance once the first p entries of the ledger were in. */
  predicate BalanceAt(db: Db, w: Id, p: nat, balance: Money) {
    && p <= |db.ledger| && w in db.wallets && balance.currency == db.wallets[w].balance.currency
    && balance.amount == Total(LedgerOf(db.ledger[..p], w))
  }

  /** What the wallet moved between two moments, credits minus debits. */
  function MovedBetween(ledger: seq<LedgerEntry>, w: Id, p: nat, q: nat): int
    requires p <= |ledger| && q <= |ledger|
  {
    if p <= q then Total(LedgerOf(ledger[p..q], w)) else Total(LedgerOf(ledger[q..p], w))
  }

  lemma MovementsAdd(ledger: seq<LedgerEntry>, w: Id, p: nat, q: nat)
    requires p <= q <= |ledger|
    ensures Total(LedgerOf(ledger[..q], w)) == Total(LedgerOf(ledger[..p], w)) + Total(LedgerOf(ledger[p..q], w))
  {
    assert ledger[..q] == ledger[..p] + ledger[p..q];
    LedgerOfConcat(ledger[..p], ledger[p..q], w);
    TotalConcat(LedgerOf(ledger[..p], w), LedgerOf(ledger[p..q], w));
  }

  lemma EqualExactly(db: Db, w: Id, p: nat, a: Money, q: nat, b: Money)
    requires BalanceAt(db, w, p, a) && BalanceAt(db, w, q, b)
    ensures a == b <==> MovedBetween(db.ledger, w, p, q) == 0
  {
    hide Total, LedgerOf;
    if p <= q {
      MovementsAdd(db.ledger, w, p, q);
    } else {
      MovementsAdd(db.ledger, w, q, p);
    }
  }

  lemma StandingBalance(db: Db, w: Id)
    requires w in db.wallets && WalletsOk(db)
    ensures BalanceAt(db, w, |db.ledger|, db.wallets[w].balance)
  {
    hide Moves, OpensFirst, WalletsOk;
    WalletIsOk(db, w);
    ChainedCloses(LedgerOf(db.ledger, w), db.wallets[w].balance.currency);
    assert db.ledger[..|db.ledger|] == db.ledger;
  }

  lemma MomentStays(db: Db, later: Db, w: Id, p: nat, balance: Money)
    requires BalanceAt(db, w, p, balance) && Evolves(db, later)
    ensures BalanceAt(later, w, p, balance)
  {
    hide LedgerOf, Total;
    assert later.ledger[..p] == db.ledger[..p];
  }

  lemma ChainedPrefix(own: seq<LedgerEntry>, n: nat, currency: Currency)
    requires Chained(own, currency) && n <= |own|
    ensures Chained(own[..n], currency)
  {
    assert forall i :: 0 <= i < n ==> own[..n][..i] == own[..i];
  }

  lemma PrefixCloses(own: seq<LedgerEntry>, n: nat, currency: Currency)
    requires Chained(own, currency) && 0 < n <= |own|
    ensures Total(own[..n]) == own[n - 1].balanceAfter.amount && own[n - 1].balanceAfter.currency == currency
  {
    hide Total;
    ChainedPrefix(own, n, currency);
    ChainedCloses(own[..n], currency);
  }

  lemma ItsLedgerIsChained(db: Db, w: Id)
    requires w in db.wallets && WalletsOk(db)
    ensures Chained(LedgerOf(db.ledger, w), db.wallets[w].balance.currency)
  {
    hide Moves, OpensFirst, WalletsOk, Chained;
    WalletIsOk(db, w);
  }

  /** An entry's balance after is the wallet's balance once it is in. */
  lemma EntryIsAMoment(db: Db, i: nat)
    requires LedgerOk(db) && WalletsOk(db) && i < |db.ledger|
    ensures BalanceAt(db, db.ledger[i].walletId, i + 1, db.ledger[i].balanceAfter)
  {
    hide WalletsOk, Total, LedgerOf, Chained;
    var e := db.ledger[i];
    assert EntryOk(db, e);
    var own, prefix := LedgerOf(db.ledger, e.walletId), LedgerOf(db.ledger[..i + 1], e.walletId);
    ItsLedgerIsChained(db, e.walletId);
    assert db.ledger[..i + 1] == db.ledger[..i] + [e];
    LedgerOfAppend(db.ledger[..i], e, e.walletId);
    PrefixesGrow(db.ledger, i + 1, e.walletId);
    assert prefix == own[..|prefix|];
    PrefixCloses(own, |prefix|, db.wallets[e.walletId].balance.currency);
  }

  // ----- the moment of an answer -----

  /** The moment the transaction's own entry came in. */
  predicate EntryMoment(db: Db, t: Tx, p: nat) {
    0 < p <= |db.ledger| && db.ledger[p - 1].transactionId == t.id
  }

  /** A replay's balance is of the moment of the entry its lookup found, or else of the moment it read
      the wallet. */
  ghost predicate ReplayMoment(schedule: seq<Label>, c: Id, t: Tx, p: nat) {
    exists n: nat, m: nat ::
      ReadBy(schedule, n, m, c, t)
      && if FoundAt(schedule, n, t) then EntryMoment(Before(schedule, n).db, t, p)
         else p == |Before(schedule, m).db.ledger|
  }

  /** The balance of a call's own decision is of the moment of the entry it made, or else of the moment
      the call read the wallet. */
  ghost predicate OwnMoment(schedule: seq<Label>, c: Id, t: Tx, p: nat) {
    if Settles(t) then EntryMoment(Run(schedule).db, t, p)
    else exists m: nat :: ReadsOwnAt(schedule, m, c, t) && p == |Before(schedule, m).db.ledger|
  }

  predicate KnownRow(db: Db, t: Tx) {
    t.id in db.txs && t.SameBusiness(db.txs[t.id])
  }

  lemma AnsweredRowIsKnown(s: State, c: Id, t: Tx, balance: Money, replay: bool)
    requires Core(s) && IsAnswered(s, c, Accepted(t, balance, replay))
    ensures KnownRow(s.db, t)
  {
    hide Sound, IdsKnown, DeletedOk, Settles, EntryLeaves, MessageDone;
    assert ClientOk(s, c, s.clients[c]);
  }

  lemma EntryOfRow(db: Db, t: Tx, i: nat, balance: Money)
    requires LedgerOk(db) && WalletsOk(db) && KnownRow(db, t)
    requires i < |db.ledger| && db.ledger[i].transactionId == t.id && db.ledger[i].balanceAfter == balance
    ensures EntryMoment(db, t, i + 1) && BalanceAt(db, t.WalletId(), i + 1, balance)
  {
    hide WalletsOk, BalanceAt;
    assert EntryOk(db, db.ledger[i]);
    EntryIsAMoment(db, i);
  }

  lemma {:induction false} EntryFoundAt(db: Db, id: Id, balance: Money) returns (i: nat)
    requires EntryBalance(db, id) == Some(balance)
    ensures i < |db.ledger| && db.ledger[i].transactionId == id && db.ledger[i].balanceAfter == balance
  {
    var e := db.FindLedgerEntry(id).value;
    i :| 0 <= i < |db.ledger| && db.ledger[i] == e;
  }

  lemma {:induction false} BeforeEvolves(schedule: seq<Label>, m: nat)
    ensures Evolves(Before(schedule, m).db, Run(schedule).db) && Core(Before(schedule, m))
  {
    hide Run, Core, Evolves;
    if m <= |schedule| {
      EvolvesAlong(schedule[..m], schedule[m..]);
      assert schedule[..m] + schedule[m..] == schedule;
      ReachableIsCore(schedule[..m]);
    } else {
      EvolvesAlong(schedule, []);
      assert schedule + [] == schedule;
      ReachableIsCore(schedule);
    }
  }

  /** The wallet as it stood before a step. */
  lemma {:induction false} WalletReadIsAMoment(schedule: seq<Label>, m: nat, w: Id, balance: Money)
    requires WalletBalance(Before(schedule, m).db, w) == Some(balance)
    ensures BalanceAt(Run(schedule).db, w, |Before(schedule, m).db.ledger|, balance)
  {
    hide Run, Before, Core, Evolves, WalletsOk, LedgerOk, BalanceAt;
    BeforeEvolves(schedule, m);
    CoreLedger(Before(schedule, m));
    StandingBalance(Before(schedule, m).db, w);
    MomentStays(Before(schedule, m).db, Run(schedule).db, w, |Before(schedule, m).db.ledger|, balance);
  }

  lemma KnownEarlier(db: Db, later: Db, t: Tx)
    requires Evolves(db, later) && t.id in db.txs && KnownRow(later, t)
    ensures KnownRow(db, t)
  {
  }

  lemma EntryOfKnownRow(db: Db, later: Db, t: Tx, i: nat)
    requires LedgerOk(db) && Evolves(db, later) && KnownRow(later, t)
    requires i < |db.ledger| && db.ledger[i].transactionId == t.id
    ensures KnownRow(db, t)
  {
    assert EntryOk(db, db.ledger[i]);
    KnownEarlier(db, later, t);
  }

  /** Every accepted replay has its moment. */
  lemma {:induction false} ReplaysHaveMoments(schedule: seq<Label>, c: Id, t: Tx, balance: Money) returns (p: nat)
    requires IsAnswered(Run(schedule), c, Accepted(t, balance, true))
    ensures ReplayMoment(schedule, c, t, p) && BalanceAt(Run(schedule).db, t.WalletId(), p, balance)
  {
    hide Run, Core, Before, ReadBy, FoundAt, Evolves, LedgerOk, WalletsOk, BalanceAt, KnownRow, EntryMoment, IsAnswered,
      EntryBalance, WalletBalance;
    ReplaysAreSourced(schedule, c, t, balance);
    var n: nat, m: nat :| ReadBy(schedule, n, m, c, t) && BalanceRead(schedule, n, m, t) == Some(balance);
    if FoundAt(schedule, n, t) {
      ReachableIsCore(schedule);
      AnsweredRowIsKnown(Run(schedule), c, t, balance, true);
      BeforeEvolves(schedule, n);
      CoreLedger(Before(schedule, n));
      var i := EntryFoundAt(Before(schedule, n).db, t.id, balance);
      EntryOfKnownRow(Before(schedule, n).db, Run(schedule).db, t, i);
      EntryOfRow(Before(schedule, n).db, t, i, balance);
      MomentStays(Before(schedule, n).db, Run(schedule).db, t.WalletId(), i + 1, balance);
      p := i + 1;
    } else {
      WalletReadIsAMoment(schedule, m, t.WalletId(), balance);
      p := |Before(schedule, m).db.ledger|;
    }
  }

  /** Every accepted answer for a call's own decision has its moment. */
  lemma {:induction false} OwnAnswersHaveMoments(schedule: seq<Label>, c: Id, t: Tx, balance: Money) returns (p: nat)
    requires IsAnswered(Run(schedule), c, Accepted(t, balance, false))
    ensures OwnMoment(schedule, c, t, p) && BalanceAt(Run(schedule).db, t.WalletId(), p, balance)
  {
    hide Run, Core, Before, ReadsOwnAt, LedgerOk, WalletsOk, BalanceAt, KnownRow, EntryMoment, IsAnswered, Settles,
      WalletBalance;
    if Settles(t) {
      ReachableIsCore(schedule);
      CoreLedger(Run(schedule));
      AnsweredRowIsKnown(Run(schedule), c, t, balance, false);
      SettledAnswerIsItsEntry(schedule, c, t, balance, false);
      var ledger := Run(schedule).db.ledger;
      var i: nat :| i < |ledger| && ledger[i].transactionId == t.id && ledger[i].balanceAfter == balance;
      EntryOfRow(Run(schedule).db, t, i, balance);
      p := i + 1;
    } else {
      FreshAnswersAreSourced(schedule, c, t, balance);
      var m: nat :| ReadsOwnAt(schedule, m, c, t) && WalletBalance(Before(schedule, m).db,
                                                                   t.WalletId()) == Some(balance);
      WalletReadIsAMoment(schedule, m, t.WalletId(), balance);
      p := |Before(schedule, m).db.ledger|;
    }
  }

  // ----- main results -----

  predicate WithinLedger(db: Db, p: nat, q: nat) {
    p <= |db.ledger| && q <= |db.ledger|
  }

  /** A replay repeats the balance of the row's own answer, whether that settled, rejected, parked or
      lost the wager, if and only if what the wallet moved between the two moments comes to nothing. */
  lemma {:induction false} FirstAnswerIsRepeatedExactly(schedule: seq<Label>, c: Id, t: Tx, balance: Money,
                                                        d: Id, first: Tx, answered: Money)
    requires IsAnswered(Run(schedule), c, Accepted(t, balance, true))
    requires IsAnswered(Run(schedule), d, Accepted(first, answered, false)) && first.id == t.id
    ensures exists p: nat, q: nat ::
              && ReplayMoment(schedule, c, t, p) && OwnMoment(schedule, d, first, q)
              && WithinLedger(Run(schedule).db, p, q)
              && (balance == answered <==> MovedBetween(Run(schedule).db.ledger, t.WalletId(), p, q) == 0)
  {
    hide Run, Core, ReplayMoment, OwnMoment, MovedBetween, IsAnswered, LedgerOf, Total;
    var p := ReplaysHaveMoments(schedule, c, t, balance);
    var q := OwnAnswersHaveMoments(schedule, d, first, answered);
    ReachableIsCore(schedule);
    AnsweredRowIsKnown(Run(schedule), c, t, balance, true);
    AnsweredRowIsKnown(Run(schedule), d, first, answered, false);
    EqualExactly(Run(schedule).db, t.WalletId(), p, balance, q, answered);
  }

  /** The step brings the row in. */
  predicate Inserts(schedule: seq<Label>, l: Label, id: Id) {
    id !in Run(schedule).db.txs && id in Run(schedule + [l]).db.txs
  }

  lemma OneEntryAtMost(s: State, l: Label)
    requires Core(s)
    ensures |Next(s, l).db.ledger| <= |s.db.ledger| + 1
  {
    hide Core, Next, At, WritesOk, Footprint, OpenWallet;
    if Commits(s, l) {
      CommitStep(s, l);
    } else if Opens(s, l) {
      OpenStep(s, l);
    } else if l.OpenWalletCall? {
      UnopenedStep(s, l);
    } else {
      QuietStep(s, l);
    }
  }

  lemma ReplayedRowIsThere(s: State, c: Id, pc: Pc, t: Tx)
    requires Core(s) && Replaying(s, c, pc, t) && (pc == ReplayEntry || pc == ReplayWallet)
    ensures t.id in s.db.txs
  {
    hide Sound, IdsKnown, DeletedOk, Identified, Agrees;
    assert ClientOk(s, c, s.clients[c]);
  }

  /** A row that comes in with this step is replayed only afterwards. */
  lemma {:induction false} ReplayedLater(schedule: seq<Label>, l: Label, tail: seq<Label>, c: Id, pc: Pc, t: Tx, m: nat)
    requires Inserts(schedule, l, t.id) && Replaying(Before(schedule + [l] + tail, m), c, pc, t)
    requires pc == ReplayEntry || pc == ReplayWallet
    ensures |Run(schedule + [l]).db.ledger| <= |Before(schedule + [l] + tail, m).db.ledger|
  {
    hide Run, Core, Replaying;
    var all := schedule + [l] + tail;
    if m <= |schedule| {
      assert all[..m] == schedule[..m];
      NotThereBefore(schedule, m, t.id);
    }
    BeforeEvolves(all, m);
    ReplayedRowIsThere(Before(all, m), c, pc, t);
    if |schedule| < m <= |all| {
      assert all[..m] == schedule + [l] + all[|schedule| + 1..m];
      EvolvesAlong(schedule + [l], all[|schedule| + 1..m]);
    } else if m > |all| {
      EvolvesAlong(schedule + [l], tail);
    }
  }

  lemma {:induction false} NotThereBefore(schedule: seq<Label>, m: nat, id: Id)
    requires m <= |schedule| && id !in Run(schedule).db.txs
    ensures id !in Run(schedule[..m]).db.txs
  {
    hide Run;
    EvolvesAlong(schedule[..m], schedule[m..]);
    assert schedule[..m] + schedule[m..] == schedule;
  }

  lemma EntriesOfRows(s: State, i: nat)
    requires Core(s) && i < |s.db.ledger|
    ensures s.db.ledger[i].transactionId in s.db.txs
  {
    hide RowsOk, IndexOk, WalletsOk, EventsOk, InboxOk, ReversalsOk, SettledHaveEntries, IdsKnown, ClientsOk, DeletedOk;
    assert EntryOk(s.db, s.db.ledger[i]);
  }

  /** The row's entry comes in no earlier than the row. */
  lemma {:induction false} EnteredNoEarlier(schedule: seq<Label>, l: Label, tail: seq<Label>, t: Tx, db: Db, p: nat)
    requires Inserts(schedule, l, t.id) && EntryMoment(db, t, p) && Evolves(db, Run(schedule + [l] + tail).db)
    ensures |Run(schedule + [l]).db.ledger| <= p
  {
    hide Run, Core, Next;
    ReachableIsCore(schedule);
    RunStep(schedule, l);
    OneEntryAtMost(Run(schedule), l);
    EvolvesAlong(schedule, [l] + tail);
    assert schedule + ([l] + tail) == schedule + [l] + tail;
    if p <= |Run(schedule).db.ledger| {
      EntriesOfRows(Run(schedule), p - 1);
    }
  }

  lemma {:induction false} MomentAfterInsertion(schedule: seq<Label>, l: Label, tail: seq<Label>, c: Id, t: Tx, p: nat)
    requires Inserts(schedule, l, t.id) && ReplayMoment(schedule + [l] + tail, c, t, p)
    ensures |Run(schedule + [l]).db.ledger| <= p
  {
    hide Run, Core, Before, FoundAt, EntryMoment, Inserts, IsStep, Replaying, Evolves, Settles;
    var all := schedule + [l] + tail;
    var n: nat, m: nat :|
      ReadBy(all, n, m, c, t)
      && if FoundAt(all, n, t) then EntryMoment(Before(all, n).db, t, p) else p == |Before(all, m).db.ledger|;
    if FoundAt(all, n, t) {
      BeforeEvolves(all, n);
      EnteredNoEarlier(schedule, l, tail, t, Before(all, n).db, p);
    } else {
      ReplayedLater(schedule, l, tail, c, ReplayWallet, t, m);
    }
  }

  lemma CommittedRowsHaveWallets(s: State, t: Tx)
    requires Core(s) && KnownRow(s.db, t)
    ensures t.WalletId() in s.db.wallets
  {
    hide IndexOk, WalletsOk, LedgerOk, EventsOk, InboxOk, ReversalsOk, SettledHaveEntries, IdsKnown, ClientsOk,
      DeletedOk, WellFormed;
  }

  /** A replay answers the balance the wallet had right after the commit that brought the row in, if and
      only if what the wallet has moved from then to the moment of the replay comes to nothing. */
  lemma {:induction false} ReplayRepeatsTheCommitExactly(schedule: seq<Label>, l: Label, tail: seq<Label>,
                                                         c: Id, t: Tx, balance: Money)
    requires Inserts(schedule, l, t.id)
    requires IsAnswered(Run(schedule + [l] + tail), c, Accepted(t, balance, true))
    ensures exists p: nat ::
              var db, later := Run(schedule + [l]).db, Run(schedule + [l] + tail).db;
              && ReplayMoment(schedule + [l] + tail, c, t, p)
              && |db.ledger| <= p <= |later.ledger|
              && (WalletBalance(db, t.WalletId()) == Some(balance) <==>
                    MovedBetween(later.ledger, t.WalletId(), |db.ledger|, p) == 0)
  {
    hide Run, Core, ReplayMoment, MovedBetween, IsAnswered, LedgerOf, Total, Evolves, WalletsOk, LedgerOk;
    var all := schedule + [l] + tail;
    var db, later := Run(schedule + [l]).db, Run(all).db;
    var p := ReplaysHaveMoments(all, c, t, balance);
    MomentAfterInsertion(schedule, l, tail, c, t, p);
    ReachableIsCore(schedule + [l]);
    ReachableIsCore(all);
    EvolvesAlong(schedule + [l], tail);
    AnsweredRowIsKnown(Run(all), c, t, balance, true);
    KnownEarlier(db, later, t);
    CommittedRowsHaveWallets(Run(schedule + [l]), t);
    CoreLedger(Run(schedule + [l]));
    StandingBalance(db, t.WalletId());
    MomentStays(db, later, t.WalletId(), |db.ledger|, db.wallets[t.WalletId()].balance);
    EqualExactly(later, t.WalletId(), |db.ledger|, db.wallets[t.WalletId()].balance, p, balance);
  }
}
