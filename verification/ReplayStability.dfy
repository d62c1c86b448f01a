/** Where the balance of an accepted answer comes from, in every run: of a replay, the row's ledger
    entry if the lookup found one, and otherwise the wallet at the step that read it; of a call's own
    decision, its entry, or the wallet as read. So a settled transaction is answered, the first time
    and on every replay, with the balance its own commit left. Any number of resolvers. */
module ReplayStability {
  import opened Prelude
  import opened Moneys
  import opened Wallets
  import opened Wagers
  import opened Tables
  import opened Protocol
  import opened Integrity
  import opened Calls
  import opened CoreSteps
  import opened CoreTheorem
  import opened Histories
  import opened OwnSteps

  // ----- where a balance is read -----

  predicate IsStep(schedule: seq<Label>, n: nat, l: Label) {
    n < |schedule| && schedule[n] == l
  }

  /** The state before the n-th step. */
  function Before(schedule: seq<Label>, n: nat): State {
    if n <= |schedule| then Run(schedule[..n]) else Run(schedule)
  }

  predicate Replaying(s: State, c: Id, pc: Pc, t: Tx) {
    c in s.clients && s.clients[c].pc == pc && s.clients[c].existing == Some(t)
  }

  /** The n-th step of the run: the call looks for the entry of the row it found. */
  predicate LooksUp(schedule: seq<Label>, n: nat, c: Id, t: Tx) {
    IsStep(schedule, n, AdvanceCall(c)) && Replaying(Before(schedule, n), c, ReplayEntry, t)
  }

  /** The m-th step of the run: without an entry, the call reads the row's wallet. */
  predicate ReadsWallet(schedule: seq<Label>, m: nat, c: Id, t: Tx) {
    IsStep(schedule, m, AdvanceCall(c)) && Replaying(Before(schedule, m), c, ReplayWallet, t)
  }

  predicate FoundAt(schedule: seq<Label>, n: nat, t: Tx) {
    Found(Before(schedule, n).db, t.id)
  }

  /** The call looks the entry up at step n and, only for an unsettled row without an entry, reads
      the wallet at step m. */
  predicate ReadBy(schedule: seq<Label>, n: nat, m: nat, c: Id, t: Tx) {
    LooksUp(schedule, n, c, t)
    && (!FoundAt(schedule, n, t) ==> n < m && !Settles(t) && ReadsWallet(schedule, m, c, t))
  }

  function EntryBalance(db: Db, id: Id): Option<Money> {
    match db.FindLedgerEntry(id)
    case Some(e) => Some(e.balanceAfter)
    case None => None
  }

  function WalletBalance(db: Db, w: Id): Option<Money> {
    if w in db.wallets then Some(db.wallets[w].balance) else None
  }

  /** What is read that way. */
  function BalanceRead(schedule: seq<Label>, n: nat, m: nat, t: Tx): Option<Money> {
    if FoundAt(schedule, n, t) then EntryBalance(Before(schedule, n).db, t.id)
    else WalletBalance(Before(schedule, m).db, t.WalletId())
  }

  ghost predicate Sourced(schedule: seq<Label>, c: Id, r: Reply) {
    exists n: nat, m: nat :: ReadBy(schedule, n, m, c, r.tx) && BalanceRead(schedule, n, m, r.tx) == Some(r.balance)
  }

  ghost predicate LookedInVain(schedule: seq<Label>, c: Id, t: Tx) {
    !Settles(t) && exists n: nat :: LooksUp(schedule, n, c, t) && !FoundAt(schedule, n, t)
  }

  predicate Reporting(s: State, c: Id, t: Tx) {
    && c in s.clients && (s.clients[c].pc == ReadBalance || s.clients[c].pc == Commit)
    && s.clients[c].decision.Some? && s.clients[c].decision.value.tx == t
  }

  /** The m-th step of the run: the call, having decided this row, reads its wallet for the answer, or
      commits what it decided under the wallet's lock. */
  predicate ReadsOwnAt(schedule: seq<Label>, m: nat, c: Id, t: Tx) {
    IsStep(schedule, m, AdvanceCall(c)) && Reporting(Before(schedule, m), c, t)
  }

  ghost predicate OwnSourced(schedule: seq<Label>, c: Id, r: Reply) {
    exists m: nat ::
      ReadsOwnAt(schedule, m, c, r.tx) && WalletBalance(Before(schedule, m).db, r.tx.WalletId()) == Some(r.balance)
  }

  /** What a call replays or reports, or is about to, has its source in the run so far. */
  ghost predicate SourceKnown(schedule: seq<Label>, db: Db, c: Id, k: Client) {
    && (k.pc == ReplayEntry ==> LooksUpNext(db, k))
    && (k.pc == ReplayWallet ==> k.existing.Some? && LookedInVain(schedule, c, k.existing.value))
    && (Replayed(k).Some? ==> Sourced(schedule, c, Replayed(k).value))
    && Unread(k)
    && (Reported(k).Some? ==> OwnSourced(schedule, c, Reported(k).value))
  }

  ghost predicate SourceKnownIn(schedule: seq<Label>, s: State, c: Id) {
    c in s.clients && SourceKnown(schedule, s.db, c, s.clients[c])
  }

  // ----- as the run goes on -----

  lemma BeforeStays(schedule: seq<Label>, l: Label, n: nat)
    requires n <= |schedule|
    ensures Before(schedule + [l], n) == Before(schedule, n)
  {
    hide Run;
    assert (schedule + [l])[..n] == schedule[..n];
  }

  lemma BeforeTheLast(schedule: seq<Label>, l: Label)
    ensures Before(schedule + [l], |schedule|) == Run(schedule) && IsStep(schedule + [l], |schedule|, l)
  {
    hide Run;
    assert (schedule + [l])[..|schedule|] == schedule;
  }

  lemma StillSourced(schedule: seq<Label>, l: Label, c: Id, r: Reply)
    requires Sourced(schedule, c, r)
    ensures Sourced(schedule + [l], c, r)
  {
    hide Before, Found, Settles;
    var n: nat, m: nat :| ReadBy(schedule, n, m, c, r.tx) && BalanceRead(schedule, n, m, r.tx) == Some(r.balance);
    BeforeStays(schedule, l, n);
    if m <= |schedule| {
      BeforeStays(schedule, l, m);
    }
    assert ReadBy(schedule + [l], n, m, c, r.tx);
  }

  lemma StillOwnSourced(schedule: seq<Label>, l: Label, c: Id, r: Reply)
    requires OwnSourced(schedule, c, r)
    ensures OwnSourced(schedule + [l], c, r)
  {
    hide Before;
    var m: nat :|
      ReadsOwnAt(schedule, m, c, r.tx) && WalletBalance(Before(schedule, m).db, r.tx.WalletId()) == Some(r.balance);
    BeforeStays(schedule, l, m);
    assert ReadsOwnAt(schedule + [l], m, c, r.tx);
  }

  lemma StillInVain(schedule: seq<Label>, l: Label, c: Id, t: Tx)
    requires LookedInVain(schedule, c, t)
    ensures LookedInVain(schedule + [l], c, t)
  {
    hide Before, Found, Settles;
    var n: nat :| LooksUp(schedule, n, c, t) && !FoundAt(schedule, n, t);
    BeforeStays(schedule, l, n);
    assert LooksUp(schedule + [l], n, c, t);
  }

  /** The entry is there for good. */
  lemma StillFound(db: Db, later: Db, k: Client)
    requires LooksUpNext(db, k) && Evolves(db, later)
    ensures LooksUpNext(later, k)
  {
    hide Settles, Found;
    if Settles(k.existing.value) {
      FoundExactly(db, k.existing.value.id);
      HasEntryStays(db, later, k.existing.value.id);
      FoundExactly(later, k.existing.value.id);
    }
  }

  lemma SourceStaysKnown(schedule: seq<Label>, l: Label, db: Db, later: Db, c: Id, k: Client)
    requires SourceKnown(schedule, db, c, k) && Evolves(db, later)
    ensures SourceKnown(schedule + [l], later, c, k)
  {
    hide LooksUpNext, Sourced, LookedInVain, OwnSourced, Evolves, Replayed, Reported, Unread;
    if k.pc == ReplayEntry {
      StillFound(db, later, k);
    } else if k.pc == ReplayWallet {
      StillInVain(schedule, l, c, k.existing.value);
    }
    if Replayed(k).Some? {
      StillSourced(schedule, l, c, Replayed(k).value);
    }
    if Reported(k).Some? {
      StillOwnSourced(schedule, l, c, Reported(k).value);
    }
  }

  lemma NothingToKnow(schedule: seq<Label>, db: Db, c: Id, k: Client)
    requires NotReplaying(k) && Unread(k) && Reported(k).None?
    ensures SourceKnown(schedule, db, c, k)
  {
    hide Sourced, LookedInVain, OwnSourced, Unread, Reported;
  }

  lemma SourcedByEntry(schedule: seq<Label>, c: Id, k: Client, r: Reply)
    requires Replaying(Run(schedule), c, ReplayEntry, r.tx) && ReadFromEntry(Run(schedule), k, r)
    ensures Sourced(schedule + [AdvanceCall(c)], c, r)
  {
    hide Run, Before, Settles, EntryFor;
    BeforeTheLast(schedule, AdvanceCall(c));
    assert ReadBy(schedule + [AdvanceCall(c)], |schedule|, |schedule|, c, r.tx);
  }

  lemma SourcedByWallet(schedule: seq<Label>, c: Id, k: Client, r: Reply)
    requires Replaying(Run(schedule), c, ReplayWallet, r.tx) && ReadFromWallet(Run(schedule), k, r)
    requires LookedInVain(schedule, c, r.tx)
    ensures Sourced(schedule + [AdvanceCall(c)], c, r)
  {
    hide Run, Before, Settles, Found;
    var n: nat :| LooksUp(schedule, n, c, r.tx) && !FoundAt(schedule, n, r.tx);
    BeforeStays(schedule, AdvanceCall(c), n);
    BeforeTheLast(schedule, AdvanceCall(c));
    assert ReadBy(schedule + [AdvanceCall(c)], n, |schedule|, c, r.tx);
  }

  lemma NowInVain(schedule: seq<Label>, c: Id, t: Tx)
    requires Replaying(Run(schedule), c, ReplayEntry, t) && !Found(Run(schedule).db, t.id) && !Settles(t)
    ensures LookedInVain(schedule + [AdvanceCall(c)], c, t)
  {
    hide Run, Before, Settles, Found;
    BeforeTheLast(schedule, AdvanceCall(c));
    assert LooksUp(schedule + [AdvanceCall(c)], |schedule|, c, t);
  }

  lemma ReplayingAt(s: State, c: Id, k: Client, r: Reply)
    requires At(s, c, k, k.pc) && (ReadFromEntry(s, k, r) || ReadFromWallet(s, k, r))
    ensures Replaying(s, c, k.pc, r.tx)
    ensures if ReadFromEntry(s, k, r) then k.pc == ReplayEntry else k.pc == ReplayWallet && k.existing == Some(r.tx)
  {
    hide ClientOk;
  }

  lemma SourcedByItself(schedule: seq<Label>, c: Id, k: Client, r: Reply)
    requires At(Run(schedule), c, k, k.pc) && ReadsOwn(Run(schedule), k, r)
    ensures OwnSourced(schedule + [AdvanceCall(c)], c, r)
  {
    hide Run, Before, ClientOk;
    BeforeTheLast(schedule, AdvanceCall(c));
    assert ReadsOwnAt(schedule + [AdvanceCall(c)], |schedule|, c, r.tx);
  }

  lemma ReportIsSourced(schedule: seq<Label>, c: Id, k: Client, k': Client)
    requires At(Run(schedule), c, k, k.pc) && Unread(k)
             && (Reported(k).Some? ==> OwnSourced(schedule, c, Reported(k).value))
    requires ReportTraced(Run(schedule), k, k')
    ensures Unread(k') && (Reported(k').Some? ==> OwnSourced(schedule + [AdvanceCall(c)], c, Reported(k').value))
  {
    hide Run, At, OwnSourced, ReadsOwn, Reported, Unread;
    if Reported(k').Some? {
      if ReadsOwn(Run(schedule), k, Reported(k').value) {
        SourcedByItself(schedule, c, k, Reported(k').value);
      } else {
        StillOwnSourced(schedule, AdvanceCall(c), c, Reported(k').value);
      }
    }
  }

  /** A call's own step, when it changes the call. */
  lemma TracedStepIsSourced(schedule: seq<Label>, later: Db, c: Id, k: Client, k': Client)
    requires At(Run(schedule), c, k, k.pc) && SourceKnown(schedule, Run(schedule).db, c, k)
    requires k' != k && StepTraced(Run(schedule), k, k') && Evolves(Run(schedule).db, later)
    ensures SourceKnown(schedule + [AdvanceCall(c)], later, c, k')
  {
    hide Run, ClientOk, Sourced, LookedInVain, OwnSourced, Evolves, Settles, Found, ReadFromEntry, ReadFromWallet,
      Replayed, Reported, Unread, ReportTraced;
    var s := Run(schedule);
    ReportIsSourced(schedule, c, k, k');
    if k'.pc == ReplayEntry {
      StillFound(s.db, later, k');
    } else if k'.pc == ReplayWallet {
      NowInVain(schedule, c, k.existing.value);
    }
    if Replayed(k').Some? {
      var r := Replayed(k').value;
      if ReadFromEntry(s, k, r) {
        ReplayingAt(s, c, k, r);
        SourcedByEntry(schedule, c, k, r);
      } else if ReadFromWallet(s, k, r) {
        ReplayingAt(s, c, k, r);
        SourcedByWallet(schedule, c, k, r);
      } else {
        StillSourced(schedule, AdvanceCall(c), c, r);
      }
    }
  }

  lemma BegunKnows(schedule: seq<Label>, s: State, c: Id)
    requires BegunIn(s, c)
    ensures SourceKnownIn(schedule, s, c)
  {
    hide SourceKnown, NotReplaying, Unread, Reported;
    NothingToKnow(schedule, s.db, c, s.clients[c]);
  }

  /** One step more. */
  lemma SourceKnownNext(schedule: seq<Label>, l: Label, c: Id)
    requires c in Run(schedule).clients && SourceKnownIn(schedule, Run(schedule), c)
    ensures SourceKnownIn(schedule + [l], Run(schedule + [l]), c)
  {
    hide Run, Core, Next, Advance, SourceKnown, StepTraced, Evolves, At, NotReplaying, Unread, Reported;
    ReachableIsCore(schedule);
    RunStep(schedule, l);
    var s, later, k := Run(schedule), Run(schedule + [l]), Run(schedule).clients[c];
    AtItsPoint(s, c);
    NextEvolves(s, l);
    if l == AdvanceCall(c) {
      AdvanceTraced(s, c, k);
      AdvanceIsNext(s, c);
      if later.clients[c] == k {
        SourceStaysKnown(schedule, l, s.db, later.db, c, k);
      } else {
        TracedStepIsSourced(schedule, later.db, c, k, later.clients[c]);
      }
    } else {
      OthersSpare(s, l, c, k);
      if later.clients[c] == k {
        SourceStaysKnown(schedule, l, s.db, later.db, c, k);
      } else {
        CrashedReplaysNothing(k);
        NothingToKnow(schedule + [l], later.db, c, later.clients[c]);
      }
    }
  }

  lemma CrashedReplaysNothing(k: Client)
    ensures var dead := k.(pc := Dead, answer := None); NotReplaying(dead) && Unread(dead) && Reported(dead).None?
  {
  }

  lemma {:induction false} EverySourceIsKnown(schedule: seq<Label>, c: Id)
    requires c in Run(schedule).clients
    ensures SourceKnownIn(schedule, Run(schedule), c)
    decreases |schedule|
  {
    hide Core, Next, SourceKnownIn, BegunIn;
    if schedule != [] {
      var init, l := schedule[..|schedule| - 1], schedule[|schedule| - 1];
      assert schedule == init + [l];
      if c in Run(init).clients {
        EverySourceIsKnown(init, c);
        SourceKnownNext(init, l, c);
      } else {
        ReachableIsCore(init);
        CallsBegin(Run(init), l, c);
        BegunKnows(schedule, Run(schedule), c);
      }
    }
  }

  // ----- main results -----

  /** The call has been answered like this. */
  predicate IsAnswered(s: State, c: Id, answer: Answer) {
    c in s.clients && s.clients[c].answer == Some(answer)
  }

  /** Every accepted replay of every run, by HTTP or from the queue: its balance is the one of the
      ledger entry if the lookup found one, and otherwise the one the wallet had at the step that
      read it. Only a row that is not settled is answered the second way. */
  lemma {:induction false} ReplaysAreSourced(schedule: seq<Label>, c: Id, t: Tx, balance: Money)
    requires IsAnswered(Run(schedule), c, Accepted(t, balance, true))
    ensures exists n: nat, m: nat :: ReadBy(schedule, n, m, c, t) && BalanceRead(schedule, n, m, t) == Some(balance)
  {
    hide Run, ReadBy, BalanceRead;
    EverySourceIsKnown(schedule, c);
    assert Sourced(schedule, c, Reply(t, balance));
  }

  /** The entry a lookup found is there for good. */
  lemma {:induction false} EntryReadStays(schedule: seq<Label>, n: nat, m: nat, c: Id, t: Tx, balance: Money)
    requires LooksUp(schedule, n, c, t) && FoundAt(schedule, n, t) && BalanceRead(schedule, n, m, t) == Some(balance)
    ensures EntryLeaves(Run(schedule).db, t.id, balance)
  {
    hide Run, EntryLeaves, Evolves, EntryFor, Replaying;
    FoundEntryLeaves(Run(schedule[..n]).db, t.id, balance);
    EvolvesAlong(schedule[..n], schedule[n..]);
    assert schedule[..n] + schedule[n..] == schedule;
    LedgerGrows(Run(schedule[..n]).db, Run(schedule).db);
    EntryLeavesStays(Run(schedule[..n]).db, Run(schedule).db, t.id, balance);
  }

  lemma FoundEntryLeaves(db: Db, id: Id, balance: Money)
    requires EntryBalance(db, id) == Some(balance)
    ensures EntryLeaves(db, id, balance)
  {
  }

  lemma LedgerGrows(db: Db, later: Db)
    requires Evolves(db, later)
    ensures db.ledger <= later.ledger
  {
  }

  /** The answer for a settled transaction, fresh or replayed, carries its own entry's balance. */
  lemma {:induction false} SettledAnswerIsItsEntry(schedule: seq<Label>, c: Id, t: Tx, balance: Money, replay: bool)
    requires IsAnswered(Run(schedule), c, Accepted(t, balance, replay)) && Settles(t)
    ensures EntryLeaves(Run(schedule).db, t.id, balance)
  {
    hide Run, Core, Settles, EntryLeaves, LooksUp, FoundAt, BalanceRead;
    if replay {
      ReplaysAreSourced(schedule, c, t, balance);
      var n: nat, m: nat :| ReadBy(schedule, n, m, c, t) && BalanceRead(schedule, n, m, t) == Some(balance);
      EntryReadStays(schedule, n, m, c, t, balance);
    } else {
      ReachableIsCore(schedule);
      FreshAnswerIsItsEntry(Run(schedule), c, t, balance);
    }
  }

  lemma FreshAnswerIsItsEntry(s: State, c: Id, t: Tx, balance: Money)
    requires Core(s) && IsAnswered(s, c, Accepted(t, balance, false)) && Settles(t)
    ensures EntryLeaves(s.db, t.id, balance)
  {
    hide Sound, IdsKnown, DeletedOk, Settles, EntryLeaves, Committed, MessageDone;
    assert ClientOk(s, c, s.clients[c]);
  }

  /** The answer for a transaction that its own call decided without moving the wallet, a loss, a
      rejection or a parking, carries the wallet's balance at the step that read it: at the commit, if
      it was decided under the lock, and else when it asked for it. */
  lemma {:induction false} FreshAnswersAreSourced(schedule: seq<Label>, c: Id, t: Tx, balance: Money)
    requires IsAnswered(Run(schedule), c, Accepted(t, balance, false)) && !Settles(t)
    ensures exists m: nat ::
              ReadsOwnAt(schedule, m, c, t) && WalletBalance(Before(schedule, m).db, t.WalletId()) == Some(balance)
  {
    hide Run, ReadsOwnAt, WalletBalance, Settles;
    EverySourceIsKnown(schedule, c);
    assert OwnSourced(schedule, c, Reply(t, balance));
  }

  lemma OneBalanceEach(db: Db, id: Id, a: Money, b: Money)
    requires LedgerOk(db) && EntryLeaves(db, id, a) && EntryLeaves(db, id, b)
    ensures a == b
  {
    hide EntryOk;
  }

  /** The step that enters a transaction in the ledger leaves its wallet at the entry's balance. */
  predicate Enters(schedule: seq<Label>, l: Label, e: LedgerEntry) {
    Run(schedule + [l]).db.ledger == Run(schedule).db.ledger + [e]
  }

  lemma {:induction false} EntryRecordsItsCommit(schedule: seq<Label>, l: Label, e: LedgerEntry)
    requires Enters(schedule, l, e)
    ensures WalletBalance(Run(schedule + [l]).db, e.walletId) == Some(e.balanceAfter)
  {
    hide Run, Core;
    ReachableIsCore(schedule + [l]);
    LastEntryCloses(Run(schedule + [l]), Run(schedule).db.ledger, e);
  }

  lemma LastEntryCloses(s: State, ledger: seq<LedgerEntry>, e: LedgerEntry)
    requires Core(s) && s.db.ledger == ledger + [e]
    ensures WalletBalance(s.db, e.walletId) == Some(e.balanceAfter)
  {
    hide IdsKnown, DeletedOk, ClientsOk, Moves, OpensFirst, RowsOk, IndexOk, EventsOk, InboxOk, ReversalsOk,
      SettledHaveEntries;
    assert s.db.ledger[|ledger|] == e && EntryOk(s.db, e);
    LedgerOfAppend(ledger, e, e.walletId);
    assert WalletOk(s.db, e.walletId);
    LastEntryIsTheBalance(s.db.wallets[e.walletId], LedgerOf(s.db.ledger, e.walletId), e);
  }

  lemma LastEntryIsTheBalance(w: WalletRow, own: seq<LedgerEntry>, e: LedgerEntry)
    requires Chained(own, w.balance.currency) && w.balance.amount == Closing(own)
    requires own != [] && own[|own| - 1] == e
    ensures w.balance == e.balanceAfter
  {
  }

  /** Replay stability: whatever follows the commit that settled a transaction, every accepted
      answer for it is the balance of its wallet right after that commit. */
  lemma {:induction false} ReplayRestoresTheBalance(schedule: seq<Label>, l: Label, e: LedgerEntry, tail: seq<Label>,
                                                    c: Id, t: Tx, balance: Money, replay: bool)
    requires Enters(schedule, l, e)
    requires IsAnswered(Run(schedule + [l] + tail), c, Accepted(t, balance, replay))
    requires Settles(t) && t.id == e.transactionId
    ensures WalletBalance(Run(schedule + [l]).db, e.walletId) == Some(balance)
  {
    hide Run, Core, LedgerOk, Settles, Evolves, IsAnswered, EntryLeaves;
    EntryRecordsItsCommit(schedule, l, e);
    SettledAnswerIsItsEntry(schedule + [l] + tail, c, t, balance, replay);
    EvolvesAlong(schedule + [l], tail);
    ReachableIsCore(schedule + [l] + tail);
    EnteredForGood(Run(schedule + [l]).db, Run(schedule).db.ledger, e, Run(schedule + [l] + tail).db);
    CoreLedgerOk(Run(schedule + [l] + tail));
    OneBalanceEach(Run(schedule + [l] + tail).db, t.id, balance, e.balanceAfter);
  }

  lemma EnteredForGood(db: Db, ledger: seq<LedgerEntry>, e: LedgerEntry, later: Db)
    requires db.ledger == ledger + [e] && Evolves(db, later)
    ensures EntryLeaves(later, e.transactionId, e.balanceAfter)
  {
    assert later.ledger[|ledger|] == e;
  }
}
