/** Opening a wallet: the wallet, its opening transaction, entry and events in one commit
    (internal/app/wallet_create.go). */
module WalletCreators {
  import opened Prelude
  import opened Moneys
  import opened Wallets
  import opened Wagers
  import opened Tables
  import opened Decisions
  import opened Protocol
  import opened Integrity
  import opened Calls
  import opened CoreSteps
  import opened CoreTheorem
  import opened Histories
  import opened Stores
  import opened Submitters

  /** No wallet of the player in the currency, before or at the insert: then the writes of the
      opening, whole; otherwise nothing. */
  method Create(store: Store, call: Id, now: int, playerId: Id, initialBalance: Money) returns (r: Result<WalletRow>)
    requires store.Now() == Session(store.db, false, false, NoWrites)
    requires call !in Arrived(store.db, store.arrivals).wallets && call !in Arrived(store.db, store.arrivals).txs
    requires forall i :: 0 <= i < |Arrived(store.db, store.arrivals).ledger| ==>
                           Arrived(store.db, store.arrivals).ledger[i].transactionId != call
    modifies store
    ensures store.Now() == Session(store.db, false, false, NoWrites)
    ensures var before, meanwhile := old(store.db), Arrived(old(store.db), old(store.arrivals));
            var opening := OpenWallet(call, now, playerId, initialBalance);
            if WalletTaken(before, playerId, initialBalance.currency) then
              r == Err(WalletAlreadyExists) && store.db == before
            else if opening.Err? then
              r == Err(opening.error) && store.db == before
            else if WalletTaken(meanwhile, playerId, initialBalance.currency) then
              r == Err(WalletAlreadyExists) && store.db == meanwhile
            else
              opening.value.wallet.Some? && r == Ok(opening.value.wallet.value)
              && store.db == Apply(meanwhile, opening.value)
  {
    hide Apply, WalletTaken, NewLedgerEntry;
    if WalletTaken(store.db, playerId, initialBalance.currency) {
      return Err(WalletAlreadyExists);
    }
    var created := NewWallet(call, playerId, initialBalance);
    if created.Err? {
      return Err(created.error);
    }
    var w := created.value;
    if initialBalance.IsZero() {
      store.Meanwhile();
      var saved := store.SaveWallet(w);
      if saved.Err? {
        return Err(saved.error);
      }
      return Ok(w);
    }
    var opening := NewOpeningTransaction(call, now, playerId, w.id, initialBalance);
    if opening.Err? {
      return Err(opening.error);
    }
    var tx := opening.value;
    var entry := LedgerEntry(call, w.id, tx.id, Credit, initialBalance, Zero(initialBalance.currency), initialBalance);
    var checked := NewLedgerEntry(entry);
    if checked.Err? {
      return Err(checked.error);
    }
    store.Meanwhile();
    var joined := store.Begin();
    var saved := store.SaveWallet(w);
    if saved.Err? {
      store.End(joined, false);
      return Err(saved.error);
    }
    saved := store.SaveTx(tx);
    saved := store.SaveLedgerEntry(entry);
    store.SaveEvents([ProcessedEvent(tx, call), BalanceChangedEvent(w, entry, call)]);
    assert store.staged == OpenWallet(call, now, playerId, initialBalance).value;
    store.End(joined, true);
    return Ok(w);
  }

  // ----- what an opening writes -----

  /** Opening a wallet refuses a negative balance, and otherwise writes the wallet of this player with this
      balance at version 1; for a positive balance also its processed opening, the entry that credits it from
      zero, and both events; for zero nothing else. */
  lemma OpensExactly(call: Id, now: int, playerId: Id, initialBalance: Money)
    ensures var r := OpenWallet(call, now, playerId, initialBalance);
            if initialBalance.amount < 0 then r == Err(NegativeInitialBalance)
            else
              && r.Ok? && r.value.inbox.None?
              && r.value.wallet == Some(WalletRow(call, playerId, 1, initialBalance))
              && (if initialBalance.amount == 0 then r.value.row.None? && r.value.entry.None? && r.value.events == []
                  else
                    && r.value.row == Some(Tx(call, Processed, Key("", ""),
                                              Payload(playerId, call, "", "", Opening, initialBalance, None), None,
                                              None, now))
                    && r.value.entry == Some(LedgerEntry(call, call, call, Direction.Credit, initialBalance,
                                                         Money(initialBalance.currency, 0), initialBalance))
                    && r.value.events ==
                       [Event(EventId(call, 0), call, None, TransactionProcessed(call, Opening, initialBalance)),
                        Event(EventId(call, 1), call, Some(EventId(call, 0)),
                              WalletBalanceChanged(call, call, Direction.Credit, initialBalance,
                                                   Money(initialBalance.currency, 0), initialBalance, 1))])
  {
    LedgerEntryAcceptedExactly(LedgerEntry(call, call, call, Direction.Credit, initialBalance,
                                           Money(initialBalance.currency, 0), initialBalance));
  }

  // ----- one wallet per player and currency -----

  /** Nobody has two wallets in one currency. */
  predicate OneEach(db: Db) {
    forall v, w | v in db.wallets && w in db.wallets && db.wallets[v].playerId == db.wallets[w].playerId
                  && db.wallets[v].balance.currency == db.wallets[w].balance.currency :: v == w
  }

  /** Every wallet keeps its player and its currency. */
  predicate WalletsKept(db: Db, later: Db) {
    forall w :: w in db.wallets ==>
      && w in later.wallets && later.wallets[w].id == db.wallets[w].id
      && later.wallets[w].playerId == db.wallets[w].playerId
      && later.wallets[w].balance.currency == db.wallets[w].balance.currency
  }

  /** Only an opening adds a wallet. */
  lemma CommitsAddNoWallet(s: State, l: Label)
    requires Core(s) && Commits(s, l)
    ensures WalletsKept(s.db, Next(s, l).db) && Next(s, l).db.wallets.Keys == s.db.wallets.Keys
  {
    hide Core, At, WritesOk, Next, StepCommit, Staged;
    CommitStep(s, l);
  }

  lemma OpeningAddsItsWallet(s: State, l: Label)
    requires Core(s) && Opens(s, l)
    ensures var w := WalletRow(l.call, l.playerId, 1, l.initialBalance);
            Next(s, l).db.wallets == s.db.wallets[l.call := w] && l.call !in s.db.wallets
            && !WalletTaken(s.db, w.playerId, w.balance.currency)
  {
    hide Core, WritesOk, OpenWallet;
    OpenStep(s, l);
    OpensExactly(l.call, l.now, l.playerId, l.initialBalance);
    assert Next(s, l) == BeginOpenWallet(s, l.call, l.now, l.playerId, l.initialBalance);
  }

  lemma StaysOneEach(s: State, l: Label)
    requires Core(s) && OneEach(s.db)
    ensures OneEach(Next(s, l).db) && WalletsKept(s.db, Next(s, l).db)
  {
    hide Core, Next, OpenWallet;
    if Commits(s, l) {
      CommitsAddNoWallet(s, l);
    } else if Opens(s, l) {
      OpeningAddsItsWallet(s, l);
    } else if l.OpenWalletCall? {
      UnopenedStep(s, l);
    } else {
      QuietStep(s, l);
    }
  }

  /** In every run a player has at most one wallet in a currency, and a wallet keeps both for good. */
  lemma {:induction false} OneWalletPerPlayerAndCurrency(schedule: seq<Label>, tail: seq<Label>)
    ensures OneEach(Run(schedule).db) && WalletsKept(Run(schedule).db, Run(schedule + tail).db)
    decreases |tail|, |schedule|
  {
    hide Core, Next, Run, OneEach;
    if tail != [] {
      var n := |tail| - 1;
      OneWalletPerPlayerAndCurrency(schedule, tail[..n]);
      assert schedule + tail == schedule + tail[..n] + [tail[n]];
      ReachableIsCore(schedule + tail[..n]);
      AllOneEach(schedule + tail[..n]);
      RunStep(schedule + tail[..n], tail[n]);
      StaysOneEach(Run(schedule + tail[..n]), tail[n]);
    } else {
      assert schedule + tail == schedule;
      AllOneEach(schedule);
    }
  }

  lemma {:induction false} AllOneEach(schedule: seq<Label>)
    ensures OneEach(Run(schedule).db)
  {
    hide Core, Next;
    if schedule != [] {
      var n := |schedule| - 1;
      AllOneEach(schedule[..n]);
      ReachableIsCore(schedule[..n]);
      StaysOneEach(Run(schedule[..n]), schedule[n]);
    }
  }

  // ----- the creator and the protocol -----

  /** What creating a wallet leaves of the tables when nobody commits in between. */
  function CreatedDb(db: Db, call: Id, now: int, playerId: Id, initialBalance: Money): Db {
    if WalletTaken(db, playerId, initialBalance.currency) || OpenWallet(call, now, playerId, initialBalance).Err?
       then db
    else Apply(db, OpenWallet(call, now, playerId, initialBalance).value)
  }

  /** The protocol's opening leaves the tables as the creator does: refused exactly when the player has a
      wallet in the currency or the balance is negative, and else written whole. */
  lemma CreatorAndProtocolAgree(s: State, call: Id, now: int, playerId: Id, initialBalance: Money)
    requires call !in s.clients
    ensures var later := Next(s, OpenWalletCall(call, now, playerId, initialBalance));
            && later.db == CreatedDb(s.db, call, now, playerId, initialBalance)
            && (call in later.clients <==>
                  initialBalance.amount >= 0
                  && !exists w :: w in s.db.wallets && s.db.wallets[w].playerId == playerId
                                  && s.db.wallets[w].balance.currency == initialBalance.currency)
  {
    hide OpenWallet, Apply;
    OpensExactly(call, now, playerId, initialBalance);
    assert Next(s, OpenWalletCall(call, now, playerId, initialBalance)) ==
           BeginOpenWallet(s, call, now, playerId, initialBalance);
  }
}
