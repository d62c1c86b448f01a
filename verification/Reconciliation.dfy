/** Recomputing a wallet's balance from its ledger (internal/app/wallet_reconcile.go). */
module Reconciliation {
  import opened Prelude
  import opened Moneys
  import opened Wallets
  import opened Tables
  import opened Protocol
  import opened Integrity
  import opened Calls
  import opened CoreTheorem
  import opened Histories
  import opened Reversals
  import opened Stores

  datatype Report = Report(stored: Money, calculated: Money, difference: Money, consistent: bool, entriesChecked: nat)

  /** The running sum, entry by entry, in machine words. */
  function Calculated(entries: seq<LedgerEntry>, currency: Currency): Result<Money> {
    if entries == [] then Ok(Zero(currency))
    else
      var n := |entries| - 1;
      match Calculated(entries[..n], currency)
      case Err(e) => Err(e)
      case Ok(sum) =>
        if entries[n].direction == Credit then sum.Add(entries[n].amount) else sum.Subtract(entries[n].amount)
  }

  function Reconciled(stored: Money, entries: seq<LedgerEntry>): Result<Report> {
    match Calculated(entries, stored.currency)
    case Err(e) => Err(e)
    case Ok(calculated) =>
      match stored.Subtract(calculated)
      case Err(e) => Err(e)
      case Ok(difference) => Ok(Report(stored, calculated, difference, difference.IsZero(), |entries|))
  }

  lemma {:induction false} FailuresStay(entries: seq<LedgerEntry>, i: nat, currency: Currency)
    requires i <= |entries| && Calculated(entries[..i], currency).Err?
    ensures Calculated(entries, currency) == Calculated(entries[..i], currency)
    decreases |entries| - i
  {
    if i == |entries| {
      assert entries[..i] == entries;
    } else {
      assert entries[..i + 1][..i] == entries[..i];
      FailuresStay(entries, i + 1, currency);
    }
  }

  /** The sum of the entries, one by one, up to the first that does not fit. */
  method Calculate(entries: seq<LedgerEntry>, currency: Currency) returns (r: Result<Money>)
    ensures r == Calculated(entries, currency)
  {
    var calculated := Zero(currency);
    for i := 0 to |entries|
      invariant Calculated(entries[..i], currency) == Ok(calculated)
    {
      var e := entries[i];
      var sum := if e.direction == Credit then calculated.Add(e.amount) else calculated.Subtract(e.amount);
      assert entries[..i + 1][..i] == entries[..i];
      if sum.Err? {
        FailuresStay(entries, i + 1, currency);
        return Err(sum.error);
      }
      calculated := sum.value;
    }
    assert entries[..|entries|] == entries;
    return Ok(calculated);
  }

  /** What reconciling a wallet reports, on the tables as they are. */
  function ReconciledIn(db: Db, walletId: Id): Result<Report> {
    if walletId !in db.wallets then Err(WalletNotFound)
    else Reconciled(db.wallets[walletId].balance, LedgerOf(db.ledger, walletId))
  }

  lemma NothingToCommit(db: Db)
    ensures Apply(db, NoWrites) == db
  {
    assert db.events + [] == db.events;
  }

  /** Within one transaction, reads the wallet for update, then its entries, adds them up, and writes
      nothing. Between the two reads somebody else may commit, but not to the wallet locked. */
  method Reconcile(store: Store, walletId: Id) returns (r: Result<Report>)
    requires store.Now() == Session(store.db, false, false, NoWrites)
    requires walletId in store.db.wallets && store.arrivals != [] ==>
               SameWallet(store.db, Apply(store.db, store.arrivals[0]), walletId)
    modifies store
    ensures r == ReconciledIn(old(store.db), walletId)
    ensures walletId !in old(store.db).wallets ==> r == Err(WalletNotFound)
    ensures store.Now() == Session(if walletId in old(store.db).wallets && old(store.arrivals) != []
                                   then Apply(old(store.db), old(store.arrivals)[0]) else old(store.db),
                                   false, false, NoWrites)
  {
    hide Apply, Calculated, LedgerOf;
    var joined := store.Begin();
    var w := store.FindWallet(walletId);
    if w.Err? {
      store.End(joined, false);
      return Err(w.error);
    }
    store.Meanwhile();
    NothingToCommit(store.db);
    var stored := w.value.balance;
    var entries := store.AllLedgerEntries(walletId);
    var calculated := Calculate(entries, stored.currency);
    if calculated.Err? {
      store.End(joined, false);
      return Err(calculated.error);
    }
    var difference := stored.Subtract(calculated.value);
    if difference.Err? {
      store.End(joined, false);
      return Err(difference.error);
    }
    store.End(joined, true);
    return Ok(Report(stored, calculated.value, difference.value, difference.value.IsZero(), |entries|));
  }

  // ----- main results -----

  predicate InOneCurrency(entries: seq<LedgerEntry>, currency: Currency) {
    forall i :: 0 <= i < |entries| ==> entries[i].amount.IsPositive() && entries[i].amount.currency == currency
  }

  /** No prefix of the entries sums to more, or less, than a word holds. */
  predicate PrefixesFit(entries: seq<LedgerEntry>) {
    entries == [] || (PrefixesFit(entries[..|entries| - 1]) && InInt64(Total(entries)))
  }

  /** One entry more: exact, or an overflow. */
  lemma AddingOneMore(sum: Money, e: LedgerEntry)
    requires e.amount.IsPositive() && e.amount.currency == sum.currency
    ensures var r := if e.direction == Credit then sum.Add(e.amount) else sum.Subtract(e.amount);
            r == if InInt64(sum.amount + e.Movement())
            then Ok(Money(sum.currency, sum.amount + e.Movement())) else Err(Overflow)
  {
    AddIsExact(sum, e.amount);
    SubtractIsExact(sum, e.amount);
  }

  /** The running sum is the exact one, and there is one exactly when every prefix fits. */
  lemma {:induction false} CalculatedExactly(entries: seq<LedgerEntry>, currency: Currency)
    requires InOneCurrency(entries, currency)
    ensures match Calculated(entries, currency)
            case Ok(sum) => PrefixesFit(entries) && sum.amount == Total(entries) && sum.currency == currency
            case Err(e) => !PrefixesFit(entries) && e == Overflow
  {
    if entries != [] {
      var n := |entries| - 1;
      CalculatedExactly(entries[..n], currency);
      if Calculated(entries[..n], currency).Ok? {
        AddingOneMore(Calculated(entries[..n], currency).value, entries[n]);
      }
    }
  }

  /** What reconciling reports, over any order of the entries: the exact sum and the exact
      difference, or an overflow. */
  lemma ReportsAreExact(stored: Money, entries: seq<LedgerEntry>)
    requires InOneCurrency(entries, stored.currency) && stored.amount >= 0
    ensures match Reconciled(stored, entries)
            case Ok(report) =>
              && report.stored == stored
              && report.calculated.currency == report.difference.currency == stored.currency
              && report.calculated.amount == Total(entries)
              && report.difference.amount == stored.amount - Total(entries)
              && (report.consistent <==> stored.amount == Total(entries))
              && report.entriesChecked == |entries|
            case Err(e) => e == Overflow
    ensures Reconciled(stored, entries).Ok? <==>
              PrefixesFit(entries) && Total(entries) != MIN_INT64 && InInt64(stored.amount - Total(entries))
  {
    hide Calculated, PrefixesFit, Total, InOneCurrency;
    CalculatedExactly(entries, stored.currency);
    if Calculated(entries, stored.currency).Ok? {
      SubtractIsExact(stored, Calculated(entries, stored.currency).value);
    }
  }

  lemma TakenOut(entries: seq<LedgerEntry>, j: nat)
    requires j < |entries|
    ensures var rest := entries[..j] + entries[j + 1..];
            multiset(entries) == multiset(rest) + multiset{entries[j]}
            && Total(entries) == Total(rest) + entries[j].Movement()
  {
    var one := [entries[j]];
    assert entries == entries[..j] + (one + entries[j + 1..]);
    assert multiset(entries[..j] + (one + entries[j + 1..])) ==
             multiset(entries[..j]) + (multiset(one) + multiset(entries[j + 1..]));
    TotalConcat(entries[..j], one + entries[j + 1..]);
    TotalConcat(one, entries[j + 1..]);
    TotalConcat(entries[..j], entries[j + 1..]);
    assert one[..0] == [];
  }

  /** The order of the entries does not matter to their sum. */
  lemma {:induction false} TotalIgnoresOrder(a: seq<LedgerEntry>, b: seq<LedgerEntry>)
    requires multiset(a) == multiset(b)
    ensures Total(a) == Total(b)
    decreases |a|
  {
    if a == [] {
      assert |multiset(a)| == |multiset(b)| && |multiset(b)| == |b|;
    } else {
      hide Total;
      assert a[0] in multiset(b);
      var j :| 0 <= j < |b| && b[j] == a[0];
      TakenOut(a, 0);
      TakenOut(b, j);
      var x, y := a[..0] + a[1..], b[..j] + b[j + 1..];
      SameRemainder(multiset(x), multiset(y), a[0]);
      TotalIgnoresOrder(x, y);
    }
  }

  lemma SameRemainder(x: multiset<LedgerEntry>, y: multiset<LedgerEntry>, e: LedgerEntry)
    requires x + multiset{e} == y + multiset{e}
    ensures x == y
  {
    forall k
      ensures x[k] == y[k]
    {
      assert (x + multiset{e})[k] == (y + multiset{e})[k];
    }
  }

  lemma SameResultInAnyOrder(stored: Money, a: seq<LedgerEntry>, b: seq<LedgerEntry>)
    requires InOneCurrency(a, stored.currency) && InOneCurrency(b, stored.currency) && stored.amount >= 0
             && multiset(a) == multiset(b)
    requires Reconciled(stored, a).Ok? && Reconciled(stored, b).Ok?
    ensures Reconciled(stored, a) == Reconciled(stored, b)
  {
    CalculatedExactly(a, stored.currency);
    CalculatedExactly(b, stored.currency);
    TotalIgnoresOrder(a, b);
    assert |multiset(a)| == |a| && |multiset(b)| == |b|;
  }

  /** In commit order the running sum is each entry's balance after. */
  lemma {:induction false} RunningSumIsTheBalance(own: seq<LedgerEntry>, n: nat, currency: Currency)
    requires Chained(own, currency) && n <= |own|
    ensures Calculated(own[..n], currency) == Ok(Money(currency, Closing(own[..n])))
  {
    if n > 0 {
      RunningSumIsTheBalance(own, n - 1, currency);
      assert own[..n][..n - 1] == own[..n - 1];
      AddIsExact(Money(currency, Closing(own[..n - 1])), own[n - 1].amount);
      SubtractIsExact(Money(currency, Closing(own[..n - 1])), own[n - 1].amount);
    }
  }

  predicate IsConsistent(r: Result<Report>, balance: Money, entries: seq<LedgerEntry>) {
    r == Ok(Report(balance, balance, Zero(balance.currency), true, |entries|))
  }

  /** Every wallet of every reachable state reconciles: difference zero, all its entries checked. */
  lemma ReachableWalletReconciles(schedule: seq<Label>, w: Id)
    requires w in Run(schedule).db.wallets
    ensures var db := Run(schedule).db;
            var balance, own := db.wallets[w].balance, LedgerOf(db.ledger, w);
            IsConsistent(Reconciled(balance, own), balance, own)
  {
    hide Next, Core, Moves, OpensFirst, LedgerOk, Chained;
    ReachableIsCore(schedule);
    CoreLedger(Run(schedule));
    var db := Run(schedule).db;
    assert WalletOk(db, w);
    var balance, own := db.wallets[w].balance, LedgerOf(db.ledger, w);
    RunningSumIsTheBalance(own, |own|, balance.currency);
    assert own[..|own|] == own;
    SubtractIsExact(balance, balance);
  }

  /** The two reads need not be at one moment: as long as one call holds the wallet's lock, whatever
      the others commit, the balance read first and the ledger read later reconcile. */
  lemma {:induction false} HeldWalletReconciles(schedule: seq<Label>, tail: seq<Label>, w: Id, call: Id)
    requires HeldThroughout(schedule, tail, w, call)
    ensures w in Run(schedule).db.wallets
    ensures var balance := Run(schedule).db.wallets[w].balance;
            var own := LedgerOf(Run(schedule + tail).db.ledger, w);
            IsConsistent(Reconciled(balance, own), balance, own)
  {
    hide Run, HeldThroughout, IsConsistent, Reconciled;
    HeldWalletStandsStill(schedule, tail, w, call);
    ReachableWalletReconciles(schedule, w);
  }
}
