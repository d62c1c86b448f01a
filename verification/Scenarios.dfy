/** Two runs that show where promises end. Two resolvers hold copies of one parked refund: the
    slower one overwrites the processed row with its own rejection, and the bet is refunded again.
    And a loss, which has no ledger entry, is replayed with a balance it never saw. */
module Scenarios {
  import opened Prelude
  import opened Moneys
  import opened Wallets
  import opened Wagers
  import opened Tables
  import opened Decisions
  import opened Protocol
  import opened Integrity
  import opened Calls
  import opened CoreTheorem
  import opened SettledTheorem
  import opened Histories
  import opened Serializability
  import opened Solo
  import opened Agreement
  import opened Conservation
  import opened Reversals

  function Cash(amount: int64): Money {
    Money("BRL", amount)
  }

  const BetInput := Input("p", "bet", Some(7), Some(1), "round", "game", Bet, Cash(10), None)

  function RefundInput(externalId: string): Input {
    Input("p", externalId, Some(7), Some(1), "round", "game", Refund, Cash(10), Some("bet"))
  }

  function BetTx(id: Id, status: Status): Tx {
    Tx(id, status, Key("p", "bet"), Payload(7, 1, "round", "game", Bet, Cash(10), None), None, None, 0)
  }

  function RefundTx(id: Id, externalId: string, status: Status, referenceId: Option<Id>,
                    failure: Option<FailureCode>): Tx {
    Tx(id, status, Key("p", externalId), Payload(7, 1, "round", "game", Refund, Cash(10), Some("bet")), referenceId,
       failure, 0)
  }

  function WalletAt(version: int, balance: int64): map<Id, WalletRow> {
    map[1 := WalletRow(1, 7, version, Cash(balance))]
  }

  const OPENING := Tx(1, Processed, Key("", ""), Payload(7, 1, "", "", Opening, Cash(100), None), None, None, 0)

  /** Nobody holds a lock. */
  predicate Unlocked(s: State) {
    s.walletLocks == map[] && s.keyLocks == map[]
  }

  /** What matters of the database at each stage, with nobody holding a lock. */
  predicate Stage(s: State, wallets: map<Id, WalletRow>, txs: map<Id, Tx>, index: map<Key, Id>) {
    && s.db.wallets == wallets && s.db.txs == txs && s.db.index == index
    && Unlocked(s)
  }

  lemma {:induction false} RunAdvances(schedule: seq<Label>, call: Id, n: nat) returns (longer: seq<Label>)
    ensures Run(longer) == AdvanceTimes(Run(schedule), call, n)
  {
    hide Next;
    longer := schedule;
    var i := 0;
    while i < n
      invariant 0 <= i <= n && Run(longer) == AdvanceTimes(Run(schedule), call, i)
    {
      RunStep(longer, AdvanceCall(call));
      assert Next(Run(longer), AdvanceCall(call)) == Advance(Run(longer), call) by {
        AdvanceIsNext(Run(longer), call);
      }
      longer := longer + [AdvanceCall(call)];
      i := i + 1;
    }
  }

  lemma {:induction false} OpenStage() returns (schedule: seq<Label>)
    ensures Stage(Run(schedule), WalletAt(1, 100), map[1 := OPENING], map[]) && Run(schedule).clients.Keys == {1}
    ensures |Run(schedule).db.ledger| == 1 && Run(schedule).db.ledger[0].transactionId == 1
  {
    var l := OpenWalletCall(1, 0, 7, Cash(100));
    schedule := [l];
    assert [l][..0] == [];
    assert Run([]) == Init;
    OpeningWrites();
    var w := OpenWallet(1, 0, 7, Cash(100)).value;
    var later := Apply(EmptyDb, w);
    hide OpenWallet, Apply;
    assert Run(schedule) == Next(Init, l);
    assert Next(Init, l) == BeginOpenWallet(Init, 1, 0, 7, Cash(100));
    assert Run(schedule).db == later;
  }

  lemma OpeningWrites()
    ensures OpenWallet(1, 0, 7, Cash(100)).Ok?
    ensures var db := Apply(EmptyDb, OpenWallet(1, 0, 7, Cash(100)).value);
            && db.wallets == WalletAt(1, 100) && db.txs == map[1 := OPENING] && db.index == map[]
            && |db.ledger| == 1 && db.ledger[0].transactionId == 1
  {
    var e := LedgerEntry(1, 1, 1, Credit, Cash(100), Cash(0), Cash(100));
    LedgerEntryAcceptedExactly(e);
  }

  /** The tables with what processing alone decides written to them. */
  function ProcessedDb(db: Db, tx: Tx, call: Id): Db {
    match ProcessAlone(db, tx, call)
    case Err(_) => db
    case Ok(d) => Apply(db, d.writes.(inbox := None))
  }

  lemma ProcessedAlone(db: Db, k: Client, call: Id)
    requires k.inbox.None? && k.tx.key !in db.index && k.tx.WalletId() in db.wallets
    ensures DbAlone(db, k, call) == ProcessedDb(db, k.tx, call)
  {
    hide Apply, ProcessAlone;
  }

  /** A submission begun and run to its end, with nobody in between. */
  lemma {:induction false} SubmitStage(schedule: seq<Label>, call: Id, input: Input, tx: Tx)
    returns (longer: seq<Label>)
    requires var s := Run(schedule);
             && call !in s.clients && NewTransaction(call, 0, input) == Ok(tx) && WellFormed(tx) && tx.Kind() != Opening
             && tx.status == Pending
             && tx.id == call && tx.key !in s.db.index && tx.WalletId() in s.db.wallets
             && Unlocked(s)
    ensures var s, later := Run(schedule), Run(longer);
            && later.db == ProcessedDb(s.db, tx, call)
            && Unlocked(later)
            && call in later.clients && later.clients == s.clients[call := later.clients[call]]
            && tx.id !in s.db.txs && later.clients[call].answer == Some(AnswerAlone(s.db, tx, call))
  {
    hide Next, NewTransaction, Core, ProcessedDb, DbAlone, AnswerAlone, Release;
    var s := Run(schedule);
    var k := Start(Http, PreCheck, tx);
    ReachableIsCore(schedule);
    var begun := Put(s, call, k);
    assert Next(s, SubmitCall(call, 0, input)) == begun by {
      SubmissionBegins(s, call, input, tx);
    }
    RunStep(schedule, SubmitCall(call, 0, input));
    CoreFacts(s, call);
    var n := SubmissionAlone(begun, call, k);
    ProcessedAlone(s.db, k, call);
    longer := RunAdvances(schedule + [SubmitCall(call, 0, input)], call, n);
    NothingToRelease<Id>(call);
    NothingToRelease<Key>(call);
  }

  lemma SubmissionBegins(s: State, call: Id, input: Input, tx: Tx)
    requires call !in s.clients && NewTransaction(call, 0, input) == Ok(tx)
    ensures Next(s, SubmitCall(call, 0, input)) == Put(s, call, Start(Http, PreCheck, tx))
  {
    hide NewTransaction;
  }

  lemma CoreFacts(s: State, call: Id)
    requires Core(s) && call !in s.clients
    ensures LedgerOk(s.db) && IndexOk(s.db) && call !in s.db.txs
  {
    hide ClientsOk, DeletedOk, RowsOk, IndexOk, WalletsOk, LedgerOk, EventsOk, InboxOk;
  }

  lemma NothingToRelease<K>(call: Id)
    ensures Release<K>(map[], call) == map[]
  {
  }

  // ----- what each stage decides -----

  lemma Inputs(call: Id, externalId: string)
    requires externalId != ""
    ensures NewTransaction(call, 0, BetInput) == Ok(BetTx(call, Pending))
    ensures NewTransaction(call, 0, RefundInput(externalId)) == Ok(RefundTx(call, externalId, Pending, None, None))
  {
  }

  lemma ParkingDecides(db: Db, txs: map<Id, Tx>)
    requires db.index == map[] && 2 !in db.txs
    ensures var tx := RefundTx(2, "f", Pending, None, None);
            var later := ProcessedDb(db, tx, 2);
            && later.wallets == db.wallets && later.txs == db.txs[2 := RefundTx(2, "f", PendingReference, None, None)]
            && later.index == map[Key("p", "f") := 2] && later.ledger == db.ledger
  {
  }

  lemma BetDecides(db: Db)
    requires db.wallets == WalletAt(1, 100) && 5 !in db.txs
    ensures var later := ProcessedDb(db, BetTx(5, Pending), 5);
            && later.wallets == WalletAt(2, 90) && later.txs == db.txs[5 := BetTx(5, Processed)]
            && later.index == db.index[Key("p", "bet") := 5]
  {
    var w := db.wallets[1];
    DebitIsExact(w, Cash(10));
    MovementIsAlwaysRecordable(w, Debit, Cash(10), 5, 5);
  }

  /** The refund of the bet, by the call that settles it. */
  lemma RefundDecides(db: Db, id: Id, externalId: string, call: Id, status: Status, version: int, balance: int64)
    requires db.wallets == WalletAt(version, balance) && version >= 1 && 0 <= balance < 1000
    requires 5 in db.txs && db.txs[5] == BetTx(5, Processed) && Key("p", "bet") in db.index
             && db.index[Key("p", "bet")] == 5
    requires !db.HasReversal(5) && (status == Pending || status == PendingReference)
    requires status == Pending ==> id !in db.txs
    requires status == PendingReference ==>
               id in db.txs && db.txs[id] == RefundTx(id, externalId, PendingReference, None, None)
    ensures var tx := RefundTx(id, externalId, status, None, None);
            var later := ProcessedDb(db, tx, call);
            && ProcessAlone(db, tx, call).Ok? && ProcessAlone(db, tx, call).value.writes.entry.Some?
            && later.wallets == WalletAt(version + 1, balance + 10)
            && later.txs == db.txs[id := RefundTx(id, externalId, Processed, Some(5), None)]
            && later.index == (if status == Pending then db.index[Key("p", externalId) := id] else db.index)
            && later.ledger == db.ledger + [ProcessAlone(db, tx, call).value.writes.entry.value]
            && ProcessAlone(db, tx, call).value.writes.entry.value.transactionId == id
  {
    var w := db.wallets[1];
    var tx := RefundTx(id, externalId, status, None, None);
    CreditIsExact(w, Cash(10));
    MovementIsAlwaysRecordable(w, Credit, Cash(10), call, id);
    assert db.FindByKey(Key("p", "bet")) == Some(BetTx(5, Processed));
    assert tx.ValidateReference(BetTx(5, Processed)) == Ok(());
  }

  // ----- two resolvers -----

  const PARKED := RefundTx(2, "f", PendingReference, None, None)
  const STALE := RefundTx(2, "f", Rejected, None, Some(ReferenceNotFound))

  function Punctual(): Client {
    Start(Resolver, ReadReference, PARKED)
  }

  function Late(): Client {
    Start(Resolver, Save, PARKED).(decision := Some(RejectTx(PARKED, ReferenceNotFound, 4).value), via := Expired)
  }

  /** One resolver takes the parked row up; another, whose clock says it has expired, too. */
  lemma {:induction false} ResolveStage(schedule: seq<Label>) returns (longer: seq<Label>)
    requires 2 in Run(schedule).db.txs && Run(schedule).db.txs[2] == PARKED
    requires 3 !in Run(schedule).clients && 4 !in Run(schedule).clients
    ensures Run(longer) == Put(Put(Run(schedule), 3, Punctual()), 4, Late())
  {
    var s := Run(schedule);
    var first := Put(s, 3, Punctual());
    RunStep(schedule, ResolveCall(3, 2, false));
    RunStep(schedule + [ResolveCall(3, 2, false)], ResolveCall(4, 2, true));
    longer := schedule + [ResolveCall(3, 2, false)] + [ResolveCall(4, 2, true)];
    hide Run;
    Begins(s, 3, false);
    Begins(first, 4, true);
  }

  lemma Begins(s: State, call: Id, expired: bool)
    requires call !in s.clients && 2 in s.db.txs && s.db.txs[2] == PARKED && (expired ==> call == 4)
    ensures Next(s, ResolveCall(call, 2, expired)) == Put(s, call, if expired then Late() else Punctual())
  {
    assert Next(s, ResolveCall(call, 2, expired)) == BeginResolve(s, call, 2, expired);
  }

  /** The punctual resolver has begun, and the bet is there. */
  predicate Due(s: State) {
    && 3 in s.clients && s.clients[3] == Punctual() && Unlocked(s)
    && s.db.wallets == WalletAt(2, 90) && 2 in s.db.txs && s.db.txs[2] == PARKED
    && 5 in s.db.txs && s.db.txs[5] == BetTx(5, Processed) && Key("p", "bet") in s.db.index
    && s.db.index[Key("p", "bet")] == 5
    && !s.db.HasReversal(5) && NoEntryFor(s.db, 2)
  }

  lemma {:induction false} PunctualSettles(s: State) returns (n: nat)
    requires Due(s)
    ensures var later := AdvanceTimes(s, 3, n);
            && later.db == ProcessedDb(s.db, PARKED, 3)
            && Unlocked(later)
            && 3 in later.clients && later.clients == s.clients[3 := later.clients[3]]
  {
    hide Advance, AdvanceTimes, Apply, SettleAlone, ProcessAlone, OnReference, Release, DbAfter;
    StandsAtFirst(s, 3);
    n := ProcessesAlone(s, 0, 3, Punctual());
    SettlesTheRow(s.db, Punctual());
    NothingToRelease<Id>(3);
    NothingToRelease<Key>(3);
  }

  lemma SettlesTheRow(db: Db, k: Client)
    requires k.inbox.None? && k.tx.id in db.txs
    ensures DbAfter(db, k, ProcessAlone(db, k.tx, 3)) == ProcessedDb(db, k.tx, 3)
  {
    hide Apply, ProcessAlone;
  }

  /** The punctual one settles the refund. */
  lemma {:induction false} SettleStage(schedule: seq<Label>) returns (longer: seq<Label>)
    requires Due(Run(schedule))
    ensures var s, later := Run(schedule), Run(longer);
            && later.db == ProcessedDb(s.db, PARKED, 3)
            && Unlocked(later)
            && 3 in later.clients && later.clients == s.clients[3 := later.clients[3]]
  {
    hide AdvanceTimes, Run, ProcessedDb;
    var n := PunctualSettles(Run(schedule));
    longer := RunAdvances(schedule, 3, n);
  }

  /** The late one saves its rejection over the processed row. */
  lemma {:induction false} OverwriteStage(schedule: seq<Label>) returns (longer: seq<Label>)
    requires var s := Run(schedule);
             && 4 in s.clients && s.clients[4] == Late() && Unlocked(s)
             && 1 in s.db.wallets && 2 in s.db.txs && s.db.txs[2].SameBusiness(PARKED)
    ensures var s, later := Run(schedule), Run(longer);
            && later.db == s.db.(txs := s.db.txs[2 := STALE], events := s.db.events + [RejectedEvent(STALE, 4)])
            && Unlocked(later)
            && 4 in later.clients && later.clients == s.clients[4 := later.clients[4]]
  {
    hide Advance, AdvanceTimes, Run, Release;
    var s := Run(schedule);
    StandsAtFirst(s, 4);
    var n := FromSave(s, 0, 4, Late(), Late().decision.value);
    longer := RunAdvances(schedule, 4, n);
    NothingToRelease<Id>(4);
    NothingToRelease<Key>(4);
  }

  /** The refund is parked, two resolvers have it, and the bet has come in. */
  predicate BothHoldIt(s: State) {
    && Stage(s, WalletAt(2, 90), map[1 := OPENING, 2 := PARKED, 5 := BetTx(5, Processed)],
             map[Key("p", "f") := 2, Key("p", "bet") := 5])
    && 3 in s.clients && s.clients[3] == Punctual() && 4 in s.clients && s.clients[4] == Late() && 6 !in s.clients
    && NoEntryFor(s.db, 2) && EnteredInOrder(s.db.ledger, [1, 5])
  }

  /** The ledger holds the entries of these transactions, in this order. */
  predicate EnteredInOrder(ledger: seq<LedgerEntry>, ids: seq<Id>) {
    |ledger| == |ids| && forall i :: 0 <= i < |ids| ==> ledger[i].transactionId == ids[i]
  }

  predicate OnlyParked(s: State) {
    && Stage(s, WalletAt(1, 100), map[1 := OPENING, 2 := PARKED], map[Key("p", "f") := 2])
    && s.clients.Keys == {1, 2} && |s.db.ledger| == 1 && s.db.ledger[0].transactionId == 1
  }

  lemma {:induction false} ParkStage() returns (schedule: seq<Label>)
    ensures OnlyParked(Run(schedule))
  {
    hide Next, Run, Apply, ProcessedDb, ProcessAlone, NewTransaction, SettleAlone;
    var open := OpenStage();
    Inputs(2, "f");
    schedule := SubmitStage(open, 2, RefundInput("f"), RefundTx(2, "f", Pending, None, None));
    ParkingDecides(Run(open).db, Run(open).db.txs);
  }

  lemma {:induction false} SetTheStage() returns (schedule: seq<Label>)
    ensures BothHoldIt(Run(schedule))
  {
    hide Next, Run, Apply, ProcessedDb, ProcessAlone, NewTransaction, SettleAlone;
    var parked := ParkStage();
    var resolving := ResolveStage(parked);
    Inputs(5, "f");
    schedule := SubmitStage(resolving, 5, BetInput, BetTx(5, Pending));
    BetDecides(Run(resolving).db);
    BetEntry(Run(resolving).db);
  }

  /** From a wallet opened with 100 and one bet of 10, two refunds of that one bet. */
  lemma {:induction false} TwoResolversRefundTwice()
    returns (settled: seq<Label>, overwritten: seq<Label>, refunded: seq<Label>)
    ensures Run(settled).db.txs.Keys >= {2} && Run(settled).db.txs[2] == RefundTx(2, "f", Processed, Some(5), None)
    ensures Run(overwritten).db.txs.Keys >= {2} && Run(overwritten).db.txs[2] == STALE
            && HasEntry(Run(overwritten).db, 2)
    ensures Run(refunded).db.wallets == WalletAt(4, 110)
    ensures Run(refunded).db.txs == map[1 := OPENING, 2 := STALE, 5 := BetTx(5, Processed),
                                        6 := RefundTx(6, "g", Processed, Some(5), None)]
    ensures !SettledRun(overwritten) && MissesItsTrees(Run(refunded).db, 1)
  {
    hide Next, Run, Apply, ProcessedDb, ProcessAlone, NewTransaction, SettleAlone, WellFormed, SettledRun, HasEntry,
      MissesItsTrees, EnteredInOrder;
    var bet := SetTheStage();
    settled := SettleStage(bet);
    RefundDecides(Run(bet).db, 2, "f", 3, PendingReference, 2, 90);
    overwritten := OverwriteStage(settled);
    SettledRefundIsThere(Run(bet).db, Run(overwritten).db);
    EnteredNext(Run(bet).db.ledger, Run(overwritten).db.ledger, [1, 5], 2);
    refunded := RefundAgain(overwritten);
    EnteredNext(Run(overwritten).db.ledger, Run(refunded).db.ledger, [1, 5] + [2], 6);
    RejectedWithEntry(overwritten);
    StrayRefund(refunded);
  }

  lemma EnteredNext(ledger: seq<LedgerEntry>, longer: seq<LedgerEntry>, ids: seq<Id>, id: Id)
    requires EnteredInOrder(ledger, ids) && ledger <= longer && |longer| == |ledger| + 1
    requires longer[|ledger|].transactionId == id
    ensures EnteredInOrder(longer, ids + [id])
  {
  }

  /** The wallet's balance is not the sum over its trees. */
  predicate MissesItsTrees(db: Db, w: Id) {
    w in db.wallets && db.wallets[w].balance.amount != Trees(db, |db.ledger|, |db.ledger|, w)
  }

  /** The entry of the rejected refund has lost its reference: it is of no tree, and the wallet has it. */
  lemma {:induction false} StrayRefund(schedule: seq<Label>)
    requires Run(schedule).db.wallets == WalletAt(4, 110)
    requires Run(schedule).db.txs == map[1 := OPENING, 2 := STALE, 5 := BetTx(5, Processed),
                                         6 := RefundTx(6, "g", Processed, Some(5), None)]
    requires EnteredInOrder(Run(schedule).db.ledger, [1, 5] + [2] + [6])
    ensures MissesItsTrees(Run(schedule).db, 1)
  {
    hide Run, Core, LedgerOk, WalletsOk, MissesItsTrees, EnteredInOrder;
    ReachableIsCore(schedule);
    CoreLedger(Run(schedule));
    StrayEntry(Run(schedule).db);
  }

  lemma StrayEntry(db: Db)
    requires LedgerOk(db) && WalletsOk(db) && db.wallets == WalletAt(4, 110)
    requires db.txs == map[1 := OPENING, 2 := STALE, 5 := BetTx(5, Processed),
                           6 := RefundTx(6, "g", Processed, Some(5), None)]
    requires EnteredInOrder(db.ledger, [1, 5] + [2] + [6])
    ensures MissesItsTrees(db, 1)
  {
    hide Moves, OpensFirst, Net, Trees, LedgerOk, WalletsOk, LedgerOf;
    FourOfOneWallet(db);
    WalletIsOk(db, 1);
    ChainedCloses(db.ledger, "BRL");
    FourNets(db);
    FourTrees(db);
    FourTotal(db.ledger);
  }

  lemma FourOfOneWallet(db: Db)
    requires LedgerOk(db) && EnteredInOrder(db.ledger, [1, 5] + [2] + [6])
    requires db.txs == map[1 := OPENING, 2 := STALE, 5 := BetTx(5, Processed),
                           6 := RefundTx(6, "g", Processed, Some(5), None)]
    ensures |db.ledger| == 4 && LedgerOf(db.ledger, 1) == db.ledger
    ensures forall i :: 0 <= i < 4 ==> db.ledger[i].walletId == 1
    ensures db.ledger[0].transactionId == 1 && db.ledger[1].transactionId == 5
    ensures db.ledger[2].transactionId == 2 && db.ledger[3].transactionId == 6
    ensures db.ledger[2].amount == Cash(10)
  {
    hide LedgerOf;
    assert EntryOk(db, db.ledger[0]) && EntryOk(db, db.ledger[1]) && EntryOk(db, db.ledger[2])
           && EntryOk(db, db.ledger[3]);
    AllOfOneWallet(db.ledger, 1);
  }

  lemma {:induction false} AllOfOneWallet(ledger: seq<LedgerEntry>, w: Id)
    requires forall i :: 0 <= i < |ledger| ==> ledger[i].walletId == w
    ensures LedgerOf(ledger, w) == ledger
  {
    if ledger != [] {
      AllOfOneWallet(ledger[..|ledger| - 1], w);
    }
  }

  /** Four entries of the wallet: the opening, the bet, its first refund, now rejected, and its second. */
  predicate FourEntries(db: Db) {
    && |db.ledger| == 4 && db.ledger[0].transactionId == 1 && db.ledger[1].transactionId == 5
    && db.ledger[2].transactionId == 2 && db.ledger[3].transactionId == 6
    && (forall i :: 0 <= i < 4 ==> db.ledger[i].walletId == 1)
    && db.txs == map[1 := OPENING, 2 := STALE, 5 := BetTx(5, Processed),
                     6 := RefundTx(6, "g", Processed, Some(5), None)]
  }

  lemma FourNets(db: Db)
    requires FourEntries(db)
    ensures Net(db, 4, 1) == db.ledger[0].Movement()
    ensures Net(db, 4, 5) == db.ledger[1].Movement() + db.ledger[3].Movement()
  {
    assert RootOf(db, 1) == 1 && RootOf(db, 5) == 5 && RootOf(db, 2) == 2 && RootOf(db, 6) == 5;
    assert Net(db, 0, 1) == 0 && Net(db, 1, 1) == db.ledger[0].Movement();
    assert Net(db, 2, 1) == Net(db, 3, 1) == Net(db, 1, 1);
    assert Net(db, 0, 5) == 0 && Net(db, 1, 5) == 0 && Net(db, 2, 5) == db.ledger[1].Movement() == Net(db, 3, 5);
  }

  lemma FourTrees(db: Db)
    requires FourEntries(db)
    ensures Trees(db, 4, 4, 1) == Net(db, 4, 1) + Net(db, 4, 5)
  {
    hide Net;
    assert Trees(db, 0, 4, 1) == 0 && Trees(db, 1, 4, 1) == Net(db, 4, 1);
    assert Trees(db, 2, 4, 1) == Net(db, 4, 1) + Net(db, 4, 5) == Trees(db, 3, 4, 1);
  }

  lemma FourTotal(ledger: seq<LedgerEntry>)
    requires |ledger| == 4
    ensures Total(ledger) == ledger[0].Movement() + ledger[1].Movement() + ledger[2].Movement() + ledger[3].Movement()
  {
    assert ledger[..3][..2] == ledger[..2] && ledger[..2][..1] == ledger[..1] && ledger[..1][..0] == [];
    assert Total(ledger[..1]) == ledger[0].Movement();
    assert Total(ledger[..2]) == Total(ledger[..1]) + ledger[1].Movement();
    assert Total(ledger[..3]) == Total(ledger[..2]) + ledger[2].Movement();
  }

  lemma {:induction false} RejectedWithEntry(schedule: seq<Label>)
    requires 2 in Run(schedule).db.txs && Run(schedule).db.txs[2] == STALE && HasEntry(Run(schedule).db, 2)
    ensures !SettledRun(schedule)
  {
    hide Run, SettledRun, HasEntry;
    if SettledRun(schedule) {
      RowsAgree(schedule, 2);
    }
  }

  lemma SettledRefundIsThere(before: Db, db: Db)
    requires before.ledger <= db.ledger && |db.ledger| == |before.ledger| + 1
             && db.ledger[|before.ledger|].transactionId == 2
    ensures HasEntry(db, 2)
  {
  }

  lemma {:induction false} RefundAgain(schedule: seq<Label>) returns (longer: seq<Label>)
    requires Stage(Run(schedule), WalletAt(3, 100), map[1 := OPENING, 2 := STALE, 5 := BetTx(5, Processed)],
                   map[Key("p", "f") := 2, Key("p", "bet") := 5])
    requires 6 !in Run(schedule).clients
    ensures Run(longer).db.wallets == WalletAt(4, 110)
    ensures Run(longer).db.txs == Run(schedule).db.txs[6 := RefundTx(6, "g", Processed, Some(5), None)]
    ensures Run(schedule).db.ledger <= Run(longer).db.ledger && |Run(longer).db.ledger| == |Run(schedule).db.ledger| + 1
    ensures Run(longer).db.ledger[|Run(schedule).db.ledger|].transactionId == 6
  {
    hide Next, Run, Apply, ProcessedDb, ProcessAlone, NewTransaction, SettleAlone;
    Inputs(6, "g");
    longer := SubmitStage(schedule, 6, RefundInput("g"), RefundTx(6, "g", Pending, None, None));
    RefundDecides(Run(schedule).db, 6, "g", 6, Pending, 3, 100);
  }

  lemma BetEntry(db: Db)
    requires db.wallets == WalletAt(1, 100) && 5 !in db.txs
    ensures var later := ProcessedDb(db, BetTx(5, Pending), 5);
            |later.ledger| == |db.ledger| + 1 && later.ledger[..|db.ledger|] == db.ledger
            && later.ledger[|db.ledger|].transactionId == 5
  {
    var w := db.wallets[1];
    DebitIsExact(w, Cash(10));
    MovementIsAlwaysRecordable(w, Debit, Cash(10), 5, 5);
  }

  // ----- a replay without an entry -----

  const LossInput := Input("p", "loss", Some(7), Some(1), "round", "game", Loss, Cash(0), None)

  function LossTx(id: Id, status: Status): Tx {
    Tx(id, status, Key("p", "loss"), Payload(7, 1, "round", "game", Loss, Cash(0), None), None, None, 0)
  }

  lemma LossDecides(db: Db)
    requires db.wallets == WalletAt(1, 100) && 2 !in db.txs && Key("p", "loss") !in db.index
    ensures NewTransaction(2, 0, LossInput) == Ok(LossTx(2, Pending))
            && NewTransaction(6, 0, LossInput) == Ok(LossTx(6, Pending))
    ensures AnswerAlone(db, LossTx(2, Pending), 2) == Accepted(LossTx(2, Processed), Cash(100), false)
    ensures var later := ProcessedDb(db, LossTx(2, Pending), 2);
            && later.wallets == db.wallets && later.txs == db.txs[2 := LossTx(2, Processed)]
            && later.index == db.index[Key("p", "loss") := 2] && later.ledger == db.ledger
  {
  }

  /** Looking the key up, finding no entry, reading the wallet. */
  lemma {:induction false} ReplayStage(s: State) returns (n: nat)
    requires Core(s) && 6 in s.clients && s.clients[6] == Start(Http, PreCheck, LossTx(6, Pending)) && Unlocked(s)
    requires Key("p", "loss") in s.db.index && s.db.index[Key("p", "loss")] == 2 && 2 in s.db.txs
             && s.db.txs[2] == LossTx(2, Processed)
    requires NoEntryFor(s.db, 2) && 1 in s.db.wallets && 6 !in s.db.txs
    ensures var later := AdvanceTimes(s, 6, n);
            && 6 in later.clients && later.clients == s.clients[6 := later.clients[6]]
            && later.clients[6].answer == Some(Accepted(LossTx(2, Processed), s.db.wallets[1].balance, true))
  {
    hide AdvanceTimes, Advance, Core, Release, ProcessAlone, IndexOk, LedgerOk, DbAlone;
    CoreTables(s);
    n := SubmissionAlone(s, 6, s.clients[6]);
    assert s.db.FindLedgerEntry(2).None?;
  }

  lemma CoreTables(s: State)
    requires Core(s)
    ensures LedgerOk(s.db) && IndexOk(s.db)
  {
    hide ClientsOk, DeletedOk, IdsKnown, RowsOk, IndexOk, WalletsOk, LedgerOk, EventsOk, InboxOk, ReversalsOk,
      SettledHaveEntries;
  }

  /** The wallet moves between a loss and its replay: same transaction, first answered with 100,
      then with 90. */
  lemma {:induction false} LossIsReplayedWithTheCurrentBalance() returns (schedule: seq<Label>)
    ensures Run(schedule).clients.Keys >= {2, 6}
    ensures Run(schedule).clients[2].answer == Some(Accepted(LossTx(2, Processed), Cash(100), false))
    ensures Run(schedule).clients[6].answer == Some(Accepted(LossTx(2, Processed), Cash(90), true))
  {
    hide Next, Run, Apply, ProcessedDb, AnswerAlone, ProcessAlone, NewTransaction, SettleAlone, WellFormed, Core,
      AdvanceTimes;
    var open := OpenStage();
    LossDecides(Run(open).db);
    LossIsWellFormed();
    var lost := SubmitStage(open, 2, LossInput, LossTx(2, Pending));
    Inputs(5, "f");
    var bet := SubmitStage(lost, 5, BetInput, BetTx(5, Pending));
    BetDecides(Run(lost).db);
    BetEntry(Run(lost).db);
    var l := SubmitCall(6, 0, LossInput);
    SubmissionBegins(Run(bet), 6, LossInput, LossTx(6, Pending));
    RunStep(bet, l);
    ReachableIsCore(bet + [l]);
    var n := ReplayStage(Run(bet + [l]));
    schedule := RunAdvances(bet + [l], 6, n);
  }

  lemma LossIsWellFormed()
    ensures WellFormed(LossTx(2, Pending)) && WellFormed(BetTx(5, Pending))
  {
  }
}
