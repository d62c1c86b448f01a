/** The committed tables, the writes one SQL transaction stages, and the queries of the
    repositories (internal/postgres). Rows appear in commit order. */
module Tables {
  import opened Prelude
  import opened Moneys
  import opened Wallets
  import opened Wagers

  /** The n-th event a call emits; the pair stands for a fresh event id. */
  datatype EventId = EventId(call: Id, index: nat)

  datatype EventBody =
    | TransactionProcessed(transactionId: Id, kind: Kind, amount: Money)
    | TransactionRejected(transactionId: Id, kind: Kind, failure: Option<FailureCode>)
    | TransactionPendingReference(transactionId: Id, referenceExternalId: string)
    | WalletBalanceChanged(walletId: Id, transactionId: Id, direction: Direction, amount: Money,
                           balanceBefore: Money, balanceAfter: Money, walletVersion: int)

  datatype Event = Event(id: EventId, correlationId: Id, causationId: Option<EventId>, body: EventBody)

  /** An inbound message: its envelope's own id and the submission it carries. */
  datatype Message = Message(messageId: string, input: Input)

  /** The payload hash is taken to be injective, so the row keeps the message itself. */
  datatype InboxRow = InboxRow(messageId: string, hashed: Message, completed: bool)

  datatype Db = Db(
    wallets: map<Id, WalletRow>,
    txs: map<Id, Tx>,
    index: map<Key, Id>,      // unique (provider_id, external_transaction_id)
    attempts: map<Id, nat>,   // pending_reference_attempts
    ledger: seq<LedgerEntry>,
    events: seq<Event>,
    inbox: map<string, InboxRow>)
  {
    function FindWallet(id: Id): Option<WalletRow> {
      if id in wallets then Some(wallets[id]) else None
    }

    function FindByKey(key: Key): Option<Tx> {
      if key in index && index[key] in txs then Some(txs[index[key]]) else None
    }

    predicate IsReversalOf(id: Id, ref: Id) {
      id in txs && txs[id].Kind().IsReversal() && txs[id].status == Processed && txs[id].referenceId == Some(ref)
    }

    /** FindReversal finds a row. */
    predicate HasReversal(ref: Id) {
      exists id :: id in txs && IsReversalOf(id, ref)
    }

    function FindLedgerEntry(transactionId: Id): Option<LedgerEntry> {
      EntryFor(ledger, transactionId)
    }
  }

  const EmptyDb := Db(map[], map[], map[], map[], [], [], map[])

  function EntryFor(ledger: seq<LedgerEntry>, transactionId: Id): (r: Option<LedgerEntry>)
    ensures r.Some? ==> r.value in ledger && r.value.transactionId == transactionId
    ensures r.None? ==> forall i :: 0 <= i < |ledger| ==> ledger[i].transactionId != transactionId
  {
    if ledger == [] then None
    else if ledger[0].transactionId == transactionId then Some(ledger[0])
    else EntryFor(ledger[1..], transactionId)
  }

  // ----- staged writes -----

  datatype Writes = Writes(
    row: Option<Tx>,
    wallet: Option<WalletRow>,
    entry: Option<LedgerEntry>,
    events: seq<Event>,
    inbox: Option<InboxRow>)

  const NoWrites := Writes(None, None, None, [], None)

  /** An upsert by id rewrites status, reference and failure code, and nothing else. */
  function UpsertTx(txs: map<Id, Tx>, row: Tx): map<Id, Tx> {
    if row.id in txs
    then txs[row.id := txs[row.id].(status := row.status, referenceId := row.referenceId, failure := row.failure)]
    else txs[row.id := row]
  }

  /** An upsert by id rewrites balance and version; the currency column stays. */
  function UpsertWallet(wallets: map<Id, WalletRow>, row: WalletRow): map<Id, WalletRow> {
    if row.id in wallets
    then wallets[row.id := wallets[row.id].(version := row.version,
                                            balance := Money(wallets[row.id].balance.currency, row.balance.amount))]
    else wallets[row.id := row]
  }

  /** An upsert by message id rewrites only the completion. */
  function UpsertInbox(inbox: map<string, InboxRow>, row: InboxRow): map<string, InboxRow> {
    if row.messageId in inbox
    then inbox[row.messageId := inbox[row.messageId].(completed := row.completed)]
    else inbox[row.messageId := row]
  }

  function Apply(db: Db, w: Writes): Db {
    var inserts := w.row.Some? && w.row.value.id !in db.txs;
    Db(if w.wallet.Some? then UpsertWallet(db.wallets, w.wallet.value) else db.wallets,
       if w.row.Some? then UpsertTx(db.txs, w.row.value) else db.txs,
       if inserts && w.row.value.Kind() != Opening then db.index[w.row.value.key := w.row.value.id] else db.index,
       if inserts then db.attempts[w.row.value.id := 0] else db.attempts,
       if w.entry.Some? then db.ledger + [w.entry.value] else db.ledger,
       db.events + w.events,
       if w.inbox.Some? then UpsertInbox(db.inbox, w.inbox.value) else db.inbox)
  }

  // ----- a wallet's own ledger -----

  /** The entries of one wallet, in order. */
  function LedgerOf(ledger: seq<LedgerEntry>, walletId: Id): (own: seq<LedgerEntry>)
    ensures forall e :: e in own <==> e in ledger && e.walletId == walletId
  {
    if ledger == [] then []
    else
      var init, last := ledger[..|ledger| - 1], ledger[|ledger| - 1];
      assert ledger == init + [last];
      if last.walletId == walletId then LedgerOf(init, walletId) + [last] else LedgerOf(init, walletId)
  }

  lemma LedgerOfAppend(ledger: seq<LedgerEntry>, e: LedgerEntry, walletId: Id)
    ensures LedgerOf(ledger + [e], walletId) ==
            if e.walletId == walletId then LedgerOf(ledger, walletId) + [e] else LedgerOf(ledger, walletId)
  {
    assert (ledger + [e])[..|ledger|] == ledger;
  }

  /** Credits minus debits. */
  function Total(ledger: seq<LedgerEntry>): int {
    if ledger == [] then 0 else Total(ledger[..|ledger| - 1]) + ledger[|ledger| - 1].Movement()
  }

  lemma TotalAppend(ledger: seq<LedgerEntry>, e: LedgerEntry)
    ensures Total(ledger + [e]) == Total(ledger) + e.Movement()
  {
    assert (ledger + [e])[..|ledger|] == ledger;
  }

  lemma {:induction false} TotalConcat(a: seq<LedgerEntry>, b: seq<LedgerEntry>)
    ensures Total(a + b) == Total(a) + Total(b)
  {
    if b == [] {
      assert a + b == a;
    } else {
      assert (a + b)[..|a + b| - 1] == a + b[..|b| - 1];
      TotalConcat(a, b[..|b| - 1]);
    }
  }

  lemma {:induction false} LedgerOfConcat(a: seq<LedgerEntry>, b: seq<LedgerEntry>, walletId: Id)
    ensures LedgerOf(a + b, walletId) == LedgerOf(a, walletId) + LedgerOf(b, walletId)
  {
    if b == [] {
      assert a + b == a;
    } else {
      assert (a + b)[..|a + b| - 1] == a + b[..|b| - 1];
      LedgerOfConcat(a, b[..|b| - 1], walletId);
    }
  }

  /** What the last entry leaves, or nothing yet. */
  function Closing(own: seq<LedgerEntry>): int {
    if own == [] then 0 else own[|own| - 1].balanceAfter.amount
  }

  /** Each entry is consistent, in the given currency, and takes over where the one before it
      left off, the first one from zero. */
  predicate Chained(own: seq<LedgerEntry>, currency: Currency) {
    forall i :: 0 <= i < |own| ==>
                  && own[i].Consistent() && own[i].amount.currency == currency
                  && own[i].balanceBefore.amount == Closing(own[..i])
  }

  lemma ChainedAppend(own: seq<LedgerEntry>, e: LedgerEntry, currency: Currency)
    requires Chained(own, currency)
    requires e.Consistent() && e.amount.currency == currency && e.balanceBefore.amount == Closing(own)
    ensures Chained(own + [e], currency)
  {
    forall i | 0 <= i < |own + [e]|
      ensures (own + [e])[i].balanceBefore.amount == Closing((own + [e])[..i])
    {
      assert (own + [e])[..i] == own[..i];
    }
    assert own[..|own|] == own;
  }

  /** A chained ledger closes on its total, at every prefix. */
  lemma {:induction false} ChainedCloses(own: seq<LedgerEntry>, currency: Currency)
    requires Chained(own, currency)
    ensures Closing(own) == Total(own) && InInt64(Total(own)) && Total(own) >= 0
  {
    if own != [] {
      var n := |own| - 1;
      var init := own[..n];
      forall i | 0 <= i < n
        ensures init[i] == own[i] && init[..i] == own[..i]
      {
      }
      ChainedCloses(init, currency);
      assert own[n].balanceBefore.amount == Closing(init);
    }
  }
}
