/** The settlement protocol: any number of concurrent calls over one store, interleaved between
    every two accesses to it, each of which may crash at any point.

    A call's SQL transaction keeps its writes to itself until it commits. Two kinds of lock are
    visible before that: the row lock on a wallet (SELECT ... FOR UPDATE), and the unique index
    entry of a row being inserted, behind which a second insert of the same key waits. */
module Protocol {
  import opened Prelude
  import opened Moneys
  import opened Wallets
  import opened Wagers
  import opened Tables
  import opened Decisions

  /** Who runs a submission. Only a delivery encloses it in an outer transaction. */
  datatype Origin = Http | Sqs(delivery: Id, message: Message) | Resolver

  /** The store access, or decision, a call is about to make. */
  datatype Pc =
    | InsertInbox     // consumer: save the new inbox row
    | PreCheck        // Submit: look the key up
    | ReadReference   // process: look the reference up, validate it
    | ReadLossWallet  // finishWithoutMovement: read the wallet
    | LockWallet      // process: begin, read the wallet FOR UPDATE
    | CheckReversal   // process: FindReversal
    | Decide          // process: debit or credit
    | Save            // process: insert or update the row, stage the rest
    | ReadBalance     // saveWithEvent: read the wallet for the answer
    | CompleteInbox   // consumer: mark the inbox row completed, save it
    | Commit
    | Lookup          // Submit: the insert lost, look the winner up
    | ReplayEntry     // replay: compare payloads, look the ledger entry up
    | ReplayWallet    // replay: no entry, read the wallet
    | Delete          // consumer: delete the message
    | Schedule        // resolver: count the attempt
    | Done
    | Dead            // crashed

  datatype Answer = Accepted(tx: Tx, balance: Money, replay: bool) | Refused(error: Error)

  /** How a decision came about. */
  datatype Via = Parked | BadReference | Expired | NoMovement | Locked

  datatype Client = Client(
    origin: Origin,
    pc: Pc,
    tx: Tx,                      // as it stood before the decision
    reference: Option<Tx>,       // as read before any lock
    wallet: Option<WalletRow>,   // as read, for a movement under the lock
    reversed: bool,              // what FindReversal said
    via: Via,
    decision: Option<Decision>,
    inbox: Option<InboxRow>,
    existing: Option<Tx>,        // the row being replayed
    balance: Option<Money>,
    answer: Option<Answer>)

  datatype State = State(
    db: Db,
    clients: map<Id, Client>,
    walletLocks: map<Id, Id>,
    keyLocks: map<Key, Id>,
    queue: map<Id, Message>,
    deleted: map<Id, Message>)

  const Init := State(EmptyDb, map[], map[], map[], map[], map[])

  function Start(origin: Origin, pc: Pc, tx: Tx): Client {
    Client(origin, pc, tx, None, None, false, Locked, None, None, None, None, None)
  }

  /** Where process begins, by kind. */
  function Entry(kind: Kind): Pc {
    if kind.IsReversal() then ReadReference else if kind == Loss then ReadLossWallet else LockWallet
  }

  /** All the writes the call's transaction holds. */
  function Staged(k: Client): Writes {
    (if k.decision.Some? then k.decision.value.writes else NoWrites).(inbox := k.inbox)
  }

  function Release<K>(locks: map<K, Id>, call: Id): map<K, Id> {
    map key | key in locks && locks[key] != call :: locks[key]
  }

  function Put(s: State, call: Id, k: Client): State {
    s.(clients := s.clients[call := k])
  }

  /** The transaction ends, however it ends. */
  function End(s: State, call: Id, k: Client): State {
    Put(s, call, k).(walletLocks := Release(s.walletLocks, call), keyLocks := Release(s.keyLocks, call))
  }

  function Refuse(s: State, call: Id, k: Client, e: Error): State {
    End(s, call, k.(pc := Done, answer := Some(Refused(e))))
  }

  predicate Free<K>(locks: map<K, Id>, key: K, call: Id) {
    key in locks ==> locks[key] == call
  }

  /** A wallet read: inside a transaction it waits for the row lock and takes it. */
  predicate MayRead(s: State, call: Id, k: Client) {
    k.origin.Sqs? ==> Free(s.walletLocks, k.tx.WalletId(), call)
  }

  function Read(s: State, call: Id, k: Client): State {
    if k.origin.Sqs? then s.(walletLocks := s.walletLocks[k.tx.WalletId() := call]) else s
  }

  // ----- one step of one call -----

  function StepInsertInbox(s: State, call: Id, k: Client): State {
    if k.origin.Sqs?
    then Put(s, call, k.(pc := PreCheck,
                         inbox := Some(InboxRow(k.origin.message.messageId, k.origin.message, false))))
    else s
  }

  function StepPreCheck(s: State, call: Id, k: Client): State {
    var found := s.db.FindByKey(k.tx.key);
    if found.Some? then Put(s, call, k.(pc := ReplayEntry, existing := found))
    else Put(s, call, k.(pc := Entry(k.tx.Kind())))
  }

  function StepReadReference(s: State, call: Id, k: Client): State {
    if k.tx.payload.referenceExternalId.None? then Refuse(s, call, k, MissingReference)
    else
      var found := s.db.FindByKey(Key(k.tx.key.providerId, k.tx.payload.referenceExternalId.value));
      match OnReference(k.tx, found, call)
      case Stop(e) => Refuse(s, call, k, e)
      case Continue(tx, reference) =>
        Put(s, call, k.(pc := LockWallet, tx := tx, reference := Some(reference)))
      case Settled(d) =>
        if d.writes == NoWrites then Put(s, call, k.(pc := Schedule))
        else Put(s, call, k.(pc := Save, decision := Some(d), via := if found.None? then Parked else BadReference))
  }

  function StepReadLossWallet(s: State, call: Id, k: Client): State {
    if k.tx.WalletId() !in s.db.wallets then Refuse(s, call, k, WalletNotFound)
    else if !MayRead(s, call, k) then s
    else
      var w := s.db.wallets[k.tx.WalletId()];
      match FinishLoss(k.tx, w, call)
      case Err(e) => Refuse(s, call, k, e)
      case Ok(d) =>
        Put(Read(s, call, k), call, k.(pc := Save, wallet := Some(w), decision := Some(d), via := NoMovement))
  }

  function StepLockWallet(s: State, call: Id, k: Client): State {
    if MovementDirection(k.tx.Kind(), k.reference).Err? then Refuse(s, call, k, NoMovementDefined)
    else if k.tx.WalletId() !in s.db.wallets then Refuse(s, call, k, WalletNotFound)
    else if !Free(s.walletLocks, k.tx.WalletId(), call) then s
    else
      var pc := if k.tx.Kind().IsReversal() then CheckReversal else Decide;
      Put(s, call, k.(pc := pc, wallet := Some(s.db.wallets[k.tx.WalletId()])))
      .(walletLocks := s.walletLocks[k.tx.WalletId() := call])
  }

  function StepCheckReversal(s: State, call: Id, k: Client): State {
    if k.reference.None? then Refuse(s, call, k, MissingReference)
    else Put(s, call, k.(pc := Decide, reversed := s.db.HasReversal(k.reference.value.id)))
  }

  function StepDecide(s: State, call: Id, k: Client): State {
    if k.wallet.None? then Refuse(s, call, k, WalletNotFound)
    else match Settle(k.tx, k.reference, k.wallet.value, k.reversed, call)
      case Err(e) => Refuse(s, call, k, e)
      case Ok(d) => Put(s, call, k.(pc := Save, decision := Some(d), via := Locked, balance := d.balance))
  }

  /** The ledger's unique (wallet, transaction). */
  predicate EntryCollides(db: Db, w: Writes) {
    w.entry.Some? && exists i :: 0 <= i < |db.ledger|
                                 && db.ledger[i].walletId == w.entry.value.walletId
                                 && db.ledger[i].transactionId == w.entry.value.transactionId
  }

  function AfterSave(k: Client): Pc {
    if k.origin.Sqs? then (if k.balance.None? then ReadBalance else CompleteInbox) else Commit
  }

  function StepSave(s: State, call: Id, k: Client): State {
    if k.decision.None? || k.decision.value.writes.row.None? then Refuse(s, call, k, ConstraintViolation)
    else
      var row := k.decision.value.writes.row.value;
      if EntryCollides(s.db, k.decision.value.writes) then Refuse(s, call, k, ConstraintViolation)
      else if row.id in s.db.txs then Put(s, call, k.(pc := AfterSave(k)))
      else if row.key in s.db.index then
        if k.origin.Sqs? then Refuse(s, call, k, TransactionAborted)
        else End(s, call, k.(pc := Lookup, decision := None, balance := None))
      else if !Free(s.keyLocks, row.key, call) then s
      else if row.WalletId() !in s.db.wallets then Refuse(s, call, k, ConstraintViolation)
      else Put(s, call, k.(pc := AfterSave(k))).(keyLocks := s.keyLocks[row.key := call])
  }

  function FreshAnswer(k: Client, balance: Money): Option<Answer> {
    if k.decision.Some? then Some(Accepted(k.decision.value.tx, balance, false))
    else if k.existing.Some? then Some(Accepted(k.existing.value, balance, true))
    else None
  }

  function StepReadBalance(s: State, call: Id, k: Client): State {
    if k.tx.WalletId() !in s.db.wallets then Refuse(s, call, k, WalletNotFound)
    else if !MayRead(s, call, k) then s
    else
      var balance := s.db.wallets[k.tx.WalletId()].balance;
      if k.origin.Sqs? then Put(Read(s, call, k), call, k.(pc := CompleteInbox, balance := Some(balance)))
      else Put(s, call, k.(pc := Done, balance := Some(balance), answer := FreshAnswer(k, balance)))
  }

  function StepCompleteInbox(s: State, call: Id, k: Client): State {
    if k.inbox.None? || k.inbox.value.completed then Refuse(s, call, k, AlreadyCompleted)
    else Put(s, call, k.(pc := Commit, inbox := Some(k.inbox.value.(completed := true))))
  }

  function StepCommit(s: State, call: Id, k: Client): State {
    var after := s.(db := Apply(s.db, Staged(k)));
    if k.balance.None? then End(after, call, k.(pc := ReadBalance))
    else End(after, call, k.(pc := if k.origin.Sqs? then Delete else Done,
                             answer := FreshAnswer(k, k.balance.value)))
  }

  function StepLookup(s: State, call: Id, k: Client): State {
    var found := s.db.FindByKey(k.tx.key);
    if found.None? then Refuse(s, call, k, TransactionNotFound)
    else Put(s, call, k.(pc := ReplayEntry, existing := found))
  }

  /** The balance of a replay is known: a delivery still has its inbox row to complete. */
  function FinishReplay(s: State, call: Id, k: Client, balance: Money): State {
    if k.origin.Sqs? then Put(s, call, k.(pc := CompleteInbox, balance := Some(balance)))
    else Put(s, call, k.(pc := Done, balance := Some(balance), answer := FreshAnswer(k, balance)))
  }

  function StepReplayEntry(s: State, call: Id, k: Client): State {
    if k.existing.None? then Refuse(s, call, k, TransactionNotFound)
    else if k.existing.value.payload != k.tx.payload then Refuse(s, call, k, IdempotencyConflict)
    else match s.db.FindLedgerEntry(k.existing.value.id)
      case Some(entry) => FinishReplay(s, call, k, entry.balanceAfter)
      case None => Put(s, call, k.(pc := ReplayWallet))
  }

  function StepReplayWallet(s: State, call: Id, k: Client): State {
    if k.tx.WalletId() !in s.db.wallets then Refuse(s, call, k, WalletNotFound)
    else if !MayRead(s, call, k) then s
    else FinishReplay(Read(s, call, k), call, k, s.db.wallets[k.tx.WalletId()].balance)
  }

  function StepDelete(s: State, call: Id, k: Client): State {
    if k.origin.Sqs?
    then Put(s, call, k.(pc := Done)).(queue := s.queue - {k.origin.delivery},
                                       deleted := s.deleted[k.origin.delivery := k.origin.message])
    else s
  }

  /** One UPDATE, guarded by the status. */
  function StepSchedule(s: State, call: Id, k: Client): State {
    var id := k.tx.id;
    var due := id in s.db.txs && id in s.db.attempts && s.db.txs[id].status == PendingReference;
    Put(s, call, k.(pc := Done))
    .(db := if due then s.db.(attempts := s.db.attempts[id := s.db.attempts[id] + 1]) else s.db)
  }

  function Advance(s: State, call: Id): State {
    if call !in s.clients then s
    else
      var k := s.clients[call];
      match k.pc
      case InsertInbox => StepInsertInbox(s, call, k)
      case PreCheck => StepPreCheck(s, call, k)
      case ReadReference => StepReadReference(s, call, k)
      case ReadLossWallet => StepReadLossWallet(s, call, k)
      case LockWallet => StepLockWallet(s, call, k)
      case CheckReversal => StepCheckReversal(s, call, k)
      case Decide => StepDecide(s, call, k)
      case Save => StepSave(s, call, k)
      case ReadBalance => StepReadBalance(s, call, k)
      case CompleteInbox => StepCompleteInbox(s, call, k)
      case Commit => StepCommit(s, call, k)
      case Lookup => StepLookup(s, call, k)
      case ReplayEntry => StepReplayEntry(s, call, k)
      case ReplayWallet => StepReplayWallet(s, call, k)
      case Delete => StepDelete(s, call, k)
      case Schedule => StepSchedule(s, call, k)
      case Done => s
      case Dead => s
  }

  // ----- calls beginning and crashing -----

  /** WalletCreator.Create: one commit of rows nobody else can know yet. */
  function BeginOpenWallet(s: State, call: Id, now: int, playerId: Id, initialBalance: Money): State {
    var taken := exists w :: w in s.db.wallets && s.db.wallets[w].playerId == playerId
                             && s.db.wallets[w].balance.currency == initialBalance.currency;
    if call in s.clients || taken then s
    else match OpenWallet(call, now, playerId, initialBalance)
      case Err(_) => s
      case Ok(writes) =>
        var opening := Tx(call, Processed, Key("", ""), Payload(playerId, call, "", "", Opening, initialBalance, None),
                          None, None, now);
        Put(s, call, Start(Http, Done, opening)).(db := Apply(s.db, writes))
  }

  function BeginSubmit(s: State, call: Id, now: int, input: Input): State {
    if call in s.clients then s
    else match NewTransaction(call, now, input)
      case Err(_) => s
      case Ok(tx) => Put(s, call, Start(Http, PreCheck, tx))
  }

  function Enqueue(s: State, delivery: Id, message: Message): State {
    if delivery in s.queue || delivery in s.deleted then s
    else s.(queue := s.queue[delivery := message])
  }

  /** The consumer takes a message it has not deleted, for the first time or again, and reads
      its inbox row. A message without an id, or with a submission that is not acceptable, it leaves. */
  function BeginDelivery(s: State, call: Id, now: int, delivery: Id): State {
    if call in s.clients || delivery !in s.queue || s.queue[delivery].messageId == "" then s
    else
      var message := s.queue[delivery];
      match NewTransaction(call, now, message.input)
      case Err(_) => s
      case Ok(tx) =>
        var origin := Sqs(delivery, message);
        if message.messageId in s.db.inbox then
          var row := s.db.inbox[message.messageId];
          if row.hashed != message then
            Put(s, call, Start(origin, Done, tx).(answer := Some(Refused(PayloadChanged))))
          else if row.completed then Put(s, call, Start(origin, Delete, tx))
          else Put(s, call, Start(origin, PreCheck, tx).(inbox := Some(row)))
        else Put(s, call, Start(origin, InsertInbox, tx))
  }

  /** The resolver reads a due row; one whose attempts or time have run out it rejects. */
  function BeginResolve(s: State, call: Id, id: Id, expired: bool): State {
    if call in s.clients || id !in s.db.txs || s.db.txs[id].status != PendingReference then s
    else
      var tx := s.db.txs[id];
      if !expired then Put(s, call, Start(Resolver, Entry(tx.Kind()), tx))
      else match RejectTx(tx, ReferenceNotFound, call)
        case Err(_) => s
        case Ok(d) => Put(s, call, Start(Resolver, Save, tx).(decision := Some(d), via := Expired))
  }

  function Crash(s: State, call: Id): State {
    if call in s.clients && s.clients[call].pc != Done
    then End(s, call, s.clients[call].(pc := Dead, answer := None))
    else s
  }

  // ----- runs -----

  datatype Label =
    | OpenWalletCall(call: Id, now: int, playerId: Id, initialBalance: Money)
    | SubmitCall(call: Id, now: int, input: Input)
    | SendMessage(delivery: Id, message: Message)
    | DeliverCall(call: Id, now: int, delivery: Id)
    | ResolveCall(call: Id, id: Id, expired: bool)
    | AdvanceCall(call: Id)
    | CrashCall(call: Id)

  function Next(s: State, l: Label): State {
    match l
    case OpenWalletCall(call, now, playerId, initialBalance) => BeginOpenWallet(s, call, now, playerId, initialBalance)
    case SubmitCall(call, now, input) => BeginSubmit(s, call, now, input)
    case SendMessage(delivery, message) => Enqueue(s, delivery, message)
    case DeliverCall(call, now, delivery) => BeginDelivery(s, call, now, delivery)
    case ResolveCall(call, id, expired) => BeginResolve(s, call, id, expired)
    case AdvanceCall(call) => Advance(s, call)
    case CrashCall(call) => Crash(s, call)
  }

  /** The state after a schedule of steps, in order. */
  function Run(schedule: seq<Label>): State {
    if schedule == [] then Init
    else Next(Run(schedule[..|schedule| - 1]), schedule[|schedule| - 1])
  }
}
