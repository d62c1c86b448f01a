/** Handling an inbound message: the inbox row, the submission and the completion commit together
    or not at all, and only then is the message deleted (internal/sqs/consumer.go, internal/inbox). */
module Consumers {
  import opened Prelude
  import opened Wagers
  import opened Tables
  import opened Protocol
  import opened Integrity
  import opened Solo
  import opened Stores
  import opened Submitters

  /** The inbox entry object, changed in place by MarkCompleted. */
  class Inbox {
    const messageId: string
    const hashed: Message
    var completed: bool

    function Value(): InboxRow
      reads this
    {
      InboxRow(messageId, hashed, completed)
    }

    constructor FromPersistence(row: InboxRow)
      ensures Value() == row
    {
      messageId, hashed, completed := row.messageId, row.hashed, row.completed;
    }

    method MarkCompleted() returns (r: Result<()>)
      modifies this
      ensures if old(completed) then r == Err(AlreadyCompleted) && Value() == old(Value())
              else r == Ok(()) && Value() == old(Value()).(completed := true)
    {
      if completed {
        return Err(AlreadyCompleted);
      }
      completed := true;
      return Ok(());
    }
  }

  /** There is work to do: the message has an id, and its inbox row, if there is one, is its own and not
      completed. */
  predicate Unfinished(db: Db, message: Message) {
    && message.messageId != ""
    && (message.messageId in db.inbox ==>
          db.inbox[message.messageId].hashed == message && !db.inbox[message.messageId].completed)
  }

  /** What the submission inside a delivery writes and answers, on the database it found and the one
      somebody else may have left since. */
  function Delivered(db: Db, arrivals: seq<Writes>, tx: Tx, call: Id): (Db, Writes, Result<Submission>) {
    match db.FindByKey(tx.key)
    case Some(existing) => (db, NoWrites, Replayed(db, existing, tx))
    case None =>
      var meanwhile := Arrived(db, arrivals);
      var (writes, answer) := Concluding(meanwhile, tx, call, true);
      (meanwhile, writes, answer)
  }

  /** A delivery either commits the submission's writes and the completed inbox row in one go, or
      leaves nothing of its own behind. */
  method Handle(store: Store, call: Id, now: int, message: Message) returns (r: Result<()>)
    requires store.Now() == Session(store.db, false, false, NoWrites)
    requires Keyed(store.db) && Keyed(Arrived(store.db, store.arrivals))
    modifies store
    ensures store.Now() == Session(store.db, false, false, NoWrites)
    ensures message.messageId == "" ==> r == Err(InvalidInput) && store.db == old(store.db)
    ensures message.messageId != "" && message.messageId in old(store.db).inbox ==>
              var row := old(store.db).inbox[message.messageId];
              && (row.hashed != message ==> r == Err(PayloadChanged) && store.db == old(store.db))
              && (row.hashed == message && row.completed ==> r == Ok(()) && store.db == old(store.db))
    ensures Unfinished(old(store.db), message) ==>
              match NewTransaction(call, now, message.input)
              case Err(e) => r == Err(e) && store.db == old(store.db)
              case Ok(tx) =>
                var (meanwhile, writes, answer) := Delivered(old(store.db), old(store.arrivals), tx, call);
                if answer.Ok? then
                  r == Ok(())
                  && store.db ==
                     Apply(meanwhile, writes.(inbox := Some(InboxRow(message.messageId, message, true))))
                else
                  r == Err(answer.error) && store.db == meanwhile
  {
    hide Concluding, ProcessingOf, Replayed, Apply, NewTransaction;
    if message.messageId == "" {
      return Err(InvalidInput);
    }
    var recorded := store.FindInbox(message.messageId);
    var row := InboxRow(message.messageId, message, false);
    if recorded.Some? {
      row := recorded.value;
      if row.hashed != message {
        return Err(PayloadChanged);
      }
      if row.completed {
        return Ok(());
      }
    }
    var entry := new Inbox.FromPersistence(row);
    var joined := store.Begin();
    if recorded.None? {
      store.SaveInbox(entry.Value());
    }
    var submitted := Submit(store, call, now, message.input);
    if submitted.Err? {
      store.End(joined, false);
      return Err(submitted.error);
    }
    var completed := entry.MarkCompleted();
    store.SaveInbox(entry.Value());
    store.End(joined, true);
    return Ok(());
  }

  /** The queue as the consumer sees it: what has not been deleted. */
  class Queue {
    var messages: map<Id, Message>

    constructor (initial: map<Id, Message>)
      ensures messages == initial
    {
      messages := initial;
    }

    method Delete(delivery: Id)
      modifies this
      ensures messages == old(messages) - {delivery}
    {
      messages := messages - {delivery};
    }
  }

  predicate CompletedIn(db: Db, messageId: string) {
    messageId in db.inbox && db.inbox[messageId].completed
  }

  /** The message is handled: it was before, or its submission is answered now. */
  predicate Handled(db: Db, arrivals: seq<Writes>, message: Message, call: Id, now: int) {
    && message.messageId != ""
    && if message.messageId in db.inbox && (db.inbox[message.messageId].hashed != message
                                            || db.inbox[message.messageId].completed)
       then db.inbox[message.messageId].hashed == message
       else match NewTransaction(call, now, message.input)
         case Err(_) => false
         case Ok(tx) => Delivered(db, arrivals, tx, call).2.Ok?
  }

  /** A message leaves the queue exactly when it is handled, and by then its inbox row is committed as
      completed; after a failure it stays, to be delivered again, and so do one without an id and one that
      comes with other content than was recorded under its id. */
  method ProcessMessage(store: Store, queue: Queue, delivery: Id, call: Id, now: int)
    requires delivery in queue.messages
    requires store.Now() == Session(store.db, false, false, NoWrites)
    requires Keyed(store.db) && Keyed(Arrived(store.db, store.arrivals))
    modifies store, queue
    ensures store.Now() == Session(store.db, false, false, NoWrites)
    ensures queue.messages ==
            if Handled(old(store.db), old(store.arrivals), old(queue.messages)[delivery], call, now)
            then old(queue.messages) - {delivery} else old(queue.messages)
    ensures delivery !in queue.messages ==> CompletedIn(store.db, old(queue.messages)[delivery].messageId)
    ensures var message := old(queue.messages)[delivery];
            message.messageId == ""
            || (message.messageId in old(store.db).inbox
                && old(store.db).inbox[message.messageId].hashed != message) ==>
              queue.messages == old(queue.messages) && store.db == old(store.db)
  {
    hide Delivered, Concluding, ProcessingOf, Replayed, NewTransaction;
    var r := Handle(store, call, now, queue.messages[delivery]);
    if r.Err? {
      return;
    }
    queue.Delete(delivery);
  }

  // ----- the consumer and the protocol -----

  /** What handling a message leaves of the tables when nobody commits in between. */
  function HandledDb(db: Db, message: Message, call: Id, now: int): Db {
    if !Unfinished(db, message) || NewTransaction(call, now, message.input).Err? then db
    else
      var (meanwhile, writes, answer) := Delivered(db, [], NewTransaction(call, now, message.input).value, call);
      if answer.Ok? then Apply(meanwhile, writes.(inbox := Some(InboxRow(message.messageId, message, true))))
      else meanwhile
  }

  /** How a delivery begins. */
  lemma DeliveryBegins(s: State, call: Id, now: int, delivery: Id, tx: Tx)
    requires call !in s.clients && delivery in s.queue && s.queue[delivery].messageId != ""
    requires NewTransaction(call, now, s.queue[delivery].input) == Ok(tx)
    ensures var message := s.queue[delivery];
            var k := Start(Sqs(delivery, message), PreCheck, tx);
            Next(s, DeliverCall(call, now, delivery)) ==
            Put(s, call,
                if message.messageId !in s.db.inbox then k.(pc := InsertInbox)
                else if s.db.inbox[message.messageId].hashed != message
                then k.(pc := Done, answer := Some(Refused(PayloadChanged)))
                else if s.db.inbox[message.messageId].completed then k.(pc := Delete)
                else k.(inbox := Some(s.db.inbox[message.messageId])))
  {
    hide NewTransaction;
    assert Next(s, DeliverCall(call, now, delivery)) == BeginDelivery(s, call, now, delivery);
  }

  /** The queue and the tables after a delivery, as the consumer leaves them. */
  predicate AsHandled(s: State, later: State, call: Id, now: int, delivery: Id)
    requires delivery in s.queue
  {
    && later.db == HandledDb(s.db, s.queue[delivery], call, now)
    && later.queue == (if Handled(s.db, [], s.queue[delivery], call, now) then s.queue - {delivery} else s.queue)
  }

  /** A call that has not begun: it holds no lock, and nobody else those it will need. */
  predicate FreshCall(s: State, call: Id, tx: Tx) {
    && call !in s.clients && call !in s.db.txs && HoldsNothing(s, call)
    && Free(s.walletLocks, tx.WalletId(), call) && Free(s.keyLocks, tx.key, call)
  }

  /** The submission inside a delivery, from the lookup of its key on. */
  lemma {:induction false} DeliveredAlone(s: State, begun: State, call: Id, now: int, delivery: Id, k: Client)
    returns (n: nat)
    requires LedgerOk(s.db) && IndexOk(s.db) && delivery in s.queue && Unfinished(s.db, s.queue[delivery])
    requires NewTransaction(call, now, s.queue[delivery].input) == Ok(k.tx) && FreshCall(s, call, k.tx)
    requires begun == Put(s, call, k)
    requires k == Start(Sqs(delivery, s.queue[delivery]), PreCheck, k.tx)
                  .(inbox := Some(InboxRow(s.queue[delivery].messageId, s.queue[delivery], false)))
    ensures AsHandled(s, AdvanceTimes(begun, call, n), call, now, delivery)
  {
    hide NewTransaction, Concluding, Replayed, Apply, DbAlone, AnswerAlone, LedgerOk, IndexOk, AdvanceTimes, Release,
      Delivered;
    AcceptedIsPending(call, now, s.queue[delivery].input);
    n := SubmissionAlone(begun, call, k);
    SubmissionsAgree(s.db, k, call, true);
    NobodyArrives(s.db, k.tx, call);
  }

  lemma AcceptedIsPending(id: Id, now: int, input: Input)
    requires NewTransaction(id, now, input).Ok?
    ensures var tx := NewTransaction(id, now, input).value; tx.status == Pending && tx.Kind() != Opening && tx.id == id
  {
  }

  lemma NobodyArrives(db: Db, tx: Tx, call: Id)
    ensures Delivered(db, [], tx, call) == (db, SubmissionOf(db, tx, call, true).0, SubmissionOf(db, tx, call, true).1)
  {
    hide Concluding, Replayed;
  }

  /** A delivery of the protocol that nobody interrupts does to tables and queue what the consumer does:
      handled, handled before, changed since, without an id, or failing. */
  lemma {:induction false} ConsumerAndProtocolAgree(s: State, call: Id, now: int, delivery: Id) returns (n: nat)
    requires LedgerOk(s.db) && IndexOk(s.db) && Keyed(s.db) && delivery in s.queue
    requires var tx := NewTransaction(call, now, s.queue[delivery].input); tx.Ok? && FreshCall(s, call, tx.value)
    ensures AsHandled(s, AdvanceTimes(Next(s, DeliverCall(call, now, delivery)), call, n), call, now, delivery)
  {
    hide NewTransaction, LedgerOk, IndexOk, Next, Advance, HandledDb, Delivered, Handled, HoldsNothing;
    var message := s.queue[delivery];
    var tx := NewTransaction(call, now, message.input).value;
    var begun := Next(s, DeliverCall(call, now, delivery));
    n := 0;
    if message.messageId == "" {
      NamelessIsLeft(s, call, now, delivery);
    } else {
      DeliveryBegins(s, call, now, delivery, tx);
      var k := Start(Sqs(delivery, message), PreCheck, tx);
      if message.messageId !in s.db.inbox {
        k := k.(inbox := Some(InboxRow(message.messageId, message, false)));
        InsertsTheRow(s, call, delivery, message, tx);
        n := DeliveredAlone(s, Put(s, call, k), call, now, delivery, k);
        AdvanceSum(begun, call, 1, n);
        n := 1 + n;
      } else if s.db.inbox[message.messageId].hashed != message {
        DoneBefore(s, begun, call, now, delivery);
      } else if s.db.inbox[message.messageId].completed {
        n := 1;
        DeletesIt(s, call, delivery, message, k.(pc := Delete));
        DoneBefore(s, AdvanceTimes(begun, call, 1), call, now, delivery);
      } else {
        n := DeliveredAlone(s, begun, call, now, delivery, k.(inbox := Some(s.db.inbox[message.messageId])));
      }
    }
  }

  lemma NamelessIsLeft(s: State, call: Id, now: int, delivery: Id)
    requires delivery in s.queue && s.queue[delivery].messageId == ""
    ensures AsHandled(s, Next(s, DeliverCall(call, now, delivery)), call, now, delivery)
  {
    hide NewTransaction, Delivered;
    assert Next(s, DeliverCall(call, now, delivery)) == BeginDelivery(s, call, now, delivery);
  }

  lemma InsertsTheRow(s: State, call: Id, delivery: Id, message: Message, tx: Tx)
    ensures var k := Start(Sqs(delivery, message), InsertInbox, tx);
            AdvanceTimes(Put(s, call, k), call, 1) ==
            Put(s, call, k.(pc := PreCheck, inbox := Some(InboxRow(message.messageId, message, false))))
  {
    var k := Start(Sqs(delivery, message), InsertInbox, tx);
    var begun := Put(s, call, k);
    assert AdvanceTimes(begun, call, 1) == Advance(AdvanceTimes(begun, call, 0), call);
    assert Advance(begun, call) == StepInsertInbox(begun, call, k);
  }

  lemma DeletesIt(s: State, call: Id, delivery: Id, message: Message, k: Client)
    requires k.pc == Delete && k.origin == Sqs(delivery, message)
    ensures var later := AdvanceTimes(Put(s, call, k), call, 1);
            later.db == s.db && later.queue == s.queue - {delivery}
  {
    var begun := Put(s, call, k);
    assert AdvanceTimes(begun, call, 1) == Advance(AdvanceTimes(begun, call, 0), call);
    assert Advance(begun, call) == StepDelete(begun, call, k);
  }

  lemma DoneBefore(s: State, later: State, call: Id, now: int, delivery: Id)
    requires delivery in s.queue && s.queue[delivery].messageId in s.db.inbox && s.queue[delivery].messageId != ""
    requires var row := s.db.inbox[s.queue[delivery].messageId];
             && later.db == s.db
             && (if row.hashed != s.queue[delivery] then later.queue == s.queue
                 else row.completed && later.queue == s.queue - {delivery})
    ensures AsHandled(s, later, call, now, delivery)
  {
    hide NewTransaction, Delivered;
  }
}
