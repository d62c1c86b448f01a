/** What is submitted is what is booked: from the caller's fields, or the message's, to the row, the ledger
    entry and the answer; and no message is lost on the way. In every run, any number of resolvers. */
module Submissions {
  import opened Prelude
  import opened Wagers
  import opened Tables
  import opened Decisions
  import opened Protocol
  import opened Integrity
  import opened Calls
  import opened CoreSteps
  import opened CoreCommits
  import opened CoreTheorem
  import opened Histories
  import opened OwnSteps
  import opened Idempotency

  // ----- a call and its transaction -----

  /** A call stays about the transaction it began with. */
  lemma KeepsItsTransaction(s: State, l: Label, c: Id)
    requires Core(s) && c in s.clients
    ensures c in Next(s, l).clients && SameRow(s.clients[c], Next(s, l).clients[c])
  {
    hide Core, Next, At, Advance, ReportTraced, Replayed, LooksUpNext, LookedInVainNow, ReadFromEntry, ReadFromWallet;
    AtItsPoint(s, c);
    if l == AdvanceCall(c) {
      AdvanceIsNext(s, c);
      AdvanceTraced(s, c, s.clients[c]);
    } else {
      OthersSpare(s, l, c, s.clients[c]);
    }
  }

  lemma {:induction false} KeepsItAlong(schedule: seq<Label>, tail: seq<Label>, c: Id)
    requires c in Run(schedule).clients
    ensures c in Run(schedule + tail).clients && SameRow(Run(schedule).clients[c], Run(schedule + tail).clients[c])
    decreases |tail|
  {
    hide Run, Next, Core;
    if tail == [] {
      assert schedule + tail == schedule;
    } else {
      var n := |tail| - 1;
      KeepsItAlong(schedule, tail[..n], c);
      ReachableIsCore(schedule + tail[..n]);
      assert schedule + tail == schedule + tail[..n] + [tail[n]];
      RunStep(schedule + tail[..n], tail[n]);
      KeepsItsTransaction(Run(schedule + tail[..n]), tail[n], c);
    }
  }

  // ----- a call and its row -----

  /** The row of a call, as far as there is one, has the fields of the call's transaction. */
  predicate OwnRow(s: State, id: Id) {
    id in s.db.txs ==> id in s.clients && s.db.txs[id].SameBusiness(s.clients[id].tx)
  }

  lemma CommittedRowIsOwn(s: State, l: Label, id: Id)
    requires Core(s) && Commits(s, l) && id !in s.db.txs && id in Next(s, l).db.txs
    ensures OwnRow(Next(s, l), id)
  {
    hide Core, Next, WritesOk, Footprint, Apply, StepCommit, HasDecision, Decided, HoldsWallet, Unreversed, Replays,
      WellFormed, Grounded;
    var k := s.clients[l.call];
    CommitStep(s, l);
    KeepsItsTransaction(s, l, l.call);
    WritesOkParts(s.db, Staged(k));
    if k.decision.Some? {
      DecidedIsOwn(s, l.call, k);
      UpsertedRow(s.db, Staged(k));
    } else {
      RowlessKeepsRows(s.db, Staged(k));
    }
  }

  lemma DecidedIsOwn(s: State, call: Id, k: Client)
    requires At(s, call, k, Commit) && k.decision.Some?
    ensures Staged(k).row.Some? && Staged(k).row.value.SameBusiness(k.tx) && (k.tx.id == call || k.tx.id in s.db.txs)
  {
    hide Decided, HoldsWallet, Unreversed, WellFormed, Grounded, Replays;
    DecidedRow(call, k);
  }

  lemma OpenedRowIsOwn(s: State, l: Label, id: Id)
    requires Core(s) && Opens(s, l) && id !in s.db.txs && id in Next(s, l).db.txs
    ensures OwnRow(Next(s, l), id)
  {
    hide Core, WritesOk;
    OpenStep(s, l);
  }

  lemma RowsStayOwn(s: State, l: Label, id: Id)
    requires Core(s) && OwnRow(s, id)
    ensures OwnRow(Next(s, l), id)
  {
    hide Core, Next, OpenWallet;
    if id in s.db.txs {
      NextEvolves(s, l);
      KeepsItsTransaction(s, l, id);
    } else if Commits(s, l) {
      if id in Next(s, l).db.txs {
        CommittedRowIsOwn(s, l, id);
      }
    } else if Opens(s, l) {
      if id in Next(s, l).db.txs {
        OpenedRowIsOwn(s, l, id);
      }
    } else if l.OpenWalletCall? {
      UnopenedStep(s, l);
    } else {
      QuietStep(s, l);
    }
  }

  lemma {:induction false} RowsAreOwn(schedule: seq<Label>, id: Id)
    ensures OwnRow(Run(schedule), id)
  {
    hide Next, Core;
    if schedule != [] {
      var n := |schedule| - 1;
      RowsAreOwn(schedule[..n], id);
      ReachableIsCore(schedule[..n]);
      RowsStayOwn(Run(schedule[..n]), schedule[n], id);
    }
  }

  // ----- how submissions begin -----

  /** The submission of a call's first step: the caller's, or the one in the message taken. */
  predicate Submits(s: State, l: Label, call: Id, input: Input) {
    || (l.SubmitCall? && l.call == call && l.input == input)
    || (l.DeliverCall? && l.call == call && l.delivery in s.queue && s.queue[l.delivery].messageId != ""
        && s.queue[l.delivery].input == input)
  }

  predicate Acceptable(input: Input) {
    && "" !in [input.providerId, input.externalId, input.roundId, input.gameId]
    && input.playerId.Some? && input.walletId.Some? && KindAllows(input)
  }

  /** The call has begun, with every field as submitted and nothing decided, if the submission is acceptable,
      and not at all if not; tables and queue stay as they are. */
  predicate BegunExactly(s: State, later: State, call: Id, input: Input) {
    && (call in later.clients <==> Acceptable(input))
    && (call in later.clients ==>
          Carries(later.clients[call].tx, input) && later.clients[call].tx.id == call
          && later.clients[call].decision.None?)
    && later.db == s.db && later.queue == s.queue
  }

  lemma CallerBegins(s: State, call: Id, now: int, input: Input)
    requires call !in s.clients
    ensures BegunExactly(s, BeginSubmit(s, call, now, input), call, input)
  {
    hide NewTransaction, KindAllows;
    SubmissionsAcceptedExactly(call, now, input);
  }

  lemma DeliveryStarts(s: State, call: Id, now: int, delivery: Id)
    requires call !in s.clients && delivery in s.queue && s.queue[delivery].messageId != ""
    ensures BegunExactly(s, BeginDelivery(s, call, now, delivery), call, s.queue[delivery].input)
  {
    hide NewTransaction, KindAllows;
    SubmissionsAcceptedExactly(call, now, s.queue[delivery].input);
  }

  /** A submission, the caller's or the one in the message taken, begins if and only if it is acceptable. */
  lemma SubmissionsBegin(s: State, l: Label, call: Id, input: Input)
    requires call !in s.clients && Submits(s, l, call, input)
    ensures BegunExactly(s, Next(s, l), call, input)
  {
    hide BegunExactly, BeginSubmit, BeginDelivery;
    if l.SubmitCall? {
      CallerBegins(s, call, l.now, input);
    } else {
      DeliveryStarts(s, call, l.now, l.delivery);
    }
  }

  // ----- main results -----

  lemma BookedAsItsRow(s: State, call: Id, i: nat)
    requires Core(s) && i < |s.db.ledger| && s.db.ledger[i].transactionId == call
    ensures call in s.db.txs && s.db.ledger[i].walletId == s.db.txs[call].payload.walletId
            && s.db.ledger[i].amount == s.db.txs[call].payload.amount
  {
    hide IdsKnown, ClientsOk, DeletedOk, RowsOk, IndexOk, WalletsOk, EventsOk, InboxOk, ReversalsOk, SettledHaveEntries;
    assert EntryOk(s.db, s.db.ledger[i]);
  }

  /** All that a call leaves behind is of this submission. */
  predicate BookedAsSubmitted(s: State, call: Id, input: Input) {
    && call in s.clients && Carries(s.clients[call].tx, input)
    && (call in s.db.txs ==> Carries(s.db.txs[call], input))
    && (forall i :: 0 <= i < |s.db.ledger| && s.db.ledger[i].transactionId == call ==>
          Some(s.db.ledger[i].walletId) == input.walletId && s.db.ledger[i].amount == input.amount)
    && (Answered(s, call) ==> Carries(AnswerOf(s, call).tx, input))
  }

  lemma SameFieldsCarry(t: Tx, other: Tx, input: Input)
    requires Carries(t, input) && other.key == t.key && other.payload == t.payload
    ensures Carries(other, input)
  {
  }

  /** Whatever follows, in every run: the transaction of a submission, its row, its ledger entry and the
      transaction it is answered with, fresh or replayed, have the key, the player, wallet, round, game,
      kind, amount and reference that were submitted. */
  lemma {:induction false} WhatIsSubmittedIsBooked(schedule: seq<Label>, l: Label, tail: seq<Label>, call: Id,
                                                   input: Input)
    requires call !in Run(schedule).clients && Submits(Run(schedule), l, call, input) && Acceptable(input)
    ensures BookedAsSubmitted(Run(schedule + [l] + tail), call, input)
  {
    hide Run, Next, Core, Acceptable, Submits;
    RunStep(schedule, l);
    SubmissionsBegin(Run(schedule), l, call, input);
    KeepsItAlong(schedule + [l], tail, call);
    var begun, s := Run(schedule + [l]), Run(schedule + [l] + tail);
    SameFieldsCarry(begun.clients[call].tx, s.clients[call].tx, input);
    RowsAreOwn(schedule + [l] + tail, call);
    ReachableIsCore(schedule + [l] + tail);
    if call in s.db.txs {
      SameFieldsCarry(begun.clients[call].tx, s.db.txs[call], input);
    }
    forall i | 0 <= i < |s.db.ledger| && s.db.ledger[i].transactionId == call
      ensures Some(s.db.ledger[i].walletId) == input.walletId && s.db.ledger[i].amount == input.amount
    {
      BookedAsItsRow(s, call, i);
    }
    if Answered(s, call) {
      AnswerIsOfTheKey(s, call);
      SameFieldsCarry(s.clients[call].tx, AnswerOf(s, call).tx, input);
    }
  }

  // ----- no message is lost -----

  /** The message waits in the queue, or was deleted from it, as it was sent. */
  predicate IsKept(s: State, delivery: Id, message: Message) {
    || (delivery in s.queue && s.queue[delivery] == message && delivery !in s.deleted)
    || (delivery in s.deleted && s.deleted[delivery] == message && delivery !in s.queue)
  }

  /** A delivery's message is the one that was sent under its id. */
  predicate OriginKept(s: State, c: Id) {
    c in s.clients && s.clients[c].origin.Sqs? ==>
      IsKept(s, s.clients[c].origin.delivery, s.clients[c].origin.message)
  }

  predicate OriginsKept(s: State) {
    (forall c :: c in s.clients ==> OriginKept(s, c)) && s.queue.Keys !! s.deleted.Keys
  }

  /** What a step does to the queue: a message comes in, or a delivery that is done with its own deletes it. */
  predicate QueueStep(s: State, later: State, l: Label) {
    || (later.queue == s.queue && later.deleted == s.deleted)
    || (l.SendMessage? && l.delivery !in s.queue && l.delivery !in s.deleted
        && later.queue == s.queue[l.delivery := l.message] && later.deleted == s.deleted)
    || (l.AdvanceCall? && l.call in s.clients && s.clients[l.call].origin.Sqs? && s.clients[l.call].pc == Delete
        && var o := s.clients[l.call].origin;
           later.queue == s.queue - {o.delivery} && later.deleted == s.deleted[o.delivery := o.message])
  }

  lemma AdvanceKeepsQueue(s: State, call: Id)
    requires Core(s) && call in s.clients && s.clients[call].pc != Delete
    ensures Advance(s, call).queue == s.queue && Advance(s, call).deleted == s.deleted
  {
    hide Sound, ClientOk, IdsKnown, DeletedOk, RowsOk, IndexOk, WalletsOk, LedgerOk, StepInsertInbox, StepPreCheck,
      StepReadReference, StepReadLossWallet, StepLockWallet, StepCheckReversal, StepDecide, StepSave, StepReadBalance,
      StepCompleteInbox, StepCommit, StepLookup, StepReplayEntry, StepReplayWallet;
    var k := s.clients[call];
    match k.pc {
      case Commit => CommitKeepsQueue(s, call, k);
      case Schedule =>
      case Done =>
      case Dead =>
      case _ =>
        SoundParts(s.db);
        LocalAdvanceKept(s, call, k);
    }
  }

  lemma CommitKeepsQueue(s: State, call: Id, k: Client)
    ensures StepCommit(s, call, k).queue == s.queue && StepCommit(s, call, k).deleted == s.deleted
  {
    hide Release, Apply, FreshAnswer, Staged;
  }

  lemma QueueSteps(s: State, l: Label)
    requires Core(s)
    ensures QueueStep(s, Next(s, l), l)
  {
    hide Core, Advance, OpenWallet, NewTransaction, Apply, Release, RejectTx;
    if l.AdvanceCall? {
      AdvanceIsNext(s, l.call);
      if l.call !in s.clients {
        assert Advance(s, l.call) == s by { NoSuchCall(s, l.call); }
      } else if s.clients[l.call].pc == Delete {
        DeleteStep(s, l.call);
      } else {
        AdvanceKeepsQueue(s, l.call);
      }
    }
  }

  lemma NoSuchCall(s: State, call: Id)
    requires call !in s.clients
    ensures Advance(s, call) == s
  {
  }

  lemma DeleteStep(s: State, call: Id)
    requires call in s.clients && s.clients[call].pc == Delete
    ensures Advance(s, call) == StepDelete(s, call, s.clients[call])
  {
  }

  /** A step keeps every message that is kept. */
  lemma StaysKept(s: State, l: Label, delivery: Id, message: Message)
    requires Core(s) && OriginsKept(s) && IsKept(s, delivery, message)
    ensures IsKept(Next(s, l), delivery, message)
  {
    hide Next, Core;
    QueueSteps(s, l);
    if l.AdvanceCall? && l.call in s.clients {
      assert OriginKept(s, l.call);
    }
  }

  lemma NewOriginKept(s: State, l: Label, c: Id)
    requires Core(s) && OriginsKept(s) && c !in s.clients
    ensures OriginKept(Next(s, l), c)
  {
    hide Core, Advance, OpenWallet, NewTransaction, Apply, Release, RejectTx;
    if l.AdvanceCall? {
      AdvanceIsNext(s, l.call);
      AdvanceKeepsCalls(s, l.call);
    }
  }

  lemma OriginsStayKept(s: State, l: Label)
    requires Core(s) && OriginsKept(s)
    ensures OriginsKept(Next(s, l))
  {
    hide Next, Core, IsKept;
    QueueSteps(s, l);
    forall c | c in Next(s, l).clients
      ensures OriginKept(Next(s, l), c)
    {
      if c in s.clients {
        KeepsItsTransaction(s, l, c);
        assert OriginKept(s, c);
        if s.clients[c].origin.Sqs? {
          StaysKept(s, l, s.clients[c].origin.delivery, s.clients[c].origin.message);
        }
      } else {
        NewOriginKept(s, l, c);
      }
    }
  }

  lemma {:induction false} OriginsAreKept(schedule: seq<Label>)
    ensures OriginsKept(Run(schedule))
  {
    hide Next, Core, OriginKept;
    if schedule != [] {
      var n := |schedule| - 1;
      OriginsAreKept(schedule[..n]);
      ReachableIsCore(schedule[..n]);
      OriginsStayKept(Run(schedule[..n]), schedule[n]);
    }
  }

  lemma {:induction false} KeptAlong(schedule: seq<Label>, tail: seq<Label>, delivery: Id, message: Message)
    requires IsKept(Run(schedule), delivery, message)
    ensures IsKept(Run(schedule + tail), delivery, message)
    decreases |tail|
  {
    hide Run, Next, Core, IsKept, OriginsKept;
    if tail == [] {
      assert schedule + tail == schedule;
    } else {
      var n := |tail| - 1;
      KeptAlong(schedule, tail[..n], delivery, message);
      ReachableIsCore(schedule + tail[..n]);
      OriginsAreKept(schedule + tail[..n]);
      assert schedule + tail == schedule + tail[..n] + [tail[n]];
      RunStep(schedule + tail[..n], tail[n]);
      StaysKept(Run(schedule + tail[..n]), tail[n], delivery, message);
    }
  }

  /** A message sent is never lost: whatever follows, crashes included, it waits in the queue as it was sent,
      or it was deleted with its inbox row completed and its wager's row committed. */
  lemma {:induction false} NoMessageIsLost(schedule: seq<Label>, tail: seq<Label>, delivery: Id, message: Message)
    requires delivery !in Run(schedule).queue && delivery !in Run(schedule).deleted
    ensures var s := Run(schedule + [SendMessage(delivery, message)] + tail);
            IsKept(s, delivery, message)
            && (delivery in s.deleted ==>
                  MessageKey(message) in s.db.index && message.messageId in s.db.inbox
                  && s.db.inbox[message.messageId].completed)
  {
    hide Run, Core, OriginsKept;
    var sent := schedule + [SendMessage(delivery, message)];
    RunStep(schedule, SendMessage(delivery, message));
    KeptAlong(sent, tail, delivery, message);
    if delivery in Run(sent + tail).deleted {
      DeletedMessagesAreDone(sent + tail, delivery, message);
    }
  }
}
