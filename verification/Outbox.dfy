/** The outbox: producers that commit or abandon entries, and any number of workers that claim one
    with FOR UPDATE SKIP LOCKED, send it, and commit, or crash anywhere (internal/outbox,
    internal/app/outbox_worker.go, internal/postgres/outbox_repository.go). */
module Outbox {
  import opened Prelude
  import opened Moneys
  import Backoff

  datatype SendStatus = Unsent | Published

  /** An outbox row; the content stands for everything fixed at creation. */
  datatype Row = Row(id: Id, content: string, status: SendStatus, retryCount: nat, nextSendAt: int, createdAt: int) {
    function MarkPublished(): Row {
      this.(status := Published)
    }

    function ScheduleRetry(next: int): Result<Row> {
      if status != Unsent then Err(InvalidTransition)
      else Ok(this.(retryCount := retryCount + 1, nextSendAt := next))
    }
  }

  function NewRow(id: Id, content: string, now: int): Result<Row> {
    if content == "" then Err(InvalidInput) else Ok(Row(id, content, Unsent, 0, now, now))
  }

  /** Save rewrites what a worker may change of a row, and nothing else. */
  function Upsert(table: map<Id, Row>, row: Row): map<Id, Row> {
    if row.id in table
    then table[row.id := table[row.id].(status := row.status, retryCount := row.retryCount,
                                        nextSendAt := row.nextSendAt)]
    else table[row.id := row]
  }

  // ----- the system -----

  /** A worker between transactions, holding a claimed row, or having tried to send it. */
  datatype Worker = Idle | Claimed(row: Row) | Tried(row: Row, ok: bool)

  datatype Send = Send(id: Id, content: string)

  /** `ids` are the ids given out, `staged` what open transactions hold; `sent` is the broker's log,
      `failures` and `abandoned` count, per entry, committed failed attempts and sends never
      recorded. */
  datatype State = State(
    base: int64,
    now: int,
    table: map<Id, Row>,
    ids: set<Id>,
    staged: map<Id, (Id, Row)>,
    workers: map<Id, Worker>,
    sent: seq<Send>,
    failures: map<Id, nat>,
    abandoned: map<Id, nat>)

  function Start(base: int64): State {
    State(base, 0, map[], {}, map[], map[], [], map[], map[])
  }

  function WorkerOf(s: State, w: Id): Worker {
    if w in s.workers then s.workers[w] else Idle
  }

  predicate Holds(s: State, w: Id, id: Id) {
    w in s.workers && s.workers[w] != Idle && s.workers[w].row.id == id
  }

  /** Due, unsent, and locked by no worker. */
  predicate Claimable(s: State, id: Id) {
    && id in s.table && s.table[id].status == Unsent && s.table[id].nextSendAt <= s.now
    && forall w :: w in s.workers ==> !Holds(s, w, id)
  }

  /** FindDueForUpdate may return this row: no claimable one was created before it. */
  predicate OldestClaimable(s: State, id: Id) {
    Claimable(s, id) && forall other :: other in s.table && Claimable(s, other) ==>
      s.table[id].createdAt <= s.table[other].createdAt
  }

  function Count(counts: map<Id, nat>, id: Id): nat {
    if id in counts then counts[id] else 0
  }

  function Bump(counts: map<Id, nat>, id: Id): map<Id, nat> {
    counts[id := Count(counts, id) + 1]
  }

  datatype Label =
    | Stage(producer: Id, id: Id, content: string)
    | CommitProducer(producer: Id)
    | AbortProducer(producer: Id)
    | Tick(elapsed: nat)
    | Claim(worker: Id, id: Id)
    | Publish(worker: Id, ok: bool)
    | Commit(worker: Id)
    | Crash(worker: Id)

  function StepStage(s: State, producer: Id, id: Id, content: string): State {
    if id in s.ids then s
    else match NewRow(id, content, s.now)
      case Err(_) => s
      case Ok(row) => s.(ids := s.ids + {id}, staged := s.staged[id := (producer, row)])
  }

  function Keep(s: State, producer: Id): map<Id, (Id, Row)> {
    map id | id in s.staged && s.staged[id].0 != producer :: s.staged[id]
  }

  function StepCommitProducer(s: State, producer: Id): State {
    var added := map id | id in s.staged && s.staged[id].0 == producer :: s.staged[id].1;
    s.(table := s.table + added, staged := Keep(s, producer))
  }

  function StepClaim(s: State, w: Id, id: Id): State {
    if WorkerOf(s, w) == Idle && OldestClaimable(s, id) then s.(workers := s.workers[w := Claimed(s.table[id])]) else s
  }

  function StepPublish(s: State, w: Id, ok: bool): State {
    match WorkerOf(s, w)
    case Claimed(row) =>
      s.(workers := s.workers[w := Tried(row, ok)], sent := if ok then s.sent + [Send(row.id, row.content)] else s.sent)
    case _ => s
  }

  function StepCommit(s: State, w: Id): State {
    match WorkerOf(s, w)
    case Tried(row, ok) =>
      if ok then s.(workers := s.workers[w := Idle], table := Upsert(s.table, row.MarkPublished()))
      else
        var next := s.now + Backoff.BackoffDelay(s.base, row.retryCount);
        (match row.ScheduleRetry(next)
         case Err(_) => s.(workers := s.workers[w := Idle])
         case Ok(retried) =>
           s.(workers := s.workers[w := Idle], table := Upsert(s.table, retried), failures := Bump(s.failures, row.id)))
    case _ => s
  }

  /** The worker's transaction is rolled back; a send it has already made cannot be. */
  function StepCrash(s: State, w: Id): State {
    match WorkerOf(s, w)
    case Idle => s
    case Claimed(_) => s.(workers := s.workers[w := Idle])
    case Tried(row, ok) =>
      s.(workers := s.workers[w := Idle], abandoned := if ok then Bump(s.abandoned, row.id) else s.abandoned)
  }

  function Next(s: State, l: Label): State {
    match l
    case Stage(producer, id, content) => StepStage(s, producer, id, content)
    case CommitProducer(producer) => StepCommitProducer(s, producer)
    case AbortProducer(producer) => s.(staged := Keep(s, producer))
    case Tick(elapsed) => s.(now := s.now + elapsed)
    case Claim(w, id) => StepClaim(s, w, id)
    case Publish(w, ok) => StepPublish(s, w, ok)
    case Commit(w) => StepCommit(s, w)
    case Crash(w) => StepCrash(s, w)
  }

  function Run(base: int64, schedule: seq<Label>): State {
    if schedule == [] then Start(base)
    else Next(Run(base, schedule[..|schedule| - 1]), schedule[|schedule| - 1])
  }

  // ----- the invariant -----

  function Sends(sent: seq<Send>, id: Id): nat {
    if sent == [] then 0
    else Sends(sent[..|sent| - 1], id) + if sent[|sent| - 1].id == id then 1 else 0
  }

  lemma SendsAppend(sent: seq<Send>, send: Send, id: Id)
    ensures Sends(sent + [send], id) == Sends(sent, id) + if send.id == id then 1 else 0
  {
    assert (sent + [send])[..|sent|] == sent;
  }

  /** A held row is the committed one, unsent and due, and held by one worker only. */
  predicate HeldOk(s: State, w: Id)
    requires w in s.workers
  {
    s.workers[w] != Idle ==>
      var row := s.workers[w].row;
      && row.id in s.table && s.table[row.id] == row && row.status == Unsent && row.nextSendAt <= s.now
      && forall other :: other in s.workers && Holds(s, other, row.id) ==> other == w
  }

  /** The send of this entry that a worker has made and not yet recorded. */
  predicate InFlight(s: State, id: Id) {
    exists w :: w in s.workers && Holds(s, w, id) && s.workers[w].Tried? && s.workers[w].ok
  }

  predicate CountsOk(s: State, id: Id) {
    && (id in s.table ==> s.table[id].retryCount == Count(s.failures, id))
    && (id !in s.table ==> Count(s.failures, id) == 0)
    && Sends(s.sent, id) == Count(s.abandoned, id) + (if id in s.table && s.table[id].status == Published then 1 else 0)
                            + (if InFlight(s, id) then 1 else 0)
  }

  ghost predicate Inv(s: State) {
    && (forall id :: id in s.table ==> s.table[id].id == id && id in s.ids)
    && (forall id :: id in s.staged ==>
          id in s.ids && id !in s.table && s.staged[id].1.id == id && s.staged[id].1.status == Unsent
          && s.staged[id].1.retryCount == 0)
    && (forall w :: w in s.workers ==> HeldOk(s, w))
    && (forall i :: 0 <= i < |s.sent| ==> s.sent[i].id in s.table && s.table[s.sent[i].id].content == s.sent[i].content)
    && (forall id: Id :: CountsOk(s, id))
  }

  // ----- every step keeps it -----

  lemma StageKeepsInv(s: State, producer: Id, id: Id, content: string)
    requires Inv(s)
    ensures Inv(StepStage(s, producer, id, content))
  {
    var later := StepStage(s, producer, id, content);
    SameTrafficCounts(s, later);
  }

  /** Steps that touch neither table nor workers nor the log. */
  lemma SameTrafficCounts(s: State, later: State)
    requires Inv(s)
    requires later.table == s.table && later.workers == s.workers && later.sent == s.sent && later.now >= s.now
    requires later.failures == s.failures && later.abandoned == s.abandoned
    ensures forall id: Id :: CountsOk(later, id)
    ensures forall w :: w in later.workers ==> HeldOk(later, w)
  {
    forall id: Id
      ensures CountsOk(later, id)
    {
      assert CountsOk(s, id);
    }
    forall w | w in later.workers
      ensures HeldOk(later, w)
    {
      assert HeldOk(s, w);
    }
  }

  lemma {:induction false} UnsentIds(s: State, sent: seq<Send>, id: Id)
    requires forall i :: 0 <= i < |sent| ==> sent[i].id in s.table
    requires id !in s.table
    ensures Sends(sent, id) == 0
  {
    if sent != [] {
      UnsentIds(s, sent[..|sent| - 1], id);
    }
  }

  lemma CommitProducerKeepsInv(s: State, producer: Id)
    requires Inv(s)
    ensures Inv(StepCommitProducer(s, producer))
  {
    var later := StepCommitProducer(s, producer);
    forall w | w in later.workers
      ensures HeldOk(later, w)
    {
      assert HeldOk(s, w);
    }
    forall id: Id
      ensures CountsOk(later, id)
    {
      assert CountsOk(s, id);
      if id !in s.table {
        UnsentIds(s, s.sent, id);
      }
    }
  }

  lemma ClaimKeepsInv(s: State, w: Id, id: Id)
    requires Inv(s)
    ensures Inv(StepClaim(s, w, id))
  {
    var later := StepClaim(s, w, id);
    if later != s {
      forall other | other in later.workers
        ensures HeldOk(later, other)
      {
        assert other != w ==> HeldOk(s, other);
      }
      forall x: Id
        ensures CountsOk(later, x)
      {
        assert CountsOk(s, x);
        FlightUnchanged(s, later, w, x);
      }
    }
  }

  /** A worker's own step changes what is in flight only for the entry it holds. */
  lemma FlightUnchanged(s: State, later: State, w: Id, id: Id)
    requires later.workers == s.workers[w := WorkerOf(later, w)]
    requires !(WorkerOf(s, w).Tried? && WorkerOf(s, w).ok && WorkerOf(s, w).row.id == id)
    requires !(WorkerOf(later, w).Tried? && WorkerOf(later, w).ok && WorkerOf(later, w).row.id == id)
    ensures InFlight(later, id) == InFlight(s, id)
  {
    if InFlight(s, id) {
      var v :| v in s.workers && Holds(s, v, id) && s.workers[v].Tried? && s.workers[v].ok;
      assert Holds(later, v, id) && later.workers[v].Tried?;
    }
    if InFlight(later, id) {
      var v :| v in later.workers && Holds(later, v, id) && later.workers[v].Tried? && later.workers[v].ok;
      assert Holds(s, v, id) && s.workers[v].Tried?;
    }
  }

  /** The worker that holds an entry is the only one that can have it in flight. */
  lemma FlightOfHolder(s: State, w: Id, id: Id)
    requires w in s.workers && Holds(s, w, id)
    requires forall other :: other in s.workers && Holds(s, other, id) ==> other == w
    ensures InFlight(s, id) <==> s.workers[w].Tried? && s.workers[w].ok
  {
  }

  lemma PublishKeepsInv(s: State, w: Id, ok: bool)
    requires Inv(s)
    ensures Inv(StepPublish(s, w, ok))
  {
    var later := StepPublish(s, w, ok);
    if later != s {
      var row := s.workers[w].row;
      assert HeldOk(s, w);
      forall other | other in later.workers
        ensures HeldOk(later, other)
      {
        assert HeldOk(s, other);
        assert forall v :: v in s.workers ==> Holds(later, v, row.id) == Holds(s, v, row.id);
      }
      forall id: Id
        ensures CountsOk(later, id)
      {
        assert CountsOk(s, id);
        if ok {
          SendsAppend(s.sent, Send(row.id, row.content), id);
        }
        if id == row.id {
          FlightOfHolder(s, w, id);
          assert HeldOk(later, w);
          FlightOfHolder(later, w, id);
        } else {
          FlightUnchanged(s, later, w, id);
        }
      }
    }
  }

  /** What a worker's transaction leaves when it ends, one way or the other. */
  lemma EndingKeepsHolds(s: State, later: State, w: Id, id: Id)
    requires Inv(s) && Holds(s, w, id)
    requires later.workers == s.workers[w := Idle] && later.now == s.now
    requires later.table == s.table || (id in later.table && later.table == s.table[id := later.table[id]])
    ensures forall other :: other in later.workers ==> HeldOk(later, other)
    ensures !InFlight(later, id)
  {
    assert HeldOk(s, w);
    forall other | other in later.workers
      ensures HeldOk(later, other)
    {
      assert HeldOk(s, other);
    }
    assert forall other :: other in later.workers ==> !Holds(later, other, id);
  }

  /** Recording an attempt changes the row it was made for, and that row's counts. */
  lemma RecordedCounts(s: State, later: State, w: Id, row: Row, id: Id)
    requires Inv(s) && WorkerOf(s, w).Tried? && s.workers[w].row == row && later == StepCommit(s, w)
    ensures CountsOk(later, id)
  {
    assert HeldOk(s, w) && CountsOk(s, id);
    FlightOfHolder(s, w, row.id);
    if id == row.id {
      assert !InFlight(later, id) by {
        EndingKeepsHolds(s, later, w, id);
      }
    } else {
      FlightUnchanged(s, later, w, id);
    }
  }

  lemma RecordedRow(s: State, w: Id)
    requires Inv(s) && WorkerOf(s, w).Tried?
    ensures var row := s.workers[w].row;
            var later := StepCommit(s, w);
            && row.id in s.table && later.table == s.table[row.id := later.table[row.id]]
            && later.table[row.id].id == row.id && later.table[row.id].content == row.content && s.table[row.id] == row
            && later == s.(workers := s.workers[w := Idle], table := later.table, failures := later.failures)
  {
    assert HeldOk(s, w);
  }

  lemma CommitKeepsInv(s: State, w: Id)
    requires Inv(s)
    ensures Inv(StepCommit(s, w))
  {
    if WorkerOf(s, w).Tried? {
      var later := StepCommit(s, w);
      var row := s.workers[w].row;
      RecordedRow(s, w);
      EndingKeepsHolds(s, later, w, row.id);
      forall id: Id
        ensures CountsOk(later, id)
      {
        RecordedCounts(s, later, w, row, id);
      }
      hide StepCommit, CountsOk, HeldOk;
    }
  }

  lemma CrashKeepsInv(s: State, w: Id)
    requires Inv(s)
    ensures Inv(StepCrash(s, w))
  {
    var later := StepCrash(s, w);
    if WorkerOf(s, w) != Idle {
      var row := s.workers[w].row;
      assert HeldOk(s, w);
      EndingKeepsHolds(s, later, w, row.id);
      FlightOfHolder(s, w, row.id);
      forall id: Id
        ensures CountsOk(later, id)
      {
        assert CountsOk(s, id);
        if id != row.id {
          FlightUnchanged(s, later, w, id);
        }
      }
    }
  }

  lemma NextKeepsInv(s: State, l: Label)
    requires Inv(s)
    ensures Inv(Next(s, l))
  {
    match l {
      case Stage(producer, id, content) => StageKeepsInv(s, producer, id, content);
      case CommitProducer(producer) => CommitProducerKeepsInv(s, producer);
      case AbortProducer(producer) => SameTrafficCounts(s, Next(s, l));
      case Tick(_) => SameTrafficCounts(s, Next(s, l));
      case Claim(w, id) => ClaimKeepsInv(s, w, id);
      case Publish(w, ok) => PublishKeepsInv(s, w, ok);
      case Commit(w) => CommitKeepsInv(s, w);
      case Crash(w) => CrashKeepsInv(s, w);
    }
  }

  lemma {:induction false} ReachableOk(base: int64, schedule: seq<Label>)
    ensures Inv(Run(base, schedule))
  {
    if schedule == [] {
      assert forall id: Id :: CountsOk(Start(base), id);
    } else {
      ReachableOk(base, schedule[..|schedule| - 1]);
      NextKeepsInv(Run(base, schedule[..|schedule| - 1]), schedule[|schedule| - 1]);
    }
  }

  // ----- main results -----

  /** No two workers ever hold the same entry, and only committed unsent ones are held. */
  lemma HoldersAreExclusive(base: int64, schedule: seq<Label>, v: Id, w: Id, id: Id)
    requires Holds(Run(base, schedule), v, id) && Holds(Run(base, schedule), w, id)
    ensures v == w
    ensures var s := Run(base, schedule);
            id in s.table && s.table[id].status == Unsent && s.workers[w].row == s.table[id]
  {
    ReachableOk(base, schedule);
    assert HeldOk(Run(base, schedule), w);
  }

  /** Every message at the broker is that of a committed entry, under its id and with its content. */
  lemma OnlyCommittedIsSent(base: int64, schedule: seq<Label>, i: nat)
    requires i < |Run(base, schedule).sent|
    ensures var s := Run(base, schedule);
            s.sent[i].id in s.table && s.table[s.sent[i].id].id == s.sent[i].id
            && s.table[s.sent[i].id].content == s.sent[i].content
  {
    ReachableOk(base, schedule);
  }

  /** An entry's sends are exactly the recorded one, if it is PUBLISHED, those abandoned by a crash
      between send and commit, and the one under way; its retry count is the number of committed
      failed attempts. */
  lemma SendsAreAccountedFor(base: int64, schedule: seq<Label>, id: Id)
    requires id in Run(base, schedule).table
    ensures var s := Run(base, schedule);
            && Sends(s.sent, id) == Count(s.abandoned, id) + (if s.table[id].status == Published then 1 else 0)
                                    + (if InFlight(s, id) then 1 else 0)
            && s.table[id].retryCount == Count(s.failures, id)
  {
    ReachableOk(base, schedule);
    assert CountsOk(Run(base, schedule), id);
  }

  /** PUBLISHED means sent at least once. */
  lemma PublishedWasSent(base: int64, schedule: seq<Label>, id: Id)
    requires id in Run(base, schedule).table && Run(base, schedule).table[id].status == Published
    ensures exists i :: 0 <= i < |Run(base, schedule).sent| && Run(base, schedule).sent[i].id == id
  {
    SendsAreAccountedFor(base, schedule, id);
    SomeSend(Run(base, schedule).sent, id);
  }

  lemma {:induction false} SomeSend(sent: seq<Send>, id: Id)
    requires Sends(sent, id) > 0
    ensures exists i :: 0 <= i < |sent| && sent[i].id == id
  {
    var n := |sent| - 1;
    if sent[n].id != id {
      SomeSend(sent[..n], id);
      var i :| 0 <= i < n && sent[..n][i].id == id;
      assert sent[i].id == id;
    }
  }

  lemma CommitKeepsPublished(s: State, w: Id, id: Id)
    requires Inv(s) && id in s.table && s.table[id].status == Published
    ensures var later := StepCommit(s, w); id in later.table && later.table[id] == s.table[id]
  {
    if WorkerOf(s, w).Tried? {
      assert HeldOk(s, w);
      RecordedRow(s, w);
    }
  }

  lemma PublishKeepsPublished(s: State, w: Id, ok: bool, id: Id)
    requires Inv(s) && id in s.table && s.table[id].status == Published
    ensures var later := StepPublish(s, w, ok); later.table == s.table && Sends(later.sent, id) == Sends(s.sent, id)
  {
    if ok && WorkerOf(s, w).Claimed? {
      assert HeldOk(s, w);
      SendsAppend(s.sent, Send(s.workers[w].row.id, s.workers[w].row.content), id);
    }
  }

  lemma NextKeepsPublished(s: State, l: Label, id: Id)
    requires Inv(s) && id in s.table && s.table[id].status == Published
    ensures var later := Next(s, l);
            id in later.table && later.table[id] == s.table[id] && Sends(later.sent, id) == Sends(s.sent, id)
  {
    hide HeldOk, CountsOk, StepPublish, Sends, OldestClaimable, Upsert;
    match l {
      case Publish(w, ok) => PublishKeepsPublished(s, w, ok, id);
      case Commit(w) => CommitKeepsPublished(s, w, id);
      case _ =>
    }
  }

  lemma PublishedIsNotHeld(s: State, w: Id, id: Id)
    requires Inv(s) && id in s.table && s.table[id].status == Published
    ensures !Holds(s, w, id)
  {
    assert w in s.workers ==> HeldOk(s, w);
  }

  /** PUBLISHED never reverts, is never claimed again, and is never sent again. */
  lemma {:induction false} PublishedStands(base: int64, schedule: seq<Label>, tail: seq<Label>, id: Id)
    requires id in Run(base, schedule).table && Run(base, schedule).table[id].status == Published
    ensures var s, later := Run(base, schedule), Run(base, schedule + tail);
            && id in later.table && later.table[id] == s.table[id] && Sends(later.sent, id) == Sends(s.sent, id)
            && forall w :: !Holds(later, w, id)
    decreases |tail|
  {
    ReachableOk(base, schedule);
    if tail == [] {
      assert schedule + tail == schedule;
    } else {
      var n := |tail| - 1;
      var before := schedule + tail[..n];
      PublishedStands(base, schedule, tail[..n], id);
      ReachableOk(base, before);
      assert (schedule + tail)[..|schedule + tail| - 1] == before;
      NextKeepsPublished(Run(base, before), tail[n], id);
    }
    ReachableOk(base, schedule + tail);
    forall w
      ensures !Holds(Run(base, schedule + tail), w, id)
    {
      PublishedIsNotHeld(Run(base, schedule + tail), w, id);
    }
  }

  /** An entry whose worker crashes is claimable at once, by anyone; and when it is the oldest such
      entry, the next idle worker to poll holds it. */
  lemma AbandonedIsClaimable(base: int64, schedule: seq<Label>, w: Id, id: Id, next: Id)
    requires Holds(Run(base, schedule), w, id)
    ensures var later := Run(base, schedule + [Crash(w)]);
            && Claimable(later, id)
            && (OldestClaimable(later, id) && WorkerOf(later, next) == Idle ==>
                  Holds(Run(base, schedule + [Crash(w)] + [Claim(next, id)]), next, id))
  {
    ReachableOk(base, schedule);
    var s := Run(base, schedule);
    assert HeldOk(s, w);
    assert (schedule + [Crash(w)])[..|schedule|] == schedule;
    var later := Run(base, schedule + [Crash(w)]);
    assert (schedule + [Crash(w)] + [Claim(next, id)])[..|schedule| + 1] == schedule + [Crash(w)];
    assert forall v :: v in later.workers ==> !Holds(later, v, id);
  }

  // ----- what can be claimed, and when -----

  /** An entry the workers have to deal with: committed, not sent yet, its time come, and locked by nobody. */
  predicate IsDue(s: State, id: Id) {
    && id in s.table && s.table[id].status == Unsent && s.table[id].nextSendAt <= s.now
    && !exists w :: w in s.workers && !s.workers[w].Idle? && s.workers[w].row.id == id
  }

  ghost predicate IsOldestDue(s: State, id: Id) {
    IsDue(s, id) && forall other :: IsDue(s, other) ==> s.table[id].createdAt <= s.table[other].createdAt
  }

  lemma ClaimableIsDue(s: State)
    ensures forall id :: Claimable(s, id) <==> IsDue(s, id)
    ensures forall id :: OldestClaimable(s, id) <==> IsOldestDue(s, id)
  {
    forall id
      ensures Claimable(s, id) <==> IsDue(s, id)
    {
      if id in s.table && (exists w :: w in s.workers && !s.workers[w].Idle? && s.workers[w].row.id == id) {
        var w :| w in s.workers && !s.workers[w].Idle? && s.workers[w].row.id == id;
        assert Holds(s, w, id);
      }
    }
  }

  /** An idle worker that asks for an entry gets it, as committed, if and only if it is due and none that is due
      was created before it; nothing else changes. */
  lemma ClaimsExactly(s: State, w: Id, id: Id)
    requires WorkerOf(s, w) == Idle
    ensures IsOldestDue(s, id) ==> Next(s, Claim(w, id)) == s.(workers := s.workers[w := Claimed(s.table[id])])
    ensures !IsOldestDue(s, id) ==> Next(s, Claim(w, id)) == s
  {
    ClaimableIsDue(s);
  }

  /** A failed attempt, once committed, leaves its entry unsent, counted, put off by the backoff, and free. */
  lemma FailurePutsOff(base: int64, schedule: seq<Label>, w: Id, row: Row)
    requires WorkerOf(Run(base, schedule), w) == Tried(row, false)
    ensures var s, later := Run(base, schedule), Run(base, schedule + [Commit(w)]);
            && row.id in s.table && s.table[row.id] == row && later.now == s.now && later.base == s.base
            && later.table == s.table[row.id := Row(row.id, row.content, Unsent, row.retryCount + 1,
                                                    s.now + Backoff.BackoffDelay(s.base, row.retryCount),
                                                    row.createdAt)]
            && WorkerOf(later, w) == Idle
  {
    hide Run, Inv, Next, Backoff.BackoffDelay, WorkerOf;
    ReachableOk(base, schedule);
    RunStep(base, schedule, Commit(w));
    FailedCommit(Run(base, schedule), w, row);
  }

  lemma FailedCommit(s: State, w: Id, row: Row)
    requires Inv(s) && WorkerOf(s, w) == Tried(row, false)
    ensures var later := Next(s, Commit(w));
            && row.id in s.table && s.table[row.id] == row && later.now == s.now && later.base == s.base
            && later.table == s.table[row.id := Row(row.id, row.content, Unsent, row.retryCount + 1,
                                                    s.now + Backoff.BackoffDelay(s.base, row.retryCount),
                                                    row.createdAt)]
            && WorkerOf(later, w) == Idle
  {
    hide Backoff.BackoffDelay, CountsOk;
    assert HeldOk(s, w);
  }

  /** However long after a committed failed attempt, as long as nobody has tried the entry again: it is due
      exactly when its backoff has elapsed and no worker holds it, and when it is the oldest that is due, the
      next idle worker to poll gets it. */
  lemma {:induction false} FailedIsTriedAgain(base: int64, schedule: seq<Label>, tail: seq<Label>, w: Id, row: Row,
                                              next: Id)
    requires WorkerOf(Run(base, schedule), w) == Tried(row, false)
    requires var s, later := Run(base, schedule + [Commit(w)]), Run(base, schedule + [Commit(w)] + tail);
             row.id in s.table && row.id in later.table && later.table[row.id] == s.table[row.id]
    ensures var failed, later := Run(base, schedule), Run(base, schedule + [Commit(w)] + tail);
            && (IsDue(later, row.id) <==>
                  later.now >= failed.now + Backoff.BackoffDelay(failed.base, row.retryCount)
                  && !exists v :: v in later.workers && !later.workers[v].Idle? && later.workers[v].row.id == row.id)
            && (IsOldestDue(later, row.id) && WorkerOf(later, next) == Idle ==>
                  Holds(Run(base, schedule + [Commit(w)] + tail + [Claim(next, row.id)]), next, row.id))
  {
    hide Run, Backoff.BackoffDelay;
    FailurePutsOff(base, schedule, w, row);
    var all := schedule + [Commit(w)] + tail;
    RunStep(base, all, Claim(next, row.id));
    if WorkerOf(Run(base, all), next) == Idle {
      ClaimsExactly(Run(base, all), next, row.id);
    }
  }

  lemma RunStep(base: int64, schedule: seq<Label>, l: Label)
    ensures Run(base, schedule + [l]) == Next(Run(base, schedule), l)
  {
    assert (schedule + [l])[..|schedule|] == schedule;
  }

  // ----- what producers commit and abandon -----

  /** The entry waits in its producer's open transaction, to be sent as soon as that commits. */
  predicate IsStaged(s: State, producer: Id, id: Id, content: string) {
    && id in s.staged && s.staged[id].0 == producer && s.staged[id].1.id == id && s.staged[id].1.content == content
    && s.staged[id].1.status == Unsent && s.staged[id].1.nextSendAt <= s.now && id !in s.table
  }

  /** An entry under a new id, with content, is staged; without content, or under an id in use, nothing is. */
  lemma StagesExactly(base: int64, schedule: seq<Label>, producer: Id, id: Id, content: string)
    ensures var s, later := Run(base, schedule), Run(base, schedule + [Stage(producer, id, content)]);
            if id !in s.ids && content != "" then IsStaged(later, producer, id, content) else later == s
  {
    ReachableOk(base, schedule);
    RunStep(base, schedule, Stage(producer, id, content));
  }

  /** Once the producer commits, the entry is in the table, due at once; once it abandons, or the entry was never
      committed, it never gets there under this staging. */
  lemma CommittedIsDue(base: int64, schedule: seq<Label>, producer: Id, id: Id, content: string)
    requires IsStaged(Run(base, schedule), producer, id, content)
    ensures IsDue(Run(base, schedule + [CommitProducer(producer)]), id)
            && Run(base, schedule + [CommitProducer(producer)]).table[id].content == content
    ensures var aborted := Run(base, schedule + [AbortProducer(producer)]);
            id !in aborted.staged && id !in aborted.table && id in aborted.ids
  {
    ReachableOk(base, schedule);
    RunStep(base, schedule, CommitProducer(producer));
    RunStep(base, schedule, AbortProducer(producer));
    var s := Run(base, schedule);
    assert forall w :: w in s.workers ==> HeldOk(s, w);
  }

  /** An entry waits in a transaction, or it is in the table, or it is gone: an id in use that is neither staged nor
      committed is never committed. */
  lemma {:induction false} AbandonedStaysOut(base: int64, schedule: seq<Label>, tail: seq<Label>, id: Id)
    requires var s := Run(base, schedule); id in s.ids && id !in s.staged && id !in s.table
    ensures var s := Run(base, schedule + tail); id in s.ids && id !in s.staged && id !in s.table
    decreases |tail|
  {
    hide Inv;
    if tail == [] {
      assert schedule + tail == schedule;
    } else {
      var n := |tail| - 1;
      AbandonedStaysOut(base, schedule, tail[..n], id);
      assert schedule + tail == schedule + tail[..n] + [tail[n]];
      RunStep(base, schedule + tail[..n], tail[n]);
      ReachableOk(base, schedule + tail[..n]);
      StaysOut(Run(base, schedule + tail[..n]), tail[n], id);
    }
  }

  lemma StaysOut(s: State, l: Label, id: Id)
    requires Inv(s) && id in s.ids && id !in s.staged && id !in s.table
    ensures var later := Next(s, l); id in later.ids && id !in later.staged && id !in later.table
  {
    hide CountsOk, Backoff.BackoffDelay;
    match l {
      case Commit(w) => assert w in s.workers ==> HeldOk(s, w);
      case _ =>
    }
  }
}
