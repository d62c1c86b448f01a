/** The outbox entry object and the worker's RunOnce, against the outbox system's own steps. */
module OutboxWorkers {
  import opened Prelude
  import Backoff
  import Outbox

  /** The entry object, changed in place by MarkPublished and ScheduleRetry. */
  class Entry {
    const id: Id
    const content: string
    const createdAt: int
    var status: Outbox.SendStatus
    var retryCount: nat
    var nextSendAt: int

    function Value(): Outbox.Row
      reads this
    {
      Outbox.Row(id, content, status, retryCount, nextSendAt, createdAt)
    }

    constructor FromPersistence(row: Outbox.Row)
      ensures Value() == row
    {
      id, content, createdAt := row.id, row.content, row.createdAt;
      status, retryCount, nextSendAt := row.status, row.retryCount, row.nextSendAt;
    }

    /** Marking a published entry again changes nothing. */
    method MarkPublished()
      modifies this
      ensures Value() == old(Value()).MarkPublished()
      ensures status == Outbox.Published && retryCount == old(retryCount) && nextSendAt == old(nextSendAt)
      ensures old(status) == Outbox.Published ==> Value() == old(Value())
    {
      status := Outbox.Published;
    }

    method ScheduleRetry(next: int) returns (r: Result<()>)
      modifies this
      ensures match old(Value()).ScheduleRetry(next)
              case Ok(row) => r == Ok(()) && Value() == row
              case Err(e) => r == Err(e) && Value() == old(Value())
      ensures if old(status) == Outbox.Unsent
              then r == Ok(()) && status == Outbox.Unsent && retryCount == old(retryCount) + 1 && nextSendAt == next
              else r == Err(InvalidTransition) && Value() == old(Value())
    {
      if status != Outbox.Unsent {
        return Err(InvalidTransition);
      }
      retryCount := retryCount + 1;
      nextSendAt := next;
      return Ok(());
    }
  }

  /** The outbox table and its workers' transactions, as one worker's session sees them. */
  class Session {
    var state: Outbox.State

    constructor (initial: Outbox.State)
      ensures state == initial
    {
      state := initial;
    }

    /** The oldest due unlocked row, locked; none only when there is none. */
    method FindDueForUpdate(worker: Id) returns (found: Option<Outbox.Row>)
      requires Outbox.WorkerOf(state, worker) == Outbox.Idle
      modifies this
      ensures found.None? ==> state == old(state) && forall id :: !Outbox.IsDue(state, id)
      ensures found.Some? ==>
                exists id :: Outbox.IsOldestDue(old(state), id) && found == Some(old(state).table[id])
                             && state == old(state).(workers := old(state).workers[worker :=
                                                                                    Outbox.Claimed(found.value)])
    {
      var rest := state.table.Keys;
      var oldest: Option<Id> := None;
      while rest != {}
        invariant state == old(state) && rest <= state.table.Keys
        invariant oldest.None? ==> forall id :: id in state.table.Keys - rest ==> !Outbox.IsDue(state, id)
        invariant oldest.Some? ==> Outbox.IsDue(state, oldest.value)
        invariant oldest.Some? ==>
                    forall id :: id in state.table.Keys - rest && Outbox.IsDue(state, id) ==>
                                   state.table[oldest.value].createdAt <= state.table[id].createdAt
        decreases rest
      {
        var id :| id in rest;
        rest := rest - {id};
        var locked := exists w :: w in state.workers && !state.workers[w].Idle? && state.workers[w].row.id == id;
        if state.table[id].status == Outbox.Unsent && state.table[id].nextSendAt <= state.now && !locked
           && (oldest.None? || state.table[id].createdAt < state.table[oldest.value].createdAt) {
          oldest := Some(id);
        }
      }
      if oldest.None? {
        return None;
      }
      found := Some(state.table[oldest.value]);
      state := state.(workers := state.workers[worker := Outbox.Claimed(found.value)]);
      assert Outbox.IsOldestDue(old(state), oldest.value);
    }

    method Publish(worker: Id, row: Outbox.Row, ok: bool)
      requires Outbox.WorkerOf(state, worker) == Outbox.Claimed(row)
      modifies this
      ensures state == Outbox.StepPublish(old(state), worker, ok)
    {
      if ok {
        state := state.(sent := state.sent + [Outbox.Send(row.id, row.content)]);
      }
      state := state.(workers := state.workers[worker := Outbox.Tried(row, ok)]);
    }

    /** SaveAll and the commit that makes it durable. */
    method SaveAndCommit(worker: Id, row: Outbox.Row)
      requires worker in state.workers && state.workers[worker].Tried?
      modifies this
      ensures state == old(state).(workers := old(state).workers[worker := Outbox.Idle],
                                   table := Outbox.Upsert(old(state).table, row),
                                   failures := if old(state).workers[worker].ok then old(state).failures
                                               else Outbox.Bump(old(state).failures, old(state).workers[worker].row.id))
    {
      var attempt := state.workers[worker];
      if row.id in state.table {
        var stored := state.table[row.id];
        state := state.(table := state.table[row.id := stored.(status := row.status, retryCount := row.retryCount,
                                                               nextSendAt := row.nextSendAt)]);
      } else {
        state := state.(table := state.table[row.id := row]);
      }
      if !attempt.ok {
        state := state.(failures := Outbox.Bump(state.failures, attempt.row.id));
      }
      state := state.(workers := state.workers[worker := Outbox.Idle]);
    }
  }

  /** RunOnce by this worker, uninterrupted: claim this row, try to send it, commit. */
  function RunAlone(s: Outbox.State, worker: Id, id: Id, ok: bool): Outbox.State {
    Outbox.StepCommit(Outbox.StepPublish(Outbox.StepClaim(s, worker, id), worker, ok), worker)
  }

  /** At most one entry is processed, exactly when one is committed, unsent, due and locked by nobody, and then
      the oldest such, as the system's claim, publish and commit steps say. */
  method RunOnce(session: Session, worker: Id, ok: bool) returns (processed: bool)
    requires Outbox.WorkerOf(session.state, worker) == Outbox.Idle
    modifies session
    ensures processed <==> exists id :: Outbox.IsDue(old(session.state), id)
    ensures !processed ==> session.state == old(session.state)
    ensures processed ==>
              exists id :: Outbox.IsOldestDue(old(session.state), id)
                           && session.state == RunAlone(old(session.state), worker, id, ok)
  {
    var found := session.FindDueForUpdate(worker);
    if found.None? {
      return false;
    }
    processed := true;
    ghost var id :| Outbox.IsOldestDue(old(session.state), id) && found == Some(old(session.state).table[id]);
    Outbox.ClaimableIsDue(old(session.state));
    var row := found.value;
    var entry := new Entry.FromPersistence(row);
    session.Publish(worker, row, ok);
    if ok {
      entry.MarkPublished();
    } else {
      var next := session.state.now + Backoff.BackoffDelay(session.state.base, entry.retryCount);
      var r := entry.ScheduleRetry(next);
      assert r == Ok(());
    }
    session.SaveAndCommit(worker, entry.Value());
    assert session.state == RunAlone(old(session.state), worker, id, ok);
  }

  /** Run alone on a database in order, a failed attempt puts the entry off by the backoff and counts
      it, and a successful one retires it; nothing else of the table changes. */
  lemma RunAloneEffect(s: Outbox.State, worker: Id, id: Id, ok: bool)
    requires Outbox.Inv(s) && Outbox.WorkerOf(s, worker) == Outbox.Idle && Outbox.IsOldestDue(s, id)
    ensures var row, later := s.table[id], RunAlone(s, worker, id, ok);
            && later.table == s.table[id := if ok then row.(status := Outbox.Published)
                                            else row.(retryCount := row.retryCount + 1,
                                                      nextSendAt :=
                                                        s.now + Backoff.BackoffDelay(s.base, row.retryCount))]
            && later.sent == (if ok then s.sent + [Outbox.Send(id, row.content)] else s.sent)
            && Outbox.Inv(later)
  {
    hide Outbox.Inv, Backoff.BackoffDelay, Outbox.Upsert;
    Outbox.ClaimableIsDue(s);
    var claimed := Outbox.StepClaim(s, worker, id);
    var tried := Outbox.StepPublish(claimed, worker, ok);
    Outbox.ClaimKeepsInv(s, worker, id);
    Outbox.PublishKeepsInv(claimed, worker, ok);
    Outbox.CommitKeepsInv(tried, worker);
    RowId(s, id);
    assert claimed == s.(workers := s.workers[worker := Outbox.Claimed(s.table[id])]);
    UpsertHeld(s.table, s.table[id].MarkPublished());
    UpsertHeld(s.table, s.table[id].(retryCount := s.table[id].retryCount + 1,
                                     nextSendAt := s.now + Backoff.BackoffDelay(s.base, s.table[id].retryCount)));
  }

  /** Saving a held row with only its progress changed stores exactly that row. */
  lemma UpsertHeld(table: map<Id, Outbox.Row>, row: Outbox.Row)
    requires row.id in table
    requires row == table[row.id].(status := row.status, retryCount := row.retryCount, nextSendAt := row.nextSendAt)
    ensures Outbox.Upsert(table, row) == table[row.id := row]
  {
  }

  lemma RowId(s: Outbox.State, id: Id)
    requires Outbox.Inv(s) && id in s.table
    ensures s.table[id].id == id
  {
  }
}
