/** Retrying parked reversals (internal/app/pending_reference_resolver.go): the loop over due rows,
    and why a reversal whose reference never appears is given up in the end. */
module Resolvers {
  import opened Prelude
  import opened Moneys
  import opened Wallets
  import opened Wagers
  import opened Tables
  import opened Decisions
  import opened Integrity
  import opened Settlements
  import opened Serializability
  import opened Stores
  import opened Submitters
  import Backoff

  datatype Config = Config(maxAttempts: int, ttl: int, backoffBase: int64)

  /** A parked transaction and how often resolving it has been tried. */
  datatype Retry = Retry(tx: Tx, attempts: nat)

  /** The tables as the resolver sees them. */
  datatype Desk = Desk(db: Db, nextRetryAt: map<Id, int>)

  predicate Expired(config: Config, now: int, item: Retry) {
    item.attempts >= config.maxAttempts || now - item.tx.createdAt >= config.ttl
  }

  /** What one attempt writes and answers: the rejection, or process once more. */
  function AttemptAt(db: Db, config: Config, now: int, item: Retry, call: Id): Processing {
    if Expired(config, now, item) then RecordedIfAny(db, item.tx, RejectTx(item.tx, ReferenceNotFound, call))
    else ProcessingOf(db, item.tx, call)
  }

  function Scheduled(desk: Desk, id: Id, next: int): Desk {
    if id in desk.db.txs && id in desk.db.attempts && desk.db.txs[id].status == PendingReference
    then Desk(desk.db.(attempts := desk.db.attempts[id := desk.db.attempts[id] + 1]), desk.nextRetryAt[id := next])
    else desk
  }

  /** The desk after one attempt, or the error that stopped it. */
  function Resolved(desk: Desk, config: Config, now: int, item: Retry, call: Id): (Desk, Option<Error>) {
    var p := AttemptAt(desk.db, config, now, item, call);
    var after := Desk(if p.writes == NoWrites then desk.db else Apply(desk.db, p.writes), desk.nextRetryAt);
    match p.result
    case Err(e) => (after, Some(e))
    case Ok(_) =>
      if Expired(config, now, item) || p.tx.status != PendingReference then (after, None)
      else (Scheduled(after, item.tx.id, now + Backoff.BackoffDelay(config.backoffBase, item.attempts)), None)
  }

  method ResolveOne(store: Store, config: Config, now: int, item: Retry, call: Id) returns (error: Option<Error>)
    requires store.Now() == Session(store.db, false, false, NoWrites) && Keyed(store.db)
    modifies store
    ensures store.Now() == Session(store.db, false, false, NoWrites)
    ensures (Desk(store.db, store.nextRetryAt), error) ==
            Resolved(Desk(old(store.db), old(store.nextRetryAt)), config, now, item, call)
  {
    hide ProcessingOf, RejectTx, Recorded, Apply, Backoff.BackoffDelay;
    var tx := new Transaction.FromPersistence(item.tx);
    if item.attempts >= config.maxAttempts || now - item.tx.createdAt >= config.ttl {
      var rejected := Submitters.Reject(store, tx, ReferenceNotFound, call);
      return if rejected.Err? then Some(rejected.error) else None;
    }
    var processed := Submitters.Process(store, tx, call);
    if processed.Err? {
      return Some(processed.error);
    }
    if tx.status != PendingReference {
      return None;
    }
    var next := now + Backoff.BackoffDelay(config.backoffBase, item.attempts);
    store.ScheduleNextRetry(tx.id, next);
    return None;
  }

  // ----- the loop over what is due -----

  /** Rows and attempts are stored under their own ids. */
  predicate RowsKeyed(db: Db) {
    db.attempts.Keys == db.txs.Keys && forall id :: id in db.txs ==> db.txs[id].id == id
  }

  predicate Due(desk: Desk, now: int, id: Id) {
    && id in desk.db.txs && id in desk.db.attempts && desk.db.txs[id].status == PendingReference
    && (id in desk.nextRetryAt ==> desk.nextRetryAt[id] <= now)
  }

  predicate IsListed(due: seq<Retry>, id: Id) {
    exists i :: 0 <= i < |due| && due[i].tx.id == id
  }

  /** Parked rows with their attempts, none before its next retry, each once, oldest first; and all of those
      unless the limit cuts the list off. A row with no next retry is due at once. */
  predicate DueList(desk: Desk, now: int, limit: nat, due: seq<Retry>) {
    && |due| <= limit
    && (forall i :: 0 <= i < |due| ==>
          var id := due[i].tx.id;
          && id in desk.db.txs && id in desk.db.attempts && due[i] == Retry(desk.db.txs[id], desk.db.attempts[id])
          && desk.db.txs[id].status == PendingReference
          && (id in desk.nextRetryAt ==> desk.nextRetryAt[id] <= now))
    && (forall i, j :: 0 <= i < j < |due| ==>
          due[i].tx.id != due[j].tx.id && due[i].tx.createdAt <= due[j].tx.createdAt)
    && (|due| < limit ==>
          forall id | id in desk.db.txs && id in desk.db.attempts && desk.db.txs[id].status == PendingReference
                      && (id !in desk.nextRetryAt || desk.nextRetryAt[id] <= now) :: IsListed(due, id))
  }

  /** Everything due and not listed yet is no older than what is listed. */
  predicate OldestFirst(desk: Desk, rest: set<Id>, due: seq<Retry>) {
    forall i, id :: 0 <= i < |due| && id in rest && id in desk.db.txs ==>
      due[i].tx.createdAt <= desk.db.txs[id].createdAt
  }

  predicate Listed(desk: Desk, now: int, rest: set<Id>, due: seq<Retry>) {
    && (forall i :: 0 <= i < |due| ==>
          && Due(desk, now, due[i].tx.id) && due[i] == Retry(desk.db.txs[due[i].tx.id], desk.db.attempts[due[i].tx.id])
          && due[i].tx.id !in rest)
    && (forall i, j :: 0 <= i < j < |due| ==>
          due[i].tx.id != due[j].tx.id && due[i].tx.createdAt <= due[j].tx.createdAt)
  }

  /** What is due is listed or still to be. */
  predicate Covered(desk: Desk, now: int, rest: set<Id>, due: seq<Retry>) {
    forall id :: id in desk.db.txs && Due(desk, now, id) && id !in rest ==>
      IsListed(due, id)
  }

  lemma CoverOneMore(desk: Desk, now: int, rest: set<Id>, due: seq<Retry>, item: Retry)
    requires Covered(desk, now, rest, due)
    ensures Covered(desk, now, rest - {item.tx.id}, due + [item])
  {
    hide Due;
    var longer := due + [item];
    forall id | id in desk.db.txs && Due(desk, now, id) && id !in rest - {item.tx.id}
      ensures IsListed(longer, id)
    {
      if id == item.tx.id {
        assert longer[|due|].tx.id == id;
      } else {
        var i :| 0 <= i < |due| && due[i].tx.id == id;
        assert longer[i].tx.id == id;
      }
    }
  }

  lemma ListOneMore(desk: Desk, now: int, rest: set<Id>, due: seq<Retry>, id: Id)
    requires RowsKeyed(desk.db) && Listed(desk, now, rest, due) && OldestFirst(desk, rest, due)
    requires id in rest && id in desk.db.txs && Due(desk, now, id)
    requires forall other :: other in rest && other in desk.db.txs ==>
               desk.db.txs[id].createdAt <= desk.db.txs[other].createdAt
    ensures var longer := due + [Retry(desk.db.txs[id], desk.db.attempts[id])];
            Listed(desk, now, rest - {id}, longer) && OldestFirst(desk, rest - {id}, longer)
  {
  }

  method FindDuePendingReferences(store: Store, now: int, limit: nat) returns (due: seq<Retry>)
    requires RowsKeyed(store.db)
    ensures DueList(Desk(store.db, store.nextRetryAt), now, limit, due)
  {
    hide Due, Listed, OldestFirst, Covered, DueList;
    var desk := Desk(store.db, store.nextRetryAt);
    var rest := set id | id in store.db.txs && id in store.db.attempts && store.db.txs[id].status == PendingReference
                         && (id in store.nextRetryAt ==> store.nextRetryAt[id] <= now);
    DueRows(desk, now, rest);
    due := [];
    NothingListed(desk, now, rest);
    while rest != {} && |due| < limit
      invariant |due| <= limit
      invariant forall id :: id in rest ==> id in desk.db.txs && Due(desk, now, id)
      invariant Listed(desk, now, rest, due) && OldestFirst(desk, rest, due) && Covered(desk, now, rest, due)
      decreases rest
    {
      var oldest := Oldest(desk.db, rest);
      CoverOneMore(desk, now, rest, due, Retry(desk.db.txs[oldest], desk.db.attempts[oldest]));
      ListOneMore(desk, now, rest, due, oldest);
      due := due + [Retry(desk.db.txs[oldest], desk.db.attempts[oldest])];
      rest := rest - {oldest};
    }
    WholeList(desk, now, limit, rest, due);
  }

  lemma DueRows(desk: Desk, now: int, rest: set<Id>)
    requires rest == set id | id in desk.db.txs && id in desk.db.attempts && desk.db.txs[id].status == PendingReference
                              && (id in desk.nextRetryAt ==> desk.nextRetryAt[id] <= now)
    ensures forall id :: id in rest <==> id in desk.db.txs && Due(desk, now, id)
  {
  }

  lemma NothingListed(desk: Desk, now: int, rest: set<Id>)
    requires forall id :: id in desk.db.txs && Due(desk, now, id) ==> id in rest
    ensures Listed(desk, now, rest, []) && OldestFirst(desk, rest, []) && Covered(desk, now, rest, [])
  {
    hide Due;
  }

  lemma WholeList(desk: Desk, now: int, limit: nat, rest: set<Id>, due: seq<Retry>)
    requires |due| <= limit && Listed(desk, now, rest, due) && Covered(desk, now, rest, due)
             && (rest == {} || |due| == limit)
    ensures DueList(desk, now, limit, due)
  {
    forall id | |due| < limit && id in desk.db.txs && id in desk.db.attempts
                && desk.db.txs[id].status == PendingReference
                && (id !in desk.nextRetryAt || desk.nextRetryAt[id] <= now)
      ensures IsListed(due, id)
    {
      assert Due(desk, now, id);
    }
  }

  method Oldest(db: Db, ids: set<Id>) returns (oldest: Id)
    requires ids != {} && forall id :: id in ids ==> id in db.txs
    ensures oldest in ids && forall id :: id in ids ==> db.txs[oldest].createdAt <= db.txs[id].createdAt
  {
    oldest :| oldest in ids;
    var rest := ids - {oldest};
    while rest != {}
      invariant oldest in ids && rest <= ids
      invariant forall id :: id in ids - rest ==> db.txs[oldest].createdAt <= db.txs[id].createdAt
      decreases rest
    {
      var id :| id in rest;
      rest := rest - {id};
      if db.txs[id].createdAt < db.txs[oldest].createdAt {
        oldest := id;
      }
    }
  }

  /** The desk after the first n items, and the error that stopped the loop, if one did. */
  function ResolvedAll(desk: Desk, config: Config, now: int, due: seq<Retry>, call: Id): (Desk, Option<Error>) {
    if due == [] then (desk, None)
    else
      var n := |due| - 1;
      var before := ResolvedAll(desk, config, now, due[..n], call);
      if before.1.Some? then before else Resolved(before.0, config, now, due[n], call + n)
  }

  lemma {:induction false} ErrorsStop(desk: Desk, config: Config, now: int, due: seq<Retry>, n: nat, call: Id)
    requires n <= |due| && ResolvedAll(desk, config, now, due[..n], call).1.Some?
    ensures ResolvedAll(desk, config, now, due, call) == ResolvedAll(desk, config, now, due[..n], call)
    decreases |due| - n
  {
    if n == |due| {
      assert due[..n] == due;
    } else {
      assert due[..n + 1][..n] == due[..n];
      ErrorsStop(desk, config, now, due, n + 1, call);
    }
  }

  lemma WritesKeepKeys(db: Db, w: Writes)
    requires Keyed(db)
    ensures Keyed(Apply(db, w))
  {
  }

  lemma AttemptsKeepKeys(desk: Desk, config: Config, now: int, item: Retry, call: Id)
    requires Keyed(desk.db)
    ensures Keyed(Resolved(desk, config, now, item, call).0.db)
  {
    hide AttemptAt, Apply;
    WritesKeepKeys(desk.db, AttemptAt(desk.db, config, now, item, call).writes);
  }

  /** All that is due, one after the other, up to the first error; the count is of all that was due. */
  method ResolveDue(store: Store, config: Config, now: int, limit: nat, call: Id)
    returns (processed: nat, error: Option<Error>, ghost due: seq<Retry>)
    requires store.Now() == Session(store.db, false, false, NoWrites) && Keyed(store.db) && RowsKeyed(store.db)
    modifies store
    ensures DueList(Desk(old(store.db), old(store.nextRetryAt)), now, limit, due)
    ensures (Desk(store.db, store.nextRetryAt), error) ==
            ResolvedAll(Desk(old(store.db), old(store.nextRetryAt)), config, now, due, call)
    ensures processed == if error.None? then |due| else 0
  {
    hide Resolved, DueList, RowsKeyed;
    var items := FindDuePendingReferences(store, now, limit);
    due := items;
    ghost var desk := Desk(store.db, store.nextRetryAt);
    for i := 0 to |items|
      invariant store.Now() == Session(store.db, false, false, NoWrites) && Keyed(store.db)
      invariant (Desk(store.db, store.nextRetryAt), None) == ResolvedAll(desk, config, now, items[..i], call)
    {
      AttemptsKeepKeys(Desk(store.db, store.nextRetryAt), config, now, items[i], call + i);
      error := ResolveOne(store, config, now, items[i], call + i);
      assert items[..i + 1][..i] == items[..i];
      if error.Some? {
        ErrorsStop(desk, config, now, items, i + 1, call);
        return 0, error, due;
      }
    }
    assert items[..|items|] == items;
    return |items|, None, due;
  }

  // ----- when a row is tried again -----

  /** What one more attempt at a parked row decides: that it stays parked, without a word, or its row. */
  lemma AttemptDecides(db: Db, tx: Tx, call: Id)
    requires tx.status == PendingReference && ProcessAlone(db, tx, call).Ok?
    ensures var d := ProcessAlone(db, tx, call).value;
            && d.tx.id == tx.id
            && (if d.writes.row.None? then d.writes == NoWrites && d.tx.status == PendingReference
                else d.writes.row == Some(d.tx) && d.tx.status != PendingReference)
  {
    hide NewLedgerEntry;
  }

  /** An attempt that leaves its row parked puts it off by the backoff of the attempts so far, and counts. */
  lemma ParkedAgainIsPutOff(desk: Desk, config: Config, now: int, id: Id, call: Id)
    requires StillParked(desk, id) && desk.db.txs[id].id == id && !Expired(config, now, ItemOf(desk, id))
    requires var later := Resolved(desk, config, now, ItemOf(desk, id), call);
             later.1.None? && StillParked(later.0, id)
    ensures var later := Resolved(desk, config, now, ItemOf(desk, id), call).0;
            && id in later.nextRetryAt
            && later.nextRetryAt[id] == now + Backoff.BackoffDelay(config.backoffBase, desk.db.attempts[id])
            && later.db.attempts[id] == desk.db.attempts[id] + 1 && later.db.txs[id] == desk.db.txs[id]
  {
    hide ProcessAlone, Backoff.BackoffDelay, SaveError;
    if ProcessAlone(desk.db, desk.db.txs[id], call).Ok? {
      AttemptDecides(desk.db, desk.db.txs[id], call);
    }
  }

  /** The row is parked still, and its next retry is what it was. */
  predicate StillPutOff(desk: Desk, later: Desk, id: Id) {
    && StillParked(later, id) && (id in later.nextRetryAt <==> id in desk.nextRetryAt)
    && (id in later.nextRetryAt ==> later.nextRetryAt[id] == desk.nextRetryAt[id])
  }

  /** A row that an attempt leaves parked is in nobody's list before the attempt's time plus the backoff, and
      from then on in every list that has room for it, as long as it is parked and not tried again. */
  lemma ParkedAgainWaitsItsBackoff(desk: Desk, config: Config, now: int, id: Id, call: Id,
                                   later: Desk, asked: int, limit: nat, due: seq<Retry>)
    requires StillParked(desk, id) && desk.db.txs[id].id == id && !Expired(config, now, ItemOf(desk, id))
    requires Resolved(desk, config, now, ItemOf(desk, id), call).1.None?
             && StillParked(Resolved(desk, config, now, ItemOf(desk, id), call).0, id)
    requires StillPutOff(Resolved(desk, config, now, ItemOf(desk, id), call).0, later, id)
    requires DueList(later, asked, limit, due)
    ensures var next := now + Backoff.BackoffDelay(config.backoffBase, desk.db.attempts[id]);
            && (asked < next ==> !IsListed(due, id))
            && (asked >= next && |due| < limit ==> IsListed(due, id))
  {
    hide Resolved, Backoff.BackoffDelay;
    ParkedAgainIsPutOff(desk, config, now, id, call);
  }

  // ----- a row whose processing fails -----

  /** An attempt that ends in an error leaves everything as it was: not even itself is counted. */
  lemma ErringAttemptLeavesTheDesk(desk: Desk, config: Config, now: int, item: Retry, call: Id)
    requires item.tx.WalletId() in desk.db.wallets && Resolved(desk, config, now, item, call).1.Some?
    ensures Resolved(desk, config, now, item, call).0 == desk
  {
    hide ProcessAlone, RejectTx, SaveError, Apply, Backoff.BackoffDelay;
  }

  /** A row whose processing fails ends the batch: what came before it is done, and it and every row
      after it are as they were, attempts and due times included, to be found due again. */
  lemma ErringRowEndsTheBatch(desk: Desk, config: Config, now: int, due: seq<Retry>, i: nat, call: Id)
    requires i < |due| && ResolvedAll(desk, config, now, due[..i], call).1.None?
    requires var before := ResolvedAll(desk, config, now, due[..i], call).0;
             due[i].tx.WalletId() in before.db.wallets && Resolved(before, config, now, due[i], call + i).1.Some?
    ensures var before := ResolvedAll(desk, config, now, due[..i], call).0;
            ResolvedAll(desk, config, now, due, call) == (before, Resolved(before, config, now, due[i], call + i).1)
  {
    hide Resolved;
    var before := ResolvedAll(desk, config, now, due[..i], call).0;
    assert due[..i + 1][..i] == due[..i];
    ErringAttemptLeavesTheDesk(before, config, now, due[i], call + i);
    ErrorsStop(desk, config, now, due, i + 1, call);
  }

  /** A waiting reversal whose reference has come in, and whose credit no longer fits its wallet. */
  predicate CreditOverflows(db: Db, tx: Tx) {
    && tx.Kind().IsReversal() && tx.status == PendingReference && tx.Amount().IsPositive() && tx.referenceId.None?
    && tx.payload.referenceExternalId.Some?
    && var found := db.FindByKey(Key(tx.key.providerId, tx.payload.referenceExternalId.value));
       && found.Some? && tx.ValidateReference(found.value) == Ok(()) && !db.HasReversal(found.value.id)
       && MovementDirection(tx.Kind(), found) == Ok(Credit)
       && tx.WalletId() in db.wallets
       && var w := db.wallets[tx.WalletId()];
          && w.Valid() && tx.Amount().currency == w.balance.currency
          && w.balance.amount as int + tx.Amount().amount as int > MAX_INT64
  }

  lemma OverflowIsAnError(db: Db, tx: Tx, call: Id)
    requires CreditOverflows(db, tx)
    ensures ProcessAlone(db, tx, call) == Err(Overflow)
  {
    hide Settle;
    var found := db.FindByKey(Key(tx.key.providerId, tx.payload.referenceExternalId.value)).value;
    var resolved := tx.(referenceId := Some(found.id));
    SettlesExactly(resolved, Some(found), db.wallets[tx.WalletId()], false, call);
  }

  /** So an overflowing reversal at the head of what is due keeps the whole batch from happening, as
      often as it is tried, until its own time has run out: no attempt of it is ever counted. */
  lemma OverflowBlocksTheBatch(desk: Desk, config: Config, now: int, due: seq<Retry>, call: Id)
    requires due != [] && CreditOverflows(desk.db, due[0].tx) && !Expired(config, now, due[0])
    ensures ResolvedAll(desk, config, now, due, call) == (desk, Some(Overflow))
  {
    hide ProcessAlone, ResolvedAll, CreditOverflows;
    OverflowIsAnError(desk.db, due[0].tx, call);
    HeadWallet(desk.db, due[0].tx);
    assert due[..0] == [];
    NothingResolved(desk, config, now, call);
    ErringRowEndsTheBatch(desk, config, now, due, 0, call);
  }

  lemma HeadWallet(db: Db, tx: Tx)
    requires CreditOverflows(db, tx)
    ensures tx.WalletId() in db.wallets
  {
  }

  lemma NothingResolved(desk: Desk, config: Config, now: int, call: Id)
    ensures ResolvedAll(desk, config, now, [], call) == (desk, None)
  {
  }

  // ----- giving up -----

  /** Parked, its reference nowhere to be found. */
  predicate Waiting(desk: Desk, id: Id) {
    && id in desk.db.txs && id in desk.db.attempts && desk.db.txs[id].id == id
    && desk.db.txs[id].status == PendingReference && desk.db.txs[id].Kind().IsReversal()
    && desk.db.txs[id].WalletId() in desk.db.wallets
    && desk.db.txs[id].payload.referenceExternalId.Some?
    && desk.db.FindByKey(Key(desk.db.txs[id].key.providerId, desk.db.txs[id].payload.referenceExternalId.value)).None?
  }

  function ItemOf(desk: Desk, id: Id): Retry
    requires id in desk.db.txs && id in desk.db.attempts
  {
    Retry(desk.db.txs[id], desk.db.attempts[id])
  }

  function GivenUp(tx: Tx): Tx {
    tx.(status := Rejected, failure := Some(ReferenceNotFound))
  }

  /** One attempt at a row whose reference is missing: the row and the events stay and one attempt is
      counted, or, out of attempts or time, the row is rejected and that is announced. */
  lemma WaitingAttempt(desk: Desk, config: Config, now: int, id: Id, call: Id)
    requires Waiting(desk, id)
    ensures var item := ItemOf(desk, id);
            var later := Resolved(desk, config, now, item, call);
            && later.1 == None
            && (if Expired(config, now, item)
                then later.0 == Desk(desk.db.(txs := desk.db.txs[id := GivenUp(item.tx)],
                                              events := desk.db.events + [RejectedEvent(GivenUp(item.tx), call)]),
                                    desk.nextRetryAt)
                else later.0 == Desk(desk.db.(attempts := desk.db.attempts[id := item.attempts + 1]),
                                     desk.nextRetryAt[id :=
                                                      now + Backoff.BackoffDelay(config.backoffBase, item.attempts)])
                     && Waiting(later.0, id))
  {
    hide Backoff.BackoffDelay;
    var item := ItemOf(desk, id);
    if Expired(config, now, item) {
      var w := RowWithEvent(GivenUp(item.tx), RejectedEvent(GivenUp(item.tx), call));
      assert Apply(desk.db, w) == desk.db.(txs := desk.db.txs[id := GivenUp(item.tx)],
                                           events := desk.db.events + [RejectedEvent(GivenUp(item.tx), call)]);
    }
  }

  predicate StillParked(desk: Desk, id: Id) {
    id in desk.db.txs && id in desk.db.attempts && desk.db.txs[id].status == PendingReference
  }

  /** A round of the resolver: the desk it finds, whenever that is, and the time. */
  datatype Round = Round(start: Desk, now: int)

  function AfterRound(config: Config, round: Round, id: Id, call: Id): Desk {
    if StillParked(round.start, id) then Resolved(round.start, config, round.now, ItemOf(round.start, id), call).0
    else round.start
  }

  /** The row, its attempts and what has been announced of it are left alone, and its reference has not
      come in. */
  predicate Spared(db: Db, later: Db, id: Id) {
    && id in db.txs && id in db.attempts && id in later.txs && id in later.attempts
    && later.txs[id] == db.txs[id] && later.attempts[id] == db.attempts[id]
    && TerminalBodies(later.events, id) == TerminalBodies(db.events, id)
    && PendingCount(later.events, id) == PendingCount(db.events, id)
    && var t := db.txs[id];
       t.payload.referenceExternalId.Some? ==>
         later.FindByKey(Key(t.key.providerId, t.payload.referenceExternalId.value)).None?
  }

  /** Between two rounds others commit whatever else they like. */
  predicate Meantime(desk: Desk, later: Desk, id: Id) {
    Evolves(desk.db, later.db) && Spared(desk.db, later.db, id)
  }

  /** One round after the other, on a system that lives on in between. */
  predicate LiveRounds(config: Config, rounds: seq<Round>, id: Id, call: Id) {
    forall i :: 0 < i < |rounds| ==> Meantime(AfterRound(config, rounds[i - 1], id, call + i - 1), rounds[i].start, id)
  }

  /** The i-th round finds the row out of attempts or out of time. */
  predicate RunsOut(config: Config, rounds: seq<Round>, id: Id, i: nat)
    requires i < |rounds| && StillParked(rounds[0].start, id)
  {
    var first := rounds[0].start.db;
    first.attempts[id] + i >= config.maxAttempts || rounds[i].now - first.txs[id].createdAt >= config.ttl
  }

  /** The first of the first m rounds that does, or m if none does. */
  function FirstOut(config: Config, rounds: seq<Round>, id: Id, m: nat): (n: nat)
    requires m <= |rounds| && (m > 0 ==> StillParked(rounds[0].start, id))
    ensures n <= m
  {
    if m == 0 then 0
    else
      var n := FirstOut(config, rounds, id, m - 1);
      if n < m - 1 then n else if RunsOut(config, rounds, id, m - 1) then m - 1 else m
  }

  lemma {:induction false} FirstOutIsFirst(config: Config, rounds: seq<Round>, id: Id, m: nat)
    requires m <= |rounds| && (m > 0 ==> StillParked(rounds[0].start, id))
    ensures var n := FirstOut(config, rounds, id, m);
            && (forall i :: 0 <= i < n ==> !RunsOut(config, rounds, id, i))
            && (n < m ==> RunsOut(config, rounds, id, n))
  {
    if m > 0 {
      FirstOutIsFirst(config, rounds, id, m - 1);
    }
  }

  /** The row as it was, parked again n times, and nothing more announced of it. */
  predicate ParkedAgain(desk: Desk, later: Desk, id: Id, n: nat) {
    && Waiting(desk, id) && Waiting(later, id)
    && later.db.txs[id] == desk.db.txs[id] && later.db.attempts[id] == desk.db.attempts[id] + n
    && TerminalBodies(later.db.events, id) == TerminalBodies(desk.db.events, id)
    && PendingCount(later.db.events, id) == PendingCount(desk.db.events, id)
  }

  /** The row parked again n times and then rejected for want of its reference, announced once. */
  predicate Abandoned(desk: Desk, later: Desk, id: Id, n: nat) {
    && Waiting(desk, id) && id in later.db.txs && id in later.db.attempts
    && later.db.txs[id] == GivenUp(desk.db.txs[id]) && later.db.attempts[id] == desk.db.attempts[id] + n
    && TerminalBodies(later.db.events, id) ==
       TerminalBodies(desk.db.events, id) + [TransactionRejected(id, desk.db.txs[id].Kind(), Some(ReferenceNotFound))]
    && PendingCount(later.db.events, id) == PendingCount(desk.db.events, id)
  }

  /** A reversal whose reference never appears is parked again exactly until the first round that
      finds it out of attempts or time, and is then rejected with REFERENCE_NOT_FOUND, announced
      once; later rounds change nothing of it. Whatever else others commit between the rounds. */
  lemma {:induction false} GivesUpInTheEnd(config: Config, rounds: seq<Round>, id: Id, call: Id, i: nat)
    requires i < |rounds| && Waiting(rounds[0].start, id) && LiveRounds(config, rounds, id, call)
    ensures StillParked(rounds[0].start, id)
    ensures var first, later := rounds[0].start, AfterRound(config, rounds[i], id, call + i);
            var n := FirstOut(config, rounds, id, |rounds|);
            if i < n then ParkedAgain(first, later, id, i + 1) else Abandoned(first, later, id, n)
  {
    hide Waiting, ParkedAgain, Abandoned, RunsOut, StillParked, FirstOut, AfterRound, Meantime;
    var first := rounds[0].start;
    WaitingIsParked(first, id);
    var n := FirstOut(config, rounds, id, |rounds|);
    FirstOutIsFirst(config, rounds, id, |rounds|);
    if i == 0 {
      NotParkedYet(first, id);
    } else {
      GivesUpInTheEnd(config, rounds, id, call, i - 1);
      var before := AfterRound(config, rounds[i - 1], id, call + i - 1);
      assert Meantime(before, rounds[i].start, id);
      if i <= n {
        StillParkedMeanwhile(first, before, rounds[i].start, id, i);
      } else {
        StillAbandonedMeanwhile(first, before, rounds[i].start, id, n);
      }
    }
    if i <= n {
      ParkedOnce(config, rounds, id, call + i, i);
    } else {
      AbandonedForGood(config, first, rounds[i], id, n, call + i);
    }
  }

  lemma WaitingIsParked(desk: Desk, id: Id)
    requires Waiting(desk, id)
    ensures StillParked(desk, id)
  {
  }

  lemma NotParkedYet(desk: Desk, id: Id)
    requires Waiting(desk, id)
    ensures ParkedAgain(desk, desk, id, 0)
  {
  }

  lemma StillParkedMeanwhile(first: Desk, before: Desk, later: Desk, id: Id, n: nat)
    requires ParkedAgain(first, before, id, n) && Meantime(before, later, id)
    ensures ParkedAgain(first, later, id, n)
  {
    hide TerminalBodies, PendingCount;
  }

  lemma StillAbandonedMeanwhile(first: Desk, before: Desk, later: Desk, id: Id, n: nat)
    requires Abandoned(first, before, id, n) && Meantime(before, later, id)
    ensures Abandoned(first, later, id, n)
  {
    hide TerminalBodies, PendingCount, Waiting;
  }

  /** The i-th round, when none before it ran out. */
  lemma ParkedOnce(config: Config, rounds: seq<Round>, id: Id, call: Id, i: nat)
    requires i < |rounds| && ParkedAgain(rounds[0].start, rounds[i].start, id, i) && StillParked(rounds[0].start, id)
    ensures var first, later := rounds[0].start, AfterRound(config, rounds[i], id, call);
            if RunsOut(config, rounds, id, i) then Abandoned(first, later, id, i)
            else ParkedAgain(first, later, id, i + 1)
  {
    hide Resolved, TerminalBodies, PendingCount, Backoff.BackoffDelay;
    var start := rounds[i].start;
    WaitingAttempt(start, config, rounds[i].now, id, call);
    var event := RejectedEvent(GivenUp(start.db.txs[id]), call);
    BodiesConcat(start.db.events, [event], id);
    RejectionIsTerminal(event, id);
  }

  lemma RejectionIsTerminal(event: Event, id: Id)
    requires event.body.TransactionRejected? && event.body.transactionId == id
    ensures TerminalBodies([event], id) == [event.body] && PendingCount([event], id) == 0
  {
    assert [event][..0] == [];
  }

  lemma AbandonedForGood(config: Config, first: Desk, round: Round, id: Id, n: nat, call: Id)
    requires Abandoned(first, round.start, id, n)
    ensures Abandoned(first, AfterRound(config, round, id, call), id, n)
  {
    hide TerminalBodies, PendingCount, Resolved;
  }

  /** So a row within the limit never exceeds it, and one round more than remain settles it. */
  lemma AttemptsAreBounded(config: Config, rounds: seq<Round>, id: Id, call: Id, i: nat)
    requires i < |rounds| && Waiting(rounds[0].start, id) && LiveRounds(config, rounds, id, call)
    requires rounds[0].start.db.attempts[id] <= config.maxAttempts
    ensures var first, later := rounds[0].start, AfterRound(config, rounds[i], id, call + i);
            && id in later.db.txs && id in later.db.attempts
            && later.db.attempts[id] <= config.maxAttempts
            && (i >= config.maxAttempts - first.db.attempts[id] ==> later.db.txs[id] == GivenUp(first.db.txs[id]))
  {
    hide LiveRounds, AfterRound, TerminalBodies, PendingCount;
    GivesUpInTheEnd(config, rounds, id, call, i);
    FirstOutIsFirst(config, rounds, id, |rounds|);
    var left := config.maxAttempts - rounds[0].start.db.attempts[id];
    if left < |rounds| {
      assert RunsOut(config, rounds, id, left);
    }
  }
}
