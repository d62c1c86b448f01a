/** One client's session with the database: the committed tables, the transaction it may have open,
    and what others commit whenever it lets them (internal/postgres). */
module Stores {
  import opened Prelude
  import opened Moneys
  import opened Wallets
  import opened Wagers
  import opened Tables
  import opened Protocol

  /** What a session looks like between two accesses. */
  datatype Session = Session(db: Db, inTx: bool, aborted: bool, staged: Writes)

  class Store {
    var db: Db
    var inTx: bool
    var aborted: bool          // a failed statement dooms the open transaction
    var staged: Writes         // what the open transaction will commit
    var arrivals: seq<Writes>  // what others commit meanwhile, in turn
    var nextRetryAt: map<Id, int>  // pending_reference_next_retry_at

    /** Nothing is staged outside a transaction. */
    ghost predicate Valid()
      reads this
    {
      !inTx ==> !aborted && staged == NoWrites
    }

    function Now(): Session
      reads this
    {
      Session(db, inTx, aborted, staged)
    }

    constructor (initial: Db, others: seq<Writes>)
      ensures Valid() && !inTx && db == initial && arrivals == others && nextRetryAt == map[]
    {
      db, arrivals, nextRetryAt := initial, others, map[];
      inTx, aborted, staged := false, false, NoWrites;
    }

    /** A point at which somebody else's transaction may commit. */
    method Meanwhile()
      modifies this`db, this`arrivals
      ensures old(arrivals) == [] ==> db == old(db) && arrivals == []
      ensures old(arrivals) != [] ==> db == Apply(old(db), old(arrivals)[0]) && arrivals == old(arrivals)[1..]
    {
      if arrivals != [] {
        db := Apply(db, arrivals[0]);
        arrivals := arrivals[1..];
      }
    }

    // ----- transactions -----

    /** Opens a transaction, or joins the one that is open already. */
    method Begin() returns (joined: bool)
      requires Valid()
      modifies this`inTx
      ensures joined == old(inTx) && inTx
    {
      joined := inTx;
      inTx := true;
    }

    /** Only whoever opened the transaction ends it: all of it, or, after an error, none. */
    method End(joined: bool, ok: bool)
      requires inTx
      modifies this`db, this`inTx, this`aborted, this`staged
      ensures joined ==> db == old(db) && inTx && aborted == old(aborted) && staged == old(staged)
      ensures !joined ==> !inTx && !aborted && staged == NoWrites
                          && db == (if ok && !old(aborted) then Apply(old(db), old(staged)) else old(db))
    {
      if joined {
        return;
      }
      if ok && !aborted {
        db := Apply(db, staged);
      }
      inTx, aborted, staged := false, false, NoWrites;
    }

    // ----- reads -----

    method FindByKey(key: Key) returns (r: Result<Option<Tx>>)
      ensures r == if aborted then Err(TransactionAborted) else Ok(db.FindByKey(key))
    {
      if aborted {
        return Err(TransactionAborted);
      }
      return Ok(db.FindByKey(key));
    }

    method FindWallet(id: Id) returns (r: Result<WalletRow>)
      ensures r == if aborted then Err(TransactionAborted)
                   else if id in db.wallets then Ok(db.wallets[id]) else Err(WalletNotFound)
    {
      if aborted {
        return Err(TransactionAborted);
      }
      if id !in db.wallets {
        return Err(WalletNotFound);
      }
      return Ok(db.wallets[id]);
    }

    method FindReversal(ref: Id) returns (r: Result<bool>)
      ensures r == if aborted then Err(TransactionAborted) else Ok(db.HasReversal(ref))
    {
      if aborted {
        return Err(TransactionAborted);
      }
      return Ok(db.HasReversal(ref));
    }

    method FindInbox(messageId: string) returns (r: Option<InboxRow>)
      ensures r == if messageId in db.inbox then Some(db.inbox[messageId]) else None
    {
      if messageId in db.inbox {
        return Some(db.inbox[messageId]);
      }
      return None;
    }

    /** One UPDATE, guarded by the status. */
    method ScheduleNextRetry(id: Id, next: int)
      requires !inTx
      modifies this`db, this`nextRetryAt
      ensures if id in old(db).txs && id in old(db).attempts && old(db).txs[id].status == PendingReference then
                db == old(db).(attempts := old(db).attempts[id := old(db).attempts[id] + 1])
                && nextRetryAt == old(nextRetryAt)[id := next]
              else db == old(db) && nextRetryAt == old(nextRetryAt)
    {
      if id in db.txs && id in db.attempts && db.txs[id].status == PendingReference {
        db := db.(attempts := db.attempts[id := db.attempts[id] + 1]);
        nextRetryAt := nextRetryAt[id := next];
      }
    }

    /** The scan for the one entry of a transaction. */
    method FindLedgerEntry(transactionId: Id) returns (r: Result<Option<LedgerEntry>>)
      ensures r == if aborted then Err(TransactionAborted) else Ok(db.FindLedgerEntry(transactionId))
    {
      if aborted {
        return Err(TransactionAborted);
      }
      var i := 0;
      while i < |db.ledger|
        invariant 0 <= i <= |db.ledger|
        invariant EntryFor(db.ledger, transactionId) == EntryFor(db.ledger[i..], transactionId)
      {
        if db.ledger[i].transactionId == transactionId {
          return Ok(Some(db.ledger[i]));
        }
        i := i + 1;
      }
      return Ok(None);
    }

    /** The wallet's own entries, in order. */
    method AllLedgerEntries(walletId: Id) returns (entries: seq<LedgerEntry>)
      ensures entries == LedgerOf(db.ledger, walletId)
    {
      entries := [];
      for i := 0 to |db.ledger|
        invariant entries == LedgerOf(db.ledger[..i], walletId)
      {
        assert db.ledger[..i + 1] == db.ledger[..i] + [db.ledger[i]];
        LedgerOfAppend(db.ledger[..i], db.ledger[i], walletId);
        if db.ledger[i].walletId == walletId {
          entries := entries + [db.ledger[i]];
        }
      }
      assert db.ledger[..|db.ledger|] == db.ledger;
    }

    // ----- writes -----

    /** Upsert by id: an insert must not find its key taken nor its wallet missing. */
    method SaveTx(row: Tx) returns (r: Result<()>)
      requires inTx && !aborted && staged.row.None?
      modifies this`staged, this`aborted
      ensures var keyTaken := row.Kind() != Opening && row.key in db.index;
              var walletThere := row.WalletId() in db.wallets
                                 || (old(staged).wallet.Some? && old(staged).wallet.value.id == row.WalletId());
              if row.id in db.txs || (!keyTaken && walletThere) then
                r == Ok(()) && !aborted && staged == old(staged).(row := Some(row))
              else
                r == Err(if keyTaken then TransactionAlreadyExists else ConstraintViolation)
                && aborted && staged == old(staged)
    {
      if row.id !in db.txs {
        if row.Kind() != Opening && row.key in db.index {
          aborted := true;
          return Err(TransactionAlreadyExists);
        }
        if row.WalletId() !in db.wallets && (staged.wallet.None? || staged.wallet.value.id != row.WalletId()) {
          aborted := true;
          return Err(ConstraintViolation);
        }
      }
      staged := staged.(row := Some(row));
      return Ok(());
    }

    /** Upsert by id: an insert must not be the player's second wallet in the currency. Outside a
        transaction it takes effect at once. */
    method SaveWallet(row: WalletRow) returns (r: Result<()>)
      requires Valid() && !aborted
      modifies this`db, this`staged, this`aborted
      ensures if row.id !in old(db).wallets && old(WalletTaken(db, row.playerId, row.balance.currency)) then
                r == Err(WalletAlreadyExists) && aborted == inTx && staged == old(staged) && db == old(db)
              else if inTx then r == Ok(()) && !aborted && staged == old(staged).(wallet := Some(row)) && db == old(db)
              else
                r == Ok(()) && !aborted && staged == old(staged)
                && db == Apply(old(db), NoWrites.(wallet := Some(row)))
    {
      if row.id !in db.wallets && WalletTaken(db, row.playerId, row.balance.currency) {
        aborted := inTx;
        return Err(WalletAlreadyExists);
      }
      if inTx {
        staged := staged.(wallet := Some(row));
      } else {
        db := Apply(db, NoWrites.(wallet := Some(row)));
      }
      return Ok(());
    }

    /** The ledger takes one entry per wallet and transaction. */
    method SaveLedgerEntry(e: LedgerEntry) returns (r: Result<()>)
      requires inTx && !aborted
      modifies this`staged, this`aborted
      ensures if exists i :: 0 <= i < |db.ledger| && db.ledger[i].walletId == e.walletId
                             && db.ledger[i].transactionId == e.transactionId
              then r == Err(ConstraintViolation) && aborted && staged == old(staged)
              else r == Ok(()) && !aborted && staged == old(staged).(entry := Some(e))
    {
      if EntryCollides(db, NoWrites.(entry := Some(e))) {
        aborted := true;
        return Err(ConstraintViolation);
      }
      staged := staged.(entry := Some(e));
      return Ok(());
    }

    method SaveEvents(events: seq<Event>)
      requires inTx && !aborted
      modifies this`staged
      ensures staged == old(staged).(events := old(staged).events + events)
    {
      var saved := staged.events;
      for i := 0 to |events|
        invariant saved == staged.events + events[..i]
      {
        saved := saved + [events[i]];
      }
      assert events[..|events|] == events;
      staged := staged.(events := saved);
    }

    method SaveInbox(row: InboxRow)
      requires inTx && !aborted
      modifies this`staged
      ensures staged == old(staged).(inbox := Some(row))
    {
      staged := staged.(inbox := Some(row));
    }
  }

  predicate WalletTaken(db: Db, playerId: Id, currency: Currency) {
    exists w :: w in db.wallets && db.wallets[w].playerId == playerId && db.wallets[w].balance.currency == currency
  }

  /** Why an upsert of a row fails, if it does. */
  function InsertError(db: Db, staged: Writes, row: Tx): Option<Error> {
    if row.id in db.txs then None
    else if row.Kind() != Opening && row.key in db.index then Some(TransactionAlreadyExists)
    else if row.WalletId() !in db.wallets && (staged.wallet.None? || staged.wallet.value.id != row.WalletId())
    then Some(ConstraintViolation)
    else None
  }
}
