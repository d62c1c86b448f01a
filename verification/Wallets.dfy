/** A wallet and its ledger entries (internal/wallet). */
module Wallets {
  import opened Prelude
  import opened Moneys

  /** A wallet as a value: what a row of the wallets table holds. */
  datatype WalletRow = WalletRow(id: Id, playerId: Id, version: int, balance: Money) {

    predicate Valid() {
      balance.amount >= 0 && version >= 1
    }

    function Credited(amount: Money): Result<WalletRow> {
      if !amount.IsPositive() then Err(NonPositiveAmount)
      else match balance.Add(amount)
        case Err(e) => Err(e)
        case Ok(sum) => Ok(this.(balance := sum, version := version + 1))
    }

    function Debited(amount: Money): Result<WalletRow> {
      if !amount.IsPositive() then Err(NonPositiveAmount)
      else match balance.Subtract(amount)
        case Err(e) => Err(e)
        case Ok(difference) =>
          if difference.IsNegative() then Err(InsufficientBalance)
          else Ok(this.(balance := difference, version := version + 1))
    }

    function Moved(direction: Direction, amount: Money): Result<WalletRow> {
      match direction
      case Debit => Debited(amount)
      case Credit => Credited(amount)
    }
  }

  datatype Direction = Debit | Credit {
    function Opposite(): Direction {
      if this == Debit then Credit else Debit
    }

    function Signed(amount: int): int {
      if this == Debit then -amount else amount
    }
  }

  function NewWallet(id: Id, playerId: Id, initialBalance: Money): Result<WalletRow> {
    if initialBalance.IsNegative() then Err(NegativeInitialBalance)
    else Ok(WalletRow(id, playerId, 1, initialBalance))
  }

  datatype LedgerEntry = LedgerEntry(
    id: Id,
    walletId: Id,
    transactionId: Id,
    direction: Direction,
    amount: Money,
    balanceBefore: Money,
    balanceAfter: Money)
  {
    /** What the entry adds to its wallet's balance. */
    function Movement(): int {
      direction.Signed(amount.amount)
    }

    /** The checks of the ledger constructor, which the schema repeats. */
    predicate Consistent() {
      && amount.IsPositive()
      && balanceBefore.amount >= 0 && balanceAfter.amount >= 0
      && amount.currency == balanceBefore.currency == balanceAfter.currency
      && balanceAfter.amount == balanceBefore.amount + Movement()
    }
  }

  function NewLedgerEntry(e: LedgerEntry): Result<LedgerEntry> {
    if !e.amount.IsPositive() then Err(NonPositiveAmount)
    else if e.balanceBefore.IsNegative() || e.balanceAfter.IsNegative() then Err(NegativeBalance)
    else
      var expectedAfter := if e.direction == Debit then e.balanceBefore.Subtract(e.amount)
                           else e.balanceBefore.Add(e.amount);
      match expectedAfter
      case Err(error) => Err(error)
      case Ok(expected) =>
        if expected.Equal(e.balanceAfter) != Ok(true) then Err(InconsistentBalance) else Ok(e)
  }

  // ----- main results -----

  /** A debit of a valid wallet never overflows: the answer depends on the signs and the
      balance alone. */
  lemma DebitIsExact(w: WalletRow, amount: Money)
    requires w.Valid()
    ensures w.Debited(amount) ==
            if amount.amount <= 0 then Err(NonPositiveAmount)
            else if w.balance.currency != amount.currency then Err(CurrencyMismatch)
            else if w.balance.amount < amount.amount then Err(InsufficientBalance)
            else Ok(WalletRow(w.id, w.playerId, w.version + 1,
                              Money(amount.currency, w.balance.amount - amount.amount)))
  {
    SubtractIsExact(w.balance, amount);
  }

  /** A credit of a valid wallet overflows exactly above MaxInt64. */
  lemma CreditIsExact(w: WalletRow, amount: Money)
    requires w.Valid()
    ensures w.Credited(amount) ==
            if amount.amount <= 0 then Err(NonPositiveAmount)
            else if w.balance.currency != amount.currency then Err(CurrencyMismatch)
            else if w.balance.amount + amount.amount > MAX_INT64 then Err(Overflow)
            else Ok(WalletRow(w.id, w.playerId, w.version + 1,
                              Money(amount.currency, w.balance.amount + amount.amount)))
  {
    AddIsExact(w.balance, amount);
  }

  /** Moving a valid wallet leaves it valid, bumps the version by one and changes the balance
      by exactly the signed amount. */
  lemma MovedWallet(w: WalletRow, direction: Direction, amount: Money)
    requires w.Valid() && w.Moved(direction, amount).Ok?
    ensures var after := w.Moved(direction, amount).value;
            && after.Valid()
            && after == w.(version := w.version + 1, balance := after.balance)
            && after.balance.amount == w.balance.amount + direction.Signed(amount.amount)
            && after.balance.currency == w.balance.currency == amount.currency
            && amount.IsPositive()
  {
    DebitIsExact(w, amount);
    CreditIsExact(w, amount);
  }

  /** The reverse movement of a successful movement succeeds on the result and restores the
      balance. */
  lemma ReverseMovementRestores(w: WalletRow, direction: Direction, amount: Money)
    requires w.Valid() && w.Moved(direction, amount).Ok?
    ensures var after := w.Moved(direction, amount).value;
            after.Moved(direction.Opposite(), amount) == Ok(w.(version := w.version + 2))
  {
    MovedWallet(w, direction, amount);
    var after := w.Moved(direction, amount).value;
    DebitIsExact(after, amount);
    CreditIsExact(after, amount);
  }

  /** The ledger constructor accepts an entry exactly when it is consistent, and otherwise says why: signs
      first, then the currency of the balance before, then what does not add up. */
  lemma LedgerEntryAcceptedExactly(e: LedgerEntry)
    ensures NewLedgerEntry(e) == Ok(e) <==> e.Consistent()
    ensures !e.Consistent() ==>
              NewLedgerEntry(e) ==
              Err(if e.amount.amount <= 0 then NonPositiveAmount
                  else if e.balanceBefore.amount < 0 || e.balanceAfter.amount < 0 then NegativeBalance
                  else if e.balanceBefore.currency != e.amount.currency then CurrencyMismatch
                  else if e.balanceBefore.amount + e.Movement() > MAX_INT64 then Overflow
                  else InconsistentBalance)
  {
    AddIsExact(e.balanceBefore, e.amount);
    SubtractIsExact(e.balanceBefore, e.amount);
  }

  /** After a successful movement the ledger constructor never refuses the entry describing it. */
  lemma MovementIsAlwaysRecordable(w: WalletRow, direction: Direction, amount: Money, id: Id, transactionId: Id)
    requires w.Valid() && w.Moved(direction, amount).Ok?
    ensures var e := LedgerEntry(id, w.id, transactionId, direction, amount,
                                 w.balance, w.Moved(direction, amount).value.balance);
            NewLedgerEntry(e) == Ok(e) && e.Consistent()
  {
    MovedWallet(w, direction, amount);
    LedgerEntryAcceptedExactly(LedgerEntry(id, w.id, transactionId, direction, amount,
                                           w.balance, w.Moved(direction, amount).value.balance));
  }

  /** The wallet object, changed in place by Credit and Debit. */
  class Wallet {
    const id: Id
    const playerId: Id
    var version: int
    var balance: Money

    function Row(): WalletRow
      reads this
    {
      WalletRow(id, playerId, version, balance)
    }

    constructor FromPersistence(row: WalletRow)
      ensures Row() == row
    {
      id, playerId, version, balance := row.id, row.playerId, row.version, row.balance;
    }

    method Credit(amount: Money) returns (r: Result<()>)
      modifies this
      ensures match old(Row()).Credited(amount)
              case Ok(row) => r == Ok(()) && Row() == row
              case Err(e) => r == Err(e) && Row() == old(Row())
    {
      if !amount.IsPositive() {
        return Err(NonPositiveAmount);
      }
      var sum := balance.Add(amount);
      if sum.Err? {
        return Err(sum.error);
      }
      balance := sum.value;
      version := version + 1;
      return Ok(());
    }

    method Debit(amount: Money) returns (r: Result<()>)
      modifies this
      ensures match old(Row()).Debited(amount)
              case Ok(row) => r == Ok(()) && Row() == row
              case Err(e) => r == Err(e) && Row() == old(Row())
    {
      if !amount.IsPositive() {
        return Err(NonPositiveAmount);
      }
      var difference := balance.Subtract(amount);
      if difference.Err? {
        return Err(difference.error);
      }
      if difference.value.IsNegative() {
        return Err(InsufficientBalance);
      }
      balance := difference.value;
      version := version + 1;
      return Ok(());
    }
  }
}
