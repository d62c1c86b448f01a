/** Integer money in minor units (internal/money/money.go). */
module Moneys {
  import opened Prelude

  const MIN_INT64: int := -0x8000_0000_0000_0000
  const MAX_INT64: int := 0x7fff_ffff_ffff_ffff
  const TWO_TO_THE_64: int := 0x1_0000_0000_0000_0000

  predicate InInt64(x: int) {
    MIN_INT64 <= x <= MAX_INT64
  }

  type int64 = x: int | InInt64(x)

  /** Two's complement wrap-around of a 64-bit machine word. */
  function Wrap(x: int): int64 {
    (x - MIN_INT64) % TWO_TO_THE_64 + MIN_INT64
  }

  /** A currency code that has already passed validation. */
  type Currency = string

  datatype Money = Money(currency: Currency, amount: int64) {

    predicate IsNegative() {
      amount < 0
    }

    predicate IsZero() {
      amount == 0
    }

    predicate IsPositive() {
      amount > 0
    }

    function Negate(): Result<Money> {
      if amount == MIN_INT64 then Err(Overflow) else Ok(Money(currency, -amount))
    }

    /** The sum is formed in a machine word first; the wrap-around test follows. */
    function Add(n: Money): Result<Money> {
      if currency != n.currency then
        Err(CurrencyMismatch)
      else
        var a, b, c := amount, n.amount, Wrap(amount + n.amount);
        if (b > 0 && c < a) || (b < 0 && c > a) then Err(Overflow) else Ok(Money(currency, c))
    }

    function Subtract(n: Money): Result<Money> {
      match n.Negate()
      case Err(e) => Err(e)
      case Ok(negated) => Add(negated)
    }

    function Equal(n: Money): Result<bool> {
      if currency != n.currency then Err(CurrencyMismatch) else Ok(amount == n.amount)
    }
  }

  function Zero(currency: Currency): Money {
    Money(currency, 0)
  }

  lemma WrapIsIdentityExactlyInRange(x: int)
    ensures Wrap(x) == x <==> InInt64(x)
  {
  }

  /** The wrap-around test is exact: Add fails precisely when the true sum leaves int64,
      and otherwise returns the true sum. */
  lemma AddIsExact(m: Money, n: Money)
    ensures m.Add(n) ==
            if m.currency != n.currency then Err(CurrencyMismatch)
            else if InInt64(m.amount + n.amount) then Ok(Money(m.currency, m.amount + n.amount))
            else Err(Overflow)
  {
    WrapIsIdentityExactlyInRange(m.amount + n.amount);
    var sum := m.amount + n.amount;
    if sum > MAX_INT64 {
      assert Wrap(sum) == sum - TWO_TO_THE_64;
    } else if sum < MIN_INT64 {
      assert Wrap(sum) == sum + TWO_TO_THE_64;
    }
  }

  /** Subtract is exact except that it refuses every MinInt64 subtrahend, including those
      whose true difference would fit. */
  lemma SubtractIsExact(m: Money, n: Money)
    ensures m.Subtract(n) ==
            if n.amount == MIN_INT64 then Err(Overflow)
            else if m.currency != n.currency then Err(CurrencyMismatch)
            else if InInt64(m.amount - n.amount) then Ok(Money(m.currency, m.amount - n.amount))
            else Err(Overflow)
  {
    if n.amount != MIN_INT64 {
      AddIsExact(m, Money(n.currency, -n.amount));
    }
  }

  /** A subtraction that would fit is refused exactly for the MinInt64 subtrahend. */
  lemma SubtractRefusesFittingDifferenceOnlyForMinInt64(m: Money, n: Money)
    requires m.currency == n.currency && InInt64(m.amount - n.amount)
    ensures m.Subtract(n) == Err(Overflow) <==> n.amount == MIN_INT64
  {
    SubtractIsExact(m, n);
  }
}
