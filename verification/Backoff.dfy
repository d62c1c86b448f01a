/** The delay before the next attempt (internal/app/pending_reference_resolver.go), in a machine
    word of nanoseconds. */
module Backoff {
  import opened Moneys

  const MAX_SHIFT: nat := 20

  function Pow2(n: nat): (p: nat)
    ensures p >= 1
  {
    if n == 0 then 1 else 2 * Pow2(n - 1)
  }

  /** A shift that drops what no longer fits the word. */
  function ShiftLeft(x: int64, n: nat): int64 {
    Wrap(x * Pow2(n))
  }

  /** How often the base is doubled. */
  function Doublings(attempts: int): nat {
    if attempts < 0 then 0 else if attempts > MAX_SHIFT then MAX_SHIFT else attempts
  }

  function BackoffDelay(base: int64, attempts: int): int64 {
    ShiftLeft(base, Doublings(attempts))
  }

  lemma {:induction false} Pow2Monotone(m: nat, n: nat)
    requires m <= n
    ensures Pow2(m) <= Pow2(n)
  {
    if m < n {
      Pow2Monotone(m, n - 1);
    }
  }

  lemma Pow2Of20()
    ensures Pow2(20) == 0x10_0000
  {
    assert Pow2(10) == 1024;
    assert Pow2(15) == 32 * Pow2(10);
    assert Pow2(20) == 32 * Pow2(15);
  }

  /** A positive base is doubled exactly, at any number of attempts, if and only if it is below
      2^43 nanoseconds: at 2^43 twenty doublings wrap. */
  lemma DelayIsExactExactlyBelow43Bits(base: int64)
    requires base > 0
    ensures (forall attempts: int :: BackoffDelay(base, attempts) == base * Pow2(Doublings(attempts))) <==>
              base < 0x800_0000_0000
  {
    Pow2Of20();
    if base < 0x800_0000_0000 {
      forall attempts: int
        ensures BackoffDelay(base, attempts) == base * Pow2(Doublings(attempts))
      {
        DelayFits(base, Doublings(attempts));
        WrapIsIdentityExactlyInRange(base * Pow2(Doublings(attempts)));
      }
    } else {
      WrapIsIdentityExactlyInRange(base * Pow2(Doublings(20)));
      assert base * 0x10_0000 > MAX_INT64;
      assert BackoffDelay(base, 20) != base * Pow2(Doublings(20));
    }
  }

  lemma DelayFits(base: int64, n: nat)
    requires 0 < base < 0x800_0000_0000 && n <= 20
    ensures InInt64(base * Pow2(n))
  {
    Pow2Of20();
    Pow2Monotone(n, 20);
    assert 0 <= base * Pow2(n) <= base * Pow2(20) by {
      ScaledMonotone(base, Pow2(n), Pow2(20));
    }
  }

  lemma ScaledMonotone(x: nat, a: nat, b: nat)
    requires a <= b
    ensures 0 <= x * a <= x * b
  {
  }

  /** Below that bound delays are positive and never shrink from one attempt to the next. */
  lemma DelaysGrow(base: int64, attempts: nat)
    requires 0 < base < 0x800_0000_0000
    ensures 0 < BackoffDelay(base, attempts) <= BackoffDelay(base, attempts + 1)
    ensures attempts < MAX_SHIFT ==> BackoffDelay(base, attempts + 1) == 2 * BackoffDelay(base, attempts)
  {
    DelayIsExactExactlyBelow43Bits(base);
    var a, b := Pow2(Doublings(attempts)), Pow2(Doublings(attempts + 1));
    assert BackoffDelay(base, attempts) == base * a && BackoffDelay(base, attempts + 1) == base * b;
    if attempts < MAX_SHIFT {
      assert b == 2 * a;
    }
    ScaledMonotone(base, 1, a);
  }
}
