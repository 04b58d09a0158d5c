/** The exponential backoff of the reference resolver and of the outbox publisher, on
    64-bit durations. */
module Backoffs {
  import opened Domain
  import opened Moneys

  const TWO_62: int := 0x4000_0000_0000_0000

  function Pow2(n: nat): nat
    ensures 1 <= Pow2(n)
  {
    if n == 0 then 1 else 2 * Pow2(n - 1)
  }

  function Min(a: int, b: int): int { if a <= b then a else b }

  /** What n doublings in the register come to, stopped at the cap. */
  function Doubled(backoff: int, n: nat, cap: int): int
    decreases n
  {
    if n == 0 then Min(backoff, cap)
    else if Wrap(backoff * 2) >= cap then cap
    else Doubled(Wrap(backoff * 2), n - 1, cap)
  }

  /** Backoff before the given attempt. */
  method Backoff(base: int, cap: int, attempt: int) returns (backoff: int)
    ensures backoff == Doubled(base, if attempt < 1 then 0 else attempt - 1, cap)
  {
    var n := if attempt < 1 then 1 else attempt;
    backoff := base;
    var i := 1;
    while i < n
      invariant 1 <= i <= n
      invariant Doubled(base, n - 1, cap) == Doubled(backoff, n - i, cap)
    {
      backoff := Wrap(backoff * 2);
      if backoff >= cap {
        return cap;
      }
      i := i + 1;
    }
    if backoff > cap {
      return cap;
    }
  }

  /** After n doublings the loop goes on, though one more doubling leaves the register. */
  predicate Lands(base: int, cap: int, n: nat) {
    TWO_62 <= base * Pow2(n) < cap
  }

  ghost predicate Safe(base: int, cap: int) {
    base < TWO_62 && forall n: nat :: !Lands(base, cap, n)
  }

  lemma SafeAfterOne(base: int, cap: int)
    requires 0 < base && Safe(base, cap) && base * 2 < cap
    ensures Safe(base * 2, cap)
  {
    assert !Lands(base, cap, 1);
    forall n: nat ensures !Lands(base * 2, cap, n) {
      Factor(base, n);
      assert !Lands(base, cap, n + 1);
    }
  }

  lemma {:induction false} SafeDoubling(base: int, n: nat, cap: int)
    requires 0 < base && Safe(base, cap)
    ensures Doubled(base, n, cap) == Min(base * Pow2(n), cap)
    decreases n
  {
    if n > 0 {
      Factor(base, n - 1);
      if base * 2 >= cap {
        Grows(base * 2, n - 1);
      } else {
        SafeAfterOne(base, cap);
        SafeDoubling(base * 2, n - 1, cap);
      }
    }
  }

  lemma Factor(base: int, n: nat)
    ensures base * Pow2(n + 1) == (base * 2) * Pow2(n)
  {
  }

  lemma Grows(base: int, n: nat)
    requires 0 < base
    ensures base <= base * Pow2(n)
  {
  }

  /** Below the cap and below 2^62, doubling is exact; the doubling after that is negative. */
  lemma {:induction false} DoublingWraps(base: int, k: nat, cap: int)
    requires 0 < base && Lands(base, cap, k) && cap <= MAX_INT64
    ensures Doubled(base, k + 1, cap) < 0
    decreases k
  {
    if k == 0 {
      WrapOnce(base * 2);
    } else {
      Factor(base, k - 1);
      Grows(base * 2, k - 1);
      DoublingWraps(base * 2, k - 1, cap);
    }
  }

  lemma UnsafeDoublingFails(base: int, cap: int) returns (n: nat)
    requires 0 < base <= MAX_INT64 && 0 < cap <= MAX_INT64 && !Safe(base, cap)
    ensures Doubled(base, n, cap) < 0
  {
    if base >= TWO_62 {
      n := 1;
      WrapOnce(base * 2);
    } else {
      var k: nat :| Lands(base, cap, k);
      DoublingWraps(base, k, cap);
      n := k + 1;
    }
  }

  /** The loop gives min(base * 2^(attempt-1), cap) for every attempt exactly when the
      settings are safe. */
  lemma BackoffIsExactIffSafe(base: int, cap: int)
    requires 0 < base <= MAX_INT64 && 0 < cap <= MAX_INT64
    ensures (forall n: nat :: Doubled(base, n, cap) == Min(base * Pow2(n), cap)) <==> Safe(base, cap)
  {
    if Safe(base, cap) {
      forall n: nat ensures Doubled(base, n, cap) == Min(base * Pow2(n), cap) {
        SafeDoubling(base, n, cap);
      }
    } else {
      var n := UnsafeDoublingFails(base, cap);
      Grows(base, n);
      assert Doubled(base, n, cap) != Min(base * Pow2(n), cap);
    }
  }

  /** Settings up to 2^62 nanoseconds are safe, except for a base of 2^62 itself. */
  lemma OrdinarySettingsAreSafe(base: int, cap: int)
    requires 0 < base <= TWO_62 && 0 < cap <= TWO_62
    ensures Safe(base, cap) <==> base != TWO_62
  {
  }

  /** With safe settings, later attempts never wait less. */
  lemma LaterWaitsLonger(base: int, cap: int, m: nat, n: nat)
    requires 0 < base && 0 < cap && Safe(base, cap) && m <= n
    ensures 0 < Doubled(base, m, cap) <= Doubled(base, n, cap) <= cap
  {
    SafeDoubling(base, m, cap);
    SafeDoubling(base, n, cap);
    PowGrows(base, m, n);
    Grows(base, m);
  }

  lemma {:induction false} PowGrows(base: int, m: nat, n: nat)
    requires 0 < base && m <= n
    ensures base * Pow2(m) <= base * Pow2(n)
  {
    if m < n {
      PowGrows(base, m, n - 1);
      Factor(base, n - 1);
    }
  }
}
