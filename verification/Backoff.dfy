/** The delay before a failed GeoIP lookup is tried again. */
module Backoff {
  import opened Identity

  function Pow2(n: nat): nat {
    if n == 0 then 1 else 2 * Pow2(n - 1)
  }

  /** base * 2^(n-1), but never more than the cap; the cap is at least the base. */
  function Delay(base: nat, cap: nat, failures: int): nat {
    if failures <= 1 then base else Min(base * Pow2(failures - 1), Max(base, cap))
  }

  /** GeoIpFailureRetryDelay. `held` are the values the delay takes in the loop, in order: the delay after one failure,
      after two, and so on; none of them exceeds the cap. */
  method GeoIpFailureRetryDelay(base: nat, cap: nat, failures: int) returns (delay: nat, ghost held: seq<nat>)
    ensures delay == Delay(base, cap, failures) && held != [] && held[|held| - 1] == delay
    ensures forall i :: 0 <= i < |held| ==> held[i] <= Max(base, cap) && held[i] == Delay(base, cap, i + 1)
  {
    delay := base;
    held := [base];
    var limit := Max(base, cap);
    if delay <= 0 {
      return;
    }
    var i := 1;
    while i < failures && delay < limit
      invariant 1 <= i && (i <= failures || i == 1) && delay <= limit
      invariant |held| == i && held[i - 1] == delay
      invariant forall j :: 0 <= j < |held| ==> held[j] <= limit && held[j] == Delay(base, cap, j + 1)
      decreases failures - i
    {
      DelayDoubles(base, cap, i);
      delay := if delay > limit / 2 then limit else delay * 2;
      held := held + [delay];
      i := i + 1;
    }
    if 1 < failures {
      DelayStaysAtLimit(base, cap, i, failures);
    }
  }

  lemma DelayDoubles(base: nat, cap: nat, n: nat)
    requires 1 <= n
    ensures Delay(base, cap, n + 1) == Min(2 * Delay(base, cap, n), Max(base, cap))
  {
    if n == 1 {
      assert Pow2(1) == 2 * Pow2(0);
      assert base * Pow2(1) == 2 * base;
    } else {
      assert base * Pow2(n) == 2 * (base * Pow2(n - 1));
    }
  }

  lemma {:induction false} DelayStaysAtLimit(base: nat, cap: nat, n: nat, m: nat)
    requires 1 <= n <= m && (n == m || Delay(base, cap, n) == Max(base, cap))
    ensures Delay(base, cap, m) == Delay(base, cap, n)
    decreases m - n
  {
    if n < m {
      DelayDoubles(base, cap, n);
      DelayStaysAtLimit(base, cap, n + 1, m);
    }
  }

  lemma {:induction false} DelayAtLeastBase(base: nat, cap: nat, n: int)
    ensures base <= Delay(base, cap, n)
    decreases n
  {
    if n > 1 {
      DelayAtLeastBase(base, cap, n - 1);
      DelayDoubles(base, cap, n - 1);
    }
  }

  /** More failures never shorten the delay; it is never below the base, and the base at first. */
  lemma {:induction false} DelayIsMonotone(base: nat, cap: nat, n: int, m: int)
    requires n <= m
    ensures base <= Delay(base, cap, n) <= Delay(base, cap, m)
    ensures n <= 1 ==> Delay(base, cap, n) == base
    decreases m - n
  {
    DelayAtLeastBase(base, cap, n);
    if n < m {
      DelayIsMonotone(base, cap, n, m - 1);
      if m > 1 {
        DelayDoubles(base, cap, m - 1);
      }
    }
  }

  lemma {:induction false} PowerOutgrows(base: nat, n: nat)
    requires base > 0
    ensures base * Pow2(n) >= base + n
  {
    if n > 0 {
      PowerOutgrows(base, n - 1);
      assert base * Pow2(n) == 2 * (base * Pow2(n - 1));
    }
  }

  /** The delay doubles with every failure, up to the cap. There is a failure count from which on it is at the cap; the
      cap is at least the base, and reached after at most as many failures as it exceeds it by. */
  lemma DelayReachesCap(base: nat, cap: nat) returns (first: nat)
    requires base > 0
    ensures 1 <= first <= Max(base, cap) - base + 1
    ensures forall n :: 1 <= n ==> (Delay(base, cap, n) == Max(base, cap) <==> first <= n)
    ensures forall n :: 1 <= n ==> Delay(base, cap, n + 1) == Min(2 * Delay(base, cap, n), Max(base, cap))
    ensures forall n :: 1 <= n < first - 1 ==> Delay(base, cap, n + 1) == 2 * Delay(base, cap, n)
  {
    var limit := Max(base, cap);
    PowerOutgrows(base, limit - base);
    first := 1;
    while Delay(base, cap, first) < limit
      invariant 1 <= first <= limit - base + 1
      invariant forall n :: 1 <= n < first ==> Delay(base, cap, n) < limit
      decreases limit - first
    {
      PowerOutgrows(base, first - 1);
      first := first + 1;
    }
    forall n | 1 <= n
      ensures Delay(base, cap, n) == limit <==> first <= n
      ensures Delay(base, cap, n + 1) == Min(2 * Delay(base, cap, n), limit)
    {
      if first <= n {
        DelayStaysAtLimit(base, cap, first, n);
      }
      DelayDoubles(base, cap, n);
    }
  }
}
