/**
 * The three early-exit doubling loops that space out retries, against the closed
 * form min(initial * 2^k, max).
 */
module Backoff {
  import opened Bytes

  function Min(a: nat, b: nat): nat {
    if a <= b then a else b
  }

  /** The delay after `k` doublings, capped. */
  function Doubled(initial: nat, k: nat, max: nat): nat {
    Min(initial * Pow2(k), max)
  }

  lemma DoubledNext(initial: nat, k: nat, max: nat)
    ensures initial * Pow2(k + 1) == 2 * (initial * Pow2(k))
    ensures initial * Pow2(k) <= initial * Pow2(k + 1)
  {}

  /** Once the cap is reached it stays reached. */
  lemma {:induction false} Monotone(initial: nat, j: nat, k: nat, max: nat)
    requires j <= k
    ensures initial * Pow2(j) <= initial * Pow2(k)
    ensures Doubled(initial, j, max) <= Doubled(initial, k, max)
    decreases k - j
  {
    if j < k {
      DoubledNext(initial, j, max);
      Monotone(initial, j + 1, k, max);
    }
  }

  // ---------------------------------------------------------- MQTT service

  datatype RetryPolicy = RetryPolicy(initialBackoffMs: nat, maxBackoffMs: nat, maxFastRetries: nat)

  predicate ValidPolicy(p: RetryPolicy) {
    p.initialBackoffMs < U32 && p.maxBackoffMs < U32 && p.maxFastRetries < 256
  }

  /** The delay before jitter. No product leaves 32 bits, whatever the policy. */
  method ComputeBackoffBase(policy: RetryPolicy, attempt: nat) returns (base: nat)
    requires ValidPolicy(policy) && attempt < U32
    ensures base == Doubled(policy.initialBackoffMs, Min(attempt, policy.maxFastRetries), policy.maxBackoffMs)
    ensures base < U32
  {
    base := policy.initialBackoffMs;
    var exp := if attempt <= policy.maxFastRetries then attempt else policy.maxFastRetries;
    var i := 0;
    while i < exp
      invariant i <= exp && base == policy.initialBackoffMs * Pow2(i)
      invariant i > 0 ==> base <= policy.maxBackoffMs
      invariant base < U32
    {
      DoubledNext(policy.initialBackoffMs, i, policy.maxBackoffMs);
      if base > policy.maxBackoffMs / 2 {
        Monotone(policy.initialBackoffMs, i + 1, exp, policy.maxBackoffMs);
        base := policy.maxBackoffMs;
        return;
      }
      assert base * 2 < U32;
      base := base * 2;
      i := i + 1;
    }
    if base > policy.maxBackoffMs {
      base := policy.maxBackoffMs;
    }
  }

  // ------------------------------------- settings sync, device registration

  const INITIAL_MS: nat := 5000
  const MAX_MS: nat := 60000

  /** The counter that both managers bump before computing the delay. */
  function Bump(failures: nat): nat {
    if failures < 15 then failures + 1 else failures
  }

  /** The delay after `failures` failures in a row, counting this one. */
  method RetryDelay(failures: nat) returns (delayMs: nat)
    requires 1 <= failures <= 15
    ensures delayMs == Doubled(INITIAL_MS, failures - 1, MAX_MS)
    ensures INITIAL_MS <= delayMs <= MAX_MS
  {
    delayMs := INITIAL_MS;
    var i := 1;
    while i < failures
      invariant 1 <= i <= failures && delayMs == INITIAL_MS * Pow2(i - 1) <= MAX_MS
      invariant delayMs >= INITIAL_MS
    {
      DoubledNext(INITIAL_MS, i - 1, MAX_MS);
      if delayMs >= MAX_MS / 2 {
        Monotone(INITIAL_MS, i, failures - 1, MAX_MS);
        delayMs := MAX_MS;
        break;
      }
      delayMs := delayMs * 2;
      i := i + 1;
    }
    if delayMs > MAX_MS {
      delayMs := MAX_MS;
    }
  }

  /** After `failures` earlier failures in a row the wait is 5, 10, 20 and 40 seconds, and a minute from then on. */
  lemma DelayTable(failures: nat)
    ensures var d := Doubled(INITIAL_MS, Bump(failures) - 1, MAX_MS);
            && (failures == 0 ==> d == 5000) && (failures == 1 ==> d == 10000) && (failures == 2 ==> d == 20000)
            && (failures == 3 ==> d == 40000) && (failures >= 4 ==> d == 60000)
    ensures failures <= 15 ==> 1 <= Bump(failures) <= 15
  {
    assert Pow2(0) == 1 && Pow2(1) == 2 && Pow2(2) == 4 && Pow2(3) == 8 && Pow2(4) == 16;
    if failures >= 4 {
      Monotone(INITIAL_MS, 4, Bump(failures) - 1, MAX_MS);
    }
  }

  /** More failures never shorten the wait, also across the point where the counter stops. */
  lemma RetryDelayMonotone(failures: nat)
    requires 1 <= failures <= 15
    ensures Doubled(INITIAL_MS, failures - 1, MAX_MS) <= Doubled(INITIAL_MS, Bump(failures) - 1, MAX_MS)
  {
    Monotone(INITIAL_MS, failures - 1, Bump(failures) - 1, MAX_MS);
  }

  lemma MqttBackoffMonotone(policy: RetryPolicy, a: nat, b: nat)
    requires a <= b
    ensures Doubled(policy.initialBackoffMs, Min(a, policy.maxFastRetries), policy.maxBackoffMs)
         <= Doubled(policy.initialBackoffMs, Min(b, policy.maxFastRetries), policy.maxBackoffMs)
  {
    Monotone(policy.initialBackoffMs, Min(a, policy.maxFastRetries), Min(b, policy.maxFastRetries), policy.maxBackoffMs);
  }

  // --------------------------------------------------- waiting for the clock

  /** A wrapped deadline is compared with the wrapped clock as it stands. */
  predicate Reached(deadline: nat, clock: nat) {
    clock >= deadline
  }

  /**
   * `t` is a true time within one turn of the clock from `start`, where a delay
   * `d` began. The comparison tells whether the delay is over if and only if
   * clock and deadline have both wrapped since, or neither has.
   */
  lemma DeadlineHonest(start: nat, d: nat, t: nat)
    requires d < U32 && start <= t < start + U32
    ensures (Reached((start % U32 + d) % U32, t % U32) <==> t - start >= d)
            <==> (t / U32 == start / U32 <==> start % U32 + d < U32)
  {
    var s, e := start % U32, start / U32;
    assert start == U32 * e + s && t == U32 * (t / U32) + t % U32;
    assert t / U32 == e || t / U32 == e + 1;
    if s + d >= U32 {
      assert (s + d) % U32 == s + d - U32;
    }
  }
}
