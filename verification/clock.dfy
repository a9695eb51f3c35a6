/** Millisecond timestamps as the firmware sees them: `millis()` returns an
    `unsigned long`, which is 32 bits wide on the ESP32, and every elapsed-time
    test in the loop is an unsigned subtraction that wraps modulo 2^32. */
module Clock {

  const Modulus: int := 0x1_0000_0000

  /** A value of the 32-bit millisecond counter. */
  type Time = t: int | 0 <= t < 0x1_0000_0000

  /** `now - since` computed in 32-bit unsigned arithmetic: the wait that
      brings the counter from `since` to `now`, possibly wrapping past zero on
      the way. Since `d` is itself a counter value, it is the only such wait. */
  function Elapsed(now: Time, since: Time): (d: Time)
    ensures since + d == now || since + d == now + Modulus
  {
    if since <= now then now - since else now - since + Modulus
  }

  /** `Elapsed` is the C subtraction of two `unsigned long` values: the true
      difference reduced modulo 2^32 (Dafny's `%` is Euclidean, so this is the
      non-negative residue), and it is the plain difference when no wrap
      happened in between. */
  lemma ElapsedIsUnsignedDifference(now: Time, since: Time)
    ensures Elapsed(now, since) == (now - since) % Modulus
    ensures since <= now ==> Elapsed(now, since) == now - since
  {
  }

  /** The counter value `k` milliseconds after `since`, wrapping like `millis()`. */
  function After(since: Time, k: nat): (t: Time)
    ensures since + k < Modulus ==> t == since + k
  {
    (since + k) % Modulus
  }

  /** Elapsed time survives the wrap of the counter: whatever `since` is, the
      unsigned difference between the moment `k` milliseconds later and
      `since` is `k`, as long as `k` fits in the counter. */
  lemma ElapsedAfter(since: Time, k: nat)
    requires k < Modulus
    ensures Elapsed(After(since, k), since) == k
  {
    if since + k < Modulus {
      assert After(since, k) == since + k;
    } else {
      assert After(since, k) == since + k - Modulus;
    }
  }
}
