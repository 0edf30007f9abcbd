/** The time lock the node gives a transfer-in, in Go's int64 arithmetic. */
module TimeLock {
  import opened Types

  /** Two's complement reading of the low 64 bits. */
  function WrapInt64(x: int): (r: int)
    ensures -TWO63 <= r < TWO63 && (x - r) % TWO64 == 0
    ensures -TWO63 <= x < TWO63 ==> r == x
  {
    (x + TWO63) % TWO64 - TWO63
  }

  /** Seconds left on the source lock when the handler reads the clock. */
  function Timeout(srcLock: int, now: Time): int {
    WrapInt64(srcLock) - Unix(now)
  }

  /** The IN row's time lock; None where the source lock is rejected as too short. */
  function InTimeLock(srcLock: int, now: Time): Option<Time> {
    if Timeout(srcLock, now) < MIN_SRC_TIMEOUT then None
    else Some(now + WrapInt64((Timeout(srcLock, now) - LOCK_GAP) * SECOND))
  }

  /** A lock is accepted if and only if it is 16 hours, 57600 whole seconds, ahead and fits an int64. */
  lemma AcceptedExactly(srcLock: int, now: Time)
    requires 0 <= srcLock < TWO64 && 0 <= now
    ensures InTimeLock(srcLock, now).Some? <==>
              srcLock - now / 1_000_000_000 >= 57_600 && srcLock < 0x8000_0000_0000_0000
  {
    if srcLock >= TWO63 {
      assert WrapInt64(srcLock) == srcLock - TWO64;
    }
  }

  /** The largest number of whole seconds a time.Duration holds. */
  const MAX_DURATION_SECONDS: int := 9_223_372_036

  lemma UnixShift(now: Time, k: int)
    ensures Unix(now + k * SECOND) == Unix(now) + k
  {
  }

  lemma UnixMono(a: Time, b: Time)
    requires a <= b
    ensures Unix(a) <= Unix(b)
  {
  }

  /**
   * Whenever the handler runs, an accepted transfer-in expires at least eight hours, 28800 whole seconds, before its
   * source; exactly so, and at least eight hours and a whole number of seconds after the handling, if and only if the
   * duration does not overflow an int64 count of nanoseconds.
   */
  lemma LockGap(srcLock: int, now: Time)
    requires 0 <= srcLock < TWO64 && 0 <= now
    requires InTimeLock(srcLock, now).Some?
    ensures var t := InTimeLock(srcLock, now).value;
            && t / 1_000_000_000 + 28_800 <= srcLock
            && (t / 1_000_000_000 + 28_800 == srcLock <==>
                  srcLock - now / 1_000_000_000 - 28_800 <= MAX_DURATION_SECONDS)
            && (t / 1_000_000_000 + 28_800 == srcLock ==>
                  t >= now + 28_800_000_000_000 && (t - now) % 1_000_000_000 == 0)
  {
    AcceptedExactly(srcLock, now);
    var left := Timeout(srcLock, now) - LOCK_GAP;
    var d := WrapInt64(left * SECOND);
    if left <= MAX_DURATION_SECONDS {
      UnixShift(now, left);
    } else {
      LastNanosecond(now, d);
    }
  }

  lemma LastNanosecond(now: Time, d: int)
    requires d < TWO63
    ensures Unix(now + d) <= Unix(now) + MAX_DURATION_SECONDS + 1
  {
    UnixMono(now + d, now + TWO63);
    assert TWO63 < (MAX_DURATION_SECONDS + 1) * SECOND;
    UnixMono(now + TWO63, now + (MAX_DURATION_SECONDS + 1) * SECOND);
    UnixShift(now, MAX_DURATION_SECONDS + 1);
  }

  // ----- what a microsecond TIMESTAMPTZ column keeps of it -----

  function RoundMicro(t: Time): Time {
    (t + 500) / 1000 * 1000
  }

  /**
   * Wherever no Duration overflows, storing the lock can move it to the next whole second, exactly for handling times
   * in a second's last 500 ns.
   */
  lemma StoredLockGap(srcLock: int, now: Time)
    requires 0 <= srcLock < TWO64 && 0 <= now
    requires InTimeLock(srcLock, now).Some? && Timeout(srcLock, now) - LOCK_GAP <= MAX_DURATION_SECONDS
    ensures var stored := RoundMicro(InTimeLock(srcLock, now).value);
            stored / 1_000_000_000 + 28_800 == srcLock + if now % 1_000_000_000 >= 999_999_500 then 1 else 0
  {
    var k := Timeout(srcLock, now) - LOCK_GAP;
    assert InTimeLock(srcLock, now).value == now + k * SECOND;
    RoundShift(now, k);
    UnixShift(RoundMicro(now), k);
    RoundUnix(now);
  }

  lemma RoundShift(now: Time, k: int)
    ensures RoundMicro(now + k * SECOND) == RoundMicro(now) + k * SECOND
  {
  }

  lemma RoundUnix(now: Time)
    ensures Unix(RoundMicro(now)) == Unix(now) + if now % SECOND >= SECOND - 500 then 1 else 0
  {
  }
}
