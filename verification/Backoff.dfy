/** The exponential backoff cap of the supervisor (internal/bridge/supervisor.go, backoffCap). */
module Backoff {
  import opened Bridge

  function Pow2(n: nat): (r: nat)
    ensures 0 < r
  {
    if n == 0 then 1 else 2 * Pow2(n - 1)
  }

  /** min(maximum, minimum * 2^(attempt-1)); an attempt below 1 counts as the first. */
  function CapSpec(minimum: Duration, maximum: Duration, attempt: int): Duration
    requires 0 < minimum <= maximum
  {
    Min(maximum, minimum * Pow2(if attempt <= 1 then 0 else attempt - 1))
  }

  lemma {:induction false} Pow2Monotone(m: nat, n: nat)
    requires m <= n
    ensures Pow2(m) <= Pow2(n)
    decreases n
  {
    if m < n { Pow2Monotone(m, n - 1); }
  }

  lemma ScaleMonotone(a: int, x: int, y: int)
    requires 0 < a && x <= y
    ensures a * x <= a * y
  {
    assert 0 <= a * (y - x);
  }

  /** The loop of the source. No intermediate value exceeds `maximum`, so an int64 never overflows. */
  method BackoffCap(minimum: Duration, maximum: Duration, attempt: int) returns (cap: Duration)
    requires 0 < minimum <= maximum <= MAX_DURATION
    ensures cap == CapSpec(minimum, maximum, attempt)
    ensures minimum <= cap <= maximum
  {
    cap := minimum;
    var i := 1;
    while i < attempt && cap < maximum
      invariant 1 <= i && (i <= attempt || i == 1)
      invariant cap == minimum * Pow2(i - 1)
      invariant minimum <= cap <= maximum
      decreases attempt - i
    {
      if cap > maximum / 2 {
        CapReached(minimum, maximum, i + 1, attempt);
        return maximum;
      }
      assert cap * 2 <= maximum;
      cap := cap * 2;
      i := i + 1;
    }
    if cap >= maximum && i < attempt {
      CapReached(minimum, maximum, i, attempt);
    }
    if cap > maximum {
      return maximum;
    }
  }

  /** Once some attempt reaches the maximum, every later one stays there. */
  lemma CapReached(minimum: Duration, maximum: Duration, i: int, attempt: int)
    requires 0 < minimum <= maximum && 1 <= i <= attempt
    requires maximum <= minimum * Pow2(i - 1)
    ensures CapSpec(minimum, maximum, attempt) == maximum
  {
    Pow2Monotone(i - 1, attempt - 1);
    ScaleMonotone(minimum, Pow2(i - 1), Pow2(attempt - 1));
  }

  /** A later attempt never gets a smaller cap, and the cap always admits a draw. */
  lemma CapMonotone(minimum: Duration, maximum: Duration, first: int, second: int)
    requires 0 < minimum <= maximum && first <= second
    ensures minimum <= CapSpec(minimum, maximum, first)
    ensures CapSpec(minimum, maximum, first) <= CapSpec(minimum, maximum, second) <= maximum
  {
    var m := if first <= 1 then 0 else first - 1;
    var n := if second <= 1 then 0 else second - 1;
    Pow2Monotone(m, n);
    ScaleMonotone(minimum, Pow2(m), Pow2(n));
    ScaleMonotone(minimum, 1, Pow2(m));
  }
}
