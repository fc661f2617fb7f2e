/** The declarative retry policy and its backoff, in 64-bit durations. */
module Retry {
  import opened Model

  datatype Backoff = BackoffNone | BackoffFixed | BackoffLinear | BackoffExponential | OtherBackoff(text: string)

  datatype RetryPolicy = RetryPolicy(
    attempts: int,
    on: seq<FailureClass>,
    backoff: Backoff,
    initial: int,
    max: int)

  const TWO62: int := 0x4000_0000_0000_0000
  const TWO63: int := 0x8000_0000_0000_0000
  const TWO64: int := 0x1_0000_0000_0000_0000

  predicate IsInt64(x: int) {
    -TWO63 <= x < TWO63
  }

  /** What a 64-bit signed register holds after an arithmetic result x. */
  function Wrap64(x: int): (r: int)
    ensures IsInt64(r) && (x - r) % TWO64 == 0
    ensures IsInt64(x) ==> r == x
  {
    (x + TWO63) % TWO64 - TWO63
  }

  function Retries(p: RetryPolicy, kind: FailureClass, attempt: int): bool {
    attempt < p.attempts && kind in p.on
  }

  method RetriesClass(p: RetryPolicy, kind: FailureClass, attempt: int) returns (r: bool)
    ensures r == Retries(p, kind, attempt)
  {
    if attempt >= p.attempts {
      return false;
    }
    for i := 0 to |p.on|
      invariant kind !in p.on[..i]
    {
      if p.on[i] == kind {
        return true;
      }
      assert p.on[..i + 1] == p.on[..i] + [p.on[i]];
    }
    assert p.on[..|p.on|] == p.on;
    r := false;
  }

  /** d after at most k doublings, stopping as soon as the cap is reached. */
  function Doubled(d: int, max: int, k: nat): int
    decreases k
  {
    if k == 0 then d
    else
      var twice := Wrap64(d * 2);
      if max > 0 && twice >= max then twice else Doubled(twice, max, k - 1)
  }

  function Capped(d: int, max: int): int {
    if max > 0 && d > max then max else d
  }

  function Delay(p: RetryPolicy, attempt: int): int {
    if attempt < 2 then 0
    else
      match p.backoff
      case BackoffNone => 0
      case BackoffFixed => Capped(p.initial, p.max)
      case BackoffLinear => Capped(Wrap64(p.initial * (attempt - 1)), p.max)
      case _ => Capped(Doubled(p.initial, p.max, attempt - 2), p.max)
  }

  method DelayBefore(p: RetryPolicy, attempt: int) returns (d: int)
    ensures d == Delay(p, attempt)
  {
    if attempt < 2 {
      return 0;
    }
    var n := attempt - 1;
    match p.backoff {
      case BackoffNone =>
        return 0;
      case BackoffFixed =>
        d := p.initial;
      case BackoffLinear =>
        d := Wrap64(p.initial * n);
      case _ =>
        d := p.initial;
        var i := 1;
        while i < n
          invariant 1 <= i <= n
          invariant Doubled(d, p.max, n - i) == Doubled(p.initial, p.max, n - 1)
        {
          d := Wrap64(d * 2);
          if p.max > 0 && d >= p.max {
            break;
          }
          i := i + 1;
        }
        assert d == Doubled(p.initial, p.max, n - 1);
    }
    if p.max > 0 && d > p.max {
      d := p.max;
    }
  }

  // ------------------------------------------------ The exponential closed form

  function Pow2(n: nat): (r: nat)
    ensures r >= 1
  {
    if n == 0 then 1 else 2 * Pow2(n - 1)
  }

  function Min(a: int, b: int): int {
    if a < b then a else b
  }

  predicate Exponential(p: RetryPolicy) {
    p.backoff.BackoffExponential? || p.backoff.OtherBackoff?
  }

  lemma {:induction false} DoublingReachesTheCapOrTheClosedForm(d: int, max: int, k: nat)
    requires 0 <= d < TWO62 && 0 < max <= TWO62
    ensures Capped(Doubled(d, max, k), max) == Min(max, d * Pow2(k))
    decreases k
  {
    if k > 0 {
      var twice := Wrap64(d * 2);
      assert twice == 2 * d;
      assert d * Pow2(k) == twice * Pow2(k - 1);
      if twice >= max {
        assert twice * Pow2(k - 1) >= twice by { MulGrows(twice, Pow2(k - 1)); }
      } else {
        DoublingReachesTheCapOrTheClosedForm(twice, max, k - 1);
      }
    }
  }

  lemma MulGrows(a: int, b: int)
    requires a >= 0 && b >= 1
    ensures a * b >= a
  {
    assert a * b == a + a * (b - 1);
    assert a * (b - 1) >= 0;
  }

  predicate DelayIsClosedForm(p: RetryPolicy, attempt: int)
    requires attempt >= 2
  {
    Delay(p, attempt) == Min(p.max, p.initial * Pow2(attempt - 2))
  }

  /** With a cap of at most 2^62 the delay is min(cap, initial * 2^(n-2)) before
      every attempt n exactly when the initial delay is below 2^62: at 2^62 and
      above, the first doubling leaves the 64-bit range before the cap is
      compared, and the delay before attempt 3 comes out negative. */
  lemma ExponentialDelayIsTheClosedFormUnlessInitialOverflows(p: RetryPolicy)
    requires Exponential(p) && 0 <= p.initial < TWO63 && 0 < p.max <= TWO62
    ensures (forall n | n >= 2 :: DelayIsClosedForm(p, n)) <==> p.initial < TWO62
    ensures p.initial >= TWO62 ==> Delay(p, 3) < 0
  {
    if p.initial < TWO62 {
      forall n | n >= 2 ensures DelayIsClosedForm(p, n) {
        DoublingReachesTheCapOrTheClosedForm(p.initial, p.max, n - 2);
      }
    } else {
      assert Wrap64(p.initial * 2) == 2 * p.initial - TWO64;
      assert Doubled(p.initial, p.max, 1) == Doubled(2 * p.initial - TWO64, p.max, 0);
      assert Delay(p, 3) < 0;
      assert Pow2(1) == 2 * Pow2(0) == 2;
      assert !DelayIsClosedForm(p, 3);
    }
  }

  // ------------------------------------------------ The delays, in the integers

  function AtMost(d: int, max: int): int {
    if max > 0 && max < d then max else d
  }

  /** What a policy asks for before attempt n: nothing, always the same, once more each time,
      or twice as much each time, and never more than the cap, if there is one. */
  function Pause(p: RetryPolicy, n: int): int {
    if n < 2 || p.backoff == BackoffNone then 0
    else if p.backoff == BackoffFixed then AtMost(p.initial, p.max)
    else if p.backoff == BackoffLinear then AtMost((n - 1) * p.initial, p.max)
    else AtMost(Pow2(n - 2) * p.initial, p.max)
  }

  /** The 64-bit registers hold every step on the way to the delay before attempt n. */
  predicate InRange(p: RetryPolicy, n: int) {
    && 0 <= p.initial < TWO63
    && (p.backoff == BackoffLinear ==> (n - 1) * p.initial < TWO63)
    && (Exponential(p) && n >= 2 ==>
         if p.max > 0 then p.initial < TWO62 && p.max <= TWO62 else Pow2(n - 2) * p.initial < TWO63)
  }

  lemma {:induction false} DoublingWithoutACap(d: int, max: int, k: nat)
    requires 0 <= d && max <= 0 && Pow2(k) * d < TWO63
    ensures Doubled(d, max, k) == Pow2(k) * d
    decreases k
  {
    if k > 0 {
      assert Pow2(k) * d == Pow2(k - 1) * (2 * d);
      MulGrows(2 * d, Pow2(k - 1));
      assert 2 * d * Pow2(k - 1) == Pow2(k - 1) * (2 * d);
      DoublingWithoutACap(2 * d, max, k - 1);
    }
  }

  /** Within that range the delay is the one asked for. */
  lemma DelayIsThePause(p: RetryPolicy, n: int)
    requires InRange(p, n)
    ensures Delay(p, n) == Pause(p, n) >= 0
  {
    if n >= 2 {
      match p.backoff {
        case BackoffNone =>
        case BackoffFixed =>
        case BackoffLinear =>
          MulGrows(p.initial, n - 1);
          assert p.initial * (n - 1) == (n - 1) * p.initial;
        case _ =>
          MulGrows(p.initial, Pow2(n - 2));
          assert p.initial * Pow2(n - 2) == Pow2(n - 2) * p.initial;
          if p.max > 0 {
            DoublingReachesTheCapOrTheClosedForm(p.initial, p.max, n - 2);
          } else {
            DoublingWithoutACap(p.initial, p.max, n - 2);
          }
      }
    }
  }

  /** Backing off never gets shorter and never passes the cap. */
  lemma BackoffNeverShrinks(p: RetryPolicy, m: int, n: int)
    requires Exponential(p) && 0 <= p.initial < TWO62 && 0 < p.max <= TWO62
    requires m <= n
    ensures 0 <= Delay(p, m) <= Delay(p, n) <= p.max
  {
    if m >= 2 {
      ExponentialDelayIsTheClosedFormUnlessInitialOverflows(p);
      assert DelayIsClosedForm(p, m) && DelayIsClosedForm(p, n);
      Pow2Grows(m - 2, n - 2);
      assert p.initial * Pow2(m - 2) <= p.initial * Pow2(n - 2) by {
        MulMonotone(p.initial, Pow2(m - 2), Pow2(n - 2));
      }
      assert p.initial * Pow2(m - 2) >= 0 by { MulGrows(p.initial, Pow2(m - 2)); }
    } else if n >= 2 {
      ExponentialDelayIsTheClosedFormUnlessInitialOverflows(p);
      assert DelayIsClosedForm(p, n);
      MulGrows(p.initial, Pow2(n - 2));
    }
  }

  lemma {:induction false} Pow2Grows(m: nat, n: nat)
    requires m <= n
    ensures Pow2(m) <= Pow2(n)
    decreases n
  {
    if m < n {
      Pow2Grows(m, n - 1);
    }
  }

  lemma MulMonotone(a: int, b: int, c: int)
    requires a >= 0 && b <= c
    ensures a * b <= a * c
  {
    assert a * c - a * b == a * (c - b);
    assert a * (c - b) >= 0;
  }
}
