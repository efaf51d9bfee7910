/** Delays between checks for a transaction receipt (internal/maidenlanetx/txndelaytracker.go, and the
    polling loop of txnprocessor.go).

    A ring of the last hundred times-to-receipt gives a moving average, from which the first delay is
    taken; each retry then backs off exponentially. Averages are reals in milliseconds, as they are
    floating-point numbers in the source; delays are whole nanoseconds. */
module TxnDelayTracker {

  const WINDOW := 100
  const NANOS := 1_000_000                 // nanoseconds in a millisecond
  const MIN_DELAY := 100 * NANOS
  const MAX_DELAY := 10_000 * NANOS
  const FACTOR := 1.3
  const INITIAL_FRACTION := 0.8
  const FIRST_RETRY_FRACTION := 0.15
  const TRACER_FREQUENCY := 25
  const TRACER_DIVISOR := 5
  const RESET_THRESHOLD := 0.3

  // ---------- Moving average ----------

  function Sum(values: seq<real>): real {
    if values == [] then 0.0 else Sum(values[..|values|-1]) + values[|values|-1]
  }

  function Mean(values: seq<real>): real {
    if values == [] then 0.0 else Sum(values) / |values| as real
  }

  /** What the ring remembers of a history: its last hundred values. */
  function Recent(history: seq<real>): seq<real> {
    if |history| <= WINDOW then history else history[|history| - WINDOW..]
  }

  /** At most a hundred values are remembered, the newest. */
  lemma RecentIsNewest(history: seq<real>)
    ensures |Recent(history)| == (if |history| <= 100 then |history| else 100)
    ensures history == history[..|history| - |Recent(history)|] + Recent(history)
  {
  }

  /** The source compares val / avg with the threshold; without an average that is no number, and no drop. */
  predicate IsDrop(avg: real, val: real) {
    avg != 0.0 && val / avg <= RESET_THRESHOLD
  }

  lemma {:induction false} SumConcat(a: seq<real>, b: seq<real>)
    ensures Sum(a + b) == Sum(a) + Sum(b)
  {
    if b == [] {
      assert a + b == a;
    } else {
      assert (a + b)[..|a + b| - 1] == a + b[..|b| - 1];
      SumConcat(a, b[..|b| - 1]);
    }
  }

  lemma {:induction false} SumBounds(values: seq<real>, lo: real, hi: real)
    requires forall i :: 0 <= i < |values| ==> lo <= values[i] <= hi
    ensures lo * |values| as real <= Sum(values) <= hi * |values| as real
  {
    if values != [] {
      var n := |values|;
      SumBounds(values[..n - 1], lo, hi);
      assert n as real == (n - 1) as real + 1.0;
      assert lo * n as real == lo * (n - 1) as real + lo;
      assert hi * n as real == hi * (n - 1) as real + hi;
    }
  }

  lemma QuotientBounds(sum: real, n: real, lo: real, hi: real)
    requires n > 0.0 && lo * n <= sum <= hi * n
    ensures lo <= sum / n <= hi
  {
    var q := sum / n;
    assert q * n == sum;
    assert (q - lo) * n >= 0.0;
    assert (hi - q) * n >= 0.0;
  }

  /** A mean lies between any bounds on its values. */
  lemma {:induction false} MeanBounds(values: seq<real>, lo: real, hi: real)
    requires values != [] && forall i :: 0 <= i < |values| ==> lo <= values[i] <= hi
    ensures lo <= Mean(values) <= hi
  {
    SumBounds(values, lo, hi);
    QuotientBounds(Sum(values), |values| as real, lo, hi);
  }

  // ---------- Back-off ----------

  function Power(base: real, n: nat): real {
    if n == 0 then 1.0 else Power(base, n - 1) * base
  }

  /** Conversion of a floating-point number to an integer: towards zero. */
  function Truncate(x: real): int {
    if x >= 0.0 then x.Floor else -((-x).Floor)
  }

  function Min(a: int, b: int): int {
    if a <= b then a else b
  }

  function FirstMillis(initialDelay: int): real {
    FIRST_RETRY_FRACTION * (initialDelay as real / NANOS as real)
  }

  /** The back-off before truncation and the limit, in milliseconds. */
  function Millis(initialDelay: int, retry: nat): real {
    FirstMillis(initialDelay) * Power(FACTOR, retry)
  }

  /** The delay before a retry, in closed form. */
  function RetryDelay(initialDelay: int, retry: int): int {
    if retry <= 0 then 0
    else Min(MAX_DELAY, Truncate(Millis(initialDelay, retry)) * NANOS)
  }

  lemma {:induction false} PowerGrows(m: nat, n: nat)
    requires m <= n
    ensures 1.0 <= Power(FACTOR, m) <= Power(FACTOR, n)
    decreases n
  {
    if m < n {
      PowerGrows(m, n - 1);
    } else if m > 0 {
      PowerGrows(m - 1, n - 1);
    }
  }

  lemma TruncateMonotone(x: real, y: real)
    requires 0.0 <= x <= y
    ensures 0 <= Truncate(x) <= Truncate(y)
  {
  }

  lemma {:induction false} MillisGrow(initialDelay: int, m: nat, n: nat)
    requires m <= n
    ensures initialDelay >= 0 ==> 0.0 <= Millis(initialDelay, m) <= Millis(initialDelay, n)
    ensures initialDelay < 0 ==> Millis(initialDelay, n) < 0.0
  {
    PowerGrows(m, n);
    PowerGrows(n, n);
    var a, p, q := FirstMillis(initialDelay), Power(FACTOR, m), Power(FACTOR, n);
    if initialDelay >= 0 {
      assert a >= 0.0;
      assert a * (q - p) >= 0.0;
    } else {
      assert a < 0.0;
    }
  }

  /** Later retries never wait less. */
  lemma RetryDelayIsMonotone(initialDelay: int, m: int, n: int)
    requires initialDelay >= 0 && m <= n
    ensures 0 <= RetryDelay(initialDelay, m) <= RetryDelay(initialDelay, n) <= MAX_DELAY
  {
    if m > 0 {
      MillisGrow(initialDelay, m, n);
      TruncateMonotone(Millis(initialDelay, m), Millis(initialDelay, n));
    } else if n > 0 {
      MillisGrow(initialDelay, 0, n);
      TruncateMonotone(0.0, Millis(initialDelay, n));
    }
  }

  /** After any first delay the tracker hands out, every retry waits at least nineteen milliseconds. */
  lemma RetryDelayAtLeast19ms(initialDelay: int, retry: int)
    requires MIN_DELAY <= initialDelay && retry >= 1
    ensures RetryDelay(initialDelay, retry) >= 19 * NANOS
  {
    MillisGrow(initialDelay, 1, retry);
    assert FirstMillis(initialDelay) >= 15.0;
    assert Power(FACTOR, 1) == Power(FACTOR, 0) * 1.3 == 1.3;
    assert Millis(initialDelay, 1) >= 19.5;
    TruncateMonotone(19.5, Millis(initialDelay, retry));
    assert Truncate(19.5) == 19;
  }

  // ---------- First delay ----------

  /** Integer division as Go does it. */
  function QuotientTowardsZero(a: int, b: nat): int
    requires b > 0
  {
    if a >= 0 then a / b else -((-a) / b)
  }

  /** Four fifths of the average, a fifth of that for every twenty-fifth transaction, within the limits. */
  function InitialDelay(avg: real, count: nat): (delay: int)
    ensures MIN_DELAY <= delay <= MAX_DELAY
  {
    var base := Truncate(avg * INITIAL_FRACTION) * NANOS;
    var wanted := if count % TRACER_FREQUENCY == 0 then QuotientTowardsZero(base, TRACER_DIVISOR) else base;
    if wanted < MIN_DELAY then MIN_DELAY else Min(MAX_DELAY, wanted)
  }

  /** With the whole milliseconds of four fifths of the average, or, for every twenty-fifth transaction, a fifth of
      them: that delay, but at least a tenth of a second and at most ten. A negative average gives the least. */
  lemma InitialDelayMeaning(avg: real, count: nat, millis: int)
    requires millis as real <= 0.8 * avg < millis as real + 1.0
    ensures count % 25 != 0 ==>
              InitialDelay(avg, count) == if millis < 100 then 100_000_000
                                          else if millis > 10_000 then 10_000_000_000
                                          else millis * 1_000_000
    ensures count % 25 == 0 ==>
              InitialDelay(avg, count) == if millis < 500 then 100_000_000
                                          else if millis > 50_000 then 10_000_000_000
                                          else millis * 200_000
  {
    assert avg >= 0.0 ==> Truncate(avg * INITIAL_FRACTION) == millis;
    if avg >= 0.0 {
      FifthOfMillis(millis);
    }
    assert avg < 0.0 ==> Truncate(avg * INITIAL_FRACTION) <= 0;
  }

  lemma FifthOfMillis(millis: int)
    requires millis >= 0
    ensures QuotientTowardsZero(millis * NANOS, TRACER_DIVISOR) == millis * 200_000
  {
  }

  /** Before retry n: the whole milliseconds of 0.15 times the first delay times 1.3 to the n-th, at most ten
      seconds; and no delay before the first attempt. */
  lemma RetryDelayMeaning(initialDelay: nat, retry: int, millis: int)
    requires retry >= 1
    requires var exact := 0.15 * (initialDelay as real / 1_000_000.0) * Power(1.3, retry);
             millis as real <= exact < millis as real + 1.0
    ensures RetryDelay(initialDelay, retry) == if millis > 10_000 then 10_000_000_000 else millis * 1_000_000
    ensures RetryDelay(initialDelay, 0) == 0
  {
    MillisGrow(initialDelay, retry, retry);
    assert Truncate(Millis(initialDelay, retry)) == millis;
  }

  // ---------- The tracker ----------

  ghost predicate Remembers(ring: seq<real>, pos: nat, history: seq<real>) {
    && |ring| == WINDOW && pos < WINDOW
    && (|history| < WINDOW ==> ring[..pos] == history)
    && (|history| >= WINDOW ==> ring[pos..] + ring[..pos] == history[|history| - WINDOW..])
  }

  lemma FillingStep(ring: seq<real>, pos: nat, history: seq<real>, val: real)
    requires Remembers(ring, pos, history) && |history| < WINDOW
    ensures Remembers(ring[pos := val], (pos + 1) % WINDOW, history + [val])
  {
    var ring' := ring[pos := val];
    assert pos == |history| && ring'[..pos + 1] == history + [val];
    if pos == WINDOW - 1 {
      assert ring'[0..] + ring'[..0] == ring'[..pos + 1];
      assert (history + [val])[0..] == history + [val];
    }
  }

  lemma TurningStep(ring: seq<real>, pos: nat, history: seq<real>, val: real)
    requires Remembers(ring, pos, history) && |history| >= WINDOW
    ensures Remembers(ring[pos := val], (pos + 1) % WINDOW, history + [val])
  {
    var ring' := ring[pos := val];
    var recent := history[|history| - WINDOW..];
    assert recent[1..] == ring[pos + 1..] + ring[..pos];
    assert (history + [val])[|history| + 1 - WINDOW..] == recent[1..] + [val];
    if pos == WINDOW - 1 {
      assert ring'[0..] + ring'[..0] == ring[..pos] + [val];
    } else {
      assert ring'[pos + 1..] == ring[pos + 1..] && ring'[..pos + 1] == ring[..pos] + [val];
    }
  }

  /** Overwriting the oldest slot turns the ring by one. */
  lemma RingStep(ring: seq<real>, pos: nat, history: seq<real>, val: real)
    requires Remembers(ring, pos, history)
    ensures Remembers(ring[pos := val], (pos + 1) % WINDOW, history + [val])
  {
    if |history| < WINDOW { FillingStep(ring, pos, history, val); } else { TurningStep(ring, pos, history, val); }
  }

  lemma FilledIffWrapped(ring: seq<real>, pos: nat, history: seq<real>)
    requires Remembers(ring, pos, history) && |history| < WINDOW
    ensures (pos + 1) % WINDOW == 0 <==> |history| + 1 >= WINDOW
  {
    assert pos == |history|;
  }

  class Tracker {
    var count: nat                // an unsigned 64-bit number
    var values: array<real>
    var valPos: nat
    var slotsFilled: bool
    ghost var history: seq<real>  // everything added since the last reset

    /** The ring, oldest value first, is what is recent in the history. */
    ghost predicate Valid()
      reads this, values
    {
      && count < 0x1_0000_0000_0000_0000
      && (slotsFilled <==> |history| >= WINDOW)
      && Remembers(values[..], valPos, history)
    }

    constructor ()
      ensures Valid() && history == [] && count == 0 && fresh(values)
    {
      count, valPos, slotsFilled := 0, 0, false;
      values := new real[WINDOW];
      history := [];
    }

    /** The average is the mean of the last hundred values added since the last reset. */
    method Avg() returns (avg: real)
      requires Valid()
      ensures avg == Mean(Recent(history))
    {
      var filled := if slotsFilled then WINDOW else valPos;
      if filled == 0 {
        return 0.0;
      }
      var sum := 0.0;
      for i := 0 to filled
        invariant sum == Sum(values[..i])
      {
        assert values[..i + 1][..i] == values[..i];
        sum := sum + values[i];
      }
      if slotsFilled {
        var ring := values[..];
        SumConcat(ring[..valPos], ring[valPos..]);
        SumConcat(ring[valPos..], ring[..valPos]);
        assert values[..WINDOW] == ring[..valPos] + ring[valPos..];
        assert Recent(history) == ring[valPos..] + ring[..valPos];
      } else {
        assert values[..filled] == values[..][..valPos];
      }
      avg := sum / filled as real;
    }

    method Add(val: real)
      requires Valid()
      modifies this, values
      ensures Valid() && history == old(history) + [val] && count == old(count) && values == old(values)
    {
      ghost var ring := values[..];
      RingStep(ring, valPos, history, val);
      if !slotsFilled { FilledIffWrapped(ring, valPos, history); }
      Put(valPos, val);
      valPos := (valPos + 1) % WINDOW;
      if !slotsFilled && valPos == 0 {
        slotsFilled := true;
      }
      history := history + [val];
    }

    method Put(pos: nat, val: real)
      requires pos < values.Length
      modifies values
      ensures values[..] == old(values[..])[pos := val]
    {
      values[pos] := val;
    }

    method Reset()
      requires Valid()
      modifies this
      ensures Valid() && history == [] && count == old(count) && fresh(values)
    {
      values := new real[WINDOW];
      valPos, slotsFilled := 0, false;
      history := [];
    }

    /** Takes in how long a transaction took. A drop to the threshold or below starts a new average; with no
        average to compare with (the division by zero gives no number) there is no reset. */
    method ReportSuccess(nanos: int) returns (reset: bool)
      requires Valid()
      modifies this, values
      ensures Valid() && (values == old(values) || fresh(values)) && count == old(count)
      ensures var avg, val := Mean(Recent(old(history))), nanos as real / NANOS as real;
              && reset == IsDrop(avg, val)
              && history == (if reset then [] else old(history)) + [val]
    {
      var val := nanos as real / NANOS as real;
      var avg := Avg();
      reset := IsDrop(avg, val);
      if reset {
        Reset();
      }
      Add(val);
    }

    /** The first delay: a fraction of the average, a fifth of it for every twenty-fifth transaction, and
        always between the minimum and the maximum. */
    method GetInitialDelay() returns (delay: int)
      requires Valid()
      modifies this`count
      ensures Valid() && history == old(history)
      ensures count == (old(count) + 1) % 0x1_0000_0000_0000_0000
      ensures delay == InitialDelay(Mean(Recent(history)), count)
    {
      var avg := Avg();
      delay := Truncate(avg * INITIAL_FRACTION) * NANOS;
      count := (count + 1) % 0x1_0000_0000_0000_0000;
      if count % TRACER_FREQUENCY == 0 {
        delay := QuotientTowardsZero(delay, TRACER_DIVISOR);
      }
      if delay < MIN_DELAY {
        delay := MIN_DELAY;
      }
      if delay > MAX_DELAY {
        delay := MAX_DELAY;
      }
    }
  }

  /** Leaving the loop once the maximum is passed gives the same delay as going on would. */
  method GetRetryDelay(initialDelay: int, retry: int) returns (delay: int)
    ensures delay == RetryDelay(initialDelay, retry)
  {
    var millis := FirstMillis(initialDelay);
    delay := 0;
    var i := 0;
    while i < retry
      invariant 0 <= i && (retry >= 0 ==> i <= retry) && (retry < 0 ==> i == 0)
      invariant millis == Millis(initialDelay, i)
      invariant delay == RetryDelay(initialDelay, i)
    {
      millis := millis * FACTOR;
      assert Power(FACTOR, i + 1) == Power(FACTOR, i) * FACTOR;
      assert millis == Millis(initialDelay, i + 1);
      delay := Truncate(millis) * NANOS;
      assert delay == Truncate(Millis(initialDelay, i + 1)) * NANOS;
      if delay > MAX_DELAY {
        StaysAtMaximum(initialDelay, i + 1, retry);
        delay := MAX_DELAY;
        break;
      }
      i := i + 1;
    }
  }

  lemma StaysAtMaximum(initialDelay: int, m: nat, n: nat)
    requires 1 <= m <= n && Truncate(Millis(initialDelay, m)) * NANOS > MAX_DELAY
    ensures RetryDelay(initialDelay, n) == MAX_DELAY
  {
    MillisGrow(initialDelay, m, m);
    assert Millis(initialDelay, m) < 0.0 ==> Truncate(Millis(initialDelay, m)) <= 0;
    MillisGrow(initialDelay, m, n);
    TruncateMonotone(Millis(initialDelay, m), Millis(initialDelay, n));
  }

  /** When no time was negative, a reset happens exactly when the average is positive and the new time is at
      most three tenths of it. */
  lemma {:induction false} ResetRule(history: seq<real>, val: real)
    requires forall i :: 0 <= i < |history| ==> history[i] >= 0.0
    requires val >= 0.0
    ensures IsDrop(Mean(Recent(history)), val) <==>
              Mean(Recent(history)) > 0.0 && val <= 0.3 * Mean(Recent(history))
  {
    var avg := Mean(Recent(history));
    if Recent(history) != [] {
      SumNonNegative(Recent(history));
      assert avg >= 0.0;
    }
    if avg > 0.0 {
      assert val / avg * avg == val;
      assert (RESET_THRESHOLD - val / avg) * avg == RESET_THRESHOLD * avg - val;
    }
  }

  lemma {:induction false} SumNonNegative(values: seq<real>)
    requires forall i :: 0 <= i < |values| ==> values[i] >= 0.0
    ensures Sum(values) >= 0.0
  {
    if values != [] {
      SumNonNegative(values[..|values|-1]);
    }
  }

  // ---------- Waiting for a receipt ----------

  datatype Poll = Poll(mined: bool, failed: bool, took: nat)

  datatype Wait = Wait(timedOut: bool, lastFailed: bool, elapsed: nat, polls: nat)

  /** The polling loop for one transaction. `poll` says how each poll ends and how long it takes in
      nanoseconds, any oversleeping before it included. The number of polls is bounded whatever the node does. */
  method WaitForCompletion(initialDelay: int, maxWait: nat, poll: nat -> Poll) returns (w: Wait)
    requires MIN_DELAY <= initialDelay
    ensures w.timedOut == (w.elapsed > maxWait)
    ensures w.polls >= 1 && !w.timedOut ==> poll(w.polls - 1).mined
    ensures w.polls >= 1 && w.lastFailed == poll(w.polls - 1).failed
    ensures forall k :: 0 <= k < w.polls - 1 ==> !poll(k).mined
    ensures w.polls <= maxWait / (19 * NANOS) + 2
  {
    var elapsed := initialDelay;
    var mined, timedOut, failed := false, false, false;
    var retries := 0;
    var polls := 0;
    while !mined && !timedOut
      invariant polls == (if mined || timedOut then retries + 1 else retries)
      invariant elapsed >= initialDelay + 19 * NANOS * retries
      invariant !timedOut && !mined && retries > 0 ==> 19 * NANOS * (retries - 1) <= maxWait
      invariant mined || timedOut ==> retries > 0 ==> 19 * NANOS * (retries - 1) <= maxWait
      invariant mined || timedOut ==> timedOut == (elapsed > maxWait)
      invariant mined ==> polls >= 1 && poll(polls - 1).mined
      invariant timedOut && !mined ==> polls >= 1
      invariant polls >= 1 ==> failed == poll(polls - 1).failed
      invariant forall k :: 0 <= k < polls - 1 ==> !poll(k).mined
      invariant !mined && !timedOut ==> forall k :: 0 <= k < polls ==> !poll(k).mined
      decreases !mined && !timedOut, if elapsed <= maxWait then maxWait - elapsed + 1 else 0
    {
      var p := poll(polls);
      polls := polls + 1;
      mined, failed := p.mined, p.failed;
      elapsed := elapsed + p.took;
      timedOut := elapsed > maxWait;
      if !mined && !timedOut {
        var delay := GetRetryDelay(initialDelay, retries + 1);
        RetryDelayAtLeast19ms(initialDelay, retries + 1);
        assert 19 * NANOS * retries <= maxWait;
        elapsed := elapsed + delay;
        retries := retries + 1;
      }
    }
    assert polls == retries + 1;
    w := Wait(timedOut, failed, elapsed, polls);
  }
}
