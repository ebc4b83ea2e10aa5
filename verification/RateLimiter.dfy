/** Outbound send spacing: one limiter shared by any number of threads. */
module RateLimiter {

  /** Where the thread holding the lock is; the lock is kept through the sleep. */
  datatype Phase = Idle | Entered(thread: nat) | Sleeping(thread: nat, until: real)

  /** sends records every timestamp stored into _last_send, in order. */
  datatype Limiter = Limiter(interval: real, lastSend: real, phase: Phase, sends: seq<real>)

  /** What one thread does next, with the clock reading it obtains. */
  datatype Step =
    | Enter(thread: nat)
    | ReadClock(now: real)
    | Wake(now: real)

  function Interval(maxRate: real): real {
    if maxRate > 0.0 then 1.0 / maxRate else 0.0
  }

  function New(maxRate: real): Limiter {
    Limiter(Interval(maxRate), 0.0, Idle, [])
  }

  function Recorded(l: Limiter, now: real): Limiter {
    l.(lastSend := now, phase := Idle, sends := l.sends + [now])
  }

  /** A disabled limiter never takes the lock; a sleeper wakes no earlier than it asked to. */
  predicate Enabled(l: Limiter, step: Step) {
    match step
    case Enter(_) => l.interval > 0.0 && l.phase.Idle?
    case ReadClock(_) => l.phase.Entered?
    case Wake(now) => l.phase.Sleeping? && now >= l.phase.until
  }

  function Do(l: Limiter, step: Step): Limiter
    requires Enabled(l, step)
  {
    match step
    case Enter(t) => l.(phase := Entered(t))
    case ReadClock(now) =>
      var wait := l.lastSend + l.interval - now;
      if wait > 0.0 then l.(phase := Sleeping(l.phase.thread, now + wait)) else Recorded(l, now)
    case Wake(now) => Recorded(l, now)
  }

  /** Consecutive sends are at least one interval apart. */
  predicate Spaced(sends: seq<real>, interval: real) {
    forall i :: 0 < i < |sends| ==> sends[i] - sends[i - 1] >= interval
  }

  predicate Inv(l: Limiter) {
    && Spaced(l.sends, l.interval)
    && (l.sends != [] ==> l.lastSend == l.sends[|l.sends| - 1])
    && (l.phase.Sleeping? ==> l.phase.until == l.lastSend + l.interval)
  }

  lemma StepKeepsInv(l: Limiter, step: Step)
    requires Inv(l) && Enabled(l, step)
    ensures Inv(Do(l, step)) && Do(l, step).interval == l.interval
  {
  }

  predicate Valid(l: Limiter, steps: seq<Step>)
    decreases |steps|
  {
    steps == [] || (Enabled(l, steps[0]) && Valid(Do(l, steps[0]), steps[1..]))
  }

  function Run(l: Limiter, steps: seq<Step>): Limiter
    requires Valid(l, steps)
    decreases |steps|
  {
    if steps == [] then l else Run(Do(l, steps[0]), steps[1..])
  }

  lemma {:induction false} RunKeepsInv(l: Limiter, steps: seq<Step>)
    requires Inv(l) && Valid(l, steps)
    ensures Inv(Run(l, steps)) && Run(l, steps).interval == l.interval
    decreases |steps|
  {
    if steps != [] {
      StepKeepsInv(l, steps[0]);
      RunKeepsInv(Do(l, steps[0]), steps[1..]);
    }
  }

  // ------------------------------------------------------------ what is recorded

  /** The clock readings with which calls returned, in order: those of the steps that gave the lock back. */
  function Returns(l: Limiter, steps: seq<Step>): seq<real>
    requires Valid(l, steps)
    decreases |steps|
  {
    if steps == [] then []
    else
      var after := Do(l, steps[0]);
      (if steps[0].Enter? || !after.phase.Idle? then [] else [steps[0].now]) + Returns(after, steps[1..])
  }

  /** The recorded sends are exactly those readings, and the last of them is what the next call waits for. */
  lemma {:induction false} SendsAreReturns(l: Limiter, steps: seq<Step>)
    requires Valid(l, steps) && Inv(l)
    ensures Run(l, steps).sends == l.sends + Returns(l, steps)
    ensures Returns(l, steps) != [] ==> Run(l, steps).lastSend == Returns(l, steps)[|Returns(l, steps)| - 1]
    ensures Returns(l, steps) == [] ==> Run(l, steps).lastSend == l.lastSend
    decreases |steps|
  {
    if steps != [] {
      StepKeepsInv(l, steps[0]);
      SendsAreReturns(Do(l, steps[0]), steps[1..]);
    }
  }

  function Entries(steps: seq<Step>): nat {
    if steps == [] then 0 else (if steps[0].Enter? then 1 else 0) + Entries(steps[1..])
  }

  /** Calls go one at a time: each that entered has returned, except at most the one inside. */
  lemma {:induction false} OneCallAtATime(l: Limiter, steps: seq<Step>)
    requires Valid(l, steps)
    ensures Entries(steps) + (if l.phase.Idle? then 0 else 1) ==
            |Returns(l, steps)| + (if Run(l, steps).phase.Idle? then 0 else 1)
    decreases |steps|
  {
    if steps != [] { OneCallAtATime(Do(l, steps[0]), steps[1..]); }
  }

  /** A call returns at once exactly when an interval has passed since the last send; otherwise it sleeps until it has, and
      not longer than that. */
  lemma WaitsExactly(l: Limiter, now: real)
    requires l.phase.Entered?
    ensures var after := Do(l, ReadClock(now));
            && (after.phase.Idle? <==> now - l.lastSend >= l.interval)
            && (after.phase.Idle? ==> after.lastSend == now && after.sends == l.sends + [now])
            && (!after.phase.Idle? ==>
                  && after.phase == Sleeping(l.phase.thread, l.lastSend + l.interval)
                  && after.sends == l.sends && after.lastSend == l.lastSend
                  && forall later :: Enabled(after, Wake(later)) <==> later - l.lastSend >= l.interval)
  {
  }

  // ------------------------------------------------------------ sends in a window

  function CountIn(sends: seq<real>, from: real, upTo: real): nat {
    if sends == [] then 0
    else CountIn(sends[..|sends| - 1], from, upTo) + (if from <= sends[|sends| - 1] <= upTo then 1 else 0)
  }

  lemma {:induction false} FarApart(sends: seq<real>, interval: real, i: nat, j: nat)
    requires interval > 0.0 && Spaced(sends, interval) && i < j < |sends|
    ensures sends[j] - sends[i] >= interval
  {
    if j > i + 1 {
      FarApart(sends, interval, i, j - 1);
      assert sends[j] - sends[j - 1] >= interval;
    }
  }

  /** k intervals laid end to end. */
  function Gaps(k: nat, interval: real): real {
    if k == 0 then 0.0 else Gaps(k - 1, interval) + interval
  }

  lemma {:induction false} GapsTimesRate(k: nat, rate: real)
    requires rate > 0.0
    ensures Gaps(k, Interval(rate)) * rate == k as real
  {
    if k > 0 {
      GapsTimesRate(k - 1, rate);
      var g, i := Gaps(k - 1, Interval(rate)), Interval(rate);
      assert (g + i) * rate == g * rate + i * rate;
    }
  }

  /** The last of n sends in a window lies n - 1 intervals past the window's start. */
  lemma {:induction false} WindowFills(sends: seq<real>, interval: real, from: real, upTo: real) returns (last: nat)
    requires interval > 0.0 && Spaced(sends, interval) && CountIn(sends, from, upTo) > 0
    ensures last < |sends| && sends[last] <= upTo
    ensures sends[last] >= from + Gaps(CountIn(sends, from, upTo) - 1, interval)
  {
    var front := sends[..|sends| - 1];
    if from <= sends[|sends| - 1] <= upTo {
      last := |sends| - 1;
      if CountIn(front, from, upTo) > 0 {
        var before := WindowFills(front, interval, from, upTo);
        FarApart(sends, interval, before, last);
      }
    } else {
      last := WindowFills(front, interval, from, upTo);
    }
  }

  lemma FloorBound(k: nat, x: real)
    requires k as real <= x
    ensures k <= x.Floor
  {
  }

  lemma ScaledUp(a: real, b: real, t: real)
    requires a <= b && t > 0.0
    ensures a * t <= b * t
  {
  }

  lemma IntervalPositive(rate: real)
    requires rate > 0.0
    ensures Interval(rate) > 0.0
  {
  }

  lemma RoomForGaps(k: nat, rate: real, span: real)
    requires rate > 0.0 && Gaps(k, Interval(rate)) <= span
    ensures k <= (span * rate).Floor
  {
    ScaledUp(Gaps(k, Interval(rate)), span, rate);
    GapsTimesRate(k, rate);
    FloorBound(k, span * rate);
  }

  lemma WindowBound(sends: seq<real>, maxRate: real, from: real, span: real)
    requires maxRate > 0.0 && span >= 0.0 && Spaced(sends, Interval(maxRate))
    ensures CountIn(sends, from, from + span) <= (span * maxRate).Floor + 1
  {
    var n, interval := CountIn(sends, from, from + span), Interval(maxRate);
    if n > 0 {
      IntervalPositive(maxRate);
      var last := WindowFills(sends, interval, from, from + span);
      RoomForGaps(n - 1, maxRate, span);
    } else {
      RoomForGaps(0, maxRate, span);
    }
  }

  /** Over every run of any number of threads, in a window of length span at most floor(span * rate) + 1 calls return. */
  lemma RateBound(maxRate: real, steps: seq<Step>, from: real, span: real)
    requires maxRate > 0.0 && span >= 0.0 && Valid(New(maxRate), steps)
    ensures CountIn(Returns(New(maxRate), steps), from, from + span) <= (span * maxRate).Floor + 1
  {
    RunKeepsInv(New(maxRate), steps);
    SendsAreReturns(New(maxRate), steps);
    assert Run(New(maxRate), steps).sends == Returns(New(maxRate), steps);
    WindowBound(Run(New(maxRate), steps).sends, maxRate, from, span);
  }

  /** A rate of zero or less turns the limiter off: no call is ever delayed or recorded. */
  lemma DisabledNeverSteps(maxRate: real, steps: seq<Step>)
    requires Valid(New(maxRate), steps)
    ensures steps == [] || maxRate > 0.0
  {
  }

  // ------------------------------------------------------------ the class

  /** Result of one uninterrupted acquire: the clock is read once, and again after a sleep. */
  function Acquired(l: Limiter, now: real, resumed: real): Limiter {
    if l.interval <= 0.0 then l
    else if l.lastSend + l.interval - now > 0.0 then Recorded(l, resumed)
    else Recorded(l, now)
  }

  lemma AcquireIsARun(l: Limiter, thread: nat, now: real, resumed: real)
    requires l.interval > 0.0 && l.phase.Idle?
    requires l.lastSend + l.interval - now > 0.0 ==> resumed >= l.lastSend + l.interval
    ensures var steps := if l.lastSend + l.interval - now > 0.0
                         then [Enter(thread), ReadClock(now), Wake(resumed)]
                         else [Enter(thread), ReadClock(now)];
            Valid(l, steps) && Run(l, steps) == Acquired(l, now, resumed)
  {
    var a := Do(l, Enter(thread));
    var b := Do(a, ReadClock(now));
    if l.lastSend + l.interval - now > 0.0 {
      var c := Do(b, Wake(resumed));
      var steps := [Enter(thread), ReadClock(now), Wake(resumed)];
      assert steps[1..] == [ReadClock(now), Wake(resumed)] && steps[1..][1..] == [Wake(resumed)];
      assert Valid(b, [Wake(resumed)]) && Run(b, [Wake(resumed)]) == c by { assert [Wake(resumed)][1..] == []; }
    } else {
      var steps := [Enter(thread), ReadClock(now)];
      assert steps[1..] == [ReadClock(now)];
      assert Valid(a, [ReadClock(now)]) && Run(a, [ReadClock(now)]) == b by { assert [ReadClock(now)][1..] == []; }
    }
  }

  class SendRateLimiter {
    const minInterval: real
    var lastSend: real
    ghost var sends: seq<real>

    ghost function View(): Limiter
      reads this
    {
      Limiter(minInterval, lastSend, Idle, sends)
    }

    constructor (maxRate: real)
      ensures View() == New(maxRate)
    {
      minInterval := if maxRate > 0.0 then 1.0 / maxRate else 0.0;
      lastSend := 0.0;
      sends := [];
    }

    /** now and resumed are the two monotonic clock readings; the sleep lasts at least as long as asked. */
    method Acquire(now: real, resumed: real)
      requires Inv(View())
      requires lastSend + minInterval - now > 0.0 ==> resumed >= now + (lastSend + minInterval - now)
      modifies this
      ensures Inv(View()) && View() == Acquired(old(View()), now, resumed)
      ensures minInterval <= 0.0 ==> lastSend == old(lastSend) && sends == old(sends)
      ensures minInterval > 0.0 ==>
                && lastSend == (if now - old(lastSend) >= minInterval then now else resumed)
                && lastSend - old(lastSend) >= minInterval && sends == old(sends) + [lastSend]
    {
      var interval := minInterval;
      if interval <= 0.0 {
        return;
      }
      var wait := lastSend + interval - now;
      if wait > 0.0 {
        lastSend := resumed;
      } else {
        lastSend := now;
      }
      sends := sends + [lastSend];
    }
  }
}
