/** The per-conversation lock: mutual exclusion for timely holders, and expiry whatever they do. */
module ProtocolLock {
  import opened StateMachine
  import opened DecisionEngine
  import opened AiProtocol

  predicate Holds(s: System, e: ExecId) { e in s.execs && Holding(s.execs[e].pc) }

  /** The key is absent or has expired. */
  predicate KeyFree(s: System) { s.clock >= s.lockUntil }

  /** Every holder is still within the key's lifetime. */
  ghost predicate Timely(s: System) {
    forall e :: Holds(s, e) ==> s.clock < s.execs[e].since + 180
  }

  ghost predicate TimelyRun(s: System, steps: seq<Step>)
    requires Valid(s, steps)
    decreases |steps|
  {
    Timely(s) && (steps != [] ==> TimelyRun(Do(s, steps[0]), steps[1..]))
  }

  ghost predicate Exclusive(s: System) {
    && (forall e :: Holds(s, e) ==> s.lockUntil == s.execs[e].since + LOCK_TTL)
    && (forall e, f :: Holds(s, e) && Holds(s, f) ==> e == f)
  }

  /** The key is gone already, or runs out no later than the last acquire allows. */
  predicate ExpiryBounded(s: System) { KeyFree(s) || s.lockUntil <= s.lastAcquire + LOCK_TTL }

  /** Only the execution a step is about can start holding, and only by acquiring. */
  lemma HoldersAfter(s: System, step: Step, f: ExecId)
    requires Enabled(s, step) && Holds(Do(s, step), f)
    ensures if Holds(s, f) then Do(s, step).execs[f].since == s.execs[f].since && step != Release(f)
            else step == Acquire(f) && KeyFree(s) && Do(s, step).execs[f].since == s.clock
  {
    if ActsOn(step, f) { ActingExec(s, step, f); } else { OtherExecs(s, step, f); }
  }

  lemma StepKeepsExclusive(s: System, step: Step)
    requires Enabled(s, step) && Exclusive(s) && Timely(s)
    ensures Exclusive(Do(s, step))
  {
    var t := Do(s, step);
    forall e | Holds(t, e) ensures t.lockUntil == t.execs[e].since + LOCK_TTL {
      HoldersAfter(s, step, e);
      KeyAfter(s, step);
    }
    forall e, f | Holds(t, e) && Holds(t, f) ensures e == f {
      HoldersAfter(s, step, e);
      HoldersAfter(s, step, f);
    }
  }

  /** The key changes hands only on a successful acquire and on a release. */
  lemma KeyAfter(s: System, step: Step)
    requires Enabled(s, step)
    ensures match step
            case Acquire(e) => if KeyFree(s) then Do(s, step).lockUntil == s.clock + 180 == Do(s, step).lastAcquire + 180
                               else Do(s, step).lockUntil == s.lockUntil && Do(s, step).lastAcquire == s.lastAcquire
            case Release(e) => Do(s, step).lockUntil == s.clock && Holds(s, e) && Do(s, step).lastAcquire == s.lastAcquire
            case _ => Do(s, step).lockUntil == s.lockUntil && Do(s, step).lastAcquire == s.lastAcquire
  {
  }

  lemma {:induction false} RunKeepsExclusive(s: System, steps: seq<Step>)
    requires Valid(s, steps) && Exclusive(s) && TimelyRun(s, steps)
    ensures Exclusive(Run(s, steps))
    decreases |steps|
  {
    if steps != [] {
      StepKeepsExclusive(s, steps[0]);
      RunKeepsExclusive(Do(s, steps[0]), steps[1..]);
    }
  }

  /** If every holder stays within the key's 180 seconds, at most one execution of the conversation is ever
      between acquire and release, although release deletes unconditionally, retries re-acquire and holders crash. */
  lemma MutualExclusion(clock: int, conv: Conv, steps: seq<Step>, e: ExecId, f: ExecId)
    requires Valid(Initial(clock, conv), steps) && TimelyRun(Initial(clock, conv), steps)
    requires Holds(Run(Initial(clock, conv), steps), e) && Holds(Run(Initial(clock, conv), steps), f)
    ensures e == f
  {
    RunKeepsExclusive(Initial(clock, conv), steps);
  }

  lemma {:induction false} RunKeepsExpiry(s: System, steps: seq<Step>)
    requires Valid(s, steps) && ExpiryBounded(s)
    ensures ExpiryBounded(Run(s, steps))
    decreases |steps|
  {
    if steps != [] {
      KeyAfter(s, steps[0]);
      ClockAdvances(s, steps[0]);
      RunKeepsExpiry(Do(s, steps[0]), steps[1..]);
    }
  }

  lemma ClockAdvances(s: System, step: Step)
    requires Enabled(s, step)
    ensures Do(s, step).clock >= s.clock
    ensures !step.Tick? ==> Do(s, step).clock == s.clock
  {
    match step
    case Think(e, inputs, id, delay) =>
    case _ =>
  }

  /** With no hypothesis at all, crashes included, the key is free 180 seconds after the last successful acquire. */
  lemma KeyNeverOutlivesTtl(clock: int, conv: Conv, steps: seq<Step>)
    requires Valid(Initial(clock, conv), steps)
    ensures var s := Run(Initial(clock, conv), steps);
            s.clock >= s.lastAcquire + 180 ==> KeyFree(s)
  {
    RunKeepsExpiry(Initial(clock, conv), steps);
  }

  /** The hypothesis is exact, acquire by acquire: from an exclusive state, an acquire leaves two holders if and only if
      some holder is already past the key's 180 seconds. */
  lemma AcquireBreaksExclusionIff(s: System, f: ExecId)
    requires Exclusive(s) && Enabled(s, Acquire(f))
    ensures (exists e, g :: e != g && Holds(Do(s, Acquire(f)), e) && Holds(Do(s, Acquire(f)), g)) <==>
            (exists e :: Holds(s, e) && s.clock >= s.execs[e].since + 180)
  {
    var t := Do(s, Acquire(f));
    if e :| Holds(s, e) && s.clock >= s.execs[e].since + LOCK_TTL {
      assert e != f && Holds(t, e) && Holds(t, f);
    } else {
      forall e, g | Holds(t, e) && Holds(t, g) ensures e == g {
        HoldersAfter(s, Acquire(f), e);
        HoldersAfter(s, Acquire(f), g);
      }
    }
  }

  /** And one more request is enough: a new chain that arrives and acquires joins a holder if and only if that holder has
      run out of time. */
  lemma NewcomerJoinsIff(s: System, e: ExecId, chain: nat)
    requires Exclusive(s) && Holds(s, e) && ExecId(chain, 0) !in s.execs
    ensures var f := ExecId(chain, 0); var t := Do(Do(s, Arrive(chain)), Acquire(f));
            && Enabled(s, Arrive(chain)) && Enabled(Do(s, Arrive(chain)), Acquire(f))
            && Holds(t, e)
            && (Holds(t, f) <==> s.clock >= s.execs[e].since + 180)
  {
  }

  // A slow holder: a is still at work when its key expires, b takes over, a's release deletes b's key, c gets in.
  const A: ExecId := ExecId(1, 0)
  const B: ExecId := ExecId(2, 0)
  const C: ExecId := ExecId(3, 0)
  const SLOW_HOLDER: seq<Step> := [
    Arrive(1), Arrive(2), Arrive(3), Acquire(A), Guard(A), Tick(180), Acquire(B), Release(A), Acquire(C)]

  /** The hypothesis is needed: one holder past 180 seconds lets two others in at the same time. */
  lemma SlowHolderBreaksExclusion()
    ensures var s := Initial(0, Conv(HumanAssigned, false));
            Valid(s, SLOW_HOLDER) && Holds(Run(s, SLOW_HOLDER), B) && Holds(Run(s, SLOW_HOLDER), C)
  {
    var s0 := Initial(0, Conv(HumanAssigned, false));
    var s1 := Do(s0, Arrive(1));
    var s2 := Do(s1, Arrive(2));
    var s3 := Do(s2, Arrive(3));
    var s4 := Do(s3, Acquire(A));
    var s5 := Do(s4, Guard(A));
    var s6 := Do(s5, Tick(180));
    var s7 := Do(s6, Acquire(B));
    var s8 := Do(s7, Release(A));
    var s9 := Do(s8, Acquire(C));
    RunCons(s8, Acquire(C), []);
    RunCons(s7, Release(A), [Acquire(C)]);
    RunCons(s6, Acquire(B), [Release(A), Acquire(C)]);
    RunCons(s5, Tick(180), [Acquire(B), Release(A), Acquire(C)]);
    RunCons(s4, Guard(A), [Tick(180), Acquire(B), Release(A), Acquire(C)]);
    RunCons(s3, Acquire(A), [Guard(A), Tick(180), Acquire(B), Release(A), Acquire(C)]);
    RunCons(s2, Arrive(3), [Acquire(A), Guard(A), Tick(180), Acquire(B), Release(A), Acquire(C)]);
    RunCons(s1, Arrive(2), [Arrive(3), Acquire(A), Guard(A), Tick(180), Acquire(B), Release(A), Acquire(C)]);
    RunCons(s0, Arrive(1), [Arrive(2), Arrive(3), Acquire(A), Guard(A), Tick(180), Acquire(B), Release(A), Acquire(C)]);
  }
}
