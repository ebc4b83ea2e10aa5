/** The ten-second in-process cache of the read-only flag, under overlapping asynchronous checks. */
module ReadOnlyCache {
  import opened Wrappers

  const TTL: real := 10.0

  /** A database read made by a fetch: what it saw, and when. */
  datatype Reading = Reading(value: bool, at: real)

  /** The fetch that last wrote the cache: when its check began, and its reading unless it failed. */
  datatype Origin = Origin(begun: real, reading: Option<Reading>)

  /** value and fetched_at, with the fetch they come from (none before the first write). */
  datatype Cache = Cache(value: bool, fetchedAt: real, origin: Option<Origin>)

  /** A check suspended in its own fetch. */
  datatype Pending = Pending(begun: real, reading: Option<Reading>)

  /** An answer given, and the flag as it stood: its value and since when. */
  datatype Answer = Answer(begun: real, value: bool, origin: Option<Origin>, flag: bool, flagSince: real)

  datatype System = System(
    clock: real,
    flag: bool,
    flagSince: real,
    cache: Cache,
    pending: map<nat, Pending>,
    answers: seq<Answer>)

  datatype Step =
    | Tick(to: real)
    | Flip
    | Begin(check: nat)
    | Read(check: nat)
    | Finish(check: nat, ok: bool)

  function Initial(clock: real, flag: bool): System {
    System(clock, flag, clock, Cache(false, 0.0, None), map[], [])
  }

  predicate Fresh(cache: Cache, now: real) { now - cache.fetchedAt < TTL }

  /** What a finished fetch leaves in the cache: any failure reads as false. */
  function Written(p: Pending, ok: bool): Cache
    requires ok ==> p.reading.Some?
  {
    if ok then Cache(p.reading.value.value, p.begun, Some(Origin(p.begun, p.reading)))
    else Cache(false, p.begun, Some(Origin(p.begun, None)))
  }

  predicate Enabled(s: System, step: Step) {
    match step
    case Tick(to) => to >= s.clock
    case Flip => true
    case Begin(c) => c !in s.pending
    case Read(c) => c in s.pending && s.pending[c].reading.None?
    case Finish(c, ok) => c in s.pending && (ok ==> s.pending[c].reading.Some?)
  }

  function Answered(s: System, begun: real, cache: Cache): System {
    s.(answers := s.answers + [Answer(begun, cache.value, cache.origin, s.flag, s.flagSince)])
  }

  function Do(s: System, step: Step): System
    requires Enabled(s, step)
  {
    match step
    case Tick(to) => s.(clock := to)
    case Flip => s.(flag := !s.flag, flagSince := s.clock)
    case Begin(c) =>
      if Fresh(s.cache, s.clock) then Answered(s, s.clock, s.cache)
      else s.(pending := s.pending[c := Pending(s.clock, None)])
    case Read(c) =>
      s.(pending := s.pending[c := s.pending[c].(reading := Some(Reading(s.flag, s.clock)))])
    case Finish(c, ok) =>
      var cache := Written(s.pending[c], ok);
      Answered(s.(cache := cache, pending := s.pending - {c}), s.pending[c].begun, cache)
  }

  predicate Valid(s: System, steps: seq<Step>)
    decreases |steps|
  {
    steps == [] || (Enabled(s, steps[0]) && Valid(Do(s, steps[0]), steps[1..]))
  }

  function Run(s: System, steps: seq<Step>): System
    requires Valid(s, steps)
    decreases |steps|
  {
    if steps == [] then s else Run(Do(s, steps[0]), steps[1..])
  }

  /** A reading is from the past, not before its check began, and still right unless the flag flipped since. */
  predicate GoodReading(s: System, begun: real, r: Reading) {
    && begun <= r.at <= s.clock
    && (r.at > s.flagSince ==> r.value == s.flag)
  }

  predicate GoodCache(s: System) {
    match s.cache.origin
    case None => s.cache == Cache(false, 0.0, None)
    case Some(o) =>
      && s.cache.fetchedAt == o.begun
      && match o.reading
         case None => !s.cache.value
         case Some(r) => s.cache.value == r.value && GoodReading(s, o.begun, r)
  }

  /** The answer came from a fetch whose check began less than TTL before this one began (its own included),
      or from the initial value in the first TTL of the clock. A failed fetch only ever answers false. */
  predicate Justified(a: Answer) {
    match a.origin
    case None => !a.value && a.begun < TTL
    case Some(o) =>
      && a.begun - o.begun < TTL
      && match o.reading
         case None => !a.value
         case Some(r) => a.value == r.value && o.begun <= r.at
  }

  /** A check begun TTL or more after the last flip answers the flag itself, unless a failed fetch or the
      initial value answered false in its place. */
  predicate UpToDate(a: Answer) {
    a.begun > a.flagSince + TTL ==>
      a.value == a.flag || (!a.value && (a.origin.None? || a.origin.value.reading.None?))
  }

  predicate Inv(s: System) {
    && s.flagSince <= s.clock
    && GoodCache(s)
    && (forall c :: c in s.pending ==>
          && s.pending[c].begun <= s.clock
          && (s.pending[c].reading.Some? ==> GoodReading(s, s.pending[c].begun, s.pending[c].reading.value)))
    && (forall i :: 0 <= i < |s.answers| ==> Justified(s.answers[i]) && UpToDate(s.answers[i]))
  }

  lemma StepKeepsInv(s: System, step: Step)
    requires Inv(s) && Enabled(s, step)
    ensures Inv(Do(s, step))
  {
  }

  lemma {:induction false} RunKeepsInv(s: System, steps: seq<Step>)
    requires Inv(s) && Valid(s, steps)
    ensures Inv(Run(s, steps))
    decreases |steps|
  {
    if steps != [] {
      StepKeepsInv(s, steps[0]);
      RunKeepsInv(Do(s, steps[0]), steps[1..]);
    }
  }

  /** Every True answer of every run rests on a successful fetch that saw the flag set, in a check begun
      less than ten seconds before the answering check began, or in that check itself. */
  lemma TrueIsBackedByAFetch(clock: real, flag: bool, steps: seq<Step>, i: nat)
    requires Valid(Initial(clock, flag), steps)
    requires i < |Run(Initial(clock, flag), steps).answers|
    requires Run(Initial(clock, flag), steps).answers[i].value
    ensures var a := Run(Initial(clock, flag), steps).answers[i];
            && a.origin.Some? && a.origin.value.reading.Some?
            && a.origin.value.reading.value.value
            && a.origin.value.begun > a.begun - 10.0
            && a.origin.value.reading.value.at >= a.origin.value.begun
  {
    RunKeepsInv(Initial(clock, flag), steps);
  }

  /** A flip is seen by every check begun more than ten seconds later, except that a failed fetch
      (or the initial value) may answer false. */
  lemma FlipTakesEffect(clock: real, flag: bool, steps: seq<Step>, i: nat)
    requires Valid(Initial(clock, flag), steps)
    requires i < |Run(Initial(clock, flag), steps).answers|
    ensures var a := Run(Initial(clock, flag), steps).answers[i];
            && (a.begun > a.flagSince + 10.0 && !a.flag ==> !a.value)
            && (a.begun > a.flagSince + 10.0 && a.flag && !a.value ==>
                  a.origin.None? || a.origin.value.reading.None?)
  {
    RunKeepsInv(Initial(clock, flag), steps);
  }

  // ------------------------------------------------------------ answers, from the steps alone

  /** The state before the m-th step. */
  function At(s: System, steps: seq<Step>, m: nat): System
    requires Valid(s, steps) && m <= |steps|
    decreases m
  {
    if m == 0 then s else At(Do(s, steps[0]), steps[1..], m - 1)
  }

  lemma {:induction false} AtNext(s: System, steps: seq<Step>, m: nat)
    requires Valid(s, steps) && m < |steps|
    ensures Enabled(At(s, steps, m), steps[m])
    ensures At(s, steps, m + 1) == Do(At(s, steps, m), steps[m])
    decreases m
  {
    if m > 0 { AtNext(Do(s, steps[0]), steps[1..], m - 1); }
  }

  lemma {:induction false} AtEnd(s: System, steps: seq<Step>)
    requires Valid(s, steps)
    ensures At(s, steps, |steps|) == Run(s, steps)
    decreases |steps|
  {
    if steps != [] { AtEnd(Do(s, steps[0]), steps[1..]); }
  }

  lemma {:induction false} InvAt(s: System, steps: seq<Step>, m: nat)
    requires Inv(s) && Valid(s, steps) && m <= |steps|
    ensures Inv(At(s, steps, m))
    decreases m
  {
    if m > 0 {
      StepKeepsInv(s, steps[0]);
      InvAt(Do(s, steps[0]), steps[1..], m - 1);
    }
  }

  /** The last check that finished before the m-th step. */
  function LastFinish(steps: seq<Step>, m: nat): (j: Option<nat>)
    requires m <= |steps|
    ensures j.Some? ==> j.value < m && steps[j.value].Finish?
    ensures forall i :: 0 <= i < m && steps[i].Finish? ==> j.Some? && i <= j.value
  {
    if m == 0 then None else if steps[m - 1].Finish? then Some(m - 1) else LastFinish(steps, m - 1)
  }

  /** The check that the j-th step finishes. */
  function Finished(s: System, steps: seq<Step>, j: nat): Pending
    requires Valid(s, steps) && j < |steps| && steps[j].Finish?
  {
    AtNext(s, steps, j);
    At(s, steps, j).pending[steps[j].check]
  }

  /** What that check found: its reading, and false after a failure. */
  function Found(s: System, steps: seq<Step>, j: nat): bool
    requires Valid(s, steps) && j < |steps| && steps[j].Finish?
  {
    AtNext(s, steps, j);
    steps[j].ok && Finished(s, steps, j).reading.value.value
  }

  /** The cache holds what the last finished check found, stamped with when that check began. */
  lemma {:induction false} CacheIsLastFinish(clock: real, flag: bool, steps: seq<Step>, m: nat)
    requires Valid(Initial(clock, flag), steps) && m <= |steps|
    ensures var s := Initial(clock, flag); var cache := At(s, steps, m).cache;
            match LastFinish(steps, m)
            case None => !cache.value && cache.fetchedAt == 0.0
            case Some(j) => cache.value == Found(s, steps, j) && cache.fetchedAt == Finished(s, steps, j).begun
  {
    if m > 0 {
      CacheIsLastFinish(clock, flag, steps, m - 1);
      AtNext(Initial(clock, flag), steps, m - 1);
    }
  }

  /** A read's value stays with its check until the check finishes. */
  lemma {:induction false} ReadingStays(s: System, steps: seq<Step>, i: nat, m: nat)
    requires Valid(s, steps) && i < m <= |steps| && steps[i].Read?
    requires forall k :: i < k < m && steps[k].Finish? ==> steps[k].check != steps[i].check
    ensures var c := steps[i].check;
            && c in At(s, steps, m).pending
            && At(s, steps, m).pending[c].reading == Some(Reading(At(s, steps, i).flag, At(s, steps, i).clock))
  {
    AtNext(s, steps, m - 1);
    if i < m - 1 { ReadingStays(s, steps, i, m - 1); }
  }

  /** A check that ends with its own successful fetch answers the flag as it read it, and leaves it in the cache. */
  lemma OwnFetchIsAnswered(s: System, steps: seq<Step>, i: nat, j: nat)
    requires Valid(s, steps) && i < j < |steps| && steps[i].Read? && steps[j] == Finish(steps[i].check, true)
    requires forall k :: i < k < j && steps[k].Finish? ==> steps[k].check != steps[i].check
    ensures var seen := At(s, steps, i).flag; var after := At(s, steps, j + 1);
            && |after.answers| == |At(s, steps, j).answers| + 1
            && after.answers[|after.answers| - 1].value == seen
            && after.answers[|after.answers| - 1].begun == Finished(s, steps, j).begun
            && after.cache.value == seen && after.cache.fetchedAt == Finished(s, steps, j).begun
  {
    ReadingStays(s, steps, i, j);
    AtNext(s, steps, j);
  }

  /** What the m-th step answers, if anything: a finishing check what it found; a beginning one what the last check to
      finish found (or the initial false), if that is less than ten seconds old, and otherwise nothing yet. */
  function Reply(s: System, steps: seq<Step>, m: nat): Option<bool>
    requires Valid(s, steps) && m < |steps|
  {
    match steps[m]
    case Finish(_, _) => Some(Found(s, steps, m))
    case Begin(_) =>
      (match LastFinish(steps, m)
       case None => if At(s, steps, m).clock < 10.0 then Some(false) else None
       case Some(j) => if At(s, steps, m).clock - Finished(s, steps, j).begun < 10.0 then Some(Found(s, steps, j)) else None)
    case _ => None
  }

  /** Every step of every run answers exactly that. */
  lemma AnswersFollowTheSteps(clock: real, flag: bool, steps: seq<Step>, m: nat)
    requires Valid(Initial(clock, flag), steps) && m < |steps|
    ensures var s := Initial(clock, flag);
            var before, after := At(s, steps, m), At(s, steps, m + 1);
            match Reply(s, steps, m)
            case None => after.answers == before.answers && after.cache == before.cache
            case Some(value) =>
              && |after.answers| == |before.answers| + 1 && after.answers[..|before.answers|] == before.answers
              && var a := after.answers[|before.answers|];
                 && a.value == value && a.flag == before.flag && a.flagSince == before.flagSince
                 && a.begun == if steps[m].Finish? then Finished(s, steps, m).begun else before.clock
  {
    CacheIsLastFinish(clock, flag, steps, m);
    AtNext(Initial(clock, flag), steps, m);
  }

  /** The step that gave an answer. */
  lemma {:induction false} AnsweredAt(clock: real, flag: bool, steps: seq<Step>, n: nat, k: nat) returns (m: nat)
    requires Valid(Initial(clock, flag), steps) && n <= |steps|
    requires k < |At(Initial(clock, flag), steps, n).answers|
    ensures var s := Initial(clock, flag);
            && m < n && |At(s, steps, m).answers| == k && k < |At(s, steps, m + 1).answers|
            && Reply(s, steps, m).Some?
            && At(s, steps, m + 1).answers[k] == At(s, steps, n).answers[k]
  {
    AnswersFollowTheSteps(clock, flag, steps, n - 1);
    if k < |At(Initial(clock, flag), steps, n - 1).answers| {
      m := AnsweredAt(clock, flag, steps, n - 1, k);
    } else {
      m := n - 1;
    }
  }

  /** A check whose fetch failed, begun less than ten seconds before time. */
  predicate FailedNear(s: System, steps: seq<Step>, j: nat, time: real)
    requires Valid(s, steps) && j < |steps|
  {
    steps[j].Finish? && !steps[j].ok && time - Finished(s, steps, j).begun < 10.0
  }

  /** A set flag is answered as set by every check begun more than ten seconds after it was set, unless a check begun less
      than ten seconds before (or the check itself) had a failed fetch, or no check has finished yet in the first ten
      seconds of the clock. */
  lemma FalseHasACause(clock: real, flag: bool, steps: seq<Step>, k: nat)
    requires Valid(Initial(clock, flag), steps) && k < |Run(Initial(clock, flag), steps).answers|
    requires var a := Run(Initial(clock, flag), steps).answers[k]; a.flag && !a.value && a.begun > a.flagSince + 10.0
    ensures var s := Initial(clock, flag); var a := Run(s, steps).answers[k];
            || (exists j :: 0 <= j < |steps| && FailedNear(s, steps, j, a.begun))
            || (a.begun < 10.0 && exists m :: 0 <= m < |steps| && steps[m].Begin? && LastFinish(steps, m) == None)
  {
    var s := Initial(clock, flag);
    AtEnd(s, steps);
    var m := AnsweredAt(clock, flag, steps, |steps|, k);
    AnswersFollowTheSteps(clock, flag, steps, m);
    AtNext(s, steps, m);
    InvAt(s, steps, m + 1);
    var a := Run(s, steps).answers[k];
    assert UpToDate(a);
    if steps[m].Finish? {
      assert FailedNear(s, steps, m, a.begun);
    } else {
      match LastFinish(steps, m)
      case None =>
      case Some(j) =>
        AtNext(s, steps, j);
        CacheOrigin(clock, flag, steps, m);
        assert a.origin == At(s, steps, m).cache.origin;
        assert FailedNear(s, steps, j, a.begun);
    }
  }

  /** The bookkeeping of the cache's origin agrees with the steps. */
  lemma {:induction false} CacheOrigin(clock: real, flag: bool, steps: seq<Step>, m: nat)
    requires Valid(Initial(clock, flag), steps) && m <= |steps|
    ensures var s := Initial(clock, flag);
            match LastFinish(steps, m)
            case None => true
            case Some(j) =>
              At(s, steps, m).cache.origin ==
                Some(Origin(Finished(s, steps, j).begun, if steps[j].ok then Finished(s, steps, j).reading else None))
  {
    if m > 0 {
      CacheOrigin(clock, flag, steps, m - 1);
      AtNext(Initial(clock, flag), steps, m - 1);
    }
  }

  /** The module dictionary, with a check split at its one suspension point. */
  class ReadOnlyFlag {
    var value: bool
    var fetchedAt: real
    ghost var origin: Option<Origin>

    ghost function View(): Cache
      reads this
    {
      Cache(value, fetchedAt, origin)
    }

    constructor ()
      ensures View() == Cache(false, 0.0, None)
    {
      value, fetchedAt, origin := false, 0.0, None;
    }

    /** Up to the await: answers from a fresh cache, otherwise leaves a fetch to be made. */
    method BeginCheck(now: real) returns (answer: Option<bool>)
      ensures answer == if now - fetchedAt < 10.0 then Some(value) else None
      ensures answer.Some? <==> Fresh(View(), now)
    {
      if now - fetchedAt < 10.0 {
        return Some(value);
      }
      return None;
    }

    /** After the await: an exception or timeout counts as false, and the check's own start time is stored. */
    method FinishCheck(now: real, fetched: Option<bool>, ghost p: Pending) returns (answer: bool)
      requires p.begun == now
      requires fetched.Some? ==> p.reading.Some? && p.reading.value.value == fetched.value
      modifies this
      ensures View() == Written(p, fetched.Some?)
      ensures answer == (if fetched.Some? then fetched.value else false) && value == answer && fetchedAt == now
    {
      match fetched {
        case Some(v) => answer := v;
        case None => answer := false;
      }
      value, fetchedAt := answer, now;
      origin := Written(p, fetched.Some?).origin;
    }
  }
}
