/** Runs of any bulk-synchronous engine: a superstep function, and a test for "nothing in flight".

    All the engines share one control loop: run supersteps 1, 2, 3, ... until a cap is passed or a
    superstep sends nothing. What follows holds of that loop whatever a superstep does.
 */
module Runs {

  datatype Machine<!T> = Machine(step: (T, nat) -> T, silent: T -> bool)

  /** The loop from superstep `it`, and the number of the last superstep executed. */
  ghost function RunFrom<T>(m: Machine<T>, st: T, it: nat, max: nat): (T, int)
    decreases max + 1 - it
  {
    if it > max then
      (st, it - 1)
    else
      var next := m.step(st, it);
      if m.silent(next) then (next, it) else RunFrom(m, next, it + 1, max)
  }

  ghost function Run<T>(m: Machine<T>, st: T, max: nat): (T, int) {
    RunFrom(m, st, 1, max)
  }

  /** The state after exactly `k` supersteps, silence or not. */
  ghost function After<T>(m: Machine<T>, st: T, k: nat): T {
    if k == 0 then st else m.step(After(m, st, k - 1), k)
  }

  /** How far the loop gets: `k` supersteps, of which only the last may be silent. */
  ghost predicate StopsAt<T>(m: Machine<T>, st: T, max: nat, k: nat) {
    && k <= max
    && (forall j :: 1 <= j < k ==> !m.silent(After(m, st, j)))
    && (k == max || (k >= 1 && m.silent(After(m, st, k))))
  }

  lemma {:induction false} RunFromStops<T>(m: Machine<T>, st: T, it: nat, max: nat)
    requires 1 <= it <= max + 1
    requires forall j :: 1 <= j < it ==> !m.silent(After(m, st, j))
    ensures var (end, executed) := RunFrom(m, After(m, st, it - 1), it, max);
            && it - 1 <= executed
            && StopsAt(m, st, max, executed)
            && end == After(m, st, executed)
    decreases max + 1 - it
  {
    if it <= max && !m.silent(After(m, st, it)) {
      RunFromStops(m, st, it + 1, max);
    }
  }

  /** A run is a prefix of the sequence of supersteps, cut by the cap or just after the first
      silent superstep. */
  lemma {:induction false} RunStops<T>(m: Machine<T>, st: T, max: nat)
    ensures var (end, executed) := Run(m, st, max);
            && 0 <= executed
            && StopsAt(m, st, max, executed)
            && end == After(m, st, executed)
  {
    RunFromStops(m, st, 1, max);
  }

  /** `k` supersteps is where the loop stops, for no other reason than StopsAt. */
  lemma {:induction false} StopsAtIsUnique<T>(m: Machine<T>, st: T, max: nat, k: nat)
    requires StopsAt(m, st, max, k)
    ensures Run(m, st, max) == (After(m, st, k), k)
  {
    RunStops(m, st, max);
    var executed := Run(m, st, max).1;
    assert !(1 <= executed < k);
    assert !(1 <= k < executed);
  }

  /** From the second superstep on, silence is final. */
  ghost predicate Settles<T(!new)>(m: Machine<T>) {
    forall st, it {:trigger m.step(st, it)} :: it >= 2 && m.silent(st) ==> m.step(st, it) == st
  }

  lemma {:induction false} SilentStays<T(!new)>(m: Machine<T>, st: T, k: nat, later: nat)
    requires Settles(m) && 1 <= k <= later
    requires m.silent(After(m, st, k))
    ensures After(m, st, later) == After(m, st, k)
    decreases later
  {
    if k < later {
      SilentStays(m, st, k, later - 1);
    }
  }

  /** Stopping early on silence never changes the result. */
  lemma {:induction false} EarlyStopIsHarmless<T(!new)>(m: Machine<T>, st: T, max: nat)
    requires Settles(m)
    ensures Run(m, st, max).0 == After(m, st, max)
  {
    RunStops(m, st, max);
    var executed := Run(m, st, max).1;
    if executed < max {
      SilentStays(m, st, executed, max);
    }
  }

  /** A run of at least as many supersteps as it takes to fall silent has the same result,
      whatever its cap. */
  lemma {:induction false} CapIsHarmless<T(!new)>(m: Machine<T>, st: T, k: nat, max: nat)
    requires Settles(m) && 1 <= k <= max && m.silent(After(m, st, k))
    ensures Run(m, st, max).0 == After(m, st, k)
    ensures Run(m, st, max).1 <= k
  {
    RunStops(m, st, max);
    var executed := Run(m, st, max).1;
    assert !(1 <= k < executed);
    EarlyStopIsHarmless(m, st, max);
    SilentStays(m, st, k, max);
  }

  /** A run that gets past superstep `k` can be cut there: the rest of it is the run from there. */
  lemma {:induction false} RunFromMiddle<T>(m: Machine<T>, st: T, j: nat, k: nat, max: nat)
    requires j <= k < RunFrom(m, After(m, st, j), j + 1, max).1
    ensures RunFrom(m, After(m, st, k), k + 1, max) == RunFrom(m, After(m, st, j), j + 1, max)
    decreases k - j
  {
    if j < k {
      RunFromMiddle(m, st, j + 1, k, max);
    }
  }

  lemma {:induction false} ResumeFromStops<T(!new)>(m: Machine<T>, st: T, k: nat, max: nat)
    requires Settles(m) && 1 <= k <= max
    ensures RunFrom(m, After(m, st, k), k + 1, max).0 == After(m, st, max)
    decreases max - k
  {
    if k < max {
      if m.silent(After(m, st, k + 1)) {
        SilentStays(m, st, k + 1, max);
      } else {
        ResumeFromStops(m, st, k + 1, max);
      }
    }
  }

  /** Resuming after superstep `k`, even one that was already silent, ends where the
      uninterrupted run ends. */
  lemma {:induction false} ResumeIsHarmless<T(!new)>(m: Machine<T>, st: T, k: nat, max: nat)
    requires Settles(m) && 1 <= k <= max
    ensures RunFrom(m, After(m, st, k), k + 1, max).0 == Run(m, st, max).0
  {
    ResumeFromStops(m, st, k, max);
    EarlyStopIsHarmless(m, st, max);
  }

  /** A property of states that every superstep keeps holds after any number of supersteps. */
  lemma {:induction false} AfterKeeps<T(!new)>(m: Machine<T>, st: T, inv: (T, nat) -> bool, k: nat, it: nat)
    requires inv(st, 1) && it == k + 1
    requires forall s, i {:trigger m.step(s, i)} :: i >= 1 && inv(s, i) ==> inv(m.step(s, i), i + 1)
    ensures inv(After(m, st, k), it)
  {
    if k > 0 {
      AfterKeeps(m, st, inv, k - 1, k);
    }
  }
}
