/** Runs of any machine that takes one step for each label. */
module Runs {

  ghost predicate IsRun<S(!new), L(!new)>(run: (S, seq<L>) -> S, step: (S, L) -> S) {
    && (forall s: S :: run(s, []) == s)
    && (forall s: S, l: L, rest: seq<L> :: run(s, [l] + rest) == run(step(s, l), rest))
  }

  /** Running through two stretches is running through the first and then the second. */
  lemma {:induction false} Join<S(!new), L(!new)>(run: (S, seq<L>) -> S, step: (S, L) -> S, s: S,
                                                    first: seq<L>, second: seq<L>)
    requires IsRun(run, step)
    ensures run(s, first + second) == run(run(s, first), second)
    decreases |first|
  {
    if first == [] {
      assert first + second == second;
    } else {
      Join(run, step, step(s, first[0]), first[1..], second);
      assert first == [first[0]] + first[1..];
      assert first + second == [first[0]] + (first[1..] + second);
    }
  }

  ghost predicate IsGuard<S(!new), L(!new)>(guard: (S, seq<L>) -> bool, step: (S, L) -> S, ok: (S, L) -> bool) {
    && (forall s: S :: guard(s, []))
    && (forall s: S, l: L, rest: seq<L> :: guard(s, [l] + rest) == (ok(s, l) && guard(step(s, l), rest)))
  }

  /** A condition on every step holds of two stretches if it holds of each. */
  lemma {:induction false} JoinGuarded<S(!new), L(!new)>(run: (S, seq<L>) -> S, step: (S, L) -> S,
                                                           guard: (S, seq<L>) -> bool, ok: (S, L) -> bool,
                                                           s: S, first: seq<L>, second: seq<L>)
    requires IsRun(run, step) && IsGuard(guard, step, ok)
    ensures guard(s, first + second) == (guard(s, first) && guard(run(s, first), second))
    decreases |first|
  {
    if first == [] {
      assert first + second == second;
    } else {
      JoinGuarded(run, step, guard, ok, step(s, first[0]), first[1..], second);
      assert first == [first[0]] + first[1..];
      assert first + second == [first[0]] + (first[1..] + second);
    }
  }
}
