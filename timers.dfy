/** Repeating timers. A repeating timer delivers its ticks one after another, never
    overlapping, so n ticks apply the view's per-tick transition n times in a row. */
module Timers {

  /** The state after `n` ticks of `step`, starting from `s`. */
  function Repeat<S>(step: S -> S, s: S, n: nat): S
    decreases n
  {
    if n == 0 then s else Repeat(step, step(s), n - 1)
  }

  /** `m + n` ticks are `m` ticks followed by `n` ticks. */
  lemma {:induction false} RepeatSplit<S>(step: S -> S, s: S, m: nat, n: nat)
    ensures Repeat(step, s, m + n) == Repeat(step, Repeat(step, s, m), n)
    decreases m
  {
    if m > 0 {
      RepeatSplit(step, step(s), m - 1, n);
    }
  }
}
