/**
 * Runs of a deterministic machine driven by a periodic tick: the state after
 * `n` ticks and the output of those ticks, for any transition function and
 * any per-tick output. The PCMMoby tick is one such machine.
 */
module Runs {

  /** The state of a machine with transition `step` after `n` ticks from `s`. */
  function RunState<S>(step: S -> S, s: S, n: nat): S
    decreases n
  {
    if n == 0 then s else step(RunState(step, s, n - 1))
  }

  /** What the first `n` ticks from `s` output, each tick contributing `out` of the state it starts in. */
  function RunOut<S, O>(step: S -> S, out: S -> seq<O>, s: S, n: nat): seq<O>
    decreases n
  {
    if n == 0 then [] else RunOut(step, out, s, n - 1) + out(RunState(step, s, n - 1))
  }

  /** A run of `n > 0` ticks ends one step after the run of `n - 1` ticks. */
  lemma RunStateSnoc<S>(step: S -> S, s: S, n: nat)
    requires n > 0
    ensures RunState(step, s, n) == step(RunState(step, s, n - 1))
  {
  }

  /** A run of `n > 0` ticks outputs what the run of `n - 1` ticks does, then the last tick's output. */
  lemma RunOutSnoc<S, O>(step: S -> S, out: S -> seq<O>, s: S, n: nat)
    requires n > 0
    ensures RunOut(step, out, s, n) == RunOut(step, out, s, n - 1) + out(RunState(step, s, n - 1))
  {
  }

  /** Running `a` ticks and then `b` more is running `a + b` ticks. */
  lemma {:induction false} RunStateAppend<S>(step: S -> S, s: S, a: nat, b: nat)
    ensures RunState(step, s, a + b) == RunState(step, RunState(step, s, a), b)
    decreases b
  {
    if b > 0 {
      RunStateAppend(step, s, a, b - 1);
    }
  }

  /** The output of `a + b` ticks is that of the first `a` followed by that of the next `b`. */
  lemma {:induction false} RunOutAppend<S, O>(step: S -> S, out: S -> seq<O>, s: S, a: nat, b: nat)
    ensures RunOut(step, out, s, a + b)
         == RunOut(step, out, s, a) + RunOut(step, out, RunState(step, s, a), b)
    decreases b
  {
    if b > 0 {
      RunOutAppend(step, out, s, a, b - 1);
      RunStateAppend(step, s, a, b - 1);
      var t := RunState(step, s, a);
      var o := out(RunState(step, t, b - 1));
      assert (RunOut(step, out, s, a) + RunOut(step, out, t, b - 1)) + o
          == RunOut(step, out, s, a) + (RunOut(step, out, t, b - 1) + o);
    } else {
      assert RunOut(step, out, s, a) + [] == RunOut(step, out, s, a);
    }
  }
}
