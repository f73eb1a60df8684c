/** The per-peer failure estimate of learning/v2.py (and the two formulas
    learning/v1.py reuses): a running average of 0/1 liveness signals,
    weighted by an observation count. Estimates and counts are reals; the
    program's floating point rounding is not modelled. */
module Estimates {

  /** `update_failure_estimate_down`: fold a "peer answered" (0) signal into
      the estimate `e` observed `c` times. */
  function Down(e: real, c: real): (r: real)
    requires c >= 0.0
    ensures c == 0.0 ==> r == 0.0
    ensures 0.0 <= e ==> 0.0 <= r <= e
    ensures 0.0 < e ==> r < e
  {
    e * c / (c + 1.0)
  }

  /** `update_failure_estimate_up`: fold a "peer failed" (1) signal into the
      estimate `e` observed `c` times. */
  function Up(e: real, c: real): (r: real)
    requires c >= 0.0
    ensures c == 0.0 ==> r == 1.0
    ensures e <= 1.0 ==> e <= r <= 1.0
    ensures e < 1.0 ==> e < r
  {
    assert (e * c + 1.0) / (c + 1.0) - e == (1.0 - e) / (c + 1.0);
    (e * c + 1.0) / (c + 1.0)
  }

  /** One observation: `true` is a failure signal, `false` a liveness one. */
  function Observe(e: real, c: real, failed: bool): real
    requires c >= 0.0
  {
    if failed then Up(e, c) else Down(e, c)
  }

  function Signal(failed: bool): real
  {
    if failed then 1.0 else 0.0
  }

  /** As the program runs, the count stays 0 (learning/node.py never
      increments it), so every update overwrites the estimate with the last
      signal: the whole history collapses to 0 or 1. */
  lemma {:induction false} ZeroCountKeepsLastSignal(e: real, obs: seq<bool>)
    requires obs != []
    ensures ObserveStuck(e, obs) == Signal(obs[|obs| - 1])
  {
  }

  /** Updates folded with the count fixed at zero, as the program does. */
  function ObserveStuck(e: real, obs: seq<bool>): real
  {
    if obs == [] then e else Observe(ObserveStuck(e, obs[..|obs| - 1]), 0.0, obs[|obs| - 1])
  }
}
