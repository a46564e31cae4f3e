/** Induction over the states of a run. */
module Runs {
  /** What holds at state `i`, and at each state after one at which it holds, holds at state `j`. */
  lemma {:induction false} Persists(holds: int -> bool, i: int, j: int)
    requires i <= j && holds(i) && forall k | i <= k < j && holds(k) :: holds(k + 1)
    ensures holds(j)
    decreases j - i
  {
    if i < j {
      Persists(holds, i, j - 1);
    }
  }
}
