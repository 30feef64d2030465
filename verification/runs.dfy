/** Runs of a protocol: finite sequences of durable states, each obtained from the one
    before it by one step. A crash ends a run early, so whatever holds of every state of
    every run holds at every crash point. */
module Runs {

  ghost predicate IsRun<S(!new)>(init: S -> bool, next: (S, S) -> bool, run: seq<S>) {
    run != [] &&
    if |run| == 1 then init(run[0])
    else IsRun(init, next, run[..|run| - 1]) && next(run[|run| - 2], run[|run| - 1])
  }

  /** A run may be continued by any step from its last state. */
  lemma Continue<S(!new)>(init: S -> bool, next: (S, S) -> bool, run: seq<S>, s: S)
    requires IsRun(init, next, run)
    requires next(run[|run| - 1], s)
    ensures IsRun(init, next, run + [s])
  {
    assert (run + [s])[..|run|] == run;
  }

  lemma {:induction false} StartsWell<S(!new)>(init: S -> bool, next: (S, S) -> bool, run: seq<S>)
    requires IsRun(init, next, run)
    ensures run != [] && init(run[0])
    decreases |run|
  {
    if |run| > 1 {
      StartsWell(init, next, run[..|run| - 1]);
    }
  }

  /** Every two neighbours of a run are one step apart. */
  lemma {:induction false} StepAt<S(!new)>(init: S -> bool, next: (S, S) -> bool, run: seq<S>, i: nat)
    requires IsRun(init, next, run) && i + 1 < |run|
    ensures next(run[i], run[i + 1])
    decreases |run|
  {
    if i + 2 < |run| {
      StepAt(init, next, run[..|run| - 1], i);
    }
  }

  /** Induction over runs. */
  lemma {:induction false} InvariantAt<S(!new)>(init: S -> bool, next: (S, S) -> bool, inv: S -> bool,
                                                 run: seq<S>, i: nat)
    requires IsRun(init, next, run) && i < |run|
    requires forall s :: init(s) ==> inv(s)
    requires forall s, t :: inv(s) && next(s, t) ==> inv(t)
    ensures inv(run[i])
    decreases |run|
  {
    if i + 1 < |run| {
      InvariantAt(init, next, inv, run[..|run| - 1], i);
    } else if i > 0 {
      InvariantAt(init, next, inv, run[..|run| - 1], i - 1);
    }
  }
}
