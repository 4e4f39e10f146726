/** Runs of a protocol: every world follows from the one before by one step. */
module Histories {

  ghost predicate StepAt<W(!new)>(follows: (W, W) -> bool, history: seq<W>, i: nat)
    requires i + 1 < |history|
  {
    follows(history[i], history[i + 1])
  }

  ghost predicate Steps<W(!new)>(follows: (W, W) -> bool, history: seq<W>) {
    forall i: nat {:trigger StepAt(follows, history, i)} :: i + 1 < |history| ==> StepAt(follows, history, i)
  }

  /** What holds at first and is kept by every step holds always. */
  lemma {:induction false} Invariant<W(!new)>(follows: (W, W) -> bool, history: seq<W>, inv: W -> bool, i: nat)
    requires Steps(follows, history) && i < |history| && inv(history[0])
    requires forall w, next :: inv(w) && follows(w, next) ==> inv(next)
    ensures inv(history[i])
  {
    if i > 0 {
      Invariant(follows, history, inv, i - 1);
      assert StepAt(follows, history, i - 1);
    }
  }

  lemma StepsExtend<W(!new)>(follows: (W, W) -> bool, history: seq<W>, next: W)
    requires history != [] && Steps(follows, history) && follows(history[|history| - 1], next)
    ensures Steps(follows, history + [next])
  {
    var longer := history + [next];
    forall i: nat | i + 1 < |longer| ensures StepAt(follows, longer, i) {
      if i + 1 < |history| {
        assert StepAt(follows, history, i);
      }
    }
  }
}
