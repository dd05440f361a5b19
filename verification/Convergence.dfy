/** Drafting-loop convergence (src/mootloop/convergence.py). Similarity is any value the caller's
    text comparison returns. */
module Convergence {

  datatype RoundState = RoundState(score: real, coverage: real, text: string)
  datatype Floors = Floors(scoreDelta: real, materialChange: real, coverage: real)
  datatype Reason = Cap | InsufficientHistory | Converged | Incomplete | Changing | Improving
  datatype Decision = Decision(converged: bool, reason: Reason)

  function Abs(x: real): real {
    if x < 0.0 then -x else x
  }

  function Evaluate(history: seq<RoundState>, maxIterations: nat, floors: Floors,
                    similarity: (string, string) -> real): Decision
  {
    var n := |history|;
    if n >= maxIterations then Decision(true, Cap)
    else if n < 2 then Decision(false, InsufficientHistory)
    else
      var prev, current := history[n - 2], history[n - 1];
      var stoppedImproving := Abs(current.score - prev.score) < floors.scoreDelta;
      var stoppedChanging := 1.0 - similarity(prev.text, current.text) < floors.materialChange;
      var complete := current.coverage >= floors.coverage;
      if stoppedImproving && stoppedChanging && complete then Decision(true, Converged)
      else Decision(false, if !complete then Incomplete else if !stoppedChanging then Changing else Improving)
  }

  /** Genuine convergence: the loop stopped before its cap, not because of it. */
  predicate GenuinelyConverged(history: seq<RoundState>, maxIterations: nat, floors: Floors,
                               similarity: (string, string) -> real)
  {
    var d := Evaluate(history, maxIterations, floors, similarity);
    d.converged && d.reason == Converged
  }
}
