/**
 * A driver's view of the environment over the five-row dataset
 * [0, 0, 1, 0, 1]: what the contracts of the constructor, `Step` and `Reset`
 * let a caller conclude, with no access to their bodies.
 */
module Walkthrough {
  import opened FraudDetection

  const FiveRows: seq<int> := [0, 0, 1, 0, 1]

  lemma FiveRowTotals()
    ensures FraudCount(FiveRows) == 2
  {
    FraudCountIsMultiplicity(FiveRows);
    assert multiset(FiveRows)[1] == 2;
  }

  method FiveRowWalkthrough() {
    var env := new FraudDetectionEnv(FiveRows);
    FiveRowTotals();
    assert env.totalPositiveCases == 2 && env.totalNegativeCases == 3;

    // a fraud guess on row 0 (not fraud) is a false positive
    var r := env.Step(1);
    assert r == Ok(Transition(1, -1, false, Info(0, 1, 0, 0)));
    assert env.State() == EnvState(1, 1, false, 0, 0, 1, 0);
  }

  /** A reset keeps the cursor on the last row, so the next step ends the new episode. */
  method ResetOnLastRow(env: FraudDetectionEnv)
    requires env.Valid() && |env.labels| == 5 && env.labels[4] == 1
    requires env.State() == EnvState(4, 4, true, 1, 1, 2, 0)
    modifies env
  {
    // the step that reached the last row ended the episode; reset starts a new one
    env.Reset();
    assert env.State() == EnvState(4, 0, false, 1, 1, 2, 0);
    // the last row is scored again and the episode ends at once
    var r := env.Step(1);
    assert r == Ok(Transition(4, 1, true, Info(2, 2, 2, 0)));
  }
}
