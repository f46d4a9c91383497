/**
 * What a caller sees over many calls: a run is a sequence of `step` and
 * `reset` calls applied to the environment's state one after the other.
 * The lemmas give the state after a run in closed form and derive from it
 * when an episode ends.
 */
module Episodes {
  import opened FraudDetection

  /** One call a driver makes on the environment. */
  datatype Call = StepCall(action: int) | ResetCall

  /** Every step of the run passes the action-space assertion. */
  predicate ValidCalls(calls: seq<Call>) {
    forall i :: 0 <= i < |calls| ==> calls[i].ResetCall? || ValidAction(calls[i].action)
  }

  /** The run holds no reset: it stays inside one episode. */
  predicate OnlySteps(calls: seq<Call>) {
    forall i :: 0 <= i < |calls| ==> calls[i].StepCall?
  }

  /** Number of `step` calls in a run. */
  function StepCount(calls: seq<Call>): (n: nat)
    ensures n <= |calls|
    ensures OnlySteps(calls) ==> n == |calls|
    decreases |calls|
  {
    if calls == [] then 0
    else (if calls[0].StepCall? then 1 else 0) + StepCount(calls[1..])
  }

  function Min(a: int, b: int): int {
    if a <= b then a else b
  }

  /** The state after applying `calls` to `s`, on a non-empty dataset. */
  function Run(labels: seq<int>, s: EnvState, calls: seq<Call>): (s': EnvState)
    requires s.stateIndex < |labels| && ValidCalls(calls)
    ensures s'.stateIndex < |labels|
    ensures Inv(labels, s) ==> Inv(labels, s')
    decreases |calls|
  {
    if calls == [] then s
    else
      var first := match calls[0]
        case StepCall(action) => Next(labels, s, action)
        case ResetCall => ResetState(s);
      assert ValidCalls(calls[1..]) by {
        forall i | 0 <= i < |calls[1..]| ensures calls[1..][i].ResetCall? || ValidAction(calls[1..][i].action) {
          assert calls[1..][i] == calls[i + 1];
        }
      }
      Run(labels, first, calls[1..])
  }

  /**
   * The run's first call and the rest: what the inductive proofs below unfold.
   */
  lemma {:induction false} RunUnfold(labels: seq<int>, s: EnvState, calls: seq<Call>)
    requires s.stateIndex < |labels| && ValidCalls(calls) && calls != []
    ensures ValidCalls(calls[1..])
    ensures calls[0].StepCall? ==>
      (ValidAction(calls[0].action) &&
       Run(labels, s, calls) == Run(labels, Next(labels, s, calls[0].action), calls[1..]))
    ensures calls[0].ResetCall? ==>
      Run(labels, s, calls) == Run(labels, ResetState(s), calls[1..])
    ensures StepCount(calls) == (if calls[0].StepCall? then 1 else 0) + StepCount(calls[1..])
    ensures OnlySteps(calls) ==> OnlySteps(calls[1..])
  {
  }

  /**
   * Lifetime count: every `step` scores exactly one guess and `reset` keeps
   * the counters, so the counters grow by the number of steps in the run.
   */
  lemma {:induction false} LifetimeCount(labels: seq<int>, s: EnvState, calls: seq<Call>)
    requires s.stateIndex < |labels| && ValidCalls(calls)
    ensures Total(Run(labels, s, calls)) == Total(s) + StepCount(calls)
    decreases |calls|
  {
    if calls != [] {
      RunUnfold(labels, s, calls);
      match calls[0]
      case StepCall(action) =>
        LifetimeCount(labels, Next(labels, s, action), calls[1..]);
      case ResetCall =>
        LifetimeCount(labels, ResetState(s), calls[1..]);
    }
  }

  /**
   * The cursor after a run, across resets: it has moved forward once per
   * step until it reached the last row, and stayed there. So it never moves
   * back, never leaves the dataset, and the last row is absorbing.
   */
  lemma {:induction false} CursorAfterRun(labels: seq<int>, s: EnvState, calls: seq<Call>)
    requires s.stateIndex < |labels| && ValidCalls(calls)
    ensures Run(labels, s, calls).stateIndex == Min(s.stateIndex + StepCount(calls), |labels| - 1)
    decreases |calls|
  {
    if calls != [] {
      RunUnfold(labels, s, calls);
      match calls[0]
      case StepCall(action) =>
        CursorAfterRun(labels, Next(labels, s, action), calls[1..]);
      case ResetCall =>
        CursorAfterRun(labels, ResetState(s), calls[1..]);
    }
  }

  /** Once on the last row, the cursor stays there whatever the run. */
  lemma LastRowIsAbsorbing(labels: seq<int>, s: EnvState, calls: seq<Call>)
    requires s.stateIndex == |labels| - 1 && ValidCalls(calls)
    ensures Run(labels, s, calls).stateIndex == |labels| - 1
  {
    CursorAfterRun(labels, s, calls);
  }

  /**
   * Inside one episode (no reset): the turn count grows by one per step, and
   * the episode is over exactly when it already was, or the run is not
   * empty and either more than TurnsMax turns were taken or the cursor
   * reached the last row.
   */
  lemma {:induction false} EpisodeAfterSteps(labels: seq<int>, s: EnvState, calls: seq<Call>)
    requires s.stateIndex < |labels| && ValidCalls(calls) && OnlySteps(calls)
    ensures Run(labels, s, calls).turns == s.turns + |calls|
    ensures Run(labels, s, calls).episodeOver <==>
      s.episodeOver ||
      (|calls| > 0 && (s.turns + |calls| > TurnsMax || s.stateIndex + |calls| >= |labels| - 1))
    decreases |calls|
  {
    if calls != [] {
      RunUnfold(labels, s, calls);
      var next := Next(labels, s, calls[0].action);
      EpisodeAfterSteps(labels, next, calls[1..]);
      CursorAfterRun(labels, next, calls[1..]);
    }
  }

  /** A fresh episode is over after 201 steps, however long the dataset. */
  lemma EpisodeEndsAfterTurnCap(labels: seq<int>, s: EnvState, calls: seq<Call>)
    requires s.stateIndex < |labels| && s.turns == 0
    requires ValidCalls(calls) && OnlySteps(calls) && |calls| == TurnsMax + 1
    ensures Run(labels, s, calls).episodeOver
  {
    EpisodeAfterSteps(labels, s, calls);
  }

  /**
   * A fresh episode is not over while at most TurnsMax steps were taken and
   * the cursor has not reached the last row.
   */
  lemma EpisodeRunsUntilCapOrLastRow(labels: seq<int>, s: EnvState, calls: seq<Call>)
    requires s.stateIndex < |labels| && !s.episodeOver && s.turns == 0
    requires ValidCalls(calls) && OnlySteps(calls)
    requires |calls| <= TurnsMax && s.stateIndex + |calls| < |labels| - 1
    ensures !Run(labels, s, calls).episodeOver
  {
    EpisodeAfterSteps(labels, s, calls);
  }

  /**
   * Enough steps to reach the last row end the episode whatever the turn
   * count, with the cursor on the last row.
   */
  lemma EpisodeEndsAtLastRow(labels: seq<int>, s: EnvState, calls: seq<Call>)
    requires s.stateIndex < |labels| && ValidCalls(calls) && OnlySteps(calls)
    requires |calls| > 0 && s.stateIndex + |calls| >= |labels| - 1
    ensures Run(labels, s, calls).episodeOver
    ensures Run(labels, s, calls).stateIndex == |labels| - 1
  {
    EpisodeAfterSteps(labels, s, calls);
    CursorAfterRun(labels, s, calls);
  }

  /**
   * `reset` keeps the cursor, so a reset on the last row starts an episode
   * that ends again on its first step.
   */
  lemma ResetOnLastRowEndsAtOnce(labels: seq<int>, s: EnvState, action: int)
    requires s.stateIndex == |labels| - 1 && ValidAction(action)
    ensures !ResetState(s).episodeOver
    ensures Next(labels, ResetState(s), action).episodeOver
    ensures Next(labels, ResetState(s), action).turns == 1
  {
  }
}
