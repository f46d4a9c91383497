/**
 * The fraud-detection environment: an episodic state machine that walks a
 * labelled dataset row by row, scores a binary guess for the row under the
 * cursor, keeps confusion-matrix counters and reports when an episode ends.
 *
 * The dataset is a sequence of labels (the `Class` column of the table); row
 * `i` is labelled `labels[i]`. Labels are not restricted to {0, 1}: the code
 * compares them with `== 1` and `== 0` and treats every other value through
 * the else branches, and so does this model.
 */
module FraudDetection {

  /** The episode cap `turns_max`: an episode ends once more turns than this were taken. */
  const TurnsMax: nat := 200

  /** Size of the action space: 0 means "not fraud", 1 means "fraud". */
  const ActionCount: nat := 2

  /** Membership in the action space `Discrete(2)`. */
  predicate ValidAction(action: int) {
    0 <= action < ActionCount
  }

  /**
   * The diagnostic payload returned by each step. The field names are those
   * of the payload's keys; the values are counts, not rates.
   */
  datatype Info = Info(
    truePositiveRate: nat,
    falsePositiveRate: nat,
    trueNegativeRate: nat,
    falseNegativeRate: nat)

  /** What one successful step returns: (observation, reward, episode over, info). */
  datatype Transition = Transition(observation: nat, reward: int, episodeOver: bool, info: Info)

  /** The label lookup failed because the dataset has no row at `index`. */
  datatype StepError = RowOutOfBounds(index: nat)

  datatype Result<T, E> = Ok(value: T) | Err(error: E)

  /** The abstract value of the environment's mutable fields. */
  datatype EnvState = EnvState(
    stateIndex: nat,
    turns: nat,
    episodeOver: bool,
    truePositives: nat,
    trueNegatives: nat,
    falsePositives: nat,
    falseNegatives: nat)

  /** Number of guesses scored so far, of every kind. */
  function Total(s: EnvState): nat {
    s.truePositives + s.trueNegatives + s.falsePositives + s.falseNegatives
  }

  /** Number of rows labelled 1 (fraud); every other row counts as non-fraud. */
  function FraudCount(labels: seq<int>): (n: nat)
    ensures n <= |labels|
    decreases |labels|
  {
    if labels == [] then 0
    else FraudCount(labels[..|labels| - 1]) + (if labels[|labels| - 1] == 1 then 1 else 0)
  }

  /** FraudCount agrees with an independent definition: the multiplicity of label 1. */
  lemma {:induction false} FraudCountIsMultiplicity(labels: seq<int>)
    ensures FraudCount(labels) == multiset(labels)[1]
    decreases |labels|
  {
    if labels != [] {
      var init, last := labels[..|labels| - 1], labels[|labels| - 1];
      assert labels == init + [last];
      FraudCountIsMultiplicity(init);
      assert multiset(labels) == multiset(init) + multiset{last};
    }
  }

  /**
   * The reward of one guess. The code starts from 0 and adds or subtracts 1
   * in exactly one branch, so the result is +1 for a correct guess and -1
   * otherwise, never 0.
   */
  function Reward(action: int, rowLabel: int): (r: int)
    requires ValidAction(action)
    ensures r == 1 || r == -1
    ensures r == 1 <==> action == rowLabel
  {
    if action == 1 then
      (if rowLabel == 1 then 1 else -1)
    else
      (if rowLabel == 0 then 1 else -1)
  }

  /**
   * The payload built after the counters are updated. The true-negative slot
   * is filled with the true-positive count, as the code does; the true
   * negatives are reported nowhere, but they are what the payload leaves of
   * the total number of guesses.
   */
  function Payload(s: EnvState): (i: Info)
    ensures i.trueNegativeRate == i.truePositiveRate == s.truePositives
    ensures i.falsePositiveRate == s.falsePositives && i.falseNegativeRate == s.falseNegatives
    ensures Total(s) == i.truePositiveRate + i.falsePositiveRate + i.falseNegativeRate + s.trueNegatives
  {
    Info(s.truePositives, s.falsePositives, s.truePositives, s.falseNegatives)
  }

  /**
   * The invariant of every reachable state: the cursor is a row of the
   * dataset (or 0 for an empty one), and the episode is over exactly when a
   * step of this episode was taken and, after it, more than TurnsMax turns
   * were taken or the cursor sits on the last row.
   */
  ghost predicate Inv(labels: seq<int>, s: EnvState) {
    (s.stateIndex < |labels| || s.stateIndex == 0) &&
    (s.episodeOver <==> s.turns > 0 && (s.turns > TurnsMax || s.stateIndex == |labels| - 1))
  }

  /** The state after a step that found a row under the cursor. */
  function Next(labels: seq<int>, s: EnvState, action: int): (s': EnvState)
    requires ValidAction(action) && s.stateIndex < |labels|
    // the observation stays inside the observation space
    ensures s'.stateIndex < |labels|
    ensures Inv(labels, s) ==> Inv(labels, s')
    // exactly one counter goes up by one, chosen by (action, label at the old cursor)
    ensures Total(s') == Total(s) + 1
    ensures s.truePositives <= s'.truePositives && s.falsePositives <= s'.falsePositives
    ensures s.trueNegatives <= s'.trueNegatives && s.falseNegatives <= s'.falseNegatives
    ensures s'.truePositives > s.truePositives <==> action == 1 && labels[s.stateIndex] == 1
    ensures s'.falsePositives > s.falsePositives <==> action == 1 && labels[s.stateIndex] != 1
    ensures s'.trueNegatives > s.trueNegatives <==> action == 0 && labels[s.stateIndex] == 0
    ensures s'.falseNegatives > s.falseNegatives <==> action == 0 && labels[s.stateIndex] != 0
    // the cursor advances by one, except on the last row where it stays
    ensures s.stateIndex <= s'.stateIndex <= s.stateIndex + 1
    ensures s'.stateIndex == s.stateIndex <==> s.stateIndex == |labels| - 1
    ensures s'.turns == s.turns + 1
    // the flag is sticky, and set when either condition holds after the step
    ensures s'.episodeOver <==> s.episodeOver || s'.turns > TurnsMax || s'.stateIndex == |labels| - 1
  {
    var scored := Score(s, action, labels[s.stateIndex]);
    var index := if s.stateIndex <= |labels| - 2 then s.stateIndex + 1 else s.stateIndex;
    var turns := s.turns + 1;
    scored.(
      stateIndex := index,
      turns := turns,
      episodeOver := if turns > TurnsMax || index == |labels| - 1 then true else s.episodeOver)
  }

  /** The scoring part of a step: bumps the counter that (action, label) selects. */
  function Score(s: EnvState, action: int, rowLabel: int): (s': EnvState)
    requires ValidAction(action)
    // exactly one counter goes up by one, chosen by (action, label)
    ensures Total(s') == Total(s) + 1
    ensures s.truePositives <= s'.truePositives && s.falsePositives <= s'.falsePositives
    ensures s.trueNegatives <= s'.trueNegatives && s.falseNegatives <= s'.falseNegatives
    ensures s'.truePositives > s.truePositives <==> action == 1 && rowLabel == 1
    ensures s'.falsePositives > s.falsePositives <==> action == 1 && rowLabel != 1
    ensures s'.trueNegatives > s.trueNegatives <==> action == 0 && rowLabel == 0
    ensures s'.falseNegatives > s.falseNegatives <==> action == 0 && rowLabel != 0
    // cursor, turns and flag are the rest of the step's business
    ensures s'.stateIndex == s.stateIndex && s'.turns == s.turns && s'.episodeOver == s.episodeOver
  {
    if action == 1 then
      if rowLabel == 1 then s.(truePositives := s.truePositives + 1)
      else s.(falsePositives := s.falsePositives + 1)
    else
      if rowLabel == 0 then s.(trueNegatives := s.trueNegatives + 1)
      else s.(falseNegatives := s.falseNegatives + 1)
  }

  /** The state after `reset`: a new episode at the same cursor, with the counters kept. */
  function ResetState(s: EnvState): (s': EnvState)
    ensures s'.turns == 0 && !s'.episodeOver
    ensures s'.stateIndex == s.stateIndex
    ensures s'.truePositives == s.truePositives && s'.trueNegatives == s.trueNegatives
    ensures s'.falsePositives == s.falsePositives && s'.falseNegatives == s.falseNegatives
  {
    s.(turns := 0, episodeOver := false)
  }

  lemma ResetKeepsInv(labels: seq<int>, s: EnvState)
    requires Inv(labels, s)
    ensures Inv(labels, ResetState(s))
  {
  }

  /** A single-row dataset ends the episode on the first step. */
  lemma SingleRowEndsOnFirstStep(labels: seq<int>, s: EnvState, action: int)
    requires |labels| == 1 && s.stateIndex == 0 && ValidAction(action)
    ensures Next(labels, s, action).stateIndex == 0 && Next(labels, s, action).episodeOver
  {
  }

  /**
   * One pass over the rows of `labels`: the number of rows labelled 1 and the number of
   * all other rows.
   */
  method TotalPositivesAndNegatives(labels: seq<int>) returns (nFraud: nat, nNonFraud: nat)
    ensures nFraud == FraudCount(labels) == multiset(labels)[1]
    ensures nFraud + nNonFraud == |labels|
  {
    nFraud, nNonFraud := 0, 0;
    for i := 0 to |labels|
      invariant nFraud == FraudCount(labels[..i])
      invariant nFraud + nNonFraud == i
    {
      assert labels[..i + 1][..i] == labels[..i];
      if labels[i] == 1 {
        nFraud := nFraud + 1;
      } else {
        nNonFraud := nNonFraud + 1;
      }
    }
    assert labels[..|labels|] == labels;
    FraudCountIsMultiplicity(labels);
  }

  /**
   * The environment object. `labels` is the dataset, fixed for the object's
   * lifetime; `steps` is the number of steps taken since construction,
   * across resets.
   */
  class FraudDetectionEnv {
    const labels: seq<int>
    var stateIndex: nat
    var turns: nat
    var episodeOver: bool
    var truePositives: nat
    var trueNegatives: nat
    var falsePositives: nat
    var falseNegatives: nat
    const totalPositiveCases: nat
    const totalNegativeCases: nat
    ghost var steps: nat

    function State(): EnvState
      reads this
    {
      EnvState(stateIndex, turns, episodeOver, truePositives, trueNegatives, falsePositives, falseNegatives)
    }

    /**
     * The state is reachable (Inv), every step scored exactly one guess so
     * the counters add up to the lifetime step count, and the class totals
     * are those of the dataset.
     */
    ghost predicate Valid()
      reads this
    {
      Inv(labels, State()) &&
      truePositives + trueNegatives + falsePositives + falseNegatives == steps &&
      turns <= steps &&
      totalPositiveCases == FraudCount(labels) &&
      totalNegativeCases == |labels| - FraudCount(labels)
    }

    /** Sets up a fresh environment over `labels` and tallies its class totals. */
    constructor (labels: seq<int>)
      ensures Valid() && this.labels == labels && steps == 0
      ensures State() == EnvState(0, 0, false, 0, 0, 0, 0)
    {
      this.labels := labels;
      stateIndex, turns, episodeOver := 0, 0, false;
      truePositives, trueNegatives, falsePositives, falseNegatives := 0, 0, 0, 0;
      steps := 0;
      var nFraud, nNonFraud := TotalPositivesAndNegatives(labels);
      totalPositiveCases, totalNegativeCases := nFraud, nNonFraud;
    }

    /**
     * Scores `action` against the row under the cursor, advances the cursor
     * unless it is on the last row, counts the turn and sets the episode flag.
     * On an empty dataset the label lookup fails before anything changes.
     */
    method Step(action: int) returns (r: Result<Transition, StepError>)
      requires Valid() && ValidAction(action)
      modifies this
      ensures Valid()
      ensures |labels| == 0 ==>
        r == Err(RowOutOfBounds(old(stateIndex))) && State() == old(State()) && steps == old(steps)
      ensures |labels| > 0 ==>
        State() == Next(labels, old(State()), action) && steps == old(steps) + 1 &&
        r == Ok(Transition(stateIndex, Reward(action, labels[old(stateIndex)]), episodeOver, Payload(State())))
    {
      if stateIndex >= |labels| {
        return Err(RowOutOfBounds(stateIndex));
      }
      var rowLabel := labels[stateIndex];
      var reward := ScoreGuess(action, rowLabel);
      if stateIndex <= |labels| - 2 {
        stateIndex := stateIndex + 1;
      }
      turns := turns + 1;
      steps := steps + 1;
      var info := Info(truePositives, falsePositives, truePositives, falseNegatives);
      if turns > TurnsMax || stateIndex == |labels| - 1 {
        episodeOver := true;
      }
      r := Ok(Transition(stateIndex, reward, episodeOver, info));
    }

    /**
     * The scoring block of `step`: bumps the counter that (action, label)
     * selects and returns the reward.
     */
    method ScoreGuess(action: int, rowLabel: int) returns (reward: int)
      requires ValidAction(action)
      modifies this
      ensures State() == Score(old(State()), action, rowLabel) && steps == old(steps)
      ensures reward == Reward(action, rowLabel)
    {
      reward := 0;
      if action == 1 {
        if rowLabel == 1 {
          truePositives := truePositives + 1;
          reward := reward + 1;
        } else {
          falsePositives := falsePositives + 1;
          reward := reward - 1;
        }
      } else if action == 0 {
        if rowLabel == 0 {
          trueNegatives := trueNegatives + 1;
          reward := reward + 1;
        } else {
          falseNegatives := falseNegatives + 1;
          reward := reward - 1;
        }
      }
    }

    /** Starts a new episode: clears the turn count and the flag, nothing else. */
    method Reset()
      requires Valid()
      modifies this
      ensures Valid()
      ensures State() == ResetState(old(State())) && steps == old(steps)
    {
      turns := 0;
      episodeOver := false;
    }
  }
}
