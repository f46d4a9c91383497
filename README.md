# Fraud-detection environment, modelled in Dafny

The model covers `FraudDetectionEnv`, a reinforcement-learning environment. It walks a labelled credit-card dataset row by row. An agent guesses, for the row under the cursor, whether it is fraud (action 1) or not (action 0). The environment scores each guess with a reward of +1 or -1. It keeps four confusion-matrix counters: true/false positives and true/false negatives. It moves the cursor to the next row and reports when the episode is over.

Files:

- `fraud_detection_env.dfy`, module `FraudDetection`. The pure parts of the source are functions:
  - the reward (`Reward`);
  - the info payload (`Payload`, a four-field record instead of a JSON string);
  - the label count (`FraudCount`).

  The transition of one step is the function `Next`, and `ResetState` is the state after `reset`. The object itself is the class `FraudDetectionEnv`, whose fields the methods update in place:
  - the constructor;
  - `Step`, plus `ScoreGuess`, its scoring block split out into a helper;
  - `Reset`.

  The counting loop of `total_positives_and_negatives` is the method `TotalPositivesAndNegatives`. Each method is proved against the pure functions.
- `episodes.dfy`, module `Episodes`. A run is a sequence of `step` and `reset` calls. This module folds `Next` and `ResetState` over a run and proves by induction:
  - the lifetime count of scored guesses;
  - a closed form for the cursor;
  - when an episode ends.
- `walkthrough.dfy`, module `Walkthrough`. This is a caller of the class over the dataset `[0, 0, 1, 0, 1]`. It shows what the contracts let a caller conclude.

The dataset is a `seq<int>` of labels, so `label_for(i)` becomes `labels[i]`. Labels are not restricted to {0, 1}. Like the code, the model tests `== 1` and `== 0` and sends every other value down the else branches.

Points where the model follows the code closely:

- Cursor: the test `state_index <= rowCount - 2` (line 151) lets the cursor advance up to the last row, `rowCount - 1`, where it stays.
- Empty dataset: the code constructs the object, with class totals (0, 0). The first `step` then fails in the label lookup (line 127), before any field changes. `Step` models that failure as `Err(RowOutOfBounds(0))`, leaving the state unchanged.
- Info payload: the code passes the true-positive count in the `true_negative_rate` slot (line 156). The model reproduces this as written, and `Payload` states it.
- Termination: the docstring says an episode ends when the cumulative reward is positive (line 35). The code never checks that (lines 158-159), so the model does not either.

## Model

| member | source | states |
|---|---|---|
| FraudDetection.FraudCount | gym_fraud_detection/envs/fraud_detection_env.py:70-79 | the number of rows labelled 1 never exceeds the row count |
| FraudDetection.FraudCountIsMultiplicity | gym_fraud_detection/envs/fraud_detection_env.py:70-79 | the fraud count equals the multiplicity of label 1 in the labels, an independent definition of "rows whose label is 1" |
| FraudDetection.TotalPositivesAndNegatives | gym_fraud_detection/envs/fraud_detection_env.py:70-79 | the counting loop returns the number of rows labelled 1 (also as the multiplicity of 1) and the rest, and the two add up to the row count |
| FraudDetection.Reward | gym_fraud_detection/envs/fraud_detection_env.py:127-149 | for an action in the action space, the reward is +1 or -1, never 0, and +1 exactly when the action equals the label |
| FraudDetection.Payload | gym_fraud_detection/envs/fraud_detection_env.py:83-89 | the payload carries (tp, fp, tp, fn): the true-negative slot duplicates the true-positive count; the true negatives are what the three reported counts leave of the total |
| FraudDetection.Score | gym_fraud_detection/envs/fraud_detection_env.py:127-149 | scoring bumps exactly one counter by one: TP for (1, 1), FP for (1, not 1), TN for (0, 0), FN for (0, not 0); the other three do not move, and cursor, turns and flag are left alone |
| FraudDetection.Next | gym_fraud_detection/envs/fraud_detection_env.py:125-159 | one step keeps the cursor in the dataset and preserves the reachable-state invariant; exactly one counter goes up by one (TP for (1,1), FP for (1,not 1), TN for (0,0), FN for (0,not 0)) and the others do not move; the cursor goes up by one except on the last row where it stays; turns go up by one; the flag is sticky and is set exactly when turns exceed 200 or the cursor is on the last row |
| FraudDetection.ResetState | gym_fraud_detection/envs/fraud_detection_env.py:165-168 | reset zeroes the turns and clears the flag, and keeps the cursor and all four counters |
| FraudDetection.ResetKeepsInv | gym_fraud_detection/envs/fraud_detection_env.py:165-168 | a reset state is again a reachable state |
| FraudDetection.SingleRowEndsOnFirstStep | gym_fraud_detection/envs/fraud_detection_env.py:151-159 | on a one-row dataset the first step leaves the cursor at 0 and ends the episode |
| FraudDetection.FraudDetectionEnv.constructor | gym_fraud_detection/envs/fraud_detection_env.py:51-67 | construction starts with cursor, turns, flag and counters at zero and the class totals of the dataset |
| FraudDetection.FraudDetectionEnv.ScoreGuess | gym_fraud_detection/envs/fraud_detection_env.py:127-149 | the scoring block updates the counters as `Score` says and returns `Reward` of (action, label) |
| FraudDetection.FraudDetectionEnv.Step | gym_fraud_detection/envs/fraud_detection_env.py:96-161 | with an action in the action space: on an empty dataset the lookup fails and nothing changes; otherwise the new state is `Next` of the old one, the lifetime step count goes up by one, and the result is (new cursor, reward for the old cursor's label, flag, payload of the new counters); class totals never change |
| FraudDetection.FraudDetectionEnv.Reset | gym_fraud_detection/envs/fraud_detection_env.py:165-168 | the new state is `ResetState` of the old: turns 0 and flag false, and cursor, counters, class totals and lifetime step count are unchanged |
| Episodes.Run | gym_fraud_detection/envs/fraud_detection_env.py:96-168 | any sequence of valid steps and resets keeps the cursor inside the dataset and preserves the reachable-state invariant |
| Episodes.LifetimeCount | gym_fraud_detection/envs/fraud_detection_env.py:136-149 | across steps and resets, tp + tn + fp + fn grows by exactly the number of step calls |
| Episodes.CursorAfterRun | gym_fraud_detection/envs/fraud_detection_env.py:151-152 | after any run, resets included, the cursor is min(start + number of steps, rowCount - 1): it never decreases and never leaves the dataset |
| Episodes.LastRowIsAbsorbing | gym_fraud_detection/envs/fraud_detection_env.py:151-152 | once on the last row, no run moves the cursor away from it |
| Episodes.EpisodeAfterSteps | gym_fraud_detection/envs/fraud_detection_env.py:154-159 | inside one episode, turns grow by the number of steps, and the episode is over exactly when it already was or when a non-empty run took more than 200 turns or reached the last row |
| Episodes.EpisodeEndsAfterTurnCap | gym_fraud_detection/envs/fraud_detection_env.py:154-159 | an episode started with zero turns is over after 201 steps, however long the dataset |
| Episodes.EpisodeRunsUntilCapOrLastRow | gym_fraud_detection/envs/fraud_detection_env.py:154-159 | a fresh episode is not over after at most 200 steps that do not reach the last row |
| Episodes.EpisodeEndsAtLastRow | gym_fraud_detection/envs/fraud_detection_env.py:151-159 | steps enough to reach the last row end the episode whatever the turn count, with the cursor on the last row |
| Episodes.ResetOnLastRowEndsAtOnce | gym_fraud_detection/envs/fraud_detection_env.py:151-168 | a reset on the last row starts an episode that the next step ends after one turn |
| Walkthrough.FiveRowTotals | gym_fraud_detection/envs/fraud_detection_env.py:70-79 | the dataset [0, 0, 1, 0, 1] has two fraud rows |

## Left out

- Loading the CSV file with pandas (lines 42-43) and the row lookup `iloc[...]['Class']` (line 93). The dataset is a given sequence of labels.
- The gym space objects (lines 45-48). Only their meaning is kept. `ACTION_LOOKUP` (line 45) is used only to size the action space, kept as `ActionCount = 2`, so `ValidAction` is membership in `Discrete(2)`, and `Next` keeps the observation below the row count. Gym's space also accepts numpy integer scalars; the model's actions are mathematical integers.
- `seed` (lines 171-173). It draws from gym's random-number helper and touches no state of the model.
- The `json.dumps` encoding of the info payload (line 89). The payload is the record `Info`.
- The fields that are written but never read: `observation`, `initial_state`, `cummulative_rewards` and `action` (lines 51-59), and the float `sum_rewards` set by `reset` (line 168).
- Python's exception for an action outside the action space (line 125). The model makes this a precondition of `Step`, because the assertion is a demand on the caller.
