# SPLOB and TemporallyAugmentedRegressor, modelled in Dafny

This project models two MOA meta-learners.

**SPLOB** (Spaced Learning with Online Bagging) is an online-bagging ensemble.
Each member ("slot") decides how hard to train on each instance. It does so with two
coupled signals:

- a primary drift detector on the member's 0/1 errors;
- a Page-Hinkley detector on the member's tree size.

Every training instance runs one fixed-order step per slot:

1. Count the instance.
2. Feed the size signal to the Page-Hinkley detector.
3. At a checkpoint (the slot's own counter is a multiple of its current patience), apply the rule table. Two "no change" verdicts in a row reactivate oversampling for `awakening` instances and double the patience. "No change" followed by "change" cancels the reactivation and resets the patience.
4. Pick the Poisson mean: `lambdaFixed` while the verdict is "change" or awakening is left, 0.1 otherwise.
5. Train with weight `k` when the Poisson draw `k` is positive.
6. Run the drift check. On drift the slot is soft-reset, and its learner is reset too when `resetModel` is set.

Prediction adds up the members' L1-normalised votes. A member whose vote sums to 0 or less abstains.

**TemporallyAugmentedRegressor** keeps a bounded FIFO window of recent labels. It prepends
that window to each instance's value vector. Its base learner is trained only while the
window is exactly full.

The model is functional. A `Slot` is an immutable record and `SplobSlot.Step` is a pure
function. Whatever is random or learned arrives as an input:

- the Poisson draw;
- both detectors' verdicts;
- the learner's correctness;
- the members' tree sizes;
- the base learner's votes.

A detector is represented by the observations fed to it since its last reset. A base
learner is represented by the weighted instances it was trained on since its last reset.

Files:

- `wrappers.dfy`: `Option` and `Result`.
- `learner.dfy`: instances and the abstract base learner.
- `splob_slot.dfy`: the per-slot state machine.
- `splob_props.dfy`: the invariant, the cadence, the awakening countdown and the drift reset.
- `splob_scenario.dfy`: concrete traces.
- `splob_ensemble.dfy`: reset and one training round over all slots.
- `splob_measure.dfy`: the size signal and the tree-size measurement.
- `splob_votes.dfy`: vote aggregation.
- `numbers.dfy`: a small shared integer helper.
- `temporal.dfy`: TemporallyAugmentedRegressor.

## Behaviour of the code worth knowing

- **First checkpoint after a reset or drift.** It compares the new verdict against the
  initial `true`. `pastMeanDifference` is overwritten with the current verdict before
  the comparison, so it is never `null` when compared (`SplobProps.FirstCheckpointKeeps`,
  `SplobProps.ComparisonNeverSeesNull`).
- **A trace with patience 3, awakening 2, mean 6.0 and a model size that never changes:**
  - instances 1-3 use the means 6, 6, 0.1, and the checkpoint at 3 keeps everything;
  - instances 4-6 use 0.1, 0.1, 6: the checkpoint at 6 sees "no change" twice, reactivates oversampling and doubles patience to 6;
  - instances 7-9 use 6, 0.1, 0.1, and the next checkpoint is at 12 (`SplobScenario.FlatFirstThree`, `FlatSecondThree`, `FlatLastThree`).
- **Checkpoint spacing after a doubling.** It depends on where the counter stands. After a doubling at 9 (patience 3 to 6), the next checkpoint is at 12, not 15 (`SplobScenario.DoublingAtNine`, `SplobProps.DoublingNextCheckpoint`).
- **Correctness for the drift check.** It is taken from the learner after it was trained
  on the instance, because `driftDetection` runs after training.
- **Padding in `extendWithOldLabels`.** The zero-padding has no effect: the extended vector
  is exactly the window followed by the values (`TemporalAugment.ExtendValues`). So until
  the window fills, a prediction sees a vector shorter than the header's
  `numOldLabels + numAttributes`.
- **`resetLearningImpl` of TemporallyAugmentedRegressor.** It does not clear the label window
  (`TemporalAugment.ResetLearning`).

## Model

| member | source | states |
|---|---|---|
| `Learner.TrainWeighted` | moa/src/main/java/moa/classifiers/meta/SPLOB.java:316-320 | the learner is trained on one more copy of the instance, with the same values and class, whose weight is the instance weight times the factor |
| `SplobSlot.InitialSlot` | moa/src/main/java/moa/classifiers/meta/SPLOB.java:132-140 | a reset slot has counter 0, verdict `true`, no previous verdict, awakening 0, patience at its option value, fresh detectors and a fresh learner, and satisfies the slot invariant |
| `SplobSlot.Classify` | moa/src/main/java/moa/classifiers/meta/SPLOB.java:173-179 | rule table: "no change" after "no change" reactivates, "change" after "no change" cancels, anything after "change" keeps; an unset previous verdict is the null-unboxing failure |
| `SplobSlot.Checkpoint` | moa/src/main/java/moa/classifiers/meta/SPLOB.java:166-180 | off a multiple of patience nothing changes; at one, the previous verdict takes the old verdict before the new verdict is stored and the Page-Hinkley detector is reset; reactivation sets awakening to its option and doubles patience, cancellation zeroes awakening and resets patience, otherwise both are kept |
| `SplobSlot.SelectLambda` | moa/src/main/java/moa/classifiers/meta/SPLOB.java:183-190 | the mean is `lambdaFixed` iff the verdict is "change" or awakening is positive, else 0.1; awakening drops by exactly one only when positive and never goes negative; nothing else changes |
| `SplobSlot.TrainMember` | moa/src/main/java/moa/classifiers/meta/SPLOB.java:192-195 | with `k = 0` the slot is untouched; with `k > 0` only the learner changes, trained on the instance with weight times `k` |
| `SplobSlot.DriftCheck` | moa/src/main/java/moa/classifiers/meta/SPLOB.java:252-269 | the primary detector is fed 0 for correct and 1 for wrong; on drift the counters return to their reset values, both detectors are fresh and the learner is reset only under `resetModel`; without drift nothing else changes |
| `SplobSlot.Step` | moa/src/main/java/moa/classifiers/meta/SPLOB.java:149-198 | one iteration: the checkpoint runs iff the post-increment counter is a multiple of the current patience; the mean is one of the two values and follows the regime; the learner is trained iff `k > 0` unless a drift resets it; a drift overrides everything the checkpoint did; between checkpoints the verdicts and patience are kept and awakening counts down; at a checkpoint without drift, reactivation leaves awakening one below its option and patience doubled, cancellation leaves awakening 0 and patience at its option, keeping leaves patience and counts awakening down, and the mean is `lambdaFixed` iff the new verdict is "change", the old one was "no change", or awakening was left |
| `SplobProps.StepKeepsDoubling` | moa/src/main/java/moa/classifiers/meta/SPLOB.java:173-179 | patience stays its option value doubled zero or more times |
| `SplobProps.StepKeepsUnset` | moa/src/main/java/moa/classifiers/meta/SPLOB.java:166-179 | while no checkpoint has run since a reset, the verdict is `true`, awakening 0, patience at its option value and the counter below patience |
| `SplobProps.StepPreservesInv` | moa/src/main/java/moa/classifiers/meta/SPLOB.java:149-198 | every step keeps the slot invariant: counter non-negative, patience at least its option value (so at least 1), awakening within 0 and its option value |
| `SplobProps.StepCountsDownToCheckpoint` | moa/src/main/java/moa/classifiers/meta/SPLOB.java:150-166 | the cadence is relative to the slot's own counter: a checkpoint runs exactly when the distance to the next multiple of patience is one step, and otherwise that distance drops by one |
| `SplobProps.DoublingNextCheckpoint` | moa/src/main/java/moa/classifiers/meta/SPLOB.java:166-175 | after a doubling at counter `c`, the next checkpoint is the next multiple of the new patience: `2p` steps away when `c / p` is even and `p` steps away when it is odd |
| `SplobProps.FirstCheckpointKeeps` | moa/src/main/java/moa/classifiers/meta/SPLOB.java:168-179 | the first checkpoint after a reset compares against `true`, so awakening and patience keep their reset values |
| `SplobProps.ComparisonNeverSeesNull` | moa/src/main/java/moa/classifiers/meta/SPLOB.java:166-179 | at every checkpoint of a step the previous verdict is the snapshot of the current one, so the rule table is defined on it, and awakening and patience come out as its outcome (reactivate, cancel or keep) dictates |
| `SplobProps.DriftTwiceIsDriftOnce` | moa/src/main/java/moa/classifiers/meta/SPLOB.java:257-267 | a second drift straight after a first leaves the slot as the first left it, the learner too when `resetModel` is set |
| `SplobProps.Run` | moa/src/main/java/moa/classifiers/meta/SPLOB.java:144-199 | one slot over a sequence of instances records one mean and one checkpoint flag per instance and keeps patience positive |
| `SplobProps.RunPreservesInv` | moa/src/main/java/moa/classifiers/meta/SPLOB.java:144-199 | the slot invariant holds after any number of instances |
| `SplobProps.AwakeningCountdown` | moa/src/main/java/moa/classifiers/meta/SPLOB.java:183-190 | with verdict "no change" and awakening `a`, the next instances use `lambdaFixed` for exactly `a` instances and 0.1 after that; awakening ends at `max(a - n, 0)`, as long as no checkpoint or drift intervenes |
| `SplobScenario.FlatFirstThree` | moa/src/main/java/moa/classifiers/meta/SPLOB.java:149-198 | patience 3, awakening 2, constant size: means 6, 6, 0.1; checkpoint at 3 keeps |
| `SplobScenario.FlatSecondThree` | moa/src/main/java/moa/classifiers/meta/SPLOB.java:149-198 | instances 4-6: means 0.1, 0.1, 6; reactivation at 6 doubles patience to 6 and leaves awakening at 1 |
| `SplobScenario.FlatLastThree` | moa/src/main/java/moa/classifiers/meta/SPLOB.java:149-198 | instances 7-9: means 6, 0.1, 0.1; no checkpoint before 12 |
| `SplobScenario.ChangeThenQuiet` | moa/src/main/java/moa/classifiers/meta/SPLOB.java:166-190 | "change" at 3 and "no change" at 6 never reactivate, each being compared with `true` |
| `SplobScenario.DoublingAtNine` | moa/src/main/java/moa/classifiers/meta/SPLOB.java:166-190 | a doubling to 6 at instance 9 puts the next checkpoint at 12, not 15 |
| `SplobMeasure.ComplexitySignal` | moa/src/main/java/moa/classifiers/meta/SPLOB.java:152-164 | the Page-Hinkley input is a tree's node count, a forest's mean node count rounded down, or 0; a forest without trees divides by zero |
| `SplobMeasure.AccumulateAsWritten` | moa/src/main/java/moa/classifiers/meta/SPLOB.java:230-245 | the running total as written has no defined value iff some member is a forest without trees, and stays non-negative |
| `SplobMeasure.MeasureAsWritten` | moa/src/main/java/moa/classifiers/meta/SPLOB.java:229-249 | the reported figure as written is undefined iff some forest has no trees, and is otherwise non-negative |
| `SplobMeasure.MeasureAsWrittenDependsOnOrder` | moa/src/main/java/moa/classifiers/meta/SPLOB.java:229-249 | with two forests of two trees each (4-node trees and 2-node trees) the figure as written is 2.0 or 2.5 depending on member order |
| `SplobMeasure.MeasureAsWrittenUndercounts` | moa/src/main/java/moa/classifiers/meta/SPLOB.java:229-249 | two identical forests of two 4-node trees give 3.0 as written, against the intended 4.0 |
| `SplobMeasure.TotalTreeSize` | moa/src/main/java/moa/classifiers/meta/SPLOB.java:233-245 | the intended total of per-member tree sizes is undefined iff some forest has no trees, and is otherwise non-negative |
| `SplobMeasure.MeanTreeSize` | moa/src/main/java/moa/classifiers/meta/SPLOB.java:229-249 | the intended figure, the mean of each member's (mean) tree size, is undefined iff some forest has no trees, and is otherwise non-negative |
| `SplobMeasure.TotalTreeSizeAppend` | moa/src/main/java/moa/classifiers/meta/SPLOB.java:229-249 | the intended total is additive over any split of the members |
| `SplobMeasure.TotalTreeSizePermutation` | moa/src/main/java/moa/classifiers/meta/SPLOB.java:233-245 | any permutation of the members gives the same intended total |
| `SplobMeasure.MeanTreeSizeOrderFree` | moa/src/main/java/moa/classifiers/meta/SPLOB.java:229-249 | the intended measurement is the same for any permutation of the members |
| `SplobMeasure.MeasureAgreesWithoutForests` | moa/src/main/java/moa/classifiers/meta/SPLOB.java:229-249 | for an ensemble of trees the code as written and the intended measurement coincide |
| `SplobMeasure.MeanTreeSizeExample` | moa/src/main/java/moa/classifiers/meta/SPLOB.java:229-249 | the intended measurement reports 3.0 for both orders of the two-forest example |
| `SplobEnsemble.Reset` | moa/src/main/java/moa/classifiers/meta/SPLOB.java:119-141 | reset yields exactly `ensembleSize` (at least 1) slots, each with reset counters, fresh detectors and a fresh learner |
| `SplobEnsemble.Signals` | moa/src/main/java/moa/classifiers/meta/SPLOB.java:152-164 | one size signal per member, failing iff some member's size cannot be read |
| `SplobEnsemble.TrainOnInstance` | moa/src/main/java/moa/classifiers/meta/SPLOB.java:144-199 | a training instance advances every slot by its own step on its own signal and draws, and fails iff a size read fails |
| `SplobEnsemble.TrainPreservesInv` | moa/src/main/java/moa/classifiers/meta/SPLOB.java:144-199 | when every member's size can be read the training instance succeeds, and all slots keep the slot invariant through it |
| `SplobEnsemble.MembersIndependent` | moa/src/main/java/moa/classifiers/meta/SPLOB.java:149-198 | a slot's new state and mean depend only on its own state and observations, whatever the other members hold |
| `SplobEnsemble.DriftResetsOnlyItsSlot` | moa/src/main/java/moa/classifiers/meta/SPLOB.java:252-269 | a drift in one slot resets that slot and no other |
| `SplobVotes.NormalizeSumsToOne` | moa/src/main/java/moa/classifiers/meta/SPLOB.java:211-213 | a normalised vote with positive sum sums to one |
| `SplobVotes.CombineVotes` | moa/src/main/java/moa/classifiers/meta/SPLOB.java:207-216 | the combined vote is as long as the longest vote of a member that does not abstain |
| `SplobVotes.CombinedVoteMass` | moa/src/main/java/moa/classifiers/meta/SPLOB.java:203-217 | the combined vote sums to the number of members whose vote has a positive sum |
| `SplobVotes.CombinedVoteEntries` | moa/src/main/java/moa/classifiers/meta/SPLOB.java:203-217 | each entry of the combined vote is the sum over non-abstaining members of their share of that class |
| `SplobVotes.CombineVotesExample` | moa/src/main/java/moa/classifiers/meta/SPLOB.java:209-215 | votes [2, 2] and [0, 0] combine to [0.5, 0.5] |
| `TemporalAugment.AddOldLabel` | moa/src/main/java/moa/classifiers/meta/TemporallyAugmentedRegressor.java:92-97 | fails iff the capacity is 0 and the window empty; otherwise the window becomes the newest entries of the old window followed by the label, one longer unless it was full |
| `TemporalAugment.WindowBounded` | moa/src/main/java/moa/classifiers/meta/TemporallyAugmentedRegressor.java:92-97 | with capacity at least 1 the window never exceeds it; a full window drops its oldest entry and appends the new one |
| `TemporalAugment.AddOldLabelLastN` | moa/src/main/java/moa/classifiers/meta/TemporallyAugmentedRegressor.java:92-97 | adding a label to the newest `n` labels of a history gives the newest `n` labels of the longer history |
| `TemporalAugment.FeedKeepsNewest` | moa/src/main/java/moa/classifiers/meta/TemporallyAugmentedRegressor.java:92-97 | after any sequence of labels the window holds the newest `numOldLabels` of them in arrival order |
| `TemporalAugment.ZeroCapacityFails` | moa/src/main/java/moa/classifiers/meta/TemporallyAugmentedRegressor.java:93-94 | with capacity 0 the first label fails on `remove(0)` of the empty list |
| `TemporalAugment.ExtendValues` | moa/src/main/java/moa/classifiers/meta/TemporallyAugmentedRegressor.java:135-144 | the padded-and-overwritten vector is exactly the window followed by the instance's values |
| `TemporalAugment.Extend` | moa/src/main/java/moa/classifiers/meta/TemporallyAugmentedRegressor.java:130-149 | the extended instance keeps the weight and class value and prepends the window |
| `TemporalAugment.ResetLearning` | moa/src/main/java/moa/classifiers/meta/TemporallyAugmentedRegressor.java:74-78 | reset gives a fresh base learner and leaves the window and both options as they were |
| `TemporalAugment.ResetKeepsWarmWindow` | moa/src/main/java/moa/classifiers/meta/TemporallyAugmentedRegressor.java:74-90 | after a reset with a full window and true labels, the fresh base learner is trained on the very next extended instance: there is no second fill phase |
| `TemporalAugment.TrainOnInstance` | moa/src/main/java/moa/classifiers/meta/TemporallyAugmentedRegressor.java:81-90 | the base learner is trained on the extended instance iff the window is exactly full; without label delay the true class value is then added, with it the window is unchanged; fails iff that add fails |
| `TemporalAugment.MaxIndex` | moa/src/main/java/moa/classifiers/meta/TemporallyAugmentedRegressor.java:156 | the index of the first largest entry, 0 for an empty vote |
| `TemporalAugment.GetVotes` | moa/src/main/java/moa/classifiers/meta/TemporallyAugmentedRegressor.java:152-159 | the base learner's vote is returned unchanged and nothing but the window changes; only with label delay is its arg-max added to the window |
| `TemporalAugment.PredictAllKeepsNewest` | moa/src/main/java/moa/classifiers/meta/TemporallyAugmentedRegressor.java:152-159 | with label delay and a positive capacity, predictions never fail, never train the base learner, and leave the window holding the newest `numOldLabels` predicted arg-maxes |
| `TemporalAugment.TrainOneKeepsNewest` | moa/src/main/java/moa/classifiers/meta/TemporallyAugmentedRegressor.java:81-97 | one training instance with true labels keeps the window as the newest labels and trains exactly when it was full |
| `TemporalAugment.TrainAllFillsThenTrains` | moa/src/main/java/moa/classifiers/meta/TemporallyAugmentedRegressor.java:81-97 | starting from `m` labels, after `n` instances the window is the newest labels and the learner was trained `max(m + n - numOldLabels, 0)` times |

## Findings

| source | as written | input that shows it | evidently intended | confidence | as-written member | corrected member |
|---|---|---|---|---|---|---|
| moa/src/main/java/moa/classifiers/meta/SPLOB.java:243 | a forest member divides the running total, which already holds the earlier members' sizes, by its tree count | ensemble size 2 of adaptive random forests with two trees each: members [4-node trees, 2-node trees] give 2.0, the other order 2.5; two members of 4-node trees give 3.0 | divide only the forest's own node total, so each member counts with its own mean tree size: 3.0 in either order, and 4.0 for the equal members | medium, not executed | `SplobMeasure.MeasureAsWrittenDependsOnOrder` | `SplobMeasure.MeanTreeSizeOrderFree` |

## Left out

- The Poisson sampler, the seeded `Random` and the seed option. The draw `k` is an input of each step.
- The internals of the Page-Hinkley and ADWIN detectors. Their verdicts are inputs. `input` and `resetLearning` are modelled as appending to and clearing the detector's observation history.
- The base learners: Hoeffding trees, adaptive random forests, `correctlyClassifies`, `getVotesForInstance` and `getTreeSizeNodes`. Correctness, votes and node counts are inputs.
- Floating point. Votes, weights and measurements are `real`.
- `DoubleVector` is not part of this model. Its `normalize` and `addValues` are modelled as scaling by the reciprocal of the sum and as a zero-extending element-wise sum.
- `moa/core/Utils.java` is not part of this model. `TemporalAugment.MaxIndex` follows the first-largest-entry rule, with 0 for an empty vector.
- `SplobSlot.Checkpoint`: does not model the 32-bit wrap-around of `patience * 2`, because patience is an unbounded integer. Likewise the instance counter does not overflow.
- `SplobEnsemble.TrainOnInstance`: when a member's size cannot be read, the whole round fails. The source has already updated the earlier members at that point.
- `TemporalAugment.TrainOnInstance`: on failure, the training of the base learner just before the exception is not kept.
- Member kinds in the measurement: the model lets a tree and a forest sit in one ensemble, although SPLOB copies one base learner into every member. The counterexamples above use only forests.
- `SplobMeasure.MeasureAsWritten`: `None` stands for the infinite or NaN double that a forest without trees produces.
- `TemporalAugment.Extend`: keeps the original class value whatever the window holds. In the source, the class is read through the header (`initHeader`, `setModelContext`, its class index), which points at it only when the window is full, the only time the extended instance is trained on; the header is not modelled.
- The lazy `initEnsemble`. It is folded into `SplobEnsemble.Reset`, because both create fresh learners for every slot. The measurement also divides by the option value rather than the array length; the two agree unless the option changes between reset and first use.
- The per-member performance evaluator. It is reset with the learner but never read.
- `getModelMeasurementsImpl` of TemporallyAugmentedRegressor, which only delegates.
- Option declarations, capabilities, `getModelDescription`, `getPurposeString`, `isRandomizable` and `toString`.
- The prequential evaluation task. It is file output, timing and evaluator plumbing around the learners.
