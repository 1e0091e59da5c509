/**
 * Concrete runs of one slot with patience 3, awakening 2 and lambda 6.0,
 * traced three instances at a time. Each lemma starts from any slot with the
 * given counters (whatever its detectors and learner hold) and states the
 * Poisson means used, where the checkpoints fell and the counters at the end.
 */
module SplobScenario {
  import opened Wrappers
  import opened Learner
  import opened SplobSlot
  import opened SplobProps

  const Cfg: Config := Config(1, 6.0, 3, 2, false)

  const X: Instance := Instance([1.0], 1.0, 0.0)

  /** An instance that trains nothing and triggers no drift; the Page-Hinkley verdict is `change`. */
  function NoTraining(change: bool): Input
  {
    Input(X, 0, Draw(change, 0, true, false))
  }

  /** Three instances; the verdict `change` is consulted only if the third is a checkpoint. */
  function Three(change: bool): seq<Input>
  {
    [NoTraining(false), NoTraining(false), NoTraining(change)]
  }

  predicate Counters(s: Slot, n: int, mean: bool, past: Option<bool>, awakening: int, patience: int)
  {
    && s.nInstances == n
    && s.meanDifference == mean
    && s.pastMeanDifference == past
    && s.awakening == awakening
    && s.patience == patience
  }

  /** Instances 1-3 after a reset with a constant model size: oversampling from the
      reset verdict `true`; the checkpoint at 3 records "no change" but compares against
      `true`, so it keeps patience and awakening. */
  lemma FlatFirstThree(s: Slot)
    requires Counters(s, 0, true, None, 0, 3)
    ensures var t := Run(s, Cfg, Three(false));
      && t.lambdas == [6.0, 6.0, 0.1]
      && t.checks == [false, false, true]
      && Counters(t.last, 3, false, Some(true), 0, 3)
  {
  }

  /** Instances 4-6: undersampling; the checkpoint at 6 sees "no change" twice in a row,
      so it reactivates oversampling for 2 instances and doubles patience to 6, and the
      instance at 6 itself is already oversampled. */
  lemma FlatSecondThree(s: Slot)
    requires Counters(s, 3, false, Some(true), 0, 3)
    ensures var t := Run(s, Cfg, Three(false));
      && t.lambdas == [0.1, 0.1, 6.0]
      && t.checks == [false, false, true]
      && Counters(t.last, 6, false, Some(false), 1, 6)
  {
  }

  /** Instances 7-9: the awakening runs out after one more oversampled instance, and
      with patience 6 the next checkpoint is at 12, so none falls here. */
  lemma FlatLastThree(s: Slot)
    requires Counters(s, 6, false, Some(false), 1, 6)
    ensures var t := Run(s, Cfg, Three(false));
      && t.lambdas == [6.0, 0.1, 0.1]
      && t.checks == [false, false, false]
      && Counters(t.last, 9, false, Some(false), 0, 6)
  {
  }

  /** Checkpoints at 3 ("change") and 6 ("no change") never reactivate, because each
      compares against the verdict before it: `true`, then `true`. */
  lemma ChangeThenQuiet(s: Slot)
    requires Counters(s, 0, true, None, 0, 3)
    ensures var t1 := Run(s, Cfg, Three(true));
      var t2 := Run(t1.last, Cfg, Three(false));
      && t1.lambdas == [6.0, 6.0, 6.0]
      && Counters(t1.last, 3, true, Some(true), 0, 3)
      && t2.lambdas == [6.0, 6.0, 0.1]
      && Counters(t2.last, 6, false, Some(true), 0, 3)
  {
  }

  /** Continuing from there: the checkpoint at 9 doubles patience to 6 (9 / 3 is odd),
      so the next checkpoint is at 12, the next multiple of 6, not at 9 + 6 = 15. */
  lemma DoublingAtNine(s: Slot)
    requires Counters(s, 6, false, Some(true), 0, 3)
    ensures var t1 := Run(s, Cfg, Three(false));
      var t2 := Run(t1.last, Cfg, Three(false));
      && t1.checks == [false, false, true]
      && Counters(t1.last, 9, false, Some(false), 1, 6)
      && t2.checks == [false, false, true]
      && t2.lambdas == [6.0, 0.1, 6.0]
      && Counters(t2.last, 12, false, Some(false), 1, 12)
  {
  }
}
