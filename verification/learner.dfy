/**
 * The stream examples and the externally supplied base learner. The learned
 * state of a base learner is opaque here: a model is represented by the
 * weighted examples it was trained on since its last reset.
 */
module Learner {

  /** One stream example: its value vector (`toDoubleArray`), weight and class value. */
  datatype Instance = Instance(values: seq<real>, weight: real, classValue: real)

  /** A base learner, as the sequence of examples it was trained on since its last reset. */
  datatype Model = Model(seen: seq<Instance>)

  /** A freshly reset base learner. */
  function Fresh(): Model
  {
    Model([])
  }

  /** `Classifier.trainOnInstance`: one more example for the learner. */
  function TrainOn(m: Model, x: Instance): Model
  {
    Model(m.seen + [x])
  }

  /** `BaseLearner.trainOnInstance(instance, weight)`: trains on a copy whose
      weight is the instance's own weight times `factor`. */
  function TrainWeighted(m: Model, x: Instance, factor: real): (r: Model)
    ensures |r.seen| == |m.seen| + 1
    ensures r.seen[..|m.seen|] == m.seen
    ensures r.seen[|m.seen|].values == x.values
    ensures r.seen[|m.seen|].classValue == x.classValue
    ensures r.seen[|m.seen|].weight == x.weight * factor
  {
    TrainOn(m, x.(weight := x.weight * factor))
  }
}
