/**
 * TemporallyAugmentedRegressor: a wrapper that keeps a bounded FIFO window
 * of recent labels and prepends it to the value vector of every instance it
 * hands to its base learner. The base learner is trained only while the
 * window is exactly full.
 */
module TemporalAugment {
  import opened Wrappers
  import opened Learner
  import opened Numbers

  /** The wrapper's state: its two options, the label window and the base learner. */
  datatype Augmenter = Augmenter(
    numOldLabels: int,    // -n, at least 0
    labelDelay: bool,     // -d, use predicted labels instead of true labels
    oldLabels: seq<real>,
    base: Model)

  /** The newest `n` entries of `h` (all of `h` if it is shorter). */
  function LastN(h: seq<real>, n: nat): (r: seq<real>)
    ensures |r| == if |h| <= n then |h| else n
  {
    if |h| <= n then h else h[|h| - n..]
  }

  /**
   * `addOldLabel`: when the window holds `numOldLabels` entries, drop the oldest
   * (`remove(0)`, which throws on an empty list), then append `v`.
   */
  function AddOldLabel(w: seq<real>, cap: int, v: real): (r: Result<seq<real>>)
    ensures r.Failure? <==> cap == 0 && |w| == 0
    // the result is the newest entries of the window followed by v, oldest first
    ensures r.Success? ==>
      && |r.value| == (if |w| == cap then |w| else |w| + 1)
      && r.value == LastN(w + [v], |r.value|)
      && r.value[|r.value| - 1] == v
  {
    if |w| == cap then
      if |w| == 0 then Failure(IndexOutOfBounds) else Success(w[1..] + [v])
    else
      Success(w + [v])
  }

  /** With a positive capacity the window never outgrows it; a full window drops its
      oldest entry and appends the new one. */
  lemma WindowBounded(w: seq<real>, cap: int, v: real)
    requires cap >= 1 && |w| <= cap
    ensures AddOldLabel(w, cap, v).Success?
    ensures |AddOldLabel(w, cap, v).value| <= cap
    ensures |w| == cap ==> AddOldLabel(w, cap, v).value == w[1..] + [v]
    ensures |w| < cap ==> AddOldLabel(w, cap, v).value == w + [v]
  {
  }

  /** Adding to the newest `cap` labels of a history gives the newest `cap` labels of the
      longer history. */
  lemma AddOldLabelLastN(h: seq<real>, cap: int, v: real)
    requires cap >= 1
    ensures AddOldLabel(LastN(h, cap), cap, v) == Success(LastN(h + [v], cap))
  {
    if |h| >= cap {
      assert LastN(h, cap)[1..] + [v] == (h + [v])[|h| + 1 - cap..];
    }
  }

  /** `addOldLabel` applied to each label in turn. */
  function FeedLabels(w: seq<real>, cap: int, labels: seq<real>): Result<seq<real>>
    decreases |labels|
  {
    if |labels| == 0 then Success(w)
    else
      match AddOldLabel(w, cap, labels[0])
      case Failure(e) => Failure(e)
      case Success(w') => FeedLabels(w', cap, labels[1..])
  }

  lemma SplitFirst(h: seq<real>, labels: seq<real>)
    requires |labels| > 0
    ensures h + [labels[0]] + labels[1..] == h + labels
  {
    assert labels == [labels[0]] + labels[1..];
  }

  lemma FeedLabelsCons(w: seq<real>, cap: int, labels: seq<real>)
    requires |labels| > 0 && AddOldLabel(w, cap, labels[0]).Success?
    ensures FeedLabels(w, cap, labels) == FeedLabels(AddOldLabel(w, cap, labels[0]).value, cap, labels[1..])
  {
  }

  /** Whatever labels arrive, the window is the newest `numOldLabels` of them, oldest first. */
  lemma {:induction false} FeedKeepsNewest(h: seq<real>, cap: int, labels: seq<real>)
    requires cap >= 1
    ensures FeedLabels(LastN(h, cap), cap, labels) == Success(LastN(h + labels, cap))
    decreases |labels|
  {
    if |labels| == 0 {
      assert h + labels == h;
    } else {
      var h' := h + [labels[0]];
      var w := LastN(h, cap);
      AddOldLabelLastN(h, cap, labels[0]);
      FeedLabelsCons(w, cap, labels);
      assert AddOldLabel(w, cap, labels[0]).value == LastN(h', cap);
      FeedKeepsNewest(h', cap, labels[1..]);
      SplitFirst(h, labels);
    }
  }

  /** With `numOldLabels = 0` the very first label already fails. */
  lemma ZeroCapacityFails(labels: seq<real>)
    requires |labels| > 0
    ensures FeedLabels([], 0, labels).Failure?
  {
  }

  function Zeros(n: nat): (r: seq<real>)
    ensures |r| == n && forall i :: 0 <= i < n ==> r[i] == 0.0
  {
    seq(n, _ => 0.0)
  }

  /** `Arrays.copyOfRange(a, from, to)`: entries past the end of `a` read as 0. */
  function CopyOfRange(a: seq<real>, from: int, to: int): (r: seq<real>)
    requires 0 <= from <= |a| && from <= to
    ensures |r| == to - from
    ensures forall i :: 0 <= i < to - from ==> r[i] == (if from + i < |a| then a[from + i] else 0.0)
  {
    seq(to - from, i requires 0 <= i < to - from => if from + i < |a| then a[from + i] else 0.0)
  }

  /** `System.arraycopy(src, 0, dest, pos, |src|)`. */
  function ArrayCopy(src: seq<real>, dest: seq<real>, pos: int): (r: seq<real>)
    requires 0 <= pos && pos + |src| <= |dest|
    ensures |r| == |dest|
  {
    dest[..pos] + src + dest[pos + |src|..]
  }

  /**
   * The value vector of `extendWithOldLabels`: the window is padded with zeros to
   * `numOldLabels`, but the copy is sized from the window's own length and `x` is
   * written over everything from there on, so the result is exactly the window
   * followed by `x`, and the padding never reaches the result.
   */
  function ExtendValues(w: seq<real>, cap: int, x: seq<real>): (r: seq<real>)
    ensures r == w + x
    ensures |r| == |w| + |x|
  {
    var toCopy := if |w| < cap then w + Zeros(cap - |w|) else w;
    var x2 := CopyOfRange(toCopy, 0, |w| + |x|);
    assert x2[..|w|] == w;
    ArrayCopy(x, x2, |w|)
  }

  /** `extendWithOldLabels`: same weight and class value, the window prepended. */
  function Extend(a: Augmenter, inst: Instance): (r: Instance)
    ensures r.values == a.oldLabels + inst.values
    ensures r.weight == inst.weight
    ensures r.classValue == inst.classValue
  {
    Instance(ExtendValues(a.oldLabels, a.numOldLabels, inst.values), inst.weight, inst.classValue)
  }

  /** `resetLearningImpl`: a fresh base learner; the label window is not cleared. */
  function ResetLearning(a: Augmenter): (r: Augmenter)
    ensures r.base == Fresh()
    ensures r.oldLabels == a.oldLabels
    ensures r.numOldLabels == a.numOldLabels && r.labelDelay == a.labelDelay
  {
    a.(base := Fresh())
  }

  /**
   * `trainOnInstanceImpl`: train on the extended instance when the window is
   * exactly full; then, without label delay, append the true label.
   */
  function TrainOnInstance(a: Augmenter, inst: Instance): (r: Result<Augmenter>)
    ensures r.Failure? <==> !a.labelDelay && a.numOldLabels == 0 && |a.oldLabels| == 0
    ensures r.Success? ==>
      r.value.base == (if |a.oldLabels| == a.numOldLabels then TrainOn(a.base, Extend(a, inst)) else a.base)
    ensures r.Success? && a.labelDelay ==> r.value.oldLabels == a.oldLabels
    ensures r.Success? && !a.labelDelay ==>
      Success(r.value.oldLabels) == AddOldLabel(a.oldLabels, a.numOldLabels, inst.classValue)
    ensures r.Success? ==> r.value.numOldLabels == a.numOldLabels && r.value.labelDelay == a.labelDelay
  {
    var base := if |a.oldLabels| == a.numOldLabels then TrainOn(a.base, Extend(a, inst)) else a.base;
    if !a.labelDelay then
      match AddOldLabel(a.oldLabels, a.numOldLabels, inst.classValue)
      case Failure(e) => Failure(e)
      case Success(w) => Success(a.(base := base, oldLabels := w))
    else
      Success(a.(base := base))
  }

  /** The index of the first largest entry, 0 for an empty vector (`Utils.maxIndex`). */
  function MaxIndex(p: seq<real>): (r: nat)
    ensures |p| == 0 ==> r == 0
    ensures |p| > 0 ==> r < |p|
    ensures forall j :: 0 <= j < |p| ==> p[j] <= p[r]
    ensures forall j :: 0 <= j < r ==> p[j] < p[r]
    decreases |p|
  {
    if |p| <= 1 then 0
    else
      var m := MaxIndex(p[..|p| - 1]);
      if p[|p| - 1] > p[m] then |p| - 1 else m
  }

  datatype Prediction = Prediction(next: Augmenter, votes: seq<real>)

  /**
   * `getVotesForInstance`: `prediction` is the base learner's vote on the
   * extended instance; with label delay its arg-max is appended as a label.
   */
  function GetVotes(a: Augmenter, inst: Instance, prediction: seq<real>): (r: Result<Prediction>)
    ensures r.Failure? <==> a.labelDelay && a.numOldLabels == 0 && |a.oldLabels| == 0
    ensures r.Success? ==> r.value.votes == prediction && r.value.next.base == a.base
    ensures r.Success? && !a.labelDelay ==> r.value.next == a
    ensures r.Success? ==> r.value.next == a.(oldLabels := r.value.next.oldLabels)
    ensures r.Success? && a.labelDelay ==>
      Success(r.value.next.oldLabels) == AddOldLabel(a.oldLabels, a.numOldLabels, MaxIndex(prediction) as real)
  {
    if a.labelDelay then
      match AddOldLabel(a.oldLabels, a.numOldLabels, MaxIndex(prediction) as real)
      case Failure(e) => Failure(e)
      case Success(w) => Success(Prediction(a.(oldLabels := w), prediction))
    else
      Success(Prediction(a, prediction))
  }

  /** The labels label delay feeds the window: each prediction's arg-max. */
  function ArgMaxes(preds: seq<seq<real>>): (r: seq<real>)
    ensures |r| == |preds|
    ensures forall i :: 0 <= i < |preds| ==> r[i] == MaxIndex(preds[i]) as real
  {
    seq(|preds|, i requires 0 <= i < |preds| => MaxIndex(preds[i]) as real)
  }

  /** Predicting on each instance in turn, the base learner voting `preds[i]` on the `i`-th. */
  function PredictAll(a: Augmenter, insts: seq<Instance>, preds: seq<seq<real>>): Result<Augmenter>
    requires |insts| == |preds|
    decreases |insts|
  {
    if |insts| == 0 then Success(a)
    else
      match GetVotes(a, insts[0], preds[0])
      case Failure(e) => Failure(e)
      case Success(p) => PredictAll(p.next, insts[1..], preds[1..])
  }

  lemma ArgMaxesCons(h: seq<real>, preds: seq<seq<real>>)
    requires |preds| > 0
    ensures h + [MaxIndex(preds[0]) as real] + ArgMaxes(preds[1..]) == h + ArgMaxes(preds)
  {
    assert ArgMaxes(preds) == [MaxIndex(preds[0]) as real] + ArgMaxes(preds[1..]);
  }

  lemma PredictAllCons(a: Augmenter, insts: seq<Instance>, preds: seq<seq<real>>)
    requires |insts| == |preds| && |insts| > 0 && GetVotes(a, insts[0], preds[0]).Success?
    ensures PredictAll(a, insts, preds) ==
      PredictAll(GetVotes(a, insts[0], preds[0]).value.next, insts[1..], preds[1..])
  {
  }

  /** With label delay and a positive capacity, predictions never fail, never train the base
      learner, and leave the window holding the newest `numOldLabels` predicted labels. */
  lemma {:induction false} PredictAllKeepsNewest(a: Augmenter, h: seq<real>, insts: seq<Instance>, preds: seq<seq<real>>)
    requires a.numOldLabels >= 1 && a.labelDelay
    requires a.oldLabels == LastN(h, a.numOldLabels)
    requires |insts| == |preds|
    ensures PredictAll(a, insts, preds).Success?
    ensures PredictAll(a, insts, preds).value.oldLabels == LastN(h + ArgMaxes(preds), a.numOldLabels)
    ensures PredictAll(a, insts, preds).value.base == a.base
    decreases |insts|
  {
    if |insts| == 0 {
      assert h + ArgMaxes(preds) == h;
    } else {
      var v := MaxIndex(preds[0]) as real;
      AddOldLabelLastN(h, a.numOldLabels, v);
      var a' := GetVotes(a, insts[0], preds[0]).value.next;
      assert a' == a.(oldLabels := LastN(h + [v], a.numOldLabels));
      PredictAllCons(a, insts, preds);
      PredictAllKeepsNewest(a', h + [v], insts[1..], preds[1..]);
      ArgMaxesCons(h, preds);
    }
  }

  /** Because reset keeps the window, a reset wrapper whose window was full does not go
      through the fill phase again: its fresh base learner trains on the very next instance. */
  lemma ResetKeepsWarmWindow(a: Augmenter, inst: Instance)
    requires !a.labelDelay && a.numOldLabels >= 1 && |a.oldLabels| == a.numOldLabels
    ensures TrainOnInstance(ResetLearning(a), inst).Success?
    ensures TrainOnInstance(ResetLearning(a), inst).value.base.seen == [Extend(a, inst)]
  {
  }

  /** Training on each instance in turn. */
  function TrainAll(a: Augmenter, insts: seq<Instance>): Result<Augmenter>
    decreases |insts|
  {
    if |insts| == 0 then Success(a)
    else
      match TrainOnInstance(a, insts[0])
      case Failure(e) => Failure(e)
      case Success(a') => TrainAll(a', insts[1..])
  }

  function ClassValues(insts: seq<Instance>): (r: seq<real>)
    ensures |r| == |insts|
    ensures forall i :: 0 <= i < |insts| ==> r[i] == insts[i].classValue
  {
    seq(|insts|, i requires 0 <= i < |insts| => insts[i].classValue)
  }

  lemma TrainAllCons(a: Augmenter, insts: seq<Instance>)
    requires |insts| > 0 && TrainOnInstance(a, insts[0]).Success?
    ensures TrainAll(a, insts) == TrainAll(TrainOnInstance(a, insts[0]).value, insts[1..])
  {
  }

  lemma ClassValuesCons(h: seq<real>, insts: seq<Instance>)
    requires |insts| > 0
    ensures h + [insts[0].classValue] + ClassValues(insts[1..]) == h + ClassValues(insts)
  {
    assert ClassValues(insts) == [insts[0].classValue] + ClassValues(insts[1..]);
  }

  /** One instance of `TrainAllFillsThenTrains`. */
  lemma TrainOneKeepsNewest(a: Augmenter, h: seq<real>, inst: Instance)
    requires a.numOldLabels >= 1 && !a.labelDelay
    requires a.oldLabels == LastN(h, a.numOldLabels)
    ensures TrainOnInstance(a, inst).Success?
    ensures var a' := TrainOnInstance(a, inst).value;
      && a'.numOldLabels == a.numOldLabels && !a'.labelDelay
      && a'.oldLabels == LastN(h + [inst.classValue], a.numOldLabels)
      && |a'.base.seen| == |a.base.seen| + (if |a.oldLabels| == a.numOldLabels then 1 else 0)
      && |a'.oldLabels| == (if |a.oldLabels| == a.numOldLabels then |a.oldLabels| else |a.oldLabels| + 1)
  {
    AddOldLabelLastN(h, a.numOldLabels, inst.classValue);
  }

  /**
   * With true labels and a positive capacity, starting from a window of `m` labels:
   * after `n` instances the window holds the newest `numOldLabels` labels seen, and the
   * base learner was trained on exactly the `m + n - numOldLabels` instances (if
   * positive) that arrived while the window was full.
   */
  lemma {:induction false} TrainAllFillsThenTrains(a: Augmenter, h: seq<real>, insts: seq<Instance>)
    requires a.numOldLabels >= 1 && !a.labelDelay
    requires a.oldLabels == LastN(h, a.numOldLabels)
    ensures TrainAll(a, insts).Success?
    ensures TrainAll(a, insts).value.oldLabels == LastN(h + ClassValues(insts), a.numOldLabels)
    ensures |TrainAll(a, insts).value.base.seen| ==
      |a.base.seen| + Max0(|a.oldLabels| + |insts| - a.numOldLabels)
    decreases |insts|
  {
    if |insts| == 0 {
      assert h + ClassValues(insts) == h;
    } else {
      var h' := h + [insts[0].classValue];
      TrainOneKeepsNewest(a, h, insts[0]);
      var a' := TrainOnInstance(a, insts[0]).value;
      TrainAllCons(a, insts);
      TrainAllFillsThenTrains(a', h', insts[1..]);
      ClassValuesCons(h, insts);
    }
  }
}
