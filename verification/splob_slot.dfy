/**
 * One member ("slot") of the SPLOB ensemble: its counters, its two change
 * detectors and its base learner, and the fixed-order step every slot runs
 * on every training instance. The stochastic and learned parts (the Poisson
 * draw, the detectors' verdicts, the learner's correctness) arrive as a
 * `Draw`; everything else is computed here.
 */
module SplobSlot {
  import opened Wrappers
  import opened Learner

  /** The options read by `resetLearningImpl`. */
  datatype Config = Config(
    ensembleSize: int,    // -S
    lambdaFixed: real,    // -L, the oversampling Poisson mean
    patienceBase: int,    // -s, instances between Page-Hinkley checks
    awakeningSpan: int,   // -a, instances of forced oversampling
    resetModel: bool)     // -r, reset the learner on drift

  /** The lower bounds the option declarations enforce. */
  predicate ValidConfig(cfg: Config)
  {
    && cfg.ensembleSize >= 1
    && cfg.lambdaFixed >= 1.0
    && cfg.patienceBase >= 1
    && cfg.awakeningSpan >= 1
  }

  /** The undersampling Poisson mean, a literal in the source. */
  const LambdaLow: real := 0.1

  /** A change detector, as the observations fed to it since its last `resetLearning`. */
  datatype Detector = Detector(observed: seq<int>)

  function Feed(d: Detector, v: int): Detector
  {
    Detector(d.observed + [v])
  }

  const FreshDetector: Detector := Detector([])

  /** The per-member state that the source keeps in parallel lists, one record per member. */
  datatype Slot = Slot(
    nInstances: int,
    meanDifference: bool,
    pastMeanDifference: Option<bool>,   // `null` in the source is `None`
    awakening: int,
    patience: int,
    pageHinkley: Detector,
    driftDetector: Detector,
    model: Model)

  /** What the outside world decides during one step of one slot. */
  datatype Draw = Draw(
    phChange: bool,   // `pageHinkley.getChange()`, consulted only at a checkpoint
    k: nat,           // the Poisson draw
    correct: bool,    // `correctlyClassifies` of the trained learner
    drift: bool)      // `driftDetectionMethod.getChange()` after the 0/1 input

  /** The counters of a slot right after reset, and after a drift. */
  predicate IsResetBookkeeping(s: Slot, cfg: Config)
  {
    && s.nInstances == 0
    && s.meanDifference
    && s.pastMeanDifference == None
    && s.awakening == 0
    && s.patience == cfg.patienceBase
  }

  /** `patience` is the base value, doubled zero or more times. */
  predicate IsDoubling(p: int, base: int)
    requires base >= 1
    decreases p
  {
    p == base || (p > base && p % 2 == 0 && IsDoubling(p / 2, base))
  }

  /** What holds of every slot between two instances. */
  predicate SlotInv(s: Slot, cfg: Config)
    requires ValidConfig(cfg)
  {
    && s.nInstances >= 0
    && s.patience >= 1
    && IsDoubling(s.patience, cfg.patienceBase)
    && 0 <= s.awakening <= cfg.awakeningSpan
    // no checkpoint has happened since the last reset
    && (s.pastMeanDifference.None? ==>
          s.meanDifference && s.awakening == 0 && s.patience == cfg.patienceBase && s.nInstances < s.patience)
  }

  /** A slot as `resetLearningImpl` and the lazy `initEnsemble` leave it. */
  function InitialSlot(cfg: Config): (s: Slot)
    requires ValidConfig(cfg)
    ensures IsResetBookkeeping(s, cfg)
    ensures SlotInv(s, cfg)
    ensures s.model == Fresh()
    ensures s.pageHinkley.observed == [] && s.driftDetector.observed == []
  {
    Slot(0, true, None, 0, cfg.patienceBase, FreshDetector, FreshDetector, Fresh())
  }

  /** The three outcomes of the checkpoint rule table. */
  datatype Transition = Reactivate | Cancel | Keep

  /**
   * The rule table of a checkpoint. Comparing a `null` previous verdict with
   * `false` unboxes it, so `None` stands for the `NullPointerException`.
   */
  function Classify(change: bool, past: Option<bool>): (r: Option<Transition>)
    ensures r.None? <==> past.None?
    ensures r == Some(Reactivate) <==> !change && past == Some(false)
    ensures r == Some(Cancel) <==> change && past == Some(false)
    ensures r == Some(Keep) <==> past == Some(true)
  {
    match past
    case None => None
    case Some(p) =>
      if !change && !p then Some(Reactivate)
      else if change && !p then Some(Cancel)
      else Some(Keep)
  }

  /**
   * Step 3 of an iteration: when the slot's own counter is a multiple of its
   * current patience, record the Page-Hinkley verdict, reset that detector and
   * apply the rule table against the verdict of the previous checkpoint.
   */
  function Checkpoint(s: Slot, cfg: Config, change: bool): (r: Slot)
    requires s.patience >= 1
    ensures s.nInstances % s.patience != 0 ==> r == s
    ensures s.nInstances % s.patience == 0 ==>
      && r.pastMeanDifference == Some(s.meanDifference)
      && r.meanDifference == change
      && r.pageHinkley == FreshDetector
      && r.nInstances == s.nInstances
      && r.driftDetector == s.driftDetector
      && r.model == s.model
    // the previous verdict was "no change" and this one is too: oversample again, back off
    ensures s.nInstances % s.patience == 0 && !s.meanDifference && !change ==>
      r.awakening == cfg.awakeningSpan && r.patience == 2 * s.patience
    // the previous verdict was "no change" and this one is "change": stop oversampling
    ensures s.nInstances % s.patience == 0 && !s.meanDifference && change ==>
      r.awakening == 0 && r.patience == cfg.patienceBase
    ensures s.nInstances % s.patience == 0 && s.meanDifference ==>
      r.awakening == s.awakening && r.patience == s.patience
  {
    if s.nInstances % s.patience != 0 then s
    else
      var past := Some(s.meanDifference);
      var recorded := s.(pastMeanDifference := past, meanDifference := change, pageHinkley := FreshDetector);
      match Classify(change, past).value
      case Reactivate => recorded.(awakening := cfg.awakeningSpan, patience := recorded.patience * 2)
      case Cancel => recorded.(awakening := 0, patience := cfg.patienceBase)
      case Keep => recorded
  }

  /** The regime in which the slot trains with the high Poisson mean. */
  predicate Oversampling(s: Slot)
  {
    s.meanDifference || s.awakening > 0
  }

  datatype Picked = Picked(lambda: real, slot: Slot)

  /** Step 4: choose the Poisson mean and count the awakening period down. */
  function SelectLambda(s: Slot, cfg: Config): (r: Picked)
    requires ValidConfig(cfg)
    ensures r.lambda == cfg.lambdaFixed <==> Oversampling(s)
    ensures r.lambda == LambdaLow <==> !Oversampling(s)
    ensures s.awakening > 0 ==> r.slot.awakening == s.awakening - 1
    ensures s.awakening <= 0 ==> r.slot.awakening == s.awakening
    ensures s.awakening >= 0 ==> r.slot.awakening >= 0
    ensures r.slot == s.(awakening := r.slot.awakening)
  {
    if s.meanDifference || s.awakening > 0 then
      var counted := if s.awakening > 0 then s.(awakening := s.awakening - 1) else s;
      Picked(cfg.lambdaFixed, counted)
    else
      Picked(LambdaLow, s)
  }

  /** Step 5: train the member `k` times over, as one copy weighted by `k`, when `k > 0`. */
  function TrainMember(s: Slot, x: Instance, k: nat): (r: Slot)
    ensures k == 0 ==> r == s
    ensures k > 0 ==> r.model == TrainWeighted(s.model, x, k as real)
    ensures r == s.(model := r.model)
  {
    if k > 0 then s.(model := TrainWeighted(s.model, x, k as real)) else s
  }

  /**
   * Step 6, `driftDetection`: feed 0 (correct) or 1 (wrong) to the primary
   * detector; on drift, soft-reset the whole slot, and the learner only
   * when the reset-model flag is set.
   */
  function DriftCheck(s: Slot, cfg: Config, correct: bool, drift: bool): (r: Slot)
    requires ValidConfig(cfg)
    ensures drift ==>
      && IsResetBookkeeping(r, cfg)
      && r.pageHinkley == FreshDetector
      && r.driftDetector == FreshDetector
      && r.model == (if cfg.resetModel then Fresh() else s.model)
    ensures !drift ==>
      r == s.(driftDetector := Detector(s.driftDetector.observed + [if correct then 0 else 1]))
  {
    var fed := s.(driftDetector := Feed(s.driftDetector, if correct then 0 else 1));
    if drift then
      InitialSlot(cfg).(model := if cfg.resetModel then Fresh() else fed.model)
    else
      fed
  }

  /** The result of one step: the new slot, the Poisson mean used, and whether a checkpoint ran. */
  datatype Outcome = Outcome(slot: Slot, lambda: real, checked: bool)

  /** One iteration of the loop body of `trainOnInstanceImpl` for one slot. */
  function Step(s: Slot, cfg: Config, x: Instance, signal: int, d: Draw): (r: Outcome)
    requires ValidConfig(cfg)
    requires s.patience >= 1
    // the checkpoint runs on the post-increment counter and the current patience
    ensures r.slot.patience >= 1
    ensures r.checked <==> (s.nInstances + 1) % s.patience == 0
    ensures r.lambda == cfg.lambdaFixed || r.lambda == LambdaLow
    ensures !r.checked ==> (r.lambda == cfg.lambdaFixed <==> Oversampling(s))
    ensures r.checked && d.phChange ==> r.lambda == cfg.lambdaFixed
    // training happens exactly when k > 0, and a drift may discard it
    ensures !(d.drift && cfg.resetModel) ==>
      r.slot.model == (if d.k > 0 then TrainWeighted(s.model, x, d.k as real) else s.model)
    // the drift check runs last and overrides whatever the checkpoint did
    ensures d.drift ==>
      && IsResetBookkeeping(r.slot, cfg)
      && r.slot.pageHinkley == FreshDetector
      && r.slot.driftDetector == FreshDetector
    ensures d.drift && cfg.resetModel ==> r.slot.model == Fresh()
    ensures !d.drift ==>
      && r.slot.nInstances == s.nInstances + 1
      && r.slot.driftDetector.observed == s.driftDetector.observed + [if d.correct then 0 else 1]
    ensures !d.drift && !r.checked ==>
      && r.slot.pageHinkley.observed == s.pageHinkley.observed + [signal]
      && r.slot.meanDifference == s.meanDifference
      && r.slot.pastMeanDifference == s.pastMeanDifference
      && r.slot.patience == s.patience
      && r.slot.awakening == (if s.awakening > 0 then s.awakening - 1 else s.awakening)
    ensures !d.drift && r.checked ==>
      && r.slot.pageHinkley == FreshDetector
      && r.slot.pastMeanDifference == Some(s.meanDifference)
      && r.slot.meanDifference == d.phChange
    // the three outcomes of the rule table, after the oversampled instance has been counted off
    ensures !d.drift && r.checked && !s.meanDifference && !d.phChange ==>
      r.slot.awakening == cfg.awakeningSpan - 1 && r.slot.patience == 2 * s.patience
    ensures !d.drift && r.checked && !s.meanDifference && d.phChange ==>
      r.slot.awakening == 0 && r.slot.patience == cfg.patienceBase
    ensures !d.drift && r.checked && s.meanDifference ==>
      && r.slot.patience == s.patience
      && r.slot.awakening == (if s.awakening > 0 then s.awakening - 1 else s.awakening)
    // at a checkpoint the mean follows the new verdict and the awakening the rule table left
    ensures r.checked ==>
      (r.lambda == cfg.lambdaFixed <==> d.phChange || !s.meanDifference || s.awakening > 0)
  {
    var counted := s.(nInstances := s.nInstances + 1);
    var fed := counted.(pageHinkley := Feed(counted.pageHinkley, signal));
    var adapted := Checkpoint(fed, cfg, d.phChange);
    var picked := SelectLambda(adapted, cfg);
    var trained := TrainMember(picked.slot, x, d.k);
    Outcome(DriftCheck(trained, cfg, d.correct, d.drift), picked.lambda, fed.nInstances % fed.patience == 0)
  }
}
