/**
 * The SPLOB ensemble: `ensembleSize` independent slots, reset together and
 * advanced together, one `Step` per slot per training instance.
 */
module SplobEnsemble {
  import opened Wrappers
  import opened Learner
  import opened SplobSlot
  import opened SplobProps
  import opened SplobMeasure

  /** What one member's environment supplies for one training instance. */
  datatype Observed = Observed(size: ModelSize, draw: Draw)

  /** `resetLearningImpl`, followed by the lazy `initEnsemble` of the first call. */
  function Reset(cfg: Config): (r: seq<Slot>)
    requires ValidConfig(cfg)
    ensures |r| == cfg.ensembleSize && |r| >= 1
    ensures forall i :: 0 <= i < |r| ==>
      && IsResetBookkeeping(r[i], cfg)
      && r[i].model == Fresh()
      && r[i].pageHinkley == FreshDetector
      && r[i].driftDetector == FreshDetector
    ensures EnsembleInv(r, cfg)
  {
    seq(cfg.ensembleSize, _ => InitialSlot(cfg))
  }

  predicate EnsembleInv(slots: seq<Slot>, cfg: Config)
    requires ValidConfig(cfg)
  {
    forall i :: 0 <= i < |slots| ==> SlotInv(slots[i], cfg)
  }

  /** The Page-Hinkley inputs of all members; fails on the first member whose size cannot be read. */
  function Signals(obs: seq<Observed>): (r: Result<seq<int>>)
    ensures r.Failure? <==> exists i :: 0 <= i < |obs| && ComplexitySignal(obs[i].size).Failure?
    ensures r.Success? ==> |r.value| == |obs|
    ensures r.Success? ==> forall i :: 0 <= i < |obs| ==> Success(r.value[i]) == ComplexitySignal(obs[i].size)
    decreases |obs|
  {
    if |obs| == 0 then Success([])
    else
      match ComplexitySignal(obs[0].size)
      case Failure(e) => Failure(e)
      case Success(v) =>
        match Signals(obs[1..])
        case Failure(e) =>
          assert exists i :: 0 <= i < |obs[1..]| && ComplexitySignal(obs[1..][i].size).Failure?;
          var i :| 0 <= i < |obs[1..]| && ComplexitySignal(obs[1..][i].size).Failure?;
          assert obs[1..][i] == obs[i + 1];
          Failure(e)
        case Success(vs) =>
          assert forall i :: 1 <= i < |obs| ==> obs[1..][i - 1] == obs[i];
          Success([v] + vs)
  }

  /** The slots and the Poisson means used after one training instance. */
  datatype Round = Round(slots: seq<Slot>, lambdas: seq<real>)

  /** `trainOnInstanceImpl`: every slot takes its step on the same instance. */
  function TrainOnInstance(slots: seq<Slot>, cfg: Config, x: Instance, obs: seq<Observed>): (r: Result<Round>)
    requires ValidConfig(cfg)
    requires |obs| == |slots|
    requires forall i :: 0 <= i < |slots| ==> slots[i].patience >= 1
    ensures r.Failure? <==> exists i :: 0 <= i < |obs| && ComplexitySignal(obs[i].size).Failure?
    ensures r.Success? ==> |r.value.slots| == |slots| && |r.value.lambdas| == |slots|
    ensures r.Success? ==> forall i :: 0 <= i < |slots| ==>
      var o := Step(slots[i], cfg, x, ComplexitySignal(obs[i].size).value, obs[i].draw);
      r.value.slots[i] == o.slot && r.value.lambdas[i] == o.lambda
  {
    match Signals(obs)
    case Failure(e) => Failure(e)
    case Success(sig) =>
      Success(Round(
        seq(|slots|, i requires 0 <= i < |slots| => Step(slots[i], cfg, x, sig[i], obs[i].draw).slot),
        seq(|slots|, i requires 0 <= i < |slots| => Step(slots[i], cfg, x, sig[i], obs[i].draw).lambda)))
  }

  /** Every member's size can be read, so a training instance succeeds. */
  predicate Readable(obs: seq<Observed>)
  {
    forall i :: 0 <= i < |obs| ==> ComplexitySignal(obs[i].size).Success?
  }

  /** Every member keeps the slot invariant through a training instance. */
  lemma TrainPreservesInv(slots: seq<Slot>, cfg: Config, x: Instance, obs: seq<Observed>)
    requires ValidConfig(cfg) && EnsembleInv(slots, cfg) && |obs| == |slots|
    requires Readable(obs)
    ensures TrainOnInstance(slots, cfg, x, obs).Success?
    ensures EnsembleInv(TrainOnInstance(slots, cfg, x, obs).value.slots, cfg)
  {
    var r := TrainOnInstance(slots, cfg, x, obs).value;
    forall i | 0 <= i < |slots|
      ensures SlotInv(r.slots[i], cfg)
    {
      StepPreservesInv(slots[i], cfg, x, ComplexitySignal(obs[i].size).value, obs[i].draw);
    }
  }

  /** Members do not communicate: what happens to member `i` depends only on its own
      state and its own observations, so a drift in one member touches no other. */
  lemma MembersIndependent(slots: seq<Slot>, slots': seq<Slot>, cfg: Config, x: Instance,
                           obs: seq<Observed>, obs': seq<Observed>, i: int)
    requires ValidConfig(cfg) && |obs| == |slots| && |obs'| == |slots'|
    requires forall j :: 0 <= j < |slots| ==> slots[j].patience >= 1
    requires forall j :: 0 <= j < |slots'| ==> slots'[j].patience >= 1
    requires Readable(obs) && Readable(obs')
    requires 0 <= i < |slots| && i < |slots'|
    requires slots[i] == slots'[i] && obs[i] == obs'[i]
    ensures TrainOnInstance(slots, cfg, x, obs).Success? && TrainOnInstance(slots', cfg, x, obs').Success?
    ensures TrainOnInstance(slots, cfg, x, obs).value.slots[i] == TrainOnInstance(slots', cfg, x, obs').value.slots[i]
    ensures TrainOnInstance(slots, cfg, x, obs).value.lambdas[i] == TrainOnInstance(slots', cfg, x, obs').value.lambdas[i]
  {
  }

  /** A drift reported by member `i` soft-resets exactly that member. */
  lemma DriftResetsOnlyItsSlot(slots: seq<Slot>, cfg: Config, x: Instance, obs: seq<Observed>, i: int)
    requires ValidConfig(cfg) && |obs| == |slots|
    requires forall j :: 0 <= j < |slots| ==> slots[j].patience >= 1
    requires Readable(obs)
    requires 0 <= i < |slots| && obs[i].draw.drift
    requires forall j :: 0 <= j < |slots| && j != i ==> !obs[j].draw.drift
    ensures TrainOnInstance(slots, cfg, x, obs).Success?
    ensures var r := TrainOnInstance(slots, cfg, x, obs).value.slots;
      && IsResetBookkeeping(r[i], cfg)
      && forall j :: 0 <= j < |slots| && j != i ==> r[j].nInstances == slots[j].nInstances + 1
  {
  }
}
