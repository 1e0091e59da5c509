/**
 * Properties of the SPLOB slot state machine across one or several steps:
 * the invariant every slot keeps, the checkpoint cadence, the first
 * checkpoint after a reset, the awakening countdown and the drift reset.
 */
module SplobProps {
  import opened Wrappers
  import opened Learner
  import opened SplobSlot
  import opened Numbers

  /** Division with remainder determines the remainder. */
  lemma ModUnique(a: int, q: int, p: int, m: int)
    requires p >= 1 && 0 <= m < p && a == q * p + m
    ensures a % p == m && a / p == q
  {
    var k := q - a / p;
    assert k * p == a % p - m;
    if k >= 1 {
      MulAtLeast(k, p);
    } else if k <= -1 {
      MulAtLeast(-k, p);
    }
  }

  lemma MulAtLeast(k: int, p: int)
    requires k >= 1 && p >= 0
    ensures k * p >= p
  {
  }

  /** How the remainder moves when the counter grows by one. */
  lemma ModSucc(n: int, p: int)
    requires n >= 0 && p >= 1
    ensures n % p + 1 < p ==> (n + 1) % p == n % p + 1
    ensures n % p + 1 == p ==> (n + 1) % p == 0
  {
    var q := n / p;
    assert n == q * p + n % p;
    if n % p + 1 < p {
      ModUnique(n + 1, q, p, n % p + 1);
    } else {
      assert n + 1 == (q + 1) * p;
      ModUnique(n + 1, q + 1, p, 0);
    }
  }

  lemma {:induction false} DoublingAtLeastBase(p: int, base: int)
    requires base >= 1 && IsDoubling(p, base)
    ensures p >= base
    decreases p
  {
    if p != base {
      DoublingAtLeastBase(p / 2, base);
    }
  }

  lemma DoublingTwice(p: int, base: int)
    requires base >= 1 && IsDoubling(p, base)
    ensures IsDoubling(2 * p, base)
  {
    DoublingAtLeastBase(p, base);
    assert (2 * p) / 2 == p;
  }

  /** Patience is only ever doubled or reset to its base value. */
  lemma StepKeepsDoubling(s: Slot, cfg: Config, x: Instance, signal: int, d: Draw)
    requires ValidConfig(cfg) && SlotInv(s, cfg)
    ensures IsDoubling(Step(s, cfg, x, signal, d).slot.patience, cfg.patienceBase)
  {
    DoublingTwice(s.patience, cfg.patienceBase);
  }

  /** While no checkpoint has run since the last reset, the counter stays below patience. */
  lemma StepKeepsUnset(s: Slot, cfg: Config, x: Instance, signal: int, d: Draw)
    requires ValidConfig(cfg) && SlotInv(s, cfg)
    requires Step(s, cfg, x, signal, d).slot.pastMeanDifference.None?
    ensures var r := Step(s, cfg, x, signal, d).slot;
      r.meanDifference && r.awakening == 0 && r.patience == cfg.patienceBase && r.nInstances < r.patience
  {
    if !d.drift {
      ModSucc(s.nInstances, s.patience);
      assert s.nInstances % s.patience == s.nInstances;
    }
  }

  /** Every step keeps the slot invariant: patience stays a doubling of its base value
      (so at least the base value), awakening stays within [0, awakeningSpan], and an
      unset previous verdict still means that no checkpoint has run since the last reset. */
  lemma StepPreservesInv(s: Slot, cfg: Config, x: Instance, signal: int, d: Draw)
    requires ValidConfig(cfg) && SlotInv(s, cfg)
    ensures SlotInv(Step(s, cfg, x, signal, d).slot, cfg)
    ensures Step(s, cfg, x, signal, d).slot.patience >= cfg.patienceBase
  {
    var r := Step(s, cfg, x, signal, d).slot;
    StepKeepsDoubling(s, cfg, x, signal, d);
    DoublingAtLeastBase(r.patience, cfg.patienceBase);
    if r.pastMeanDifference.None? {
      StepKeepsUnset(s, cfg, x, signal, d);
    }
  }

  /** Number of further steps until the next checkpoint, absent a drift. */
  function ToNextCheckpoint(s: Slot): (r: int)
    requires s.patience >= 1
    ensures 1 <= r <= s.patience
  {
    s.patience - s.nInstances % s.patience
  }

  /** The checkpoint cadence is relative to the slot's own counter: the checkpoint runs
      exactly when the countdown reaches 1, and otherwise the countdown drops by one. */
  lemma StepCountsDownToCheckpoint(s: Slot, cfg: Config, x: Instance, signal: int, d: Draw)
    requires ValidConfig(cfg) && SlotInv(s, cfg)
    ensures Step(s, cfg, x, signal, d).checked <==> ToNextCheckpoint(s) == 1
    ensures !Step(s, cfg, x, signal, d).checked && !d.drift ==>
      ToNextCheckpoint(Step(s, cfg, x, signal, d).slot) == ToNextCheckpoint(s) - 1
  {
    ModSucc(s.nInstances, s.patience);
  }

  /** After a doubling at counter `c` (a multiple of the old patience `p`), the next
      checkpoint is the next multiple of `2p`: `2p` steps away when `c / p` is even and
      only `p` steps away when it is odd, so not always `c + 2p`. */
  lemma DoublingNextCheckpoint(s: Slot, cfg: Config, x: Instance, signal: int, d: Draw)
    requires ValidConfig(cfg) && SlotInv(s, cfg)
    requires !d.drift && !d.phChange
    requires Step(s, cfg, x, signal, d).checked && !s.meanDifference
    ensures var r := Step(s, cfg, x, signal, d).slot;
      && r.patience == 2 * s.patience
      && ToNextCheckpoint(r) == (if ((s.nInstances + 1) / s.patience) % 2 == 0 then 2 * s.patience else s.patience)
  {
    DoubledRemainder(s.nInstances + 1, s.patience);
  }

  /** A multiple `c` of `p` is, modulo `2p`, either 0 or `p`, by the parity of `c / p`. */
  lemma DoubledRemainder(c: int, p: int)
    requires p >= 1 && c >= 0 && c % p == 0
    ensures c % (2 * p) == (if (c / p) % 2 == 0 then 0 else p)
  {
    var j := c / p;
    var h := j / 2;
    assert c == j * p;
    assert j == 2 * h + j % 2;
    assert j * p == h * (2 * p) + (j % 2) * p;
    if j % 2 == 0 {
      ModUnique(c, h, 2 * p, 0);
    } else {
      ModUnique(c, h, 2 * p, p);
    }
  }

  /** The first checkpoint after a reset or drift compares against the initial verdict
      `true`, so it never reactivates or cancels: awakening and patience keep their
      reset values. */
  lemma FirstCheckpointKeeps(s: Slot, cfg: Config, x: Instance, signal: int, d: Draw)
    requires ValidConfig(cfg) && SlotInv(s, cfg)
    requires s.pastMeanDifference.None?
    requires Step(s, cfg, x, signal, d).checked && !d.drift
    ensures var r := Step(s, cfg, x, signal, d).slot;
      && r.pastMeanDifference == Some(true)
      && r.patience == cfg.patienceBase
      && r.awakening == 0
      && Classify(d.phChange, r.pastMeanDifference) == Some(Keep)
  {
  }

  /** The rule table never sees an unset previous verdict: at every checkpoint the
      snapshot of the current verdict is taken first, and awakening and patience end up
      as the table's verdict on that snapshot dictates (awakening then counted off once
      more by the oversampled instance). */
  lemma ComparisonNeverSeesNull(s: Slot, cfg: Config, x: Instance, signal: int, d: Draw)
    requires ValidConfig(cfg) && SlotInv(s, cfg)
    requires Step(s, cfg, x, signal, d).checked && !d.drift
    ensures var r := Step(s, cfg, x, signal, d).slot;
      && r.pastMeanDifference == Some(s.meanDifference)
      && Classify(d.phChange, r.pastMeanDifference).Some?
      && (Classify(d.phChange, r.pastMeanDifference).value == Reactivate ==>
            r.awakening == cfg.awakeningSpan - 1 && r.patience == 2 * s.patience)
      && (Classify(d.phChange, r.pastMeanDifference).value == Cancel ==>
            r.awakening == 0 && r.patience == cfg.patienceBase)
      && (Classify(d.phChange, r.pastMeanDifference).value == Keep ==>
            r.awakening == Max0(s.awakening - 1) && r.patience == s.patience)
  {
  }

  /** A primary drift leaves the same counters whatever the slot was doing, so two drifts
      in a row leave the slot exactly as one does, and the checkpoint earlier in the same
      iteration is overridden. */
  lemma DriftTwiceIsDriftOnce(s: Slot, cfg: Config, x1: Instance, x2: Instance, sig1: int, sig2: int, d1: Draw, d2: Draw)
    requires ValidConfig(cfg) && SlotInv(s, cfg)
    requires d1.drift && d2.drift
    ensures var once := Step(s, cfg, x1, sig1, d1).slot;
      var twice := Step(once, cfg, x2, sig2, d2).slot;
      && twice == once.(model := twice.model)
      && (cfg.resetModel ==> twice == once)
  {
  }

  /** The inputs of a sequence of steps. */
  datatype Input = Input(x: Instance, signal: int, draw: Draw)

  /** The result of a sequence of steps: the last slot, and per step the Poisson mean and
      whether a checkpoint ran. */
  datatype Trace = Trace(last: Slot, lambdas: seq<real>, checks: seq<bool>)

  /** One slot over a sequence of training instances. */
  function Run(s: Slot, cfg: Config, ins: seq<Input>): (r: Trace)
    requires ValidConfig(cfg) && s.patience >= 1
    ensures r.last.patience >= 1
    ensures |r.lambdas| == |ins| && |r.checks| == |ins|
    decreases |ins|
  {
    if |ins| == 0 then Trace(s, [], [])
    else
      var o := Step(s, cfg, ins[0].x, ins[0].signal, ins[0].draw);
      var rest := Run(o.slot, cfg, ins[1..]);
      Trace(rest.last, [o.lambda] + rest.lambdas, [o.checked] + rest.checks)
  }

  /** The slot invariant holds after any number of steps. */
  lemma {:induction false} RunPreservesInv(s: Slot, cfg: Config, ins: seq<Input>)
    requires ValidConfig(cfg) && SlotInv(s, cfg)
    ensures SlotInv(Run(s, cfg, ins).last, cfg)
    decreases |ins|
  {
    if |ins| > 0 {
      StepPreservesInv(s, cfg, ins[0].x, ins[0].signal, ins[0].draw);
      RunPreservesInv(Step(s, cfg, ins[0].x, ins[0].signal, ins[0].draw).slot, cfg, ins[1..]);
    }
  }

  /** Once awakening is set to `a` with the verdict "no change", each instance uses the high
      mean and takes exactly one off the count until it reaches 0, then the low mean; the
      count never goes negative (as long as no checkpoint or drift intervenes). */
  lemma {:induction false} AwakeningCountdown(s: Slot, cfg: Config, ins: seq<Input>)
    requires ValidConfig(cfg) && SlotInv(s, cfg)
    requires !s.meanDifference
    requires s.nInstances % s.patience + |ins| < s.patience
    requires forall i :: 0 <= i < |ins| ==> !ins[i].draw.drift
    ensures Run(s, cfg, ins).last.awakening == Max0(s.awakening - |ins|)
    ensures forall i :: 0 <= i < |ins| ==>
      Run(s, cfg, ins).lambdas[i] == (if i < s.awakening then cfg.lambdaFixed else LambdaLow)
    ensures forall i :: 0 <= i < |ins| ==> !Run(s, cfg, ins).checks[i]
    decreases |ins|
  {
    if |ins| > 0 {
      var o := Step(s, cfg, ins[0].x, ins[0].signal, ins[0].draw);
      ModSucc(s.nInstances, s.patience);
      StepPreservesInv(s, cfg, ins[0].x, ins[0].signal, ins[0].draw);
      assert !o.checked;
      assert o.slot.nInstances % o.slot.patience == s.nInstances % s.patience + 1;
      assert forall i :: 0 <= i < |ins[1..]| ==> !ins[1..][i].draw.drift by {
        forall i | 0 <= i < |ins[1..]| ensures !ins[1..][i].draw.drift {
          assert ins[1..][i] == ins[i + 1];
        }
      }
      AwakeningCountdown(o.slot, cfg, ins[1..]);
      var r := Run(s, cfg, ins);
      var rest := Run(o.slot, cfg, ins[1..]);
      assert r.lambdas == [o.lambda] + rest.lambdas;
      assert r.checks == [o.checked] + rest.checks;
      forall i | 0 <= i < |ins|
        ensures r.lambdas[i] == (if i < s.awakening then cfg.lambdaFixed else LambdaLow)
        ensures !r.checks[i]
      {
        if i > 0 {
          assert r.lambdas[i] == rest.lambdas[i - 1];
          assert r.checks[i] == rest.checks[i - 1];
        }
      }
    }
  }
}
