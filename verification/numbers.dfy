/** Small integer helpers shared by the SPLOB and TemporallyAugmentedRegressor models. */
module Numbers {

  /** `n` when positive, else 0. */
  function Max0(n: int): nat
  {
    if n > 0 then n else 0
  }
}
