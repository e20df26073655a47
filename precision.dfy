/** Precision selection and energy accounting (`src/core/precision.py`):
    the fixed tier table, the four-way threshold selector, the rule that picks the
    numeric execution mode for a tier, and `compute_energy_saved`, which adds the
    joules it returns to the metrics' running total. */
module Precision {
  import opened Numeric

  /** The precision tiers, from most aggressive to the fp32 baseline. */
  datatype Tier = FP4 | FP8 | FP16 | FP32

  /** Position of a tier in the order fp4 < fp8 < fp16 < fp32. */
  function Index(t: Tier): nat
  {
    match t
    case FP4 => 0
    case FP8 => 1
    case FP16 => 2
    case FP32 => 3
  }

  /** One row of `PrecisionManager.TIERS`. */
  datatype TierProfile = TierProfile(powerSavedPercent: real, memorySavedPercent: real, relativeSpeed: real)

  /** `PrecisionManager.TIERS`. */
  function Tiers(t: Tier): TierProfile
  {
    match t
    case FP4 => TierProfile(65.0, 75.0, 2.2)
    case FP8 => TierProfile(55.0, 60.0, 2.0)
    case FP16 => TierProfile(45.0, 50.0, 1.5)
    case FP32 => TierProfile(0.0, 0.0, 1.0)
  }

  /** The threshold chain of `select_precision`. */
  function SelectTier(complexity: real): Tier
  {
    if complexity <= 0.05 then FP4
    else if complexity <= 0.2 then FP8
    else if complexity <= 0.7 then FP16
    else FP32
  }

  /** Each score band selects its tier, and each tier is selected by exactly its band. */
  lemma SelectTierBands(c: real)
    ensures SelectTier(c) == FP4 <==> c <= 0.05
    ensures SelectTier(c) == FP8 <==> 0.05 < c <= 0.2
    ensures SelectTier(c) == FP16 <==> 0.2 < c <= 0.7
    ensures SelectTier(c) == FP32 <==> 0.7 < c
  {
  }

  /** A higher score never selects a more aggressive tier. */
  lemma SelectTierMonotone(c1: real, c2: real)
    requires c1 <= c2
    ensures Index(SelectTier(c1)) <= Index(SelectTier(c2))
  {
  }

  /** Along the tier order the table's savings and speed never increase. */
  lemma TierTableAntitone(t1: Tier, t2: Tier)
    requires Index(t1) <= Index(t2)
    ensures Tiers(t2).powerSavedPercent <= Tiers(t1).powerSavedPercent
    ensures Tiers(t2).memorySavedPercent <= Tiers(t1).memorySavedPercent
    ensures Tiers(t2).relativeSpeed <= Tiers(t1).relativeSpeed
  {
  }

  /** The predicted power saving is non-increasing in the complexity score. */
  lemma PowerSavedNonIncreasing(c1: real, c2: real)
    requires c1 <= c2
    ensures Tiers(SelectTier(c2)).powerSavedPercent <= Tiers(SelectTier(c1)).powerSavedPercent
  {
    SelectTierMonotone(c1, c2);
    TierTableAntitone(SelectTier(c1), SelectTier(c2));
  }

  /** The boundary values: a bound belongs to the cheaper tier below it. */
  lemma SelectTierBoundaries()
    ensures SelectTier(0.05) == FP4 && SelectTier(0.050001) == FP8
    ensures SelectTier(0.2) == FP8 && SelectTier(0.7) == FP16 && SelectTier(0.70001) == FP32
  {
  }

  /** `EnergyMetrics`. Only `cumulative_energy_saved` is ever assigned after
      construction (by `compute_energy_saved`), so the other fields are constants. */
  class EnergyMetrics {
    const tier: Tier
    const powerSavedPercent: real
    const memorySavedPercent: real
    const relativeSpeed: real
    var cumulativeEnergySaved: real

    constructor (tier: Tier, powerSavedPercent: real, memorySavedPercent: real,
                 relativeSpeed: real, cumulativeEnergySaved: real)
      ensures this.tier == tier
      ensures this.powerSavedPercent == powerSavedPercent
      ensures this.memorySavedPercent == memorySavedPercent
      ensures this.relativeSpeed == relativeSpeed
      ensures this.cumulativeEnergySaved == cumulativeEnergySaved
    {
      this.tier := tier;
      this.powerSavedPercent := powerSavedPercent;
      this.memorySavedPercent := memorySavedPercent;
      this.relativeSpeed := relativeSpeed;
      this.cumulativeEnergySaved := cumulativeEnergySaved;
    }

    /** The metrics describe tier `t` exactly as the table does, with nothing saved yet. */
    ghost predicate FreshFor(t: Tier)
      reads this
    {
      && tier == t
      && powerSavedPercent == Tiers(t).powerSavedPercent
      && memorySavedPercent == Tiers(t).memorySavedPercent
      && relativeSpeed == Tiers(t).relativeSpeed
      && cumulativeEnergySaved == 0.0
    }
  }

  /** What the runtime is asked to execute in: the autocast context at float16,
      or no special mode at all (`nullcontext()`). */
  datatype ExecutionMode = NullContext | Fp16Autocast

  /** The chosen mode, and whether the low-bit fallback warning was logged. */
  datatype ContextChoice = ContextChoice(mode: ExecutionMode, fallbackWarned: bool)

  /** Joules saved over `duration` seconds: the measured power if there is one,
      otherwise the baseline reduced by the tier's saved percentage, never below zero. */
  function JoulesSaved(duration: real, powerBaseline: real, powerActual: Option<real>,
                       powerSavedPercent: real): (saved: real)
    ensures saved >= 0.0
  {
    var powerUsed := if powerActual.Some? then powerActual.value
                     else powerBaseline * (1.0 - powerSavedPercent / 100.0);
    var baselineJoules := powerBaseline * duration;
    var actualJoules := powerUsed * duration;
    Max(0.0, baselineJoules - actualJoules)
  }

  /** Without measured power the saving is the tier's share of the baseline energy. */
  lemma EstimatedSaving(duration: real, powerBaseline: real, powerSavedPercent: real)
    ensures JoulesSaved(duration, powerBaseline, None, powerSavedPercent)
         == Max(0.0, duration * powerBaseline * powerSavedPercent / 100.0)
  {
    var used := powerBaseline * (1.0 - powerSavedPercent / 100.0);
    assert powerBaseline * duration - used * duration
        == duration * powerBaseline * powerSavedPercent / 100.0;
  }

  /** With measured power the saving is the measured shortfall below the baseline. */
  lemma MeasuredSaving(duration: real, powerBaseline: real, powerActual: real, powerSavedPercent: real)
    ensures JoulesSaved(duration, powerBaseline, Some(powerActual), powerSavedPercent)
         == Max(0.0, (powerBaseline - powerActual) * duration)
  {
    assert powerBaseline * duration - powerActual * duration == (powerBaseline - powerActual) * duration;
  }

  /** A zero-length workload saves nothing, whatever the power figures. */
  lemma ZeroDurationSavesNothing(powerBaseline: real, powerActual: Option<real>, powerSavedPercent: real)
    ensures JoulesSaved(0.0, powerBaseline, powerActual, powerSavedPercent) == 0.0
  {
  }

  /** The fp32 baseline tier saves nothing on the estimated path. */
  lemma BaselineTierSavesNothing(duration: real, powerBaseline: real)
    ensures JoulesSaved(duration, powerBaseline, None, Tiers(FP32).powerSavedPercent) == 0.0
  {
  }

  /** A 2-second fp16 workload at 100 W baseline, unmeasured, saves 90 J. */
  lemma Fp16Example()
    ensures JoulesSaved(2.0, 100.0, None, Tiers(FP16).powerSavedPercent) == 90.0
  {
  }

  /** On the estimated path, with non-negative baseline power, a non-positive
      duration saves nothing. */
  lemma NonPositiveDurationEstimated(duration: real, powerBaseline: real, powerSavedPercent: real)
    requires duration <= 0.0 && powerBaseline >= 0.0 && 0.0 <= powerSavedPercent
    ensures JoulesSaved(duration, powerBaseline, None, powerSavedPercent) == 0.0
  {
    EstimatedSaving(duration, powerBaseline, powerSavedPercent);
    assert duration * powerBaseline <= 0.0;
    assert duration * powerBaseline * powerSavedPercent <= 0.0;
  }

  /** With a measured power above the baseline, a negative duration is credited
      with a positive saving: the code does not clamp the duration. */
  lemma NegativeDurationCredited()
    ensures JoulesSaved(-1.0, 100.0, Some(150.0), 0.0) == 50.0
  {
  }

  /** `PrecisionManager`: the tier table's owner and the producer of execution contexts. */
  class PrecisionManager {
    var currentFpTier: Tier

    constructor ()
      ensures currentFpTier == FP32
    {
      currentFpTier := FP32;
    }

    /** `select_precision`: the tier for the score and fresh metrics copied from the table. */
    method SelectPrecision(complexity: real) returns (tier: Tier, metrics: EnergyMetrics)
      ensures tier == SelectTier(complexity)
      ensures fresh(metrics) && metrics.FreshFor(tier)
    {
      tier := SelectTier(complexity);
      var chars := Tiers(tier);
      metrics := new EnergyMetrics(tier, chars.powerSavedPercent, chars.memorySavedPercent,
                                   chars.relativeSpeed, 0.0);
    }

    /** `get_execution_context` as a mode choice. `cudaAvailable` stands for
        `torch.cuda.is_available()`, `autocastOk` for the autocast constructor not raising. */
    function ExecutionContext(tier: Option<Tier>, cudaAvailable: bool, autocastOk: bool): (c: ContextChoice)
      reads this
      ensures var t := if tier.Some? then tier.value else currentFpTier;
        && (c.mode == Fp16Autocast <==> cudaAvailable && autocastOk && t != FP32)
        && (c.fallbackWarned <==> cudaAvailable && (t == FP4 || t == FP8))
    {
      var t := if tier.None? then currentFpTier else tier.value;
      if !cudaAvailable then ContextChoice(NullContext, false)
      else if t == FP4 || t == FP8 then
        ContextChoice(if autocastOk then Fp16Autocast else NullContext, true)
      else if t == FP16 then
        ContextChoice(if autocastOk then Fp16Autocast else NullContext, false)
      else ContextChoice(NullContext, false)
    }

    /** `compute_energy_saved`: returns the joules saved and adds them to the
        metrics' running total, which therefore never decreases. */
    method ComputeEnergySaved(duration: real, powerBaseline: real, powerActual: Option<real>,
                              metrics: EnergyMetrics) returns (saved: real)
      modifies metrics
      ensures saved == JoulesSaved(duration, powerBaseline, powerActual, metrics.powerSavedPercent)
      ensures metrics.cumulativeEnergySaved == old(metrics.cumulativeEnergySaved) + saved
      ensures metrics.cumulativeEnergySaved >= old(metrics.cumulativeEnergySaved)
    {
      var powerUsed: real;
      if powerActual.Some? {
        powerUsed := powerActual.value;
      } else {
        powerUsed := powerBaseline * (1.0 - metrics.powerSavedPercent / 100.0);
      }
      var baselineJoules := powerBaseline * duration;
      var actualJoules := powerUsed * duration;
      saved := Max(0.0, baselineJoules - actualJoules);
      metrics.cumulativeEnergySaved := metrics.cumulativeEnergySaved + saved;
    }
  }

  /** Resolving the tier: `None` means the manager's current tier (fp32 on a new manager). */
  method DefaultContextIsBaseline(cudaAvailable: bool, autocastOk: bool) returns (c: ContextChoice)
    ensures c == ContextChoice(NullContext, false)
  {
    var pm := new PrecisionManager();
    c := pm.ExecutionContext(None, cudaAvailable, autocastOk);
  }
}
