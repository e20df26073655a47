/** The governor (`src/core/gpu_controller.py`): an object that picks a precision
    tier for each workload, keeps an append-only monitoring history and the list of
    metrics objects it produced, and answers aggregate queries over them. */
module GpuController {
  import opened Numeric
  import opened Precision

  /** `GPUState`: a telemetry reading; the optional fields are the metrics the
      hardware may not report. */
  datatype GpuState = GpuState(
    utilization: real,
    memoryUsed: real,
    memoryTotal: real,
    temperature: Option<real>,
    powerDraw: Option<real>,
    clockSpeed: Option<int>,
    performanceState: string)

  /** An entry of `monitoring_history`. `apply_fp_for_workload` appends a
      `Decision`; `optimize_for_workload` appends a `StateSample`, which carries no
      savings keys. */
  datatype MonitoringRecord =
    | Decision(timestamp: real, complexity: real, chosenFp: Tier,
               powerSavedPercent: real, memorySavedPercent: real, energySaved: real)
    | StateSample(timestamp: real, complexity: real, state: GpuState)

  /** How the collaborator calls inside `optimize_for_workload` end: one of them
      raised (the exception is caught and logged), or the GPU-state query returned. */
  datatype WorkloadStep = StepRaised | StepReturned(state: Option<GpuState>)

  datatype EnergySummary = EnergySummary(avgPowerSavedPercent: real, avgMemorySavedPercent: real,
                                         totalJoulesSaved: real)

  /** `summarize_energy_savings` either returns its summary or raises `KeyError`
      on a record without savings keys. */
  datatype SummaryResult = Summary(summary: EnergySummary) | MissingKey

  datatype HistoryReport = HistoryReport(timestamps: seq<real>, complexityValues: seq<real>,
                                         totalOptimizations: nat, averageComplexity: real)

  datatype Status = Status(gpuState: Option<GpuState>, currentFp: Tier, historyLen: nat,
                           totalEnergySaved: real)

  /** The dictionary `optimize_for_prompt` returns beside the tier. */
  datatype PromptReport = PromptReport(complexityScore: real, precisionTier: Tier, powerSavings: real,
                                       memorySavings: real, speedMultiplier: real)

  /** A metrics value as `map_complexity_to_fp` builds it: a tier and its figures
      (its running total starts at 0). */
  datatype Selection = Selection(tier: Tier, profile: TierProfile)

  predicate AllDecisions(h: seq<MonitoringRecord>)
  {
    forall i :: 0 <= i < |h| ==> h[i].Decision?
  }

  function Complexities(h: seq<MonitoringRecord>): (cs: seq<real>)
    ensures |cs| == |h| && forall i :: 0 <= i < |h| ==> cs[i] == h[i].complexity
  {
    seq(|h|, i requires 0 <= i < |h| => h[i].complexity)
  }

  function Timestamps(h: seq<MonitoringRecord>): (ts: seq<real>)
    ensures |ts| == |h| && forall i :: 0 <= i < |h| ==> ts[i] == h[i].timestamp
  {
    seq(|h|, i requires 0 <= i < |h| => h[i].timestamp)
  }

  function PowerPercents(h: seq<MonitoringRecord>): (ps: seq<real>)
    requires AllDecisions(h)
    ensures |ps| == |h| && forall i :: 0 <= i < |h| ==> ps[i] == h[i].powerSavedPercent
  {
    seq(|h|, i requires 0 <= i < |h| => h[i].powerSavedPercent)
  }

  function MemoryPercents(h: seq<MonitoringRecord>): (ms: seq<real>)
    requires AllDecisions(h)
    ensures |ms| == |h| && forall i :: 0 <= i < |h| ==> ms[i] == h[i].memorySavedPercent
  {
    seq(|h|, i requires 0 <= i < |h| => h[i].memorySavedPercent)
  }

  function EnergySaved(h: seq<MonitoringRecord>): (es: seq<real>)
    requires AllDecisions(h)
    ensures |es| == |h| && forall i :: 0 <= i < |h| ==> es[i] == h[i].energySaved
  {
    seq(|h|, i requires 0 <= i < |h| => h[i].energySaved)
  }

  /** `sum(m.cumulative_energy_saved for m in ms)`, read from the objects now. */
  function SumCumulative(ms: seq<EnergyMetrics>): real
    reads ms
  {
    if ms == [] then 0.0 else SumCumulative(ms[..|ms| - 1]) + ms[|ms| - 1].cumulativeEnergySaved
  }

  lemma {:induction false} SumCumulativeAppend(ms: seq<EnergyMetrics>, m: EnergyMetrics)
    ensures SumCumulative(ms + [m]) == SumCumulative(ms) + m.cumulativeEnergySaved
  {
    assert (ms + [m])[..|ms|] == ms;
  }

  /** Running totals that are all non-negative add up to a non-negative total. */
  lemma {:induction false} SumCumulativeNonNegative(ms: seq<EnergyMetrics>)
    requires forall i :: 0 <= i < |ms| ==> ms[i].cumulativeEnergySaved >= 0.0
    ensures SumCumulative(ms) >= 0.0
  {
    if ms != [] {
      var init := ms[..|ms| - 1];
      assert forall i :: 0 <= i < |init| ==> init[i] == ms[i];
      SumCumulativeNonNegative(init);
    }
  }

  /** The tier `apply_fp_for_workload` would pick, per `map_complexity_to_fp`'s
      total counterpart: the selector's tier and the table row for it. */
  function MapComplexityToFpTotal(complexity: real): (s: Selection)
    ensures s.tier == SelectTier(complexity) && s.profile == Tiers(s.tier)
    ensures complexity > 0.7 ==> s == Selection(FP32, Tiers(FP32))
  {
    var t := SelectTier(complexity);
    Selection(t, Tiers(t))
  }

  class GPUGovernor {
    const gpuId: int
    const precision: PrecisionManager
    var currentFpTier: Tier
    var monitoringHistory: seq<MonitoringRecord>
    var energyMetrics: seq<EnergyMetrics>
    var baselinePower: real

    constructor (gpuId: int)
      ensures this.gpuId == gpuId && fresh(precision) && precision.currentFpTier == FP32
      ensures currentFpTier == FP32
      ensures monitoringHistory == [] && energyMetrics == []
      ensures baselinePower == 100.0
    {
      this.gpuId := gpuId;
      precision := new PrecisionManager();
      currentFpTier := FP32;
      monitoringHistory := [];
      energyMetrics := [];
      baselinePower := 100.0;
    }

    /** `apply_fp_for_workload`: selects the tier, makes it current, passes the
        metrics through the telemetry step `update` and records one decision and
        one metrics entry. With an identity telemetry step the recorded metrics
        are the table's figures for the tier, with nothing saved yet. */
    method ApplyFpForWorkload(complexity: real, timestamp: real, update: EnergyMetrics -> EnergyMetrics)
      returns (tier: Tier, metrics: EnergyMetrics)
      modifies this
      ensures tier == SelectTier(complexity) && currentFpTier == tier
      ensures monitoringHistory == old(monitoringHistory) + [Decision(timestamp, complexity, tier,
        metrics.powerSavedPercent, metrics.memorySavedPercent, metrics.cumulativeEnergySaved)]
      ensures energyMetrics == old(energyMetrics) + [metrics]
      ensures SumCumulative(energyMetrics) == old(SumCumulative(energyMetrics)) + metrics.cumulativeEnergySaved
      ensures baselinePower == old(baselinePower)
      ensures (forall m :: update(m) == m) ==> fresh(metrics) && metrics.FreshFor(tier)
    {
      ghost var total := SumCumulative(energyMetrics);
      var selected;
      tier, selected := precision.SelectPrecision(complexity);
      assert SumCumulative(energyMetrics) == total;
      currentFpTier := tier;
      metrics := update(selected);
      monitoringHistory := monitoringHistory + [Decision(timestamp, complexity, tier,
        metrics.powerSavedPercent, metrics.memorySavedPercent, metrics.cumulativeEnergySaved)];
      SumCumulativeAppend(energyMetrics, metrics);
      energyMetrics := energyMetrics + [metrics];
    }

    /** `optimize_for_prompt`, given the score of the prompt analysis: applies the
        tier and reports the score, the tier and the recorded metrics' figures. */
    method OptimizeForPrompt(score: real, timestamp: real, update: EnergyMetrics -> EnergyMetrics)
      returns (tier: Tier, report: PromptReport)
      modifies this
      ensures tier == SelectTier(score) && currentFpTier == tier
      ensures |energyMetrics| == |old(energyMetrics)| + 1 && energyMetrics[..|old(energyMetrics)|] == old(energyMetrics)
      ensures var m := energyMetrics[|energyMetrics| - 1];
        && monitoringHistory == old(monitoringHistory) + [Decision(timestamp, score, tier,
             m.powerSavedPercent, m.memorySavedPercent, m.cumulativeEnergySaved)]
        && report == PromptReport(score, tier, m.powerSavedPercent, m.memorySavedPercent, m.relativeSpeed)
      ensures baselinePower == old(baselinePower)
    {
      var metrics;
      tier, metrics := ApplyFpForWorkload(score, timestamp, update);
      report := PromptReport(score, tier, metrics.powerSavedPercent, metrics.memorySavedPercent,
                             metrics.relativeSpeed);
    }

    /** `optimize_for_workload`, history effect only: a state sample is appended
        exactly when the collaborator calls return a GPU state; a raised
        exception is caught and changes nothing. */
    method OptimizeForWorkload(workloadComplexity: real, timestamp: real, step: WorkloadStep)
      modifies this
      ensures monitoringHistory == (if step.StepReturned? && step.state.Some?
        then old(monitoringHistory) + [StateSample(timestamp, workloadComplexity, step.state.value)]
        else old(monitoringHistory))
      ensures currentFpTier == old(currentFpTier) && energyMetrics == old(energyMetrics)
      ensures baselinePower == old(baselinePower)
    {
      if step.StepReturned? && step.state.Some? {
        monitoringHistory := monitoringHistory + [StateSample(timestamp, workloadComplexity, step.state.value)];
      }
    }

    /** `map_complexity_to_fp` as written: fp4 and fp8 figures spelled out, the
        selector for the middle band, and no return statement above 0.7. */
    static function MapComplexityToFp(complexity: real): (r: Option<Selection>)
      ensures r.None? <==> complexity > 0.7
      ensures r.Some? ==> r.value == MapComplexityToFpTotal(complexity)
    {
      if complexity <= 0.05 then Some(Selection(FP4, TierProfile(65.0, 75.0, 2.2)))
      else if complexity <= 0.2 then Some(Selection(FP8, TierProfile(55.0, 60.0, 2.0)))
      else if complexity <= 0.7 then
        var t := SelectTier(complexity);
        Some(Selection(t, Tiers(t)))
      else None
    }

    /** `summarize_energy_savings`: all zeros for an empty history; otherwise the
        mean power and memory percentages and the total of `energy_saved`, or
        `KeyError` when a record has no savings keys. */
    function SummarizeEnergySavings(): (r: SummaryResult)
      reads this
      ensures monitoringHistory == [] ==> r == Summary(EnergySummary(0.0, 0.0, 0.0))
      ensures r.MissingKey? <==> !AllDecisions(monitoringHistory)
      ensures r.Summary? && monitoringHistory != [] ==>
        && r.summary.avgPowerSavedPercent == Mean(PowerPercents(monitoringHistory))
        && r.summary.avgMemorySavedPercent == Mean(MemoryPercents(monitoringHistory))
        && r.summary.totalJoulesSaved == Sum(EnergySaved(monitoringHistory))
    {
      var h := monitoringHistory;
      if h == [] then Summary(EnergySummary(0.0, 0.0, 0.0))
      else if !AllDecisions(h) then MissingKey
      else
        var n := |h| as real;
        Summary(EnergySummary(Sum(PowerPercents(h)) / n, Sum(MemoryPercents(h)) / n,
                              Sum(EnergySaved(h))))
    }

    /** `get_optimization_history`: nothing for an empty history; otherwise the
        timestamps and complexities in insertion order, their count and the mean
        complexity. */
    function GetOptimizationHistory(): (r: Option<HistoryReport>)
      reads this
      ensures r.None? <==> monitoringHistory == []
      ensures r.Some? ==>
        && r.value.totalOptimizations == |monitoringHistory|
        && |r.value.complexityValues| == |r.value.timestamps| == |monitoringHistory|
        && (forall i :: 0 <= i < |monitoringHistory| ==>
              r.value.complexityValues[i] == monitoringHistory[i].complexity
              && r.value.timestamps[i] == monitoringHistory[i].timestamp)
        && r.value.averageComplexity == Mean(r.value.complexityValues)
    {
      if monitoringHistory == [] then None
      else
        var cs := Complexities(monitoringHistory);
        Some(HistoryReport(Timestamps(monitoringHistory), cs, |monitoringHistory|,
                           Sum(cs) / (|cs| as real)))
    }

    /** `get_status`, given the GPU-state reading: the current tier, the history
        length and the sum of the running totals of every metrics object. */
    function GetStatus(gpuState: Option<GpuState>): (s: Status)
      reads this, energyMetrics
      ensures s.gpuState == gpuState && s.currentFp == currentFpTier
      ensures s.historyLen == |monitoringHistory|
      ensures s.totalEnergySaved == SumCumulative(energyMetrics)
    {
      Status(gpuState, currentFpTier, |monitoringHistory|, SumCumulative(energyMetrics))
    }
  }

  /** The summary's means lie between the smallest and largest recorded percentages. */
  lemma SummaryMeansWithinRecords(h: seq<MonitoringRecord>)
    requires h != [] && AllDecisions(h)
    ensures MinOf(PowerPercents(h)) <= Mean(PowerPercents(h)) <= MaxOf(PowerPercents(h))
    ensures MinOf(MemoryPercents(h)) <= Mean(MemoryPercents(h)) <= MaxOf(MemoryPercents(h))
  {
    MeanWithinMinMax(PowerPercents(h));
    MeanWithinMinMax(MemoryPercents(h));
  }

  /** The average complexity lies between the smallest and largest recorded score. */
  lemma AverageComplexityWithinRecords(h: seq<MonitoringRecord>)
    requires h != []
    ensures MinOf(Complexities(h)) <= Mean(Complexities(h)) <= MaxOf(Complexities(h))
  {
    MeanWithinMinMax(Complexities(h));
  }

  /** `map_complexity_to_fp` above 0.7 returns `None`, where the selector gives fp32. */
  lemma MapComplexityToFpMissingReturn()
    ensures GPUGovernor.MapComplexityToFp(0.9) == None
    ensures MapComplexityToFpTotal(0.9) == Selection(FP32, Tiers(FP32))
  {
  }

  /** The tier assertions of the energy-savings test: 0.1 gives fp8, 0.5 fp16 and
      0.9 fp32 on fresh governors with an identity telemetry step, each with a
      non-negative power saving. */
  method EnergySavingsSelection() returns (t1: Tier, t2: Tier, t3: Tier, p1: real, p2: real, p3: real)
    ensures t1 == FP8 && t2 == FP16 && t3 == FP32
    ensures p1 >= 0.0 && p2 >= 0.0 && p3 >= 0.0
  {
    var g1 := new GPUGovernor(0);
    var m1;
    t1, m1 := g1.ApplyFpForWorkload(0.1, 0.0, m => m);
    var g2 := new GPUGovernor(0);
    var m2;
    t2, m2 := g2.ApplyFpForWorkload(0.5, 0.0, m => m);
    var g3 := new GPUGovernor(0);
    var m3;
    t3, m3 := g3.ApplyFpForWorkload(0.9, 0.0, m => m);
    p1, p2, p3 := m1.powerSavedPercent, m2.powerSavedPercent, m3.powerSavedPercent;
  }
}
