/** `AIToolOptimizer` (`src/integrations/ai_tool_hooks.py`): the rules that score
    a decorated function call (a hint, keywords in the function's name, the
    sizes of its tensor arguments) and the rule that scores a named AI workload
    type with its parameters, which `optimize_for_ai_workload` then hands to the
    governor. */
module AiToolHooks {
  import opened Numeric
  import opened Text
  import opened Precision
  import opened GpuController

  /** A positional argument of the decorated call: a tensor with its element
      count, or anything else. */
  datatype Arg = Tensor(numel: nat) | Other

  /** The high-complexity name keywords. */
  const HighKeywords: seq<string> := ["train", "fine_tune", "generate_large", "process_batch"]
  /** The medium-complexity name keywords. */
  const MediumKeywords: seq<string> := ["infer", "predict", "encode", "decode"]

  /** `any(keyword in name for keyword in keywords)`. */
  predicate AnyIn(keywords: seq<string>, name: string)
  {
    exists k :: 0 <= k < |keywords| && Contains(name, keywords[k])
  }

  /** Python's truth value of the hint: present and non-empty. */
  predicate HintGiven(hint: Option<string>)
  {
    hint.Some? && hint.value != []
  }

  /** A tensor argument that decides the tensor rule. */
  predicate Decisive(a: Arg)
  {
    a.Tensor? && a.numel > 100000
  }

  /** The tensor rule: the first tensor of more than 100,000 elements decides
      (0.7 above 1,000,000 elements, 0.4 otherwise); 0.3 if there is none. */
  function TensorRule(args: seq<Arg>): (r: real)
    ensures r == 0.3 || r == 0.4 || r == 0.7
    ensures r == 0.3 <==> forall j :: 0 <= j < |args| ==> !Decisive(args[j])
  {
    if args == [] then 0.3
    else
      assert forall j :: 1 <= j < |args| ==> args[1..][j - 1] == args[j];
      match args[0]
      case Tensor(size) =>
        if size > 1000000 then 0.7
        else if size > 100000 then 0.4
        else TensorRule(args[1..])
      case Other => TensorRule(args[1..])
  }

  /** The first decisive tensor decides, whatever follows it. */
  lemma {:induction false} TensorRuleFirstDecides(args: seq<Arg>, i: nat)
    requires i < |args| && Decisive(args[i])
    requires forall j :: 0 <= j < i ==> !Decisive(args[j])
    ensures TensorRule(args) == if args[i].numel > 1000000 then 0.7 else 0.4
  {
    if i > 0 {
      assert !Decisive(args[0]);
      assert forall j :: 0 <= j < i - 1 ==> args[1..][j] == args[j + 1];
      TensorRuleFirstDecides(args[1..], i - 1);
    }
  }

  /** `_analyze_function_complexity` as a value. `hintScore` stands for the
      analyzer's score of the hint, which the hint rule returns. */
  function FunctionComplexity(funcName: string, args: seq<Arg>, hint: Option<string>, hintScore: real): real
  {
    if HintGiven(hint) then hintScore
    else
      var name := Lower(funcName);
      if AnyIn(HighKeywords, name) then 0.8
      else if AnyIn(MediumKeywords, name) then 0.5
      else TensorRule(args)
  }

  /** A non-empty hint decides alone: the name and the arguments are not looked at. */
  lemma HintShortCircuits(funcName: string, args: seq<Arg>, hint: Option<string>, hintScore: real)
    requires HintGiven(hint)
    ensures FunctionComplexity(funcName, args, hint, hintScore) == hintScore
  {
  }

  /** The name rules in order: a high keyword gives 0.8 even if a medium keyword
      is also present, a medium keyword gives 0.5 only without a high one, and
      the tensors count only when neither is present. */
  lemma NameRulePrecedence(funcName: string, args: seq<Arg>, hint: Option<string>, hintScore: real)
    requires !HintGiven(hint)
    ensures var name := Lower(funcName); var r := FunctionComplexity(funcName, args, hint, hintScore);
      && (AnyIn(HighKeywords, name) ==> r == 0.8)
      && (!AnyIn(HighKeywords, name) && AnyIn(MediumKeywords, name) ==> r == 0.5)
      && (!AnyIn(HighKeywords, name) && !AnyIn(MediumKeywords, name) ==> r == TensorRule(args))
  {
  }

  /** Without a hint the score lies in [0.3, 0.8]. */
  lemma FunctionComplexityRange(funcName: string, args: seq<Arg>, hint: Option<string>, hintScore: real)
    requires !HintGiven(hint)
    ensures 0.3 <= FunctionComplexity(funcName, args, hint, hintScore) <= 0.8
  {
  }

  /** The name is matched after lower-casing: `Train_Model` is a high-complexity name. */
  lemma UpperCaseNameMatches()
    ensures FunctionComplexity("Train_Model", [], None, 0.0) == 0.8
  {
    var name := Lower("Train_Model");
    assert name[..5] == "train";
    assert Contains(name, HighKeywords[0]);
  }

  /** `workload_complexity_map`. */
  const WorkloadComplexityMap: map<string, real> := map[
    "text_generation" := 0.4,
    "image_generation" := 0.7,
    "model_training" := 0.9,
    "fine_tuning" := 0.8,
    "inference" := 0.3,
    "embedding" := 0.5,
    "translation" := 0.4,
    "summarization" := 0.3,
    "question_answering" := 0.4,
    "classification" := 0.3
  ]

  /** `workload_complexity_map.get(workload_type, 0.5)`. */
  function WorkloadBase(workloadType: string): (b: real)
    ensures workloadType !in WorkloadComplexityMap ==> b == 0.5
    ensures 0.3 <= b <= 0.9
  {
    if workloadType in WorkloadComplexityMap then WorkloadComplexityMap[workloadType] else 0.5
  }

  /** `key in params and params[key] > threshold`. */
  predicate Exceeds(params: map<string, real>, key: string, threshold: real)
  {
    key in params && params[key] > threshold
  }

  /** The adjustment one parameter contributes. */
  function Adjustment(params: map<string, real>, key: string, threshold: real, step: real): real
  {
    if Exceeds(params, key, threshold) then step else 0.0
  }

  /** The score `optimize_for_ai_workload` computes: the base of the type, the
      three parameter adjustments, capped at 1. */
  function WorkloadScore(workloadType: string, params: map<string, real>): (r: real)
    ensures 0.3 <= r <= 1.0
    ensures WorkloadBase(workloadType) <= r <= WorkloadBase(workloadType) + 0.4
  {
    Min(1.0, WorkloadBase(workloadType)
             + Adjustment(params, "batch_size", 8.0, 0.1)
             + Adjustment(params, "sequence_length", 512.0, 0.1)
             + Adjustment(params, "image_size", 512.0, 0.2))
  }

  /** The thresholds are strict: a parameter exactly at its threshold changes
      nothing, as if it were absent. */
  lemma ThresholdsAreStrict(workloadType: string, params: map<string, real>, key: string)
    requires key in params
    requires (key == "batch_size" && params[key] == 8.0)
          || ((key == "sequence_length" || key == "image_size") && params[key] == 512.0)
    ensures WorkloadScore(workloadType, params) == WorkloadScore(workloadType, params - {key})
  {
  }

  /** Exceeding more thresholds never lowers the score. */
  lemma WorkloadScoreMonotone(workloadType: string, p1: map<string, real>, p2: map<string, real>)
    requires Exceeds(p1, "batch_size", 8.0) ==> Exceeds(p2, "batch_size", 8.0)
    requires Exceeds(p1, "sequence_length", 512.0) ==> Exceeds(p2, "sequence_length", 512.0)
    requires Exceeds(p1, "image_size", 512.0) ==> Exceeds(p2, "image_size", 512.0)
    ensures WorkloadScore(workloadType, p1) <= WorkloadScore(workloadType, p2)
  {
  }

  /** An unknown type without parameters scores the default 0.5, and training at
      large image sizes reaches the cap. */
  lemma WorkloadExamples()
    ensures WorkloadScore("unknown", map[]) == 0.5
    ensures WorkloadScore("model_training", map["image_size" := 1024.0]) == 1.0
    ensures SelectTier(WorkloadScore("inference", map[])) == FP16
  {
    assert "unknown" !in WorkloadComplexityMap;
  }

  /** `AIToolOptimizer`: the governor it drives and its on/off switch. */
  class AIToolOptimizer {
    const governor: GPUGovernor
    var optimizationEnabled: bool

    constructor ()
      ensures fresh(governor) && optimizationEnabled
      ensures governor.currentFpTier == FP32
      ensures governor.monitoringHistory == [] && governor.energyMetrics == []
    {
      governor := new GPUGovernor(0);
      optimizationEnabled := true;
    }

    /** `_analyze_function_complexity`: the hint, then the two name rules, then
        a scan of the arguments that returns at the first decisive tensor. */
    method AnalyzeFunctionComplexity(funcName: string, args: seq<Arg>, hint: Option<string>, hintScore: real)
      returns (r: real)
      ensures r == FunctionComplexity(funcName, args, hint, hintScore)
    {
      if HintGiven(hint) {
        return hintScore;
      }
      var name := Lower(funcName);
      if AnyIn(HighKeywords, name) {
        return 0.8;
      }
      if AnyIn(MediumKeywords, name) {
        return 0.5;
      }
      var i := 0;
      while i < |args|
        invariant 0 <= i <= |args|
        invariant TensorRule(args[i..]) == TensorRule(args)
      {
        assert args[i..][1..] == args[i + 1..];
        match args[i] {
          case Tensor(size) =>
            if size > 1000000 {
              return 0.7;
            } else if size > 100000 {
              return 0.4;
            }
          case Other =>
        }
        i := i + 1;
      }
      return 0.3;
    }

    /** `optimize_for_ai_workload`: builds the score step by step, lets the
        governor record the workload (`step` is the outcome of its collaborator
        calls) and applies the tier for it. `sampleTime` and `decisionTime` are
        the two clock readings. */
    method OptimizeForAiWorkload(workloadType: string, params: map<string, real>,
                                 sampleTime: real, decisionTime: real, step: WorkloadStep,
                                 update: EnergyMetrics -> EnergyMetrics)
      returns (tier: Tier, metrics: EnergyMetrics)
      modifies governor
      ensures var c := WorkloadScore(workloadType, params);
        && tier == SelectTier(c) && governor.currentFpTier == tier
        && governor.monitoringHistory == old(governor.monitoringHistory)
             + (if step.StepReturned? && step.state.Some? then [StateSample(sampleTime, c, step.state.value)] else [])
             + [Decision(decisionTime, c, tier, metrics.powerSavedPercent, metrics.memorySavedPercent,
                         metrics.cumulativeEnergySaved)]
      ensures governor.energyMetrics == old(governor.energyMetrics) + [metrics]
      ensures governor.baselinePower == old(governor.baselinePower)
      ensures (forall m :: update(m) == m) ==> fresh(metrics) && metrics.FreshFor(tier)
    {
      var complexity := WorkloadBase(workloadType);
      if "batch_size" in params && params["batch_size"] > 8.0 {
        complexity := complexity + 0.1;
      }
      if "sequence_length" in params && params["sequence_length"] > 512.0 {
        complexity := complexity + 0.1;
      }
      if "image_size" in params && params["image_size"] > 512.0 {
        complexity := complexity + 0.2;
      }
      complexity := Min(1.0, complexity);
      assert complexity == WorkloadScore(workloadType, params);
      governor.OptimizeForWorkload(complexity, sampleTime, step);
      tier, metrics := governor.ApplyFpForWorkload(complexity, decisionTime, update);
    }
  }
}
