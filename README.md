# GPU conservation governor: a verified Dafny model

This project models the decision core of a GPU energy-conservation governor.
The governor scores how demanding a prompt or AI workload is and maps the
score to a floating-point precision tier:

- fp4 at a score of at most 0.05;
- fp8 at most 0.2;
- fp16 at most 0.7;
- fp32 above 0.7.

It records each decision in an append-only monitoring history and keeps the
metrics objects it produced. From the tier's estimated power saving, or from
a measured power draw, it accounts the joules saved.

Three independent complexity estimators are modelled:

- the five-signal weighted analyzer (`ComplexityAnalyzer`);
- the lightweight log-saturated estimator (`estimate_complexity`);
- the fast bucketed analyzer that also picks a GPU power profile.

Also modelled:

- the scoring rules of the AI-tool integration hooks;
- the running-average and unit-prefix utilities.

One Dafny module stands for each source file. Two shared modules sit beside them:

- `Numeric`: Python's left-to-right `sum`, mean, min and max over reals.
- `Text`: ASCII `str.lower` and `str.upper`, substring search, `\w+` word runs, and `\b`-bounded literal search.

Python floats are modelled as `real`, with exact arithmetic.

Three kinds of state are objects with mutable fields:

- `EnergyMetrics`: `compute_energy_saved` adds to its running total in place.
- `PrecisionManager`: holds the current tier.
- `GPUGovernor`: holds the current tier, the history and the metrics list, all reassigned by its methods.

The source's loops are written as `while` loops, each proved equal to a recursive or closed-form function, and the properties are proved about that function.

Regular-expression extraction of numbers is not re-implemented. Each estimator
receives the captured groups as a value, in match order. Keyword and substring
rules are evaluated on the prompt itself.

## Model

| member | source | states |
|---|---|---|
| Precision.SelectTierBands | src/core/precision.py:58-65 | each tier is selected exactly by its score band: fp4 iff c ≤ 0.05, fp8 iff 0.05 < c ≤ 0.2, fp16 iff 0.2 < c ≤ 0.7, fp32 iff c > 0.7 |
| Precision.SelectTierMonotone | src/core/precision.py:58-65 | a higher score never selects a more aggressive tier |
| Precision.TierTableAntitone | src/core/precision.py:21-42 | along fp4, fp8, fp16, fp32 the table's power saving, memory saving and speed never increase |
| Precision.PowerSavedNonIncreasing | src/core/precision.py:21-65 | the predicted power saving is non-increasing in the complexity score |
| Precision.SelectTierBoundaries | src/core/precision.py:58-65 | each bound belongs to the band below it: 0.05 gives fp4, 0.2 fp8, 0.7 fp16, just above 0.7 fp32 |
| Precision.EnergyMetrics.constructor | src/core/precision.py:8-15 | the metrics record holds the given tier, percentages, speed and running total |
| Precision.PrecisionManager.constructor | src/core/precision.py:44-46 | a new manager's current tier is fp32 |
| Precision.PrecisionManager.SelectPrecision | src/core/precision.py:48-77 | returns the threshold tier and fresh metrics carrying exactly that tier's table row with nothing saved yet |
| Precision.PrecisionManager.ExecutionContext | src/core/precision.py:79-113 | autocast at fp16 is chosen iff CUDA is available, the autocast constructor succeeds and the resolved tier is not fp32; the fallback warning is logged iff CUDA is available and the tier is fp4 or fp8; no tier means the current one |
| Precision.DefaultContextIsBaseline | src/core/precision.py:44-46 | on a new manager, no tier means fp32, which runs without a special mode and logs no warning |
| Precision.JoulesSaved | src/core/precision.py:133-143 | the saving is never negative |
| Precision.EstimatedSaving | src/core/precision.py:136-143 | without measured power the saving is max(0, duration·baseline·percent/100) |
| Precision.MeasuredSaving | src/core/precision.py:134-143 | with measured power the saving is max(0, (baseline − measured)·duration) |
| Precision.ZeroDurationSavesNothing | src/core/precision.py:140-143 | a zero-length workload saves nothing |
| Precision.BaselineTierSavesNothing | src/core/precision.py:37-41 | the fp32 tier saves nothing on the estimated path |
| Precision.Fp16Example | src/core/precision.py:32-36 | 2 s at 100 W baseline, unmeasured, at fp16 saves 90 J |
| Precision.NonPositiveDurationEstimated | src/core/precision.py:136-143 | on the estimated path, with non-negative baseline power and percent, a non-positive duration saves nothing |
| Precision.NegativeDurationCredited | src/core/precision.py:134-143 | with measured power above the baseline, a duration of −1 s is credited 50 J: the duration is not clamped |
| Precision.PrecisionManager.ComputeEnergySaved | src/core/precision.py:115-148 | returns the saving and adds it to the metrics' running total in place, which therefore never decreases |
| GpuController.GPUGovernor.constructor | src/core/gpu_controller.py:43-55 | a new governor is at fp32 with an empty history, no metrics, a 100 W baseline and a manager at fp32 |
| GpuController.GPUGovernor.ApplyFpForWorkload | src/core/gpu_controller.py:154-177 | selects the threshold tier and makes it current; appends exactly one decision record and one metrics object; the total of the running totals grows by the new object's total; with an identity telemetry step the recorded figures are the tier's table row |
| GpuController.GPUGovernor.OptimizeForPrompt | src/core/gpu_controller.py:190-205 | applies the tier for the given score and reports the score, the tier and the recorded metrics' figures |
| GpuController.GPUGovernor.OptimizeForWorkload | src/core/gpu_controller.py:65-79 | appends a state sample exactly when the GPU-state query returns a state; a raised exception changes nothing; tier and metrics are untouched |
| GpuController.GPUGovernor.MapComplexityToFp | src/core/gpu_controller.py:112-152 | returns nothing exactly above 0.7; otherwise agrees with the selector and the table |
| GpuController.MapComplexityToFpTotal | src/core/gpu_controller.py:112-152 | the corrected mapping: the selector's tier with its table row, for every score; above 0.7 it is fp32 with the fp32 row, as the docstring says |
| GpuController.MapComplexityToFpMissingReturn | src/core/gpu_controller.py:112-152 | at 0.9 the code as written returns nothing, where the selector gives fp32 |
| GpuController.GPUGovernor.SummarizeEnergySavings | src/core/gpu_controller.py:219-236 | zeros for an empty history; `KeyError` iff some record lacks the savings keys; otherwise the mean power and memory percentages and the total energy saved |
| GpuController.SummaryMeansWithinRecords | src/core/gpu_controller.py:228-229 | the summary's mean percentages lie between the smallest and largest recorded ones |
| GpuController.GPUGovernor.GetOptimizationHistory | src/core/gpu_controller.py:92-102 | nothing iff the history is empty; otherwise the timestamps and complexities in insertion order, their count and the mean complexity |
| GpuController.AverageComplexityWithinRecords | src/core/gpu_controller.py:101 | the average complexity lies between the smallest and largest recorded score |
| GpuController.GPUGovernor.GetStatus | src/core/gpu_controller.py:207-217 | the given GPU state, the current tier, the history length and the sum of every metrics object's running total |
| GpuController.SumCumulativeNonNegative | src/core/gpu_controller.py:210 | running totals that are all non-negative give a non-negative total energy saved |
| GpuController.EnergySavingsSelection | test_energy_savings.py:53-62 | 0.1, 0.5 and 0.9 give fp8, fp16 and fp32 on fresh governors, each with a non-negative power saving |
| Analyzer.IndicatorWeightsSumToOne | src/core/analyzer.py:9-15 | the five component weights add up to 1 |
| Analyzer.MaxArea | src/core/analyzer.py:48-51 | the result bounds every matched n·m and is attained by one of them |
| Analyzer.MatrixOpsScore | src/core/analyzer.py:43-53 | lies in [0, 1], and is 0 without a matrix match |
| Analyzer.LargeMatrixSaturates | src/core/analyzer.py:52-53 | any match of at least 4096·4096 elements gives 1 |
| Analyzer.MatrixOpsRatio | src/core/analyzer.py:52-53 | below saturation the score is the largest area over 4096·4096 |
| Analyzer.BatchSizeScore | src/core/analyzer.py:55-62 | lies in [0, 1]: 0 without a match, 1 from a batch size of 32 |
| Analyzer.IterationsScore | src/core/analyzer.py:64-71 | lies in [0, 1]: 0 without a match, 1 from 1000 iterations |
| Analyzer.PrecisionNeedsScore | src/core/analyzer.py:73-82 | the result is 1.0, 0.5 or 0.2 |
| Analyzer.PrecisionNeedsOrder | src/core/analyzer.py:73-82 | 1.0 iff a high-precision phrase occurs; 0.2 iff a low-precision phrase occurs and neither earlier rule applies |
| Analyzer.MaxMatchedIndicator | src/core/analyzer.py:95-97 | bounds every found indicator's weight, is attained by a found one, and is 0 iff none is found |
| Analyzer.MemoryIntensity | src/core/analyzer.py:84-98 | lies in (0, 1] |
| Analyzer.AnalyzeMemoryIntensity | src/core/analyzer.py:84-98 | the running-maximum loop computes the largest found weight, or 0.5 when none is found |
| Analyzer.LargeAndSmall | src/core/analyzer.py:88-98 | "large" with "small", without a stronger indicator, gives 0.8: a maximum, not a sum |
| Analyzer.Analyze | src/core/analyzer.py:23-32 | the five component signals, each its own rule |
| Analyzer.WeightedSumInRange | src/core/analyzer.py:34-41 | signals in [0, 1] give a weighted sum in [0, 1], so the final clamp is the identity |
| Analyzer.Estimate | src/core/analyzer.py:34-41 | the estimate lies in [0, 1] |
| Analyzer.EstimateComplexity | src/core/analyzer.py:34-41 | the estimate equals the unclamped weighted sum of the five signals |
| Analyzer.MemoryIntensityValues | src/core/analyzer.py:84-98 | the memory signal is one of the five indicator weights or the 0.5 default, and is 0.1 only when 'tiny' is found |
| Analyzer.Fp4NeedsTinyAndLowPrecision | src/core/analyzer.py:34-98 | a prompt whose estimate selects fp4 has the low-precision signal 0.2 and the memory signal 0.1, so it mentions 'tiny' |
| Analyzer.PrecisionDefaultWithoutLetters | src/core/analyzer.py:73-82 | a prompt lacking the letters h, f, e, o and n mentions no precision phrase and gets the 0.5 default |
| Analyzer.MemoryOnlySmall | src/core/analyzer.py:84-98 | a prompt with 'small' and without the letters g, h, e and n has memory signal 0.2 |
| Analyzer.SmallMatrixPromptIsFp8 | src/core/analyzer.py:34-98 | "small 2x2 matrix" with its one 2x2 match scores 0.105 + 0.3·4/4096² and selects fp8 |
| Analyzer.SaturatedMatrixAndBatchIsFp16 | src/core/analyzer.py:34-98 | a saturating matrix and batch size, no iteration count, no high-precision phrase and no memory indicator give 0.65 (0.605 with a low-precision phrase) and fp16 |
| ComplexityEstimator.NormLog | src/core/complexity_analyzer.py:7-9 | lies in [0, 1] for any argument |
| ComplexityEstimator.NormLogClamps | src/core/complexity_analyzer.py:8 | the argument matters only through its clamp to [0, 10¹²] |
| ComplexityEstimator.TokenFactor | src/core/complexity_analyzer.py:25-27 | the number of word runs over 2000, saturating at 1 from 2000 words |
| ComplexityEstimator.MatrixFactor | src/core/complexity_analyzer.py:30-34 | lies in [0, 1], is 0 without matches, bounds and is attained by a match's normalised area |
| ComplexityEstimator.MatrixFactorLoop | src/core/complexity_analyzer.py:30-34 | the loop computes the largest normalised area |
| ComplexityEstimator.BatchFactor | src/core/complexity_analyzer.py:36-39 | lies in [0, 1], and is 0 without a batch size |
| ComplexityEstimator.SizeFactor | src/core/complexity_analyzer.py:41 | the larger of the matrix and batch factors: bounds both and equals one of them |
| ComplexityEstimator.NoSizeNoSizeFactor | src/core/complexity_analyzer.py:30-41 | without a matrix or a batch size the size signal is 0 |
| ComplexityEstimator.OpScore | src/core/complexity_analyzer.py:44-60 | lies in [0, 1], bounds every found keyword's weight and is 0 or the weight of a found one |
| ComplexityEstimator.OpScoreLoop | src/core/complexity_analyzer.py:57-60 | the loop over a keyword table computes the heaviest found keyword's weight, 0 if none is found |
| ComplexityEstimator.OpScoreIsHeaviestFound | src/core/complexity_analyzer.py:57-60 | the op signal is exactly the heaviest found keyword's weight, so lighter keywords found besides it do not change it |
| ComplexityEstimator.Estimate | src/core/complexity_analyzer.py:12-64 | lies in [0, 1], and is 0 for an empty or blank prompt |
| ComplexityEstimator.EstimateComplexity | src/core/complexity_analyzer.py:12-64 | the procedure computes the estimate |
| ComplexityEstimator.CombineInRange | src/core/complexity_analyzer.py:62-63 | three signals in [0, 1] combine into [0, 1], and all-ones gives 1 |
| ComplexityEstimator.RayTraceAtLeastHalf | src/core/complexity_analyzer.py:50-62 | a non-blank prompt mentioning "ray trace" as a word scores at least 0.5 |
| ComplexityEstimator.BlankPromptExample | src/core/complexity_analyzer.py:20-21 | a blank prompt scores exactly 0 |
| ComplexityEstimator.RayTracePromptExample | src/core/complexity_analyzer.py:44-62 | the prompt "ray trace" scores at least 0.5 |
| FastAnalyzer.MaxDataSize | src/analyzer/fast_complexity_analyzer.py:57-71 | bounds every match's size and is 0 or attained by a match |
| FastAnalyzer.MemoryMatchSize | src/analyzer/fast_complexity_analyzer.py:63-70 | the amount scaled by the first unit found in the upper-cased unit |
| FastAnalyzer.SizeBucket | src/analyzer/fast_complexity_analyzer.py:73-81 | 0.3 below 1 MiB, 0.6 below 1 GiB, 0.9 from 1 GiB |
| FastAnalyzer.DataSizeSignal | src/analyzer/fast_complexity_analyzer.py:51-81 | the result is 0.3, 0.6 or 0.9 |
| FastAnalyzer.AnalyzeDataSize | src/analyzer/fast_complexity_analyzer.py:51-81 | the loop computes the bucket of the largest match size, 0.3 without matches |
| FastAnalyzer.MemoryBranchUnreachable | src/analyzer/fast_complexity_analyzer.py:53-71 | the unit alternatives are upper case and the prompt is lower-cased, so only matrix matches occur |
| FastAnalyzer.DataSizeOfMatrices | src/analyzer/fast_complexity_analyzer.py:57-81 | with matrix matches only, the signal is the bucket of the largest n·m |
| FastAnalyzer.OperationSignal | src/analyzer/fast_complexity_analyzer.py:83-93 | lies in [0, 1] |
| FastAnalyzer.UpperCaseMlOpsNeverCount | src/analyzer/fast_complexity_analyzer.py:83-93 | CNN, RNN and LSTM never match the lower-cased prompt: the count equals that of the lower-case alternatives alone |
| FastAnalyzer.MaxIterations | src/analyzer/fast_complexity_analyzer.py:101-104 | bounds every captured count and is 0 or attained by one |
| FastAnalyzer.IterationSignal | src/analyzer/fast_complexity_analyzer.py:95-112 | 0.3 iff the largest count is below 100, 0.9 iff it is at least 1000, 0.6 otherwise |
| FastAnalyzer.AnalyzeIterations | src/analyzer/fast_complexity_analyzer.py:95-112 | the loop computes the iteration bucket |
| FastAnalyzer.ScoreFor | src/analyzer/fast_complexity_analyzer.py:132-150 | the score keeps the raw value, its level, and exactly that level's power profile |
| FastAnalyzer.AnalyzePrompt | src/analyzer/fast_complexity_analyzer.py:114-162 | the prompt's analysis; on the normal path the raw score lies in [0.195, 0.935]; the level matches the thresholds and the profile matches the level |
| FastAnalyzer.RawScoreRange | src/analyzer/fast_complexity_analyzer.py:126-130 | signals within their ranges give a score in [0.195, 0.935] |
| FastAnalyzer.RawScoreBoundsTight | src/analyzer/fast_complexity_analyzer.py:126-130 | both bounds are reached |
| FastAnalyzer.FallbackIsLowProfile | src/analyzer/fast_complexity_analyzer.py:152-162 | the default after an exception is what the thresholds give a score of 0.3 |
| FastAnalyzer.LevelMonotone | src/analyzer/fast_complexity_analyzer.py:29-49 | a higher score never selects a lower level or a smaller power limit, utilisation or clock |
| FastAnalyzer.LevelBands | src/analyzer/fast_complexity_analyzer.py:133-141 | low iff < 0.4, medium iff in [0.4, 0.7), high iff ≥ 0.7 |
| AiToolHooks.TensorRule | src/integrations/ai_tool_hooks.py:59-67 | the result is 0.3, 0.4 or 0.7, and 0.3 iff no tensor has more than 100,000 elements |
| AiToolHooks.TensorRuleFirstDecides | src/integrations/ai_tool_hooks.py:59-65 | the first tensor of more than 100,000 elements decides: 0.7 above 1,000,000, else 0.4 |
| AiToolHooks.HintShortCircuits | src/integrations/ai_tool_hooks.py:44-45 | a non-empty hint decides alone |
| AiToolHooks.NameRulePrecedence | src/integrations/ai_tool_hooks.py:48-67 | a high keyword gives 0.8 even beside a medium one; a medium keyword gives 0.5 only without a high one; otherwise the tensor rule |
| AiToolHooks.FunctionComplexityRange | src/integrations/ai_tool_hooks.py:41-67 | without a hint the score lies in [0.3, 0.8] |
| AiToolHooks.UpperCaseNameMatches | src/integrations/ai_tool_hooks.py:48-52 | the name is lower-cased first: `Train_Model` scores 0.8 |
| AiToolHooks.AIToolOptimizer.AnalyzeFunctionComplexity | src/integrations/ai_tool_hooks.py:41-67 | the scan with early return computes the function's score |
| AiToolHooks.WorkloadBase | src/integrations/ai_tool_hooks.py:71-84 | an unlisted type gets 0.5; every base lies in [0.3, 0.9] |
| AiToolHooks.WorkloadScore | src/integrations/ai_tool_hooks.py:71-94 | lies in [0.3, 1.0] and at most 0.4 above the base |
| AiToolHooks.ThresholdsAreStrict | src/integrations/ai_tool_hooks.py:87-92 | a parameter exactly at its threshold changes nothing |
| AiToolHooks.WorkloadScoreMonotone | src/integrations/ai_tool_hooks.py:87-94 | exceeding more thresholds never lowers the score |
| AiToolHooks.WorkloadExamples | src/integrations/ai_tool_hooks.py:71-94 | an unknown type scores 0.5, training with large images reaches the cap, inference is run at fp16 |
| AiToolHooks.AIToolOptimizer.constructor | src/integrations/ai_tool_hooks.py:11-14 | a new optimizer is enabled and drives a new governor |
| AiToolHooks.AIToolOptimizer.OptimizeForAiWorkload | src/integrations/ai_tool_hooks.py:69-97 | the step-by-step score is the workload score; the governor records the workload, then applies and returns the threshold tier for it, appending exactly the returned metrics object; the baseline power is unchanged; with an identity telemetry step the returned metrics are a new object holding the tier's table row and a zero running total |
| Metrics.WindowOf | src/utils/metrics.py:13-14 | with a window of at least 1 the slice is non-empty and ends at the current index; below 1 it is empty |
| Metrics.RunningAverage | src/utils/metrics.py:7-16 | empty input gives empty output; a non-empty input raises iff the window is below 1; otherwise one average per value |
| Metrics.ComputeRunningAverage | src/utils/metrics.py:7-16 | the loop computes the running averages, or the division error at the first index |
| Metrics.RunningAverageFirst | src/utils/metrics.py:13-15 | the first average is the first value |
| Metrics.WindowOneIsIdentity | src/utils/metrics.py:13-15 | a window of 1 gives back the values |
| Metrics.WideWindowIsCumulative | src/utils/metrics.py:13-15 | a window at least as long as the list gives the cumulative means |
| Metrics.AverageWithinWindow | src/utils/metrics.py:13-15 | each average lies between its window's minimum and maximum |
| Metrics.AverageWithinValues | src/utils/metrics.py:13-15 | each average lies between the list's minimum and maximum |
| Metrics.ScaleForDisplay | src/utils/metrics.py:50-64 | milli iff below 1, no prefix iff in [1, 1000), kilo iff from 1000, and unscaling gives back the quantity |
| Metrics.FormatJoules | src/utils/metrics.py:50-56 | mJ iff below 1, J iff in [1, 1000), kJ iff from 1000; the shown value stands for the given quantity |
| Metrics.FormatWatts | src/utils/metrics.py:58-64 | mW iff below 1, W iff in [1, 1000), kW iff from 1000; the shown value stands for the given quantity |
| Metrics.DisplayedRange | src/utils/metrics.py:52-56 | for a non-negative quantity, the shown number is below 1000 unless kilo and at least 1 unless milli |
| Metrics.FormatBoundaries | src/utils/metrics.py:52-56 | 0.5 J shows as 500 mJ, 1 J as 1 J, 1000 J as 1 kJ, 1500 W as 1.5 kW |

## Left out

- Hardware telemetry (`src/core/telemetry.py`, NVML, `torch.cuda`) is hardware I/O and is not part of this model. Where the governor uses it, the outcome is a parameter:
  - `update` stands for `update_energy_metrics`. It is a total function on metrics objects, so it cannot change the object it is given in place or create a new one. It returns that object or one the caller captured, and the governor's contract holds either way;
  - `step` stands for the `optimize_for_workload` collaborator calls;
  - `gpuState` stands for the GPU-state query.
- `GPUGovernor.__init__` passes `gpu_id` to `TelemetryManager` (src/core/gpu_controller.py:50), whose constructor takes no argument (src/core/telemetry.py:25), so building a governor raises `TypeError` as written. `GpuController.GPUGovernor.constructor` assumes the telemetry manager was built; `GpuController.EnergySavingsSelection` (test_energy_savings.py:53-62) holds only under that assumption.
- Methods that only forward to missing collaborators are not modelled, because their targets are not shown:
  - `_get_gpu_state`, `_determine_performance_state`, `compute_joules_saved`, `collect_garbage`, `fp_precision_context`;
  - `cleanup`, which only empties the CUDA cache.
- `apply_fp_for_workload` and the middle branch of `map_complexity_to_fp` (src/core/gpu_controller.py:151) call `analyze_complexity` on the precision manager, which does not define it. The model binds both calls to `select_precision`, the manager's only tier selector (`GPUGovernor.ApplyFpForWorkload`, `GPUGovernor.MapComplexityToFp`).
- `optimize_for_prompt` calls `analyze_prompt` on the analyzer, which does not define it. The score is a parameter.
- The hint rule of `_analyze_function_complexity` calls `analyze_complexity` on the analyzer, which does not define it. The hint's score is the parameter `hintScore`.
- `optimize_for_workload` first calls a manager method that does not exist. Its effect is folded into the `step` outcome.
- Torch autocast contexts are not modelled. Only the chosen mode and the fallback warning are.
- Precision.PrecisionManager.ExecutionContext: the tier is a `Tier`, which has only fp4, fp8, fp16 and fp32. Any other tier string (such as 'bf16' or 'FP16') reaches the final `nullcontext()` of `get_execution_context` (src/core/precision.py:112-113) when CUDA is available, and the model does not represent such strings.
- Regular-expression matching of numbers is not re-implemented. The captured groups are given in match order (`Extracted`, `FastExtracted`), so the model does not check that a given list is what the pattern would find. The same holds for the `\d{1,6}` digit limits and the `×` sign.
- `\w`, `\b`, `str.lower`, `str.upper` and `str.isspace` follow ASCII rules plus the Unicode spaces listed in `Text.IsSpace`. Non-ASCII letters and case mappings are not modelled.
- `math.log` is the parameter `log`. It is known only to be non-negative for arguments of at least 1 and bases above 1.
- Floating-point rounding is not modelled: reals are exact.
- The digits `format_joules` / `format_watts` render are not modelled. The prefix and the scaled value are.
- `log_metrics_to_csv` is file I/O and is not modelled.
- `get_current_metrics` is string formatting of a telemetry reading and is not modelled.
- `auto_optimize`, the global `ai_optimizer` and `auto_optimize_gpu` are decorator and singleton wiring and are not modelled.
- `get_energy_savings_summary` sums `EnergyMetrics` objects with `sum`, which raises on objects. It is not modelled.
- `time.time()` readings are parameters.
- Logging is not modelled.
- Behaviour of the code that the model states as written:
  - a negative duration with measured power above the baseline is credited a positive saving (`Precision.NegativeDurationCredited`);
  - `map_complexity_to_fp` returns nothing above 0.7, although its docstring says "High complexity -> FP32" (see "## Findings");
  - the prompt "small 2x2 matrix" scores 0.105 + 0.3·4/4096² and selects fp8 (`Analyzer.SmallMatrixPromptIsFp8`), which agrees with the fp8 that test_energy_savings.py:54 expects for the score 0.1 it uses for a 2x2 multiply; fp4 needs 'tiny' and a low-precision phrase (`Analyzer.Fp4NeedsTinyAndLowPrecision`);
  - the prompt "train deep neural network on 4096x4096 batch_size=32" scores 0.65 and selects fp16: its lower-cased text has no 'g', 'f', 'm' or 'y', so it has no high-precision phrase and no memory indicator, and with its 4096x4096 match and batch size 32 `Analyzer.SaturatedMatrixAndBatchIsFp16` applies. The instance for this literal is not proved.

## Findings

| source | as written | input that shows it | evidently intended | confidence | as-written member | corrected member |
|---|---|---|---|---|---|---|
| src/core/gpu_controller.py:112-152 | the fp4, fp8 and middle branches return; above 0.7 the function falls off its end and returns `None` instead of a tier and metrics | complexity 0.9 | fp32 with its table row, as the docstring's "High complexity -> FP32" says | not executed | GpuController.MapComplexityToFpMissingReturn | GpuController.MapComplexityToFpTotal |
