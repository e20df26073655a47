/** `ComplexityAnalyzer` (`src/core/analyzer.py`): five component signals, each
    in [0, 1], combined by the fixed `INDICATORS` weights into a clamped score.
    The numbers the three regular expressions capture are given as an `Extracted`
    value; the substring rules are evaluated on the prompt itself. */
module Analyzer {
  import opened Numeric
  import opened Text
  import opened Precision

  /** What the patterns capture from one prompt:
      `matrices`: the (n, m) pairs of every `(\d+)\s*[xX]\s*(\d+)` match in the
      lower-cased prompt, in order; `batchSize` and `iterations`: the number of the
      first match of the case-insensitive batch and iteration patterns, if any. */
  datatype Extracted = Extracted(matrices: seq<(nat, nat)>, batchSize: Option<nat>, iterations: Option<nat>)

  /** The dictionary `analyze` returns. */
  datatype Scores = Scores(matrixOps: real, batchSize: real, iterations: real, precision: real, memory: real)

  /** The `INDICATORS` weights, in the dictionary's order. */
  const MatrixOpsWeight: real := 0.3
  const BatchSizeWeight: real := 0.2
  const IterationsWeight: real := 0.2
  const PrecisionWeight: real := 0.15
  const MemoryWeight: real := 0.15

  lemma IndicatorWeightsSumToOne()
    ensures MatrixOpsWeight + BatchSizeWeight + IterationsWeight + PrecisionWeight + MemoryWeight == 1.0
  {
  }

  /** `max(int(n) * int(m) for n, m in matches)`. */
  function MaxArea(ms: seq<(nat, nat)>): (a: nat)
    requires ms != []
    ensures forall i :: 0 <= i < |ms| ==> ms[i].0 * ms[i].1 <= a
    ensures exists i :: 0 <= i < |ms| && ms[i].0 * ms[i].1 == a
  {
    if |ms| == 1 then ms[0].0 * ms[0].1
    else
      var rest := MaxArea(ms[1..]);
      assert forall i :: 1 <= i < |ms| ==> ms[1..][i - 1] == ms[i];
      if ms[0].0 * ms[0].1 >= rest then ms[0].0 * ms[0].1 else rest
  }

  /** The area of a 4096x4096 matrix, the point of saturation. */
  const MaxMatrixArea: nat := 4096 * 4096

  /** `_analyze_matrix_ops`. */
  function MatrixOpsScore(ex: Extracted): (r: real)
    ensures 0.0 <= r <= 1.0
    ensures ex.matrices == [] ==> r == 0.0
  {
    if ex.matrices == [] then 0.0
    else Min(1.0, (MaxArea(ex.matrices) as real) / (MaxMatrixArea as real))
  }

  /** Any matrix of at least 4096x4096 elements saturates the matrix signal. */
  lemma LargeMatrixSaturates(ex: Extracted, k: nat)
    requires k < |ex.matrices| && ex.matrices[k].0 * ex.matrices[k].1 >= MaxMatrixArea
    ensures MatrixOpsScore(ex) == 1.0
  {
    var a := MaxArea(ex.matrices);
    assert a >= MaxMatrixArea;
    assert (a as real) / (MaxMatrixArea as real) >= 1.0;
  }

  /** Below saturation the matrix signal is the largest area over 4096·4096. */
  lemma MatrixOpsRatio(ex: Extracted)
    requires ex.matrices != [] && MaxArea(ex.matrices) <= MaxMatrixArea
    ensures MatrixOpsScore(ex) == (MaxArea(ex.matrices) as real) / (MaxMatrixArea as real)
  {
  }

  /** `_analyze_batch_size`: the first captured batch size over 32, at most 1. */
  function BatchSizeScore(ex: Extracted): (r: real)
    ensures 0.0 <= r <= 1.0
    ensures ex.batchSize.None? ==> r == 0.0
    ensures ex.batchSize.Some? && ex.batchSize.value >= 32 ==> r == 1.0
  {
    match ex.batchSize
    case None => 0.0
    case Some(size) => Min(1.0, (size as real) / 32.0)
  }

  /** `_analyze_iterations`: the first captured iteration count over 1000, at most 1. */
  function IterationsScore(ex: Extracted): (r: real)
    ensures 0.0 <= r <= 1.0
    ensures ex.iterations.None? ==> r == 0.0
    ensures ex.iterations.Some? && ex.iterations.value >= 1000 ==> r == 1.0
  {
    match ex.iterations
    case None => 0.0
    case Some(iters) => Min(1.0, (iters as real) / 1000.0)
  }

  /** `_analyze_precision_needs`: three substring rules tried in order, then a
      medium default. */
  function PrecisionNeedsScore(prompt: string): (r: real)
    ensures r == 1.0 || r == 0.5 || r == 0.2
  {
    var p := Lower(prompt);
    if Contains(p, "high precision") || Contains(p, "fp32") then 1.0
    else if Contains(p, "mixed precision") || Contains(p, "fp16") then 0.5
    else if Contains(p, "low precision") || Contains(p, "int8") then 0.2
    else 0.5
  }

  /** The earlier rule wins: a high-precision mention gives 1.0 whatever else the
      prompt says, and 0.2 needs a low-precision mention and no earlier one. */
  lemma PrecisionNeedsOrder(prompt: string)
    ensures var p := Lower(prompt);
      && (PrecisionNeedsScore(prompt) == 1.0 <==> Contains(p, "high precision") || Contains(p, "fp32"))
      && (PrecisionNeedsScore(prompt) == 0.2 <==>
            !(Contains(p, "high precision") || Contains(p, "fp32"))
            && !(Contains(p, "mixed precision") || Contains(p, "fp16"))
            && (Contains(p, "low precision") || Contains(p, "int8")))
  {
  }

  /** The `memory_indicators` dictionary, in its order. */
  const MemoryIndicators: seq<(string, real)> :=
    [("large", 0.8), ("huge", 1.0), ("memory intensive", 0.9), ("small", 0.2), ("tiny", 0.1)]

  /** The largest weight among the indicators of `table` found in `text`, or 0 when
      none is found: the value the loop of `_analyze_memory_intensity` leaves. */
  function MaxMatchedIndicator(table: seq<(string, real)>, text: string): (m: real)
    requires forall k :: 0 <= k < |table| ==> table[k].1 > 0.0
    ensures m >= 0.0
    ensures forall k :: 0 <= k < |table| && Contains(text, table[k].0) ==> table[k].1 <= m
    ensures m == 0.0 <==> forall k :: 0 <= k < |table| ==> !Contains(text, table[k].0)
    ensures m != 0.0 ==> exists k :: 0 <= k < |table| && Contains(text, table[k].0) && table[k].1 == m
  {
    if table == [] then 0.0
    else
      var init := table[..|table| - 1];
      var last := table[|table| - 1];
      assert forall k :: 0 <= k < |init| ==> init[k] == table[k];
      var m0 := MaxMatchedIndicator(init, text);
      if Contains(text, last.0) then Max(m0, last.1) else m0
  }

  /** `_analyze_memory_intensity` as a value: the largest matched weight, or 0.5
      when nothing matched. */
  function MemoryIntensity(prompt: string): (r: real)
    ensures 0.0 < r <= 1.0
  {
    var m := MaxMatchedIndicator(MemoryIndicators, Lower(prompt));
    if m == 0.0 then 0.5 else m
  }

  /** `_analyze_memory_intensity`: the loop over the indicator table keeping a
      running maximum. */
  method AnalyzeMemoryIntensity(prompt: string) returns (r: real)
    ensures r == MemoryIntensity(prompt)
  {
    var p := Lower(prompt);
    var score := 0.0;
    var i := 0;
    while i < |MemoryIndicators|
      invariant 0 <= i <= |MemoryIndicators|
      invariant score == MaxMatchedIndicator(MemoryIndicators[..i], p)
    {
      var (indicator, value) := MemoryIndicators[i];
      assert MemoryIndicators[..i + 1][..i] == MemoryIndicators[..i];
      if Contains(p, indicator) {
        score := Max(score, value);
      }
      i := i + 1;
    }
    assert MemoryIndicators[..i] == MemoryIndicators;
    r := if score == 0.0 then 0.5 else score;
  }

  /** 'large' together with 'small' (and no stronger indicator) gives 0.8: the
      maximum is taken, not a sum. */
  lemma LargeAndSmall(prompt: string)
    requires var p := Lower(prompt);
      Contains(p, "large") && Contains(p, "small")
      && !Contains(p, "huge") && !Contains(p, "memory intensive")
    ensures MemoryIntensity(prompt) == 0.8
  {
    var p := Lower(prompt);
    var m := MaxMatchedIndicator(MemoryIndicators, p);
    assert MemoryIndicators[0].0 == "large";
    assert m >= 0.8;
    var k :| 0 <= k < |MemoryIndicators| && Contains(p, MemoryIndicators[k].0) && MemoryIndicators[k].1 == m;
    assert k != 1 && k != 2;
  }

  /** `analyze`: the five component signals. */
  method Analyze(prompt: string, ex: Extracted) returns (s: Scores)
    ensures s == Scores(MatrixOpsScore(ex), BatchSizeScore(ex), IterationsScore(ex),
                        PrecisionNeedsScore(prompt), MemoryIntensity(prompt))
  {
    var memory := AnalyzeMemoryIntensity(prompt);
    s := Scores(MatrixOpsScore(ex), BatchSizeScore(ex), IterationsScore(ex),
                PrecisionNeedsScore(prompt), memory);
  }

  /** The generator sum of `estimate_complexity`, in the dictionary's order. */
  function WeightedSum(s: Scores): real
  {
    0.0 + s.matrixOps * MatrixOpsWeight + s.batchSize * BatchSizeWeight + s.iterations * IterationsWeight
    + s.precision * PrecisionWeight + s.memory * MemoryWeight
  }

  /** Since the weights add to 1, signals in [0, 1] give a weighted sum in [0, 1]:
      the final clamp never changes the value. */
  lemma WeightedSumInRange(s: Scores)
    requires 0.0 <= s.matrixOps <= 1.0 && 0.0 <= s.batchSize <= 1.0 && 0.0 <= s.iterations <= 1.0
    requires 0.0 <= s.precision <= 1.0 && 0.0 <= s.memory <= 1.0
    ensures 0.0 <= WeightedSum(s) <= 1.0
    ensures Clamp01(WeightedSum(s)) == WeightedSum(s)
  {
  }

  /** `estimate_complexity` as a value. */
  function Estimate(prompt: string, ex: Extracted): (r: real)
    ensures 0.0 <= r <= 1.0
  {
    Clamp01(WeightedSum(Scores(MatrixOpsScore(ex), BatchSizeScore(ex), IterationsScore(ex),
                               PrecisionNeedsScore(prompt), MemoryIntensity(prompt))))
  }

  /** `estimate_complexity`: the weighted sum of `analyze`'s signals, clamped to
      [0, 1]; the clamp is the identity on it. */
  method EstimateComplexity(prompt: string, ex: Extracted) returns (r: real)
    ensures r == Estimate(prompt, ex)
    ensures r == WeightedSum(Scores(MatrixOpsScore(ex), BatchSizeScore(ex), IterationsScore(ex),
                                    PrecisionNeedsScore(prompt), MemoryIntensity(prompt)))
  {
    var scores := Analyze(prompt, ex);
    var weightedSum := WeightedSum(scores);
    WeightedSumInRange(scores);
    r := Min(1.0, Max(0.0, weightedSum));
  }

  /** The memory signal is one of the indicator weights or the 0.5 default: at
      least 0.1, and at least 0.2 unless only 'tiny' matched. */
  lemma MemoryIntensityValues(prompt: string)
    ensures var r := MemoryIntensity(prompt);
      r == 0.1 || r == 0.2 || r == 0.5 || r == 0.8 || r == 0.9 || r == 1.0
    ensures MemoryIntensity(prompt) == 0.1 ==> Contains(Lower(prompt), "tiny")
  {
    var p := Lower(prompt);
    var m := MaxMatchedIndicator(MemoryIndicators, p);
    if m != 0.0 {
      var k :| 0 <= k < |MemoryIndicators| && Contains(p, MemoryIndicators[k].0) && MemoryIndicators[k].1 == m;
    }
  }

  /** The fp4 tier needs a 'tiny' prompt that asks for low precision: the two
      text signals alone contribute at least 0.15 · 0.2 + 0.15 · 0.1 = 0.045, and
      anything else in them lifts the score past 0.05. */
  lemma Fp4NeedsTinyAndLowPrecision(prompt: string, ex: Extracted)
    requires SelectTier(Estimate(prompt, ex)) == FP4
    ensures PrecisionNeedsScore(prompt) == 0.2 && MemoryIntensity(prompt) == 0.1
    ensures Contains(Lower(prompt), "tiny")
  {
    var s := Scores(MatrixOpsScore(ex), BatchSizeScore(ex), IterationsScore(ex),
                    PrecisionNeedsScore(prompt), MemoryIntensity(prompt));
    WeightedSumInRange(s);
    MemoryIntensityValues(prompt);
  }

  /** A prompt whose lower-cased form has none of the letters 'h', 'f', 'e', 'o'
      and 'n' mentions no precision phrase and gets the medium default. */
  lemma PrecisionDefaultWithoutLetters(prompt: string)
    requires var p := Lower(prompt);
      'h' !in p && 'f' !in p && 'e' !in p && 'o' !in p && 'n' !in p
    ensures PrecisionNeedsScore(prompt) == 0.5
  {
    var p := Lower(prompt);
    MissingCharExcludes(p, "high precision", 0);
    MissingCharExcludes(p, "fp32", 0);
    MissingCharExcludes(p, "mixed precision", 3);
    MissingCharExcludes(p, "fp16", 0);
    MissingCharExcludes(p, "low precision", 1);
    MissingCharExcludes(p, "int8", 1);
  }

  /** A prompt that mentions 'small' and whose lower-cased form has none of the
      letters 'g', 'h', 'e' and 'n' has 'small' as its one memory indicator. */
  lemma MemoryOnlySmall(prompt: string)
    requires var p := Lower(prompt);
      Contains(p, "small") && 'g' !in p && 'h' !in p && 'e' !in p && 'n' !in p
    ensures MemoryIntensity(prompt) == 0.2
  {
    var p := Lower(prompt);
    MissingCharExcludes(p, "large", 3);
    MissingCharExcludes(p, "huge", 0);
    MissingCharExcludes(p, "memory intensive", 1);
    MissingCharExcludes(p, "tiny", 2);
    var m := MaxMatchedIndicator(MemoryIndicators, p);
    assert MemoryIndicators[3].0 == "small";
    var k :| 0 <= k < |MemoryIndicators| && Contains(p, MemoryIndicators[k].0) && MemoryIndicators[k].1 == m;
  }

  /** The letters of "small 2x2 matrix" that the two rules above look for. */
  lemma SmallMatrixPromptLetters(prompt: string)
    requires prompt == "small 2x2 matrix"
    ensures Lower(prompt) == prompt && "small" <= prompt
    ensures 'h' !in prompt && 'f' !in prompt && 'e' !in prompt
    ensures 'o' !in prompt && 'n' !in prompt && 'g' !in prompt
  {
    LowerKeepsLowercase(prompt);
  }

  /** "small 2x2 matrix" (one 2x2 matrix, no batch size or iteration count)
      scores 0.105 plus 4/4096² of the matrix weight: fp8, not fp4. */
  lemma SmallMatrixPromptIsFp8(prompt: string)
    requires prompt == "small 2x2 matrix"
    ensures var r := Estimate(prompt, Extracted([(2, 2)], None, None));
      r == 0.105 + 0.3 * (4.0 / 16777216.0) && SelectTier(r) == FP8
  {
    SmallMatrixPromptLetters(prompt);
    PrecisionDefaultWithoutLetters(prompt);
    assert Contains(Lower(prompt), "small");
    MemoryOnlySmall(prompt);
    assert MaxArea([(2, 2)]) == 4;
  }

  /** A prompt with a saturating matrix and batch size, no iteration count, no
      high-precision and no memory indicator scores 0.3 + 0.2 + 0.15 · 0.5 plus
      0.15 times the precision signal: 0.65, or 0.605 with a low-precision
      mention, and fp16 either way. */
  lemma SaturatedMatrixAndBatchIsFp16(prompt: string, ex: Extracted)
    requires exists k :: 0 <= k < |ex.matrices| && ex.matrices[k].0 * ex.matrices[k].1 >= MaxMatrixArea
    requires ex.batchSize.Some? && ex.batchSize.value >= 32 && ex.iterations.None?
    requires !Contains(Lower(prompt), "high precision") && !Contains(Lower(prompt), "fp32")
    requires forall k :: 0 <= k < |MemoryIndicators| ==> !Contains(Lower(prompt), MemoryIndicators[k].0)
    ensures var r := Estimate(prompt, ex);
      && (PrecisionNeedsScore(prompt) == 0.5 ==> r == 0.65)
      && (PrecisionNeedsScore(prompt) == 0.2 ==> r == 0.605)
      && SelectTier(r) == FP16
  {
    var k :| 0 <= k < |ex.matrices| && ex.matrices[k].0 * ex.matrices[k].1 >= MaxMatrixArea;
    LargeMatrixSaturates(ex, k);
    assert MemoryIntensity(prompt) == 0.5;
  }
}
