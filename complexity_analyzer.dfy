/** The lightweight estimator `estimate_complexity` (`src/core/complexity_analyzer.py`):
    a token-count signal, a log-saturated size signal and the strongest
    operation keyword, weighted 0.15 / 0.35 / 0.5 and clamped to [0, 1].
    `math.log(x, base)` is a parameter `log`, constrained only to be
    non-negative for an argument of at least 1 and a base above 1. */
module ComplexityEstimator {
  import opened Numeric
  import opened Text

  /** What the two size patterns capture from the lower-cased prompt: the (a, b)
      pairs of every `(\d{1,6})\s*[x×]\s*(\d{1,6})` match, in order, and the number of
      the first `(?:batch\s*size|bs)\s*[:=]?\s*(\d{1,6})` match, if any. */
  datatype Extracted = Extracted(matrices: seq<(nat, nat)>, batchSize: Option<nat>)

  /** The property of the logarithm the estimator relies on. */
  ghost predicate ValidLog(log: (real, real) -> real)
  {
    forall x: real, b: real :: 1.0 <= x && 1.0 < b ==> 0.0 <= log(x, b)
  }

  /** The default `cap` of `_norm_log`. */
  const Cap: real := 1000000000000.0

  /** `_norm_log(x, base)`: the argument clamped to [0, cap], its log in base
      `base + 1` after adding 1, at most 1. */
  function NormLog(x: real, base: real, log: (real, real) -> real): (r: real)
    requires ValidLog(log) && base > 0.0
    ensures 0.0 <= r <= 1.0
  {
    var y := Min(Max(x, 0.0), Cap);
    Min(1.0, log(y + 1.0, base + 1.0))
  }

  /** `_norm_log` depends on its argument only through the clamped value. */
  lemma NormLogClamps(x: real, base: real, log: (real, real) -> real)
    requires ValidLog(log) && base > 0.0
    ensures NormLog(x, base, log) == NormLog(Min(Max(x, 0.0), Cap), base, log)
    ensures x <= 0.0 ==> NormLog(x, base, log) == NormLog(0.0, base, log)
    ensures x >= Cap ==> NormLog(x, base, log) == NormLog(Cap, base, log)
  {
  }

  /** `token_factor`: the number of `\w+` runs over 2000, at most 1. */
  function TokenFactor(s: string): (r: real)
    ensures 0.0 <= r <= 1.0
    ensures |Words(s)| >= 2000 ==> r == 1.0
    ensures |Words(s)| < 2000 ==> r == (|Words(s)| as real) / 2000.0
  {
    Min(1.0, (|Words(s)| as real) / 2000.0)
  }

  /** The value of `matrix_factor` after the loop over the matches `ms`. */
  function MatrixFactor(ms: seq<(nat, nat)>, log: (real, real) -> real): (r: real)
    requires ValidLog(log)
    ensures 0.0 <= r <= 1.0
    ensures ms == [] ==> r == 0.0
    ensures forall i :: 0 <= i < |ms| ==> NormLog((ms[i].0 * ms[i].1) as real, 4096.0, log) <= r
    ensures ms != [] ==> exists i :: 0 <= i < |ms| && r == NormLog((ms[i].0 * ms[i].1) as real, 4096.0, log)
  {
    if ms == [] then 0.0
    else
      var init := ms[..|ms| - 1];
      var last := ms[|ms| - 1];
      assert forall i :: 0 <= i < |init| ==> init[i] == ms[i];
      Max(MatrixFactor(init, log), NormLog((last.0 * last.1) as real, 4096.0, log))
  }

  /** The matrix loop: the running maximum of the normalised areas. */
  method MatrixFactorLoop(ms: seq<(nat, nat)>, log: (real, real) -> real) returns (f: real)
    requires ValidLog(log)
    ensures f == MatrixFactor(ms, log)
  {
    f := 0.0;
    var i := 0;
    while i < |ms|
      invariant 0 <= i <= |ms|
      invariant f == MatrixFactor(ms[..i], log)
    {
      var (a, b) := ms[i];
      var area := a * b;
      assert ms[..i + 1][..i] == ms[..i];
      f := Max(f, NormLog(area as real, 4096.0, log));
      i := i + 1;
    }
    assert ms[..i] == ms;
  }

  /** `batch_factor`: the normalised first batch size, 0 when absent. */
  function BatchFactor(bs: Option<nat>, log: (real, real) -> real): (r: real)
    requires ValidLog(log)
    ensures 0.0 <= r <= 1.0
    ensures bs.None? ==> r == 0.0
  {
    if bs.Some? then NormLog(bs.value as real, 256.0, log) else 0.0
  }

  /** `size_factor`. */
  function SizeFactor(ex: Extracted, log: (real, real) -> real): (r: real)
    requires ValidLog(log)
    ensures 0.0 <= r <= 1.0
    ensures r == MatrixFactor(ex.matrices, log) || r == BatchFactor(ex.batchSize, log)
    ensures MatrixFactor(ex.matrices, log) <= r && BatchFactor(ex.batchSize, log) <= r
  {
    Max(MatrixFactor(ex.matrices, log), BatchFactor(ex.batchSize, log))
  }

  /** Without a matrix or a batch size the size signal is 0. */
  lemma NoSizeNoSizeFactor(ex: Extracted, log: (real, real) -> real)
    requires ValidLog(log) && ex.matrices == [] && ex.batchSize.None?
    ensures SizeFactor(ex, log) == 0.0
  {
  }

  /** One entry of the keyword table: the literals a pattern matches (the spelled
      out alternatives of `[- ]` and `[sz]`), whether it ends with `\b`, and its weight. */
  datatype Keyword = Keyword(literals: seq<string>, endBoundary: bool, weight: real)

  /** The operation keywords, in the dictionary's order. */
  const Keywords: seq<Keyword> := [
    Keyword(["train"], true, 0.9),
    Keyword(["backprop"], true, 0.95),
    Keyword(["convolution"], true, 0.8),
    Keyword(["fft"], true, 0.7),
    Keyword(["render"], true, 0.9),
    Keyword(["ray-trace", "ray trace"], true, 1.0),
    Keyword(["inference"], true, 0.5),
    Keyword(["simulat"], false, 0.8),
    Keyword(["optimise", "optimize"], true, 0.6),
    Keyword(["add"], true, 0.05),
    Keyword(["mean"], true, 0.05)
  ]

  /** The weights of the keyword table lie in [0, 1]. */
  predicate WeightsInUnitRange(table: seq<Keyword>)
  {
    forall k :: 0 <= k < |table| ==> 0.0 <= table[k].weight <= 1.0
  }

  /** Every weight of the table lies in [0, 1]. */
  lemma KeywordWeightsInUnitRange()
    ensures WeightsInUnitRange(Keywords)
  {
  }

  /** `re.search(patt, s)` succeeds for the keyword. */
  predicate KeywordFound(kw: Keyword, s: string)
  {
    exists j | 0 <= j < |kw.literals| :: SearchWord(s, kw.literals[j], kw.endBoundary)
  }

  /** The value of `op_score` after the loop over `table`: the largest weight of a
      found keyword, 0 if none is found. */
  function OpScore(table: seq<Keyword>, s: string): (r: real)
    requires WeightsInUnitRange(table)
    ensures 0.0 <= r <= 1.0
    ensures forall k :: 0 <= k < |table| && KeywordFound(table[k], s) ==> table[k].weight <= r
    ensures r == 0.0 || exists k :: 0 <= k < |table| && KeywordFound(table[k], s) && table[k].weight == r
  {
    if table == [] then 0.0
    else
      var init := table[..|table| - 1];
      var last := table[|table| - 1];
      assert forall k :: 0 <= k < |init| ==> init[k] == table[k];
      var r0 := OpScore(init, s);
      if KeywordFound(last, s) then Max(r0, last.weight) else r0
  }

  /** The keyword loop over a table: the running maximum of the found keywords' weights. */
  method OpScoreLoop(table: seq<Keyword>, s: string) returns (opScore: real)
    requires WeightsInUnitRange(table)
    ensures opScore == OpScore(table, s)
  {
    opScore := 0.0;
    var i := 0;
    while i < |table|
      invariant 0 <= i <= |table|
      invariant opScore == OpScore(table[..i], s)
    {
      assert table[..i + 1][..i] == table[..i];
      if KeywordFound(table[i], s) {
        opScore := Max(opScore, table[i].weight);
      }
      i := i + 1;
    }
    assert table[..i] == table;
  }

  /** `final` before the clamp. */
  function Combine(op: real, size: real, token: real): real
  {
    0.5 * op + 0.35 * size + 0.15 * token
  }

  /** `estimate_complexity` as a value. */
  function Estimate(prompt: string, ex: Extracted, log: (real, real) -> real): (r: real)
    requires ValidLog(log)
    ensures 0.0 <= r <= 1.0
    ensures IsBlank(prompt) ==> r == 0.0
  {
    if IsBlank(prompt) then 0.0
    else
      var s := Lower(prompt);
      Clamp01(Combine(OpScore(Keywords, s), SizeFactor(ex, log), TokenFactor(s)))
  }

  /** `estimate_complexity`: blank prompts score exactly 0; otherwise the clamped
      weighted sum of the three signals. */
  method EstimateComplexity(prompt: string, ex: Extracted, log: (real, real) -> real) returns (r: real)
    requires ValidLog(log)
    ensures r == Estimate(prompt, ex, log)
  {
    if IsBlank(prompt) {
      return 0.0;
    }
    var s := Lower(prompt);
    var tokenFactor := TokenFactor(s);
    var matrixFactor := MatrixFactorLoop(ex.matrices, log);
    var batchFactor := BatchFactor(ex.batchSize, log);
    var sizeFactor := Max(matrixFactor, batchFactor);
    KeywordWeightsInUnitRange();
    var opScore := OpScoreLoop(Keywords, s);
    var final := 0.5 * opScore + 0.35 * sizeFactor + 0.15 * tokenFactor;
    r := Max(0.0, Min(1.0, final));
  }

  /** The weights add to 1, so signals in [0, 1] need no clamp. */
  lemma CombineInRange(op: real, size: real, token: real)
    requires 0.0 <= op <= 1.0 && 0.0 <= size <= 1.0 && 0.0 <= token <= 1.0
    ensures 0.0 <= Combine(op, size, token) <= 1.0
    ensures Combine(1.0, 1.0, 1.0) == 1.0
  {
  }

  /** The op signal is a maximum, not a sum: it is never more than the heaviest
      keyword found, so further lighter keywords cannot raise it. */
  lemma OpScoreIsHeaviestFound(table: seq<Keyword>, s: string, k: nat)
    requires WeightsInUnitRange(table)
    requires k < |table| && KeywordFound(table[k], s)
    requires forall j :: 0 <= j < |table| && KeywordFound(table[j], s) ==> table[j].weight <= table[k].weight
    ensures OpScore(table, s) == table[k].weight
  {
    var r := OpScore(table, s);
    assert table[k].weight <= r;
    if r != 0.0 {
      var j :| 0 <= j < |table| && KeywordFound(table[j], s) && table[j].weight == r;
    }
  }

  /** A prompt that mentions a ray trace scores at least 0.5. */
  lemma RayTraceAtLeastHalf(prompt: string, ex: Extracted, log: (real, real) -> real)
    requires ValidLog(log) && !IsBlank(prompt)
    requires SearchWord(Lower(prompt), "ray trace", true)
    ensures Estimate(prompt, ex, log) >= 0.5
  {
    var s := Lower(prompt);
    assert Keywords[5].literals[1] == "ray trace";
    assert KeywordFound(Keywords[5], s);
    var op := OpScore(Keywords, s);
    assert op >= 1.0;
    var size := SizeFactor(ex, log);
    var token := TokenFactor(s);
    CombineInRange(op, size, token);
  }

  /** A blank prompt scores exactly 0. */
  lemma BlankPromptExample(ex: Extracted, log: (real, real) -> real)
    requires ValidLog(log)
    ensures Estimate("   ", ex, log) == 0.0
  {
  }

  /** The prompt "ray trace" scores at least 0.5. */
  lemma RayTracePromptExample(ex: Extracted, log: (real, real) -> real)
    requires ValidLog(log)
    ensures Estimate("ray trace", ex, log) >= 0.5
  {
    assert !IsBlank("ray trace") by {
      assert !IsSpace("ray trace"[0]);
    }
    LowerKeepsLowercase("ray trace");
    assert MatchAt("ray trace", "ray trace", 0, true);
    RayTraceAtLeastHalf("ray trace", ex, log);
  }
}
