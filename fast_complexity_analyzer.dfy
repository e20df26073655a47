/** `FastComplexityAnalyzer` (`src/analyzer/fast_complexity_analyzer.py`): three
    bucketed signals (data size, operation keywords, iteration counts) combined
    by fixed weights into a score, and the score's level with its GPU power
    profile. The numbers the size and iteration patterns capture are given as a
    `FastExtracted` value; the keyword counts are computed on the prompt. */
module FastAnalyzer {
  import opened Numeric
  import opened Text

  /** One tuple of `re.findall` for the `data_size` pattern: the two groups of
      the `NxM` alternative, or the amount and the unit (`GB`, `MB` or `K`) of the
      memory-size alternative. */
  datatype DataSizeMatch = MatrixDims(rows: nat, cols: nat) | MemorySize(amount: nat, unit: string)

  /** What the patterns capture from the lower-cased prompt, in order: the
      `data_size` tuples and the numbers of the `iterations` pattern. */
  datatype FastExtracted = FastExtracted(dataSize: seq<DataSizeMatch>, iterationCounts: seq<nat>)

  datatype Level = Low | Medium | High

  /** An entry of `power_profiles`. */
  datatype PowerProfile = PowerProfile(powerLimit: int, gpuUtil: int, memoryClock: int, coreClock: int)

  /** `ComplexityScore`. */
  datatype ComplexityScore = ComplexityScore(rawScore: real, gpuPowerTarget: int, gpuUtilTarget: int,
                                             memoryClock: int, coreClock: int, complexityLevel: Level)

  /** `power_profiles`. */
  function Profiles(level: Level): PowerProfile
  {
    match level
    case Low => PowerProfile(80, 60, 4000, 1200)
    case Medium => PowerProfile(150, 85, 6000, 1600)
    case High => PowerProfile(250, 100, 7500, 1900)
  }

  function LevelIndex(level: Level): nat
  {
    match level
    case Low => 0
    case Medium => 1
    case High => 2
  }

  const MiB: nat := 1024 * 1024
  const GiB: nat := 1024 * 1024 * 1024

  /** The multiplier of a memory-size match, chosen on `unit.upper()`. */
  function MemoryMultiplier(unit: string): nat
  {
    var u := Upper(unit);
    if Contains(u, "GB") then GiB
    else if Contains(u, "MB") then MiB
    else if Contains(u, "K") then 1024
    else 1
  }

  /** The size one match contributes. */
  function MatchSize(m: DataSizeMatch): nat
  {
    match m
    case MatrixDims(rows, cols) => rows * cols
    case MemorySize(amount, unit) => amount * MemoryMultiplier(unit)
  }

  /** `max_size` after the loop over `ms`: the largest match size, 0 for none. */
  function MaxDataSize(ms: seq<DataSizeMatch>): (n: nat)
    ensures forall i :: 0 <= i < |ms| ==> MatchSize(ms[i]) <= n
    ensures n == 0 || exists i :: 0 <= i < |ms| && MatchSize(ms[i]) == n
  {
    if ms == [] then 0
    else
      var init := ms[..|ms| - 1];
      assert forall i :: 0 <= i < |init| ==> init[i] == ms[i];
      var m0 := MaxDataSize(init);
      var size := MatchSize(ms[|ms| - 1]);
      if size > m0 then size else m0
  }

  /** One more match: the maximum of the longer prefix. */
  lemma MaxDataSizeStep(ms: seq<DataSizeMatch>, i: nat)
    requires i < |ms|
    ensures MaxDataSize(ms[..i + 1])
         == if MatchSize(ms[i]) > MaxDataSize(ms[..i]) then MatchSize(ms[i]) else MaxDataSize(ms[..i])
  {
    assert ms[..i + 1][..i] == ms[..i];
  }

  /** The size buckets: below 1 MiB, below 1 GiB, and the rest. */
  function SizeBucket(maxSize: nat): (r: real)
    ensures maxSize < MiB ==> r == 0.3
    ensures MiB <= maxSize < GiB ==> r == 0.6
    ensures GiB <= maxSize ==> r == 0.9
  {
    if maxSize == 0 then 0.3
    else if maxSize < MiB then 0.3
    else if maxSize < GiB then 0.6
    else 0.9
  }

  /** `_analyze_data_size` as a value. */
  function DataSizeSignal(ms: seq<DataSizeMatch>): (r: real)
    ensures r == 0.3 || r == 0.6 || r == 0.9
  {
    if ms == [] then 0.3 else SizeBucket(MaxDataSize(ms))
  }

  /** The size of one memory-size match: the amount scaled by the first unit
      found in `unit.upper()`. */
  method MemoryMatchSize(amount: nat, unit: string) returns (size: nat)
    ensures size == amount * MemoryMultiplier(unit)
  {
    var sizeStr := Upper(unit);
    size := amount;
    if Contains(sizeStr, "GB") {
      size := size * GiB;
    } else if Contains(sizeStr, "MB") {
      size := size * MiB;
    } else if Contains(sizeStr, "K") {
      size := size * 1024;
    }
  }

  /** `_analyze_data_size`: a running maximum over the matches, then the bucket. */
  method AnalyzeDataSize(ms: seq<DataSizeMatch>) returns (r: real)
    ensures r == DataSizeSignal(ms)
  {
    if ms == [] {
      return 0.3;
    }
    var maxSize := 0;
    var i := 0;
    while i < |ms|
      invariant 0 <= i <= |ms|
      invariant maxSize == MaxDataSize(ms[..i])
    {
      var size: nat;
      match ms[i] {
        case MatrixDims(rows, cols) =>
          size := rows * cols;
        case MemorySize(amount, unit) =>
          size := MemoryMatchSize(amount, unit);
      }
      MaxDataSizeStep(ms, i);
      maxSize := if size > maxSize then size else maxSize;
      i := i + 1;
    }
    assert ms[..i] == ms;
    if maxSize == 0 {
      r := 0.3;
    } else if maxSize < MiB {
      r := 0.3;
    } else if maxSize < GiB {
      r := 0.6;
    } else {
      r := 0.9;
    }
  }

  /** The regular-expression engine's guarantee about a memory-size tuple: its
      unit is one of the pattern's alternatives and is text of the searched string. */
  predicate CapturedFrom(ms: seq<DataSizeMatch>, text: string)
  {
    forall i :: 0 <= i < |ms| && ms[i].MemorySize? ==>
      (ms[i].unit == "GB" || ms[i].unit == "MB" || ms[i].unit == "K") && Contains(text, ms[i].unit)
  }

  /** The pattern's unit alternatives are upper case but it is applied to the
      lower-cased prompt, so it never yields a memory-size tuple. */
  lemma MemoryBranchUnreachable(prompt: string, ms: seq<DataSizeMatch>)
    requires CapturedFrom(ms, Lower(prompt))
    ensures forall i :: 0 <= i < |ms| ==> ms[i].MatrixDims?
  {
    forall i | 0 <= i < |ms|
      ensures ms[i].MatrixDims?
    {
      if ms[i].MemorySize? {
        LowerNeverContainsUpper(prompt, ms[i].unit, 0);
      }
    }
  }

  /** With matrix matches only, the data-size signal buckets the largest n·m. */
  lemma DataSizeOfMatrices(ms: seq<DataSizeMatch>, k: nat)
    requires k < |ms| && forall i :: 0 <= i < |ms| ==> ms[i].MatrixDims?
    requires forall i :: 0 <= i < |ms| ==> ms[i].rows * ms[i].cols <= ms[k].rows * ms[k].cols
    ensures DataSizeSignal(ms) == SizeBucket(ms[k].rows * ms[k].cols)
  {
    var n := MaxDataSize(ms);
    assert MatchSize(ms[k]) <= n;
    if n != 0 {
      var j :| 0 <= j < |ms| && MatchSize(ms[j]) == n;
    }
  }

  /** The `ml_ops` alternatives; CNN, RNN and LSTM are upper case. */
  const MlOps: set<string> := {"train", "learning", "neural", "network", "deep", "CNN", "RNN", "LSTM"}
  const MlOpsLowerCase: set<string> := {"train", "learning", "neural", "network", "deep"}
  /** The `matrix_ops` alternatives. */
  const MatrixOps: set<string> := {"matrix", "matrices", "multiply", "multiplication"}

  /** `_analyze_operation_complexity`: counts of `ml_ops` and `matrix_ops` matches
      in the lower-cased prompt, weighted, over 5, at most 1. */
  function OperationSignal(prompt: string): (r: real)
    ensures 0.0 <= r <= 1.0
  {
    var ws := Words(Lower(prompt));
    var mlOps := CountIn(ws, MlOps);
    var matrixOps := CountIn(ws, MatrixOps);
    Min((mlOps as real * 0.4 + matrixOps as real * 0.3) / 5.0, 1.0)
  }

  /** Counting agrees for two alternative sets on which every word agrees. */
  lemma {:induction false} CountInAgrees(ws: seq<string>, a: set<string>, b: set<string>)
    requires forall k :: 0 <= k < |ws| ==> (ws[k] in a <==> ws[k] in b)
    ensures CountIn(ws, a) == CountIn(ws, b)
  {
    if ws != [] {
      assert forall k :: 0 <= k < |ws[1..]| ==> ws[1..][k] == ws[k + 1];
      CountInAgrees(ws[1..], a, b);
    }
  }

  /** The upper-case alternatives CNN, RNN and LSTM never match the lower-cased prompt. */
  lemma UpperCaseMlOpsNeverCount(prompt: string)
    ensures CountIn(Words(Lower(prompt)), MlOps) == CountIn(Words(Lower(prompt)), MlOpsLowerCase)
  {
    var ws := Words(Lower(prompt));
    forall k | 0 <= k < |ws|
      ensures ws[k] in MlOps <==> ws[k] in MlOpsLowerCase
    {
      if ws[k] in MlOps && ws[k] !in MlOpsLowerCase {
        assert IsUpper(ws[k][0]);
        WordCharsFromText(Lower(prompt), k, 0);
        LowerHasNoUpper(prompt, ws[k][0]);
      }
    }
    CountInAgrees(ws, MlOps, MlOpsLowerCase);
  }

  /** `max_iterations` after the loop: the largest captured number, 0 for none. */
  function MaxIterations(ns: seq<nat>): (n: nat)
    ensures forall i :: 0 <= i < |ns| ==> ns[i] <= n
    ensures n == 0 || exists i :: 0 <= i < |ns| && ns[i] == n
  {
    if ns == [] then 0
    else
      var init := ns[..|ns| - 1];
      assert forall i :: 0 <= i < |init| ==> init[i] == ns[i];
      var m0 := MaxIterations(init);
      if ns[|ns| - 1] > m0 then ns[|ns| - 1] else m0
  }

  /** `_analyze_iterations` as a value: 0.3 with no match or a largest count
      below 100, 0.6 below 1000, 0.9 otherwise. */
  function IterationSignal(ns: seq<nat>): (r: real)
    ensures r == 0.3 || r == 0.6 || r == 0.9
    ensures r == 0.3 <==> MaxIterations(ns) < 100
    ensures r == 0.9 <==> MaxIterations(ns) >= 1000
  {
    if ns == [] then 0.3
    else
      var m := MaxIterations(ns);
      if m < 100 then 0.3 else if m < 1000 then 0.6 else 0.9
  }

  /** `_analyze_iterations`: a running maximum over the captured numbers. */
  method AnalyzeIterations(ns: seq<nat>) returns (r: real)
    ensures r == IterationSignal(ns)
  {
    if ns == [] {
      return 0.3;
    }
    var maxIterations := 0;
    var i := 0;
    while i < |ns|
      invariant 0 <= i <= |ns|
      invariant maxIterations == MaxIterations(ns[..i])
    {
      assert ns[..i + 1][..i] == ns[..i];
      maxIterations := if ns[i] > maxIterations then ns[i] else maxIterations;
      i := i + 1;
    }
    assert ns[..i] == ns;
    if maxIterations < 100 {
      r := 0.3;
    } else if maxIterations < 1000 {
      r := 0.6;
    } else {
      r := 0.9;
    }
  }

  /** The level thresholds of `analyze_prompt`. */
  function LevelFor(score: real): Level
  {
    if score < 0.4 then Low else if score < 0.7 then Medium else High
  }

  /** The score with the level it falls in and that level's profile. */
  function ScoreFor(raw: real): (c: ComplexityScore)
    ensures c.rawScore == raw && c.complexityLevel == LevelFor(raw)
    ensures var p := Profiles(c.complexityLevel);
      c.gpuPowerTarget == p.powerLimit && c.gpuUtilTarget == p.gpuUtil
      && c.memoryClock == p.memoryClock && c.coreClock == p.coreClock
  {
    var level := LevelFor(raw);
    var profile := Profiles(level);
    ComplexityScore(raw, profile.powerLimit, profile.gpuUtil, profile.memoryClock, profile.coreClock, level)
  }

  /** The weighted combination of the three signals. */
  function RawScore(dataScore: real, opScore: real, iterScore: real): real
  {
    dataScore * 0.4 + opScore * 0.35 + iterScore * 0.25
  }

  /** The result `analyze_prompt` returns when its analysis raises. */
  const Fallback: ComplexityScore := ComplexityScore(0.3, 80, 60, 4000, 1200, Low)

  /** `analyze_prompt` as a value; `None` stands for an analysis that raised. */
  function Analysis(prompt: string, ex: Option<FastExtracted>): ComplexityScore
  {
    match ex
    case None => Fallback
    case Some(e) =>
      ScoreFor(RawScore(DataSizeSignal(e.dataSize), OperationSignal(prompt), IterationSignal(e.iterationCounts)))
  }

  /** `analyze_prompt`: the three signals, their weighted score, its level and
      the level's power profile; the fixed low default if the analysis raised. */
  method AnalyzePrompt(prompt: string, ex: Option<FastExtracted>) returns (c: ComplexityScore)
    ensures c == Analysis(prompt, ex)
    ensures ex.Some? ==> 0.195 <= c.rawScore <= 0.935
    ensures c.complexityLevel == LevelFor(c.rawScore)
    ensures var p := Profiles(c.complexityLevel);
      c.gpuPowerTarget == p.powerLimit && c.gpuUtilTarget == p.gpuUtil
      && c.memoryClock == p.memoryClock && c.coreClock == p.coreClock
  {
    if ex.None? {
      FallbackIsLowProfile();
      return Fallback;
    }
    var dataScore := AnalyzeDataSize(ex.value.dataSize);
    var opScore := OperationSignal(prompt);
    var iterScore := AnalyzeIterations(ex.value.iterationCounts);
    var finalScore := dataScore * 0.4 + opScore * 0.35 + iterScore * 0.25;
    RawScoreRange(dataScore, opScore, iterScore);
    var profile: PowerProfile;
    var level: Level;
    if finalScore < 0.4 {
      profile, level := Profiles(Low), Low;
    } else if finalScore < 0.7 {
      profile, level := Profiles(Medium), Medium;
    } else {
      profile, level := Profiles(High), High;
    }
    c := ComplexityScore(finalScore, profile.powerLimit, profile.gpuUtil, profile.memoryClock,
                         profile.coreClock, level);
  }

  /** On the normal path the score lies in [0.195, 0.935]. */
  lemma RawScoreRange(dataScore: real, opScore: real, iterScore: real)
    requires 0.3 <= dataScore <= 0.9 && 0.0 <= opScore <= 1.0 && 0.3 <= iterScore <= 0.9
    ensures 0.195 <= RawScore(dataScore, opScore, iterScore) <= 0.935
  {
  }

  /** The bounds are reached: no signals give 0.195, saturated signals 0.935. */
  lemma RawScoreBoundsTight()
    ensures RawScore(0.3, 0.0, 0.3) == 0.195 && RawScore(0.9, 1.0, 0.9) == 0.935
  {
  }

  /** The fallback is the low profile at 0.3, which is also what the normal
      thresholds assign to 0.3. */
  lemma FallbackIsLowProfile()
    ensures Fallback == ScoreFor(0.3)
  {
  }

  /** A higher score never selects a lower level or a smaller profile. */
  lemma LevelMonotone(s1: real, s2: real)
    requires s1 <= s2
    ensures LevelIndex(LevelFor(s1)) <= LevelIndex(LevelFor(s2))
    ensures var p1 := Profiles(LevelFor(s1)); var p2 := Profiles(LevelFor(s2));
      p1.powerLimit <= p2.powerLimit && p1.gpuUtil <= p2.gpuUtil
      && p1.memoryClock <= p2.memoryClock && p1.coreClock <= p2.coreClock
  {
  }

  /** The level bands. */
  lemma LevelBands(s: real)
    ensures LevelFor(s) == Low <==> s < 0.4
    ensures LevelFor(s) == Medium <==> 0.4 <= s < 0.7
    ensures LevelFor(s) == High <==> 0.7 <= s
  {
  }
}
