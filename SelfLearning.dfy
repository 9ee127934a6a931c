/**
 * The scoring rules of self_learning.py (feature_modules/intelligence): the
 * effectiveness of one explanation, the per-style score over recent problems, the
 * choice of the best style, and the recommendation list.
 *
 * The recent problems are given by their `is_correct` flags, newest first, in place
 * of the database query; accuracy and average time are reals.
 */
module SelfLearning {

  /** The explanation styles, in the order the engine lists them. */
  const ExplanationStyles: seq<string> := [
    "systematic", "visual", "comparative", "real_world",
    "mathematical", "conceptual", "ms_chouhan", "paula_bruice"]

  /** The default style, used while there are fewer than this many problems. */
  const DefaultStyle: string := "systematic"
  const MinProblems: int := 5

  // ------------------------------------------------------------ effectiveness

  /** The bonus for a quick solve: 30 under 5 minutes, 20 under 10, 10 under 20. */
  function TimeBonus(timeTaken: int): int {
    if timeTaken < 300 then 30 else if timeTaken < 600 then 20 else if timeTaken < 1200 then 10 else 0
  }

  /** The bonus for few hints: 20 for none, 10 for one, 5 for two. */
  function HintBonus(hintsUsed: int): int {
    if hintsUsed == 0 then 20 else if hintsUsed == 1 then 10 else if hintsUsed == 2 then 5 else 0
  }

  /** A slower solve never earns a larger time bonus. */
  lemma TimeBonusNonIncreasing(t1: int, t2: int)
    requires t1 <= t2
    ensures TimeBonus(t1) >= TimeBonus(t2)
  {
  }

  /** The bonuses stay within their bands: 0 to 30 for time, 0 to 20 for hints,
      and more than two hints (or a negative count) earn nothing. */
  lemma BonusBounds(timeTaken: int, hintsUsed: int)
    ensures 0 <= TimeBonus(timeTaken) <= 30 && 0 <= HintBonus(hintsUsed) <= 20
    ensures 1200 <= timeTaken ==> TimeBonus(timeTaken) == 0
    ensures (hintsUsed < 0 || 2 < hintsUsed) ==> HintBonus(hintsUsed) == 0
  {
  }

  /** `_calculate_effectiveness`: 0 for a failed attempt; otherwise 50 for the
      success plus the time and hint bonuses, which puts it in [50, 100]. The score
      is a float in the source, but every value it takes is a whole number. */
  method CalculateEffectiveness(success: bool, timeTaken: int, hintsUsed: int) returns (score: int)
    ensures !success ==> score == 0
    ensures success ==> score == 50 + TimeBonus(timeTaken) + HintBonus(hintsUsed)
    ensures success ==> 50 <= score <= 100
  {
    score := 0;
    if success {
      score := score + 50;
      if timeTaken < 300 {
        score := score + 30;
      } else if timeTaken < 600 {
        score := score + 20;
      } else if timeTaken < 1200 {
        score := score + 10;
      }
      if hintsUsed == 0 {
        score := score + 20;
      } else if hintsUsed == 1 {
        score := score + 10;
      } else if hintsUsed == 2 {
        score := score + 5;
      }
    }
  }

  // -------------------------------------------------------------- style score

  /** The number of correct problems. */
  function CorrectCount(problems: seq<bool>): (n: nat)
    ensures n <= |problems|
    ensures n == 0 <==> true !in problems
  {
    if problems == [] then 0
    else CorrectCount(problems[..|problems| - 1]) + (if problems[|problems| - 1] then 1 else 0)
  }

  /** `_calculate_style_score`: the correct problems' total over their count (at
      least 1), which is 1 when some problem is correct and 0 otherwise. The style
      is not consulted. */
  method CalculateStyleScore(problems: seq<bool>, style: string) returns (score: real)
    ensures score == if true in problems then 1.0 else 0.0
  {
    var totalScore := 0;
    var count := 0;
    var i := 0;
    while i < |problems|
      invariant 0 <= i <= |problems|
      invariant totalScore == count == CorrectCount(problems[..i])
    {
      assert problems[..i + 1][..i] == problems[..i];
      if problems[i] {
        totalScore := totalScore + 1;
        count := count + 1;
      }
      i := i + 1;
    }
    assert problems[..i] == problems;
    var divisor := if count > 1 then count else 1;
    score := totalScore as real / divisor as real;
    if count > 0 {
      assert totalScore == divisor;
      OverItself(divisor as real);
    } else {
      assert score == 0.0 / 1.0;
    }
  }

  lemma OverItself(x: real)
    requires x != 0.0
    ensures x / x == 1.0
  {
  }

  // --------------------------------------------------------------- best style

  /** Python's `max(keys, key=score)`: the first index with the largest score. */
  method FirstMax(scores: seq<real>) returns (best: nat)
    requires |scores| > 0
    ensures best < |scores|
    ensures forall j :: 0 <= j < |scores| ==> scores[j] <= scores[best]
    ensures forall j :: 0 <= j < best ==> scores[j] < scores[best]
  {
    best := 0;
    var i := 1;
    while i < |scores|
      invariant 1 <= i <= |scores| && best < i
      invariant forall j :: 0 <= j < i ==> scores[j] <= scores[best]
      invariant forall j :: 0 <= j < best ==> scores[j] < scores[best]
    {
      if scores[i] > scores[best] {
        best := i;
      }
      i := i + 1;
    }
  }

  /** `get_best_explanation_style` with its query reading the table's columns:
      with fewer than five problems the default; otherwise the first style of
      highest score. Every style scores the same, so the first style wins the tie.
      As written, the query orders by a `solved_at` column that `ProblemSolved`
      does not have, so the handler returns the default on every call; both give
      "systematic" whatever the history. */
  method GetBestExplanationStyle(problems: seq<bool>) returns (style: string)
    ensures style == DefaultStyle
    ensures style == ExplanationStyles[0]
  {
    if |problems| < MinProblems {
      return DefaultStyle;
    }
    var scores: seq<real> := [];
    var i := 0;
    while i < |ExplanationStyles|
      invariant 0 <= i <= |ExplanationStyles| && |scores| == i
      invariant forall j :: 0 <= j < i ==> scores[j] == if true in problems then 1.0 else 0.0
    {
      var s := CalculateStyleScore(problems, ExplanationStyles[i]);
      scores := scores + [s];
      i := i + 1;
    }
    var best := FirstMax(scores);
    assert scores[0] == scores[best];
    style := ExplanationStyles[best];
  }

  // ---------------------------------------------------------- recommendations

  const VisualAdvice: string := "📊" + " You learn best with diagrams and visual aids. I'll include more reaction mechanisms and molecular visualizations."
  const SystematicAdvice: string := "📝" + " You prefer step-by-step logical approaches. I'll break down solutions into clear sequential steps."
  const ConceptualAdvice: string := "🧠" + " You grasp concepts deeply when you understand WHY. I'll focus on fundamental principles."
  const FoundationsAdvice: string := "💪" + " Your accuracy is building up. Let's focus on foundational concepts before tackling harder problems."
  const ChallengeAdvice: string := "🎯" + " Excellent accuracy! You're ready for JEE Advanced level challenge problems."
  const SpeedAdvice: string := "⚡" + " Let's work on solving speed. I'll give you time-saving tricks and shortcuts."

  /** The style line for the three styles that have one. */
  function StyleAdvice(style: string): seq<string> {
    if style == "visual" then [VisualAdvice]
    else if style == "systematic" then [SystematicAdvice]
    else if style == "conceptual" then [ConceptualAdvice]
    else []
  }

  /** `_generate_recommendations`: a style line for the visual, systematic and
      conceptual styles only, then a line for low (below 50) or high (above 80)
      accuracy, then the speed line when problems take over 20 minutes. */
  method GenerateRecommendations(style: string, accuracy: real, avgTime: real) returns (recommendations: seq<string>)
    ensures |recommendations| <= 3
    ensures |recommendations| == |StyleAdvice(style)| + (if accuracy < 50.0 || accuracy > 80.0 then 1 else 0)
                                 + (if avgTime > 1200.0 then 1 else 0)
    ensures |StyleAdvice(style)| <= |recommendations|
    ensures recommendations[..|StyleAdvice(style)|] == StyleAdvice(style)
    ensures |StyleAdvice(style)| == 1 <==> style in {"visual", "systematic", "conceptual"}
    ensures var k := |StyleAdvice(style)|;
      && (accuracy < 50.0 ==> k < |recommendations| && recommendations[k] == FoundationsAdvice)
      && (accuracy > 80.0 ==> k < |recommendations| && recommendations[k] == ChallengeAdvice)
      && (50.0 <= accuracy <= 80.0 && avgTime <= 1200.0 ==> |recommendations| == k)
      && (50.0 <= accuracy <= 80.0 && avgTime > 1200.0 ==> recommendations == StyleAdvice(style) + [SpeedAdvice])
    ensures avgTime > 1200.0 <==> |recommendations| > 0 && recommendations[|recommendations| - 1] == SpeedAdvice
  {
    recommendations := [];
    if style == "visual" {
      recommendations := recommendations + [VisualAdvice];
    } else if style == "systematic" {
      recommendations := recommendations + [SystematicAdvice];
    } else if style == "conceptual" {
      recommendations := recommendations + [ConceptualAdvice];
    }
    if accuracy < 50.0 {
      recommendations := recommendations + [FoundationsAdvice];
    } else if accuracy > 80.0 {
      recommendations := recommendations + [ChallengeAdvice];
    }
    if avgTime > 1200.0 {
      recommendations := recommendations + [SpeedAdvice];
    }
    AdviceDiffersFromSpeed();
  }

  /** No other line is the speed line. */
  lemma AdviceDiffersFromSpeed()
    ensures SpeedAdvice !in [VisualAdvice, SystematicAdvice, ConceptualAdvice, FoundationsAdvice, ChallengeAdvice]
  {
    assert SpeedAdvice[0] == '⚡';
    assert VisualAdvice[0] == '📊';
    assert SystematicAdvice[0] == '📝';
    assert ConceptualAdvice[0] == '🧠';
    assert FoundationsAdvice[0] == '💪';
    assert ChallengeAdvice[0] == '🎯';
  }
}
