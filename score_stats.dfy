/**
 * The statistics of screen/ScoreScreen.tsx over a quiz history: totals,
 * rounded averages, the best quiz, and the colour and label of a score.
 * Division is exact; a division by zero gives what JavaScript gives.
 */
module ScoreStats {

  /** types/score.ts */
  datatype QuizScore = QuizScore(id: int, category: string, score: nat, totalQuestions: nat, date: string, timeSpent: string)

  /** The JavaScript numbers these computations can produce. */
  datatype Number = Finite(value: real) | Infinity | NaN

  /** `a / b`: `Infinity` for a positive number over 0, `NaN` for 0 / 0. */
  function Divide(a: nat, b: nat): (q: Number)
    ensures q.Finite? <==> b > 0
    ensures q.Finite? ==> q.value >= 0.0 && q.value * b as real == a as real
    ensures q == NaN <==> a == 0 && b == 0
  {
    if b > 0 then Finite(a as real / b as real)
    else if a > 0 then Infinity
    else NaN
  }

  /** `x * k` for a positive constant `k`. */
  function Times(x: Number, k: real): Number
    requires k > 0.0
  {
    match x
    case Finite(v) => Finite(v * k)
    case _ => x
  }

  /** `Math.round`: the nearest integer, halves going up. */
  function Round(x: Number): (r: Number)
    ensures r.Finite? <==> x.Finite?
    ensures x.Finite? ==> r.value == r.value.Floor as real
    ensures x.Finite? ==> r.value - 0.5 <= x.value < r.value + 0.5
    ensures !x.Finite? ==> r == x
  {
    match x
    case Finite(v) => Finite((v + 0.5).Floor as real)
    case _ => x
  }

  /** `x >= t` */
  predicate AtLeast(x: Number, t: real) {
    match x
    case Finite(v) => v >= t
    case Infinity => true
    case NaN => false
  }

  /** `x > y` */
  predicate Greater(x: Number, y: Number) {
    match x
    case Finite(a) => y.Finite? && a > y.value
    case Infinity => y.Finite?
    case NaN => false
  }

  /** `history.reduce((sum, quiz) => sum + quiz.score, 0)` */
  function TotalScore(history: seq<QuizScore>): (total: nat)
    ensures total == 0 <==> forall i :: 0 <= i < |history| ==> history[i].score == 0
  {
    if history == [] then 0
    else TotalScore(history[..|history| - 1]) + history[|history| - 1].score
  }

  /** `history.reduce((sum, quiz) => sum + quiz.totalQuestions, 0)` */
  function TotalPossible(history: seq<QuizScore>): (total: nat)
    ensures total == 0 <==> forall i :: 0 <= i < |history| ==> history[i].totalQuestions == 0
  {
    if history == [] then 0
    else TotalPossible(history[..|history| - 1]) + history[|history| - 1].totalQuestions
  }

  /** No quiz scores more than it has questions. */
  predicate Consistent(history: seq<QuizScore>) {
    forall i :: 0 <= i < |history| ==> history[i].score <= history[i].totalQuestions
  }

  /** Every quiz has at least one question. */
  predicate AllGraded(history: seq<QuizScore>) {
    forall i :: 0 <= i < |history| ==> history[i].totalQuestions > 0
  }

  /** A total score never exceeds the total possible when every quiz is consistent. */
  lemma {:induction false} TotalScoreAtMostPossible(history: seq<QuizScore>)
    requires Consistent(history)
    ensures TotalScore(history) <= TotalPossible(history)
  {
    if history != [] {
      var prefix := history[..|history| - 1];
      assert Consistent(prefix) by {
        forall i | 0 <= i < |prefix| ensures prefix[i].score <= prefix[i].totalQuestions {
          assert prefix[i] == history[i];
        }
      }
      TotalScoreAtMostPossible(prefix);
    }
  }

  /** `Math.round((totalScore / totalPossible) * 100)` */
  function OverallAccuracy(history: seq<QuizScore>): (r: Number)
    ensures TotalPossible(history) > 0 ==>
      && r.Finite? && r.value == r.value.Floor as real
      && r.value - 0.5 <= (TotalScore(history) as real / TotalPossible(history) as real) * 100.0 < r.value + 0.5
    ensures TotalPossible(history) == 0 ==> (r == NaN <==> TotalScore(history) == 0) && !r.Finite?
  {
    Round(Times(Divide(TotalScore(history), TotalPossible(history)), 100.0))
  }

  /** Scaling a ratio of at most one by 100 gives at most 100. */
  lemma ScaledRatioBounds(a: nat, b: nat)
    requires 0 < b && a <= b
    ensures 0.0 <= (a as real / b as real) * 100.0 <= 100.0
  {
    var x := a as real / b as real;
    assert x * b as real == a as real;
  }

  /** With consistent scores the overall accuracy is an integer from 0 to 100. */
  lemma OverallAccuracyInRange(history: seq<QuizScore>)
    requires Consistent(history) && TotalPossible(history) > 0
    ensures OverallAccuracy(history).Finite?
    ensures 0.0 <= OverallAccuracy(history).value <= 100.0
  {
    TotalScoreAtMostPossible(history);
    ScaledRatioBounds(TotalScore(history), TotalPossible(history));
  }

  /** `Math.round(totalScore / totalQuizzes)` */
  function AverageScore(history: seq<QuizScore>): (r: Number)
    ensures |history| > 0 ==>
      && r.Finite? && r.value == r.value.Floor as real
      && r.value - 0.5 <= TotalScore(history) as real / |history| as real < r.value + 0.5
    ensures history == [] ==> r == NaN
  {
    Round(Divide(TotalScore(history), |history|))
  }

  /** `(quiz.score / quiz.totalQuestions) * 100` */
  function Percentage(quiz: QuizScore): (p: Number)
    ensures p.Finite? <==> quiz.totalQuestions > 0
    ensures p.Finite? ==> p.value * quiz.totalQuestions as real == 100.0 * quiz.score as real
    ensures quiz.totalQuestions == 0 ==> p == Divide(quiz.score, 0)
  {
    Times(Divide(quiz.score, quiz.totalQuestions), 100.0)
  }

  /** The exact ratio of a quiz with questions. */
  function Ratio(quiz: QuizScore): real
    requires quiz.totalQuestions > 0
  {
    quiz.score as real / quiz.totalQuestions as real
  }

  /**
   * Position of `bestQuiz` in the history: the `reduce` without an initial
   * value keeps the current best unless a later quiz has a strictly greater
   * percentage. When every quiz has questions, the result has the greatest
   * ratio and every earlier quiz a strictly smaller one.
   */
  function BestIndex(history: seq<QuizScore>): (k: nat)
    requires |history| > 0
    ensures k < |history|
    ensures AllGraded(history) ==>
      forall i :: 0 <= i < |history| ==> Ratio(history[i]) <= Ratio(history[k])
    ensures AllGraded(history) ==>
      forall i :: 0 <= i < k ==> Ratio(history[i]) < Ratio(history[k])
  {
    if |history| == 1 then 0
    else
      var n := |history| - 1;
      var prefix := history[..n];
      assert AllGraded(history) ==> AllGraded(prefix) by {
        if AllGraded(history) {
          forall i | 0 <= i < n ensures prefix[i].totalQuestions > 0 {
            assert prefix[i] == history[i];
          }
        }
      }
      var best := BestIndex(prefix);
      assert prefix[best] == history[best];
      if Greater(Percentage(history[n]), Percentage(history[best])) then n else best
  }

  /** `bestQuiz`; `reduce` on an empty history throws, so the history is not empty. */
  function BestQuiz(history: seq<QuizScore>): (best: QuizScore)
    requires |history| > 0
    ensures best in history
    ensures AllGraded(history) ==> forall q :: q in history ==> Ratio(q) <= Ratio(best)
  {
    history[BestIndex(history)]
  }

  datatype ScoreColor = Green | Orange | Red {
    function Hex(): string {
      match this
      case Green => "#4CAF50"
      case Orange => "#FF9800"
      case Red => "#F44336"
    }
  }

  /** `p * 100 >= k` on an exact ratio, as a comparison of integers. */
  lemma ScaledRatioAtLeast(a: nat, b: nat, k: nat)
    requires b > 0
    ensures (a as real / b as real) * 100.0 >= k as real <==> 100 * a >= k * b
  {
    var x := a as real / b as real;
    assert x * b as real == a as real;
    assert (x * 100.0) * b as real == (100 * a) as real;
    if x * 100.0 >= k as real {
      assert (x * 100.0) * b as real >= k as real * b as real;
    } else {
      assert (x * 100.0) * b as real < k as real * b as real;
    }
  }

  /**
   * `getScoreColor(score, total)` from the unrounded percentage: green from
   * 80%, orange from 60%, red below; with no questions, green when the score
   * is positive (Infinity) and red when it is 0 (NaN).
   */
  function GetScoreColor(score: nat, total: nat): (c: ScoreColor)
    ensures total > 0 ==> (c == Green <==> 100 * score >= 80 * total)
    ensures total > 0 ==> (c == Orange <==> 60 * total <= 100 * score < 80 * total)
    ensures total == 0 ==> (c == Green <==> score > 0) && c != Orange
  {
    var percentage := Times(Divide(score, total), 100.0);
    var c := if AtLeast(percentage, 80.0) then Green
      else if AtLeast(percentage, 60.0) then Orange
      else Red;
    if total > 0 then
      ScaledRatioAtLeast(score, total, 80);
      ScaledRatioAtLeast(score, total, 60);
      c
    else c
  }

  datatype Performance = Excellent | Great | Good | Fair | NeedsImprovement {
    function Text(): string {
      match this
      case Excellent => "Excellent"
      case Great => "Great"
      case Good => "Good"
      case Fair => "Fair"
      case NeedsImprovement => "Needs Improvement"
    }

    /** Position on the scale, from 0 for "Needs Improvement" to 4 for "Excellent". */
    function Rank(): nat {
      match this
      case Excellent => 4
      case Great => 3
      case Good => 2
      case Fair => 1
      case NeedsImprovement => 0
    }
  }

  /** `getPerformanceLabel`: steps at 90, 80, 70 and 60. */
  function GetPerformanceLabel(percentage: Number): (p: Performance)
    ensures percentage.Finite? ==>
      && (p == Excellent <==> percentage.value >= 90.0)
      && (p == Great <==> 80.0 <= percentage.value < 90.0)
      && (p == Good <==> 70.0 <= percentage.value < 80.0)
      && (p == Fair <==> 60.0 <= percentage.value < 70.0)
      && (p == NeedsImprovement <==> percentage.value < 60.0)
    ensures percentage == Infinity ==> p == Excellent
    ensures percentage == NaN ==> p == NeedsImprovement
  {
    if AtLeast(percentage, 90.0) then Excellent
    else if AtLeast(percentage, 80.0) then Great
    else if AtLeast(percentage, 70.0) then Good
    else if AtLeast(percentage, 60.0) then Fair
    else NeedsImprovement
  }

  /** A higher percentage never gets a lower label. */
  lemma LabelMonotone(x: real, y: real)
    requires x <= y
    ensures GetPerformanceLabel(Finite(x)).Rank() <= GetPerformanceLabel(Finite(y)).Rank()
  {
  }

  /** One card of the history list. */
  datatype HistoryCard = HistoryCard(percentage: Number, color: ScoreColor, performance: Performance)

  /** The label reads the rounded percentage, the colour the unrounded one. */
  function HistoryCardOf(quiz: QuizScore): (card: HistoryCard)
    ensures card.color == GetScoreColor(quiz.score, quiz.totalQuestions)
    ensures card.performance == GetPerformanceLabel(card.percentage)
    ensures quiz.totalQuestions > 0 ==>
      && card.percentage.Finite?
      && card.percentage.value - 0.5 <= Ratio(quiz) * 100.0 < card.percentage.value + 0.5
  {
    var percentage := Round(Percentage(quiz));
    HistoryCard(percentage, GetScoreColor(quiz.score, quiz.totalQuestions), GetPerformanceLabel(percentage))
  }

  /** The colour compares the unrounded percentage with 80 and 60. */
  lemma ColorBands(quiz: QuizScore)
    requires quiz.totalQuestions > 0
    ensures var c := GetScoreColor(quiz.score, quiz.totalQuestions);
      && (c == Green <==> Ratio(quiz) * 100.0 >= 80.0)
      && (c == Orange <==> 60.0 <= Ratio(quiz) * 100.0 < 80.0)
      && (c == Red <==> Ratio(quiz) * 100.0 < 60.0)
  {
  }

  /** Rounding to `n` never moves a value across an integer threshold by more than half a point. */
  lemma RoundedBands(x: real, n: int, threshold: int)
    requires n as real - 0.5 <= x < n as real + 0.5
    ensures x >= threshold as real ==> n >= threshold
    ensures n >= threshold && x < threshold as real ==> threshold as real - 0.5 <= x
    ensures x < threshold as real ==> n <= threshold
  {
  }

  /**
   * Colour and label nearly agree: they part only when rounding lifts a
   * percentage in [79.5, 80) to 80 or one in [59.5, 60) to 60.
   */
  lemma {:induction false} CardColorAndLabel(quiz: QuizScore)
    requires quiz.totalQuestions > 0
    ensures var card := HistoryCardOf(quiz);
      && (card.color == Green ==> card.performance.Rank() >= Great.Rank())
      && (card.color == Orange ==> Fair.Rank() <= card.performance.Rank() <= Great.Rank())
      && (card.color == Red ==> card.performance.Rank() <= Fair.Rank())
      && (card.color == Orange && card.performance == Great ==> 79.5 <= Ratio(quiz) * 100.0 < 80.0)
      && (card.color == Red && card.performance == Fair ==> 59.5 <= Ratio(quiz) * 100.0 < 60.0)
  {
    var card := HistoryCardOf(quiz);
    var x := Ratio(quiz) * 100.0;
    var n := card.percentage.value.Floor;
    assert n as real == card.percentage.value;
    ColorBands(quiz);
    RoundedBands(x, n, 80);
    RoundedBands(x, n, 60);
  }

  /** 199 of 250 is 79.6%: the card says "Great" in orange. */
  lemma LabelAndColorDisagree()
    ensures var card := HistoryCardOf(QuizScore(1, "Science", 199, 250, "", ""));
      card.performance == Great && card.color == Orange
  {
    var quiz := QuizScore(1, "Science", 199, 250, "", "");
    assert Ratio(quiz) * 100.0 == 79.6;
  }
}
