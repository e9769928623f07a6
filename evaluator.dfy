/** Answer evaluation and the final report: the evaluator's fallback record
    for an unreadable reply, the order-preserving de-duplication, and the
    aggregation of per-turn scores into a Hire / No Hire verdict. Scores are
    integers and averages exact rationals. */
module Evaluator {
  import opened Text

  /** An evaluation object as decoded from JSON; None marks an absent key
      (and, for the lists, a null the source reads as empty). */
  datatype Assessment = Assessment(
    score: Option<int>,
    correct: Option<bool>,
    mistakes: Option<seq<string>>,
    goodPoints: Option<seq<string>>,
    topicsToRepeat: Option<seq<string>>,
    shortFeedback: Option<string>)

  // ------------------------------------------------------ evaluate_answer

  /** What the evaluator chain is given. */
  datatype EvalPrompt = EvalPrompt(question: string, answer: string, context: string)

  const ParseFailureMistake := "Не удалось распарсить JSON оценщика."
  const FeedbackLimit := 300

  /** `raw.strip()` followed by the fence clean-up. */
  function CleanReply(raw: string): (r: string)
    ensures !Contains(r, Fence)
  {
    StripFences(Strip(raw))
  }

  /** The record substituted when the cleaned reply does not decode. */
  function FallbackAssessment(clean: string): Assessment {
    Assessment(Some(0), Some(false), Some([ParseFailureMistake]), Some([]), Some([]), Some(Take(clean, FeedbackLimit)))
  }

  /** `MistralAnswerEvaluator.evaluate_answer`: the decoded object, or the
      fallback record. */
  function EvaluateAnswer(question: string, answer: string, context: string,
                          chain: EvalPrompt -> string, decode: string -> Parse<Assessment>): Assessment
  {
    var clean := CleanReply(chain(EvalPrompt(question, answer, context)));
    match decode(clean)
    case Parsed(a) => a
    case Malformed => FallbackAssessment(clean)
  }

  /** An unreadable reply scores 0, is not correct, and its feedback is the
      first 300 characters of the cleaned text, which hold no code fence; a
      readable one is returned as decoded. */
  lemma EvaluateAnswerFallback(question: string, answer: string, context: string,
                               chain: EvalPrompt -> string, decode: string -> Parse<Assessment>)
    ensures var clean := CleanReply(chain(EvalPrompt(question, answer, context)));
      var r := EvaluateAnswer(question, answer, context, chain, decode);
      && (decode(clean).Parsed? ==> r == decode(clean).value)
      && (decode(clean).Malformed? ==>
            && r.score == Some(0) && r.correct == Some(false)
            && r.mistakes == Some(["Не удалось распарсить JSON оценщика."])
            && r.goodPoints == Some([]) && r.topicsToRepeat == Some([])
            && r.shortFeedback.Some?
            && |r.shortFeedback.value| == (if |clean| < 300 then |clean| else 300)
            && r.shortFeedback.value == clean[..|r.shortFeedback.value|]
            && !Contains(r.shortFeedback.value, "```"))
  {
    var clean := CleanReply(chain(EvalPrompt(question, answer, context)));
    TakeLacks(clean, FeedbackLimit, Fence);
    if decode(clean).Malformed? {
      assert EvaluateAnswer(question, answer, context, chain, decode) == FallbackAssessment(clean);
    }
  }

  // ----------------------------------------------------------------- uniq

  /** The specification of `uniq`: keep each non-empty item at its first
      occurrence. Defined on the last element, as the loop consumes them. */
  function Distinct(xs: seq<string>): seq<string> {
    if xs == [] then []
    else
      var p := Distinct(xs[..|xs| - 1]);
      var x := xs[|xs| - 1];
      if x != "" && x !in p then p + [x] else p
  }

  predicate NoDuplicates(s: seq<string>) {
    forall i, j :: 0 <= i < j < |s| ==> s[i] != s[j]
  }

  /** The inner `uniq` of `aggregate_final`. */
  method Uniq(xs: seq<string>) returns (out: seq<string>)
    ensures out == Distinct(xs)
  {
    var seen: set<string> := {};
    out := [];
    for i := 0 to |xs|
      invariant out == Distinct(xs[..i])
      invariant forall y :: y in seen <==> y in out
    {
      var x := xs[i];
      assert xs[..i + 1][..i] == xs[..i];
      if x != "" && x !in seen {
        seen := seen + {x};
        out := out + [x];
      }
    }
    assert xs[..|xs|] == xs;
  }

  /** `uniq` keeps exactly the non-empty items of its input. */
  lemma {:induction false} DistinctMembers(xs: seq<string>, y: string)
    ensures y in Distinct(xs) <==> y in xs && y != ""
  {
    if xs != [] {
      var init := xs[..|xs| - 1];
      DistinctMembers(init, y);
      assert xs == init + [xs[|xs| - 1]];
    }
  }

  /** `uniq` returns no item twice and no empty item. */
  lemma {:induction false} DistinctIsDuplicateFree(xs: seq<string>)
    ensures NoDuplicates(Distinct(xs))
    ensures "" !in Distinct(xs)
  {
    if xs != [] {
      var init := xs[..|xs| - 1];
      DistinctIsDuplicateFree(init);
    }
  }

  /** `uniq` takes each item at its first occurrence and keeps their order:
      `idx` lists, strictly increasing, the input positions it took, and no
      earlier position holds the same item. So the output is a subsequence of
      the input ordered by first occurrence. */
  lemma {:induction false} DistinctFirstOccurrences(xs: seq<string>) returns (idx: seq<int>)
    ensures |idx| == |Distinct(xs)|
    ensures forall k :: 0 <= k < |idx| ==> 0 <= idx[k] < |xs| && xs[idx[k]] == Distinct(xs)[k]
    ensures forall k, l :: 0 <= k < l < |idx| ==> idx[k] < idx[l]
    ensures forall k, j :: 0 <= k < |idx| && 0 <= j < idx[k] ==> xs[j] != Distinct(xs)[k]
  {
    if xs == [] {
      idx := [];
    } else {
      var init := xs[..|xs| - 1];
      var x := xs[|xs| - 1];
      var p := Distinct(init);
      var pidx := DistinctFirstOccurrences(init);
      if x != "" && x !in p {
        DistinctMembers(init, x);
        idx := pidx + [|xs| - 1];
        forall k, j | 0 <= k < |idx| && 0 <= j < idx[k] ensures xs[j] != Distinct(xs)[k] {
          if k == |idx| - 1 {
            assert xs[j] == init[j];
          } else {
            assert xs[j] == init[j];
          }
        }
      } else {
        idx := pidx;
      }
    }
  }

  /** `uniq` changes nothing in a list that is already duplicate-free and has
      no empty item. */
  lemma {:induction false} DistinctOfDistinctFree(s: seq<string>)
    requires NoDuplicates(s) && "" !in s
    ensures Distinct(s) == s
  {
    if s != [] {
      var init := s[..|s| - 1];
      assert NoDuplicates(init) && "" !in init;
      DistinctOfDistinctFree(init);
      assert s[|s| - 1] !in init;
      assert s == init + [s[|s| - 1]];
    }
  }

  /** Running `uniq` on a prefix of its own output returns that prefix. */
  lemma DistinctOfTake(xs: seq<string>, n: nat)
    ensures Distinct(Take(Distinct(xs), n)) == Take(Distinct(xs), n)
  {
    DistinctIsDuplicateFree(xs);
    var t := Take(Distinct(xs), n);
    assert NoDuplicates(t) && "" !in t;
    DistinctOfDistinctFree(t);
  }

  // ------------------------------------------------------- aggregate_final

  /** The `combined` score of a turn, 0 when missing. */
  function ScoreOf(a: Assessment): int {
    a.score.GetOr(0)
  }

  function Sum(xs: seq<int>): int {
    if xs == [] then 0 else Sum(xs[..|xs| - 1]) + xs[|xs| - 1]
  }

  function Scores(perTurn: seq<Assessment>): (r: seq<int>)
    ensures |r| == |perTurn| && forall i :: 0 <= i < |r| ==> r[i] == ScoreOf(perTurn[i])
  {
    seq(|perTurn|, i requires 0 <= i < |perTurn| => ScoreOf(perTurn[i]))
  }

  /** The number of turns whose score reaches the threshold. */
  function CorrectCount(perTurn: seq<Assessment>, threshold: int): (r: nat)
    ensures r <= |perTurn|
  {
    if perTurn == [] then 0
    else CorrectCount(perTurn[..|perTurn| - 1], threshold)
         + (if ScoreOf(perTurn[|perTurn| - 1]) >= threshold then 1 else 0)
  }

  /** The positions of the turns whose score, missing read as 0, reaches the
      threshold. */
  function CorrectTurns(ts: seq<Assessment>, threshold: int): set<int> {
    set i | 0 <= i < |ts| && ScoreOf(ts[i]) >= threshold
  }

  /** The correct count is the number of turns whose score reaches the
      threshold, and no other turn is counted. */
  lemma {:induction false} CorrectCountCounts(ts: seq<Assessment>, threshold: int)
    ensures CorrectCount(ts, threshold) == |CorrectTurns(ts, threshold)|
  {
    if ts != [] {
      var n := |ts| - 1;
      var init := ts[..n];
      CorrectCountCounts(init, threshold);
      var extra: set<int> := if ScoreOf(ts[n]) >= threshold then {n} else {};
      assert CorrectTurns(ts, threshold) == CorrectTurns(init, threshold) + extra;
      assert n !in CorrectTurns(init, threshold);
    }
  }

  /** `avg`, exact. */
  function Average(perTurn: seq<Assessment>): real {
    if perTurn == [] then 0.0 else (Sum(Scores(perTurn)) as real) / (|perTurn| as real)
  }

  /** `correct_percent`, exact. */
  function CorrectPercent(perTurn: seq<Assessment>, threshold: int): real {
    if perTurn == [] then 0.0
    else (CorrectCount(perTurn, threshold) as real) / (|perTurn| as real) * 100.0
  }

  function VerdictOf(average: real, percent: real): string {
    if average >= 75.0 && percent >= 60.0 then "Hire" else "No Hire"
  }

  /** Python's `round` on an exact rational `num / den`: the nearest integer,
      ties to the even one. */
  function RoundHalfEven(num: int, den: int): (r: int)
    requires den > 0
    ensures -den <= 2 * (num - r * den) <= den
    ensures 2 * (num - r * den) == den || 2 * (num - r * den) == -den ==> r % 2 == 0
  {
    var q := num / den;
    var rem := num % den;
    assert num == q * den + rem;
    if 2 * rem > den then
      assert num - (q + 1) * den == rem - den;
      q + 1
    else if 2 * rem < den then q
    else if q % 2 == 0 then q
    else
      assert num - (q + 1) * den == rem - den;
      q + 1
  }

  /** The concatenated `good_points` of the turns, as the loop gathers them. */
  function GoodPointsOf(ts: seq<Assessment>): seq<string> {
    if ts == [] then [] else GoodPointsOf(ts[..|ts| - 1]) + ts[|ts| - 1].goodPoints.GetOr([])
  }

  function MistakesOf(ts: seq<Assessment>): seq<string> {
    if ts == [] then [] else MistakesOf(ts[..|ts| - 1]) + ts[|ts| - 1].mistakes.GetOr([])
  }

  function TopicsOf(ts: seq<Assessment>): seq<string> {
    if ts == [] then [] else TopicsOf(ts[..|ts| - 1]) + ts[|ts| - 1].topicsToRepeat.GetOr([])
  }

  const GradeEstimate := "Junior/Middle/Senior (эвристика не настроена)"

  datatype FinalReport = FinalReport(
    overallScore: int,
    correctPercent: real,
    verdict: string,
    gradeEstimate: string,
    strengths: seq<string>,
    weaknesses: seq<string>,
    topicsToStudy: seq<string>,
    recommendations: seq<string>)

  /** The report `aggregate_final` returns. */
  function FinalReportOf(perTurn: seq<Assessment>, threshold: int): FinalReport {
    var topics := Take(Distinct(TopicsOf(perTurn)), 7);
    FinalReport(
      if perTurn == [] then 0 else RoundHalfEven(Sum(Scores(perTurn)), |perTurn|),
      CorrectPercent(perTurn, threshold),
      VerdictOf(Average(perTurn), CorrectPercent(perTurn, threshold)),
      GradeEstimate,
      Take(Distinct(GoodPointsOf(perTurn)), 7),
      Take(Distinct(MistakesOf(perTurn)), 7),
      topics,
      Take(Distinct(topics), 5))
  }

  /** `aggregate_final`: gathers the lists turn by turn, de-duplicates them
      with `uniq`, truncates them and derives the verdict. */
  method AggregateFinal(perTurn: seq<Assessment>, correctThreshold: int) returns (r: FinalReport)
    ensures r == FinalReportOf(perTurn, correctThreshold)
  {
    var strengths: seq<string> := [];
    var weaknesses: seq<string> := [];
    var topics: seq<string> := [];
    for i := 0 to |perTurn|
      invariant strengths == GoodPointsOf(perTurn[..i])
      invariant weaknesses == MistakesOf(perTurn[..i])
      invariant topics == TopicsOf(perTurn[..i])
    {
      var c := perTurn[i];
      assert perTurn[..i + 1][..i] == perTurn[..i];
      strengths := strengths + c.goodPoints.GetOr([]);
      weaknesses := weaknesses + c.mistakes.GetOr([]);
      topics := topics + c.topicsToRepeat.GetOr([]);
    }
    assert perTurn[..|perTurn|] == perTurn;
    var s := Uniq(strengths);
    var w := Uniq(weaknesses);
    var t := Uniq(topics);
    var topicsToStudy := Take(t, 7);
    var recommendations := Uniq(topicsToStudy);
    r := FinalReport(
      if perTurn == [] then 0 else RoundHalfEven(Sum(Scores(perTurn)), |perTurn|),
      CorrectPercent(perTurn, correctThreshold),
      VerdictOf(Average(perTurn), CorrectPercent(perTurn, correctThreshold)),
      GradeEstimate,
      Take(s, 7), Take(w, 7), topicsToStudy, Take(recommendations, 5));
  }

  /** Scaling by a positive count keeps a comparison. */
  lemma ScaleAtLeast(y: real, bound: real, n: int)
    requires n > 0
    ensures y >= bound <==> y * (n as real) >= bound * (n as real)
  {
    if y >= bound {
      assert (y - bound) * (n as real) >= 0.0;
    } else {
      assert (bound - y) * (n as real) > 0.0;
    }
  }

  /** A non-empty average reaches 75 exactly when `sum >= 75 n`. */
  lemma AverageAtLeast(perTurn: seq<Assessment>)
    requires perTurn != []
    ensures Average(perTurn) >= 75.0 <==> Sum(Scores(perTurn)) >= 75 * |perTurn|
  {
    var n := |perTurn|;
    var y := Average(perTurn);
    assert y * (n as real) == Sum(Scores(perTurn)) as real;
    ScaleAtLeast(y, 75.0, n);
    assert 75.0 * (n as real) == (75 * n) as real;
  }

  /** `c / n * 100 >= 60` exactly when `100 c >= 60 n`, for `n > 0`. */
  lemma ShareAtLeast(c: int, n: int)
    requires n > 0
    ensures (c as real) / (n as real) * 100.0 >= 60.0 <==> 100 * c >= 60 * n
  {
    var x := (c as real) / (n as real);
    assert x * 100.0 >= 60.0 <==> x >= 0.6;
    assert x * (n as real) == c as real;
    ScaleAtLeast(x, 0.6, n);
    assert c as real >= 0.6 * (n as real) <==> 100 * c >= 60 * n;
  }

  /** A non-empty correct share reaches 60 percent exactly when
      `100 correct >= 60 n`. */
  lemma PercentAtLeast(perTurn: seq<Assessment>, threshold: int)
    requires perTurn != []
    ensures CorrectPercent(perTurn, threshold) >= 60.0 <==> 100 * CorrectCount(perTurn, threshold) >= 60 * |perTurn|
  {
    ShareAtLeast(CorrectCount(perTurn, threshold), |perTurn|);
  }

  /** The verdict is "Hire" exactly when the average reaches 75 and the
      correct share reaches 60 percent; over integers: `sum >= 75 n` and
      `100 correct >= 60 n`. It is "No Hire" otherwise. */
  lemma VerdictIff(perTurn: seq<Assessment>, threshold: int)
    ensures var r := FinalReportOf(perTurn, threshold);
      var n := |perTurn|;
      && (r.verdict == "Hire" <==>
            n > 0 && Sum(Scores(perTurn)) >= 75 * n && 100 * CorrectCount(perTurn, threshold) >= 60 * n)
      && (r.verdict == "Hire" || r.verdict == "No Hire")
  {
    if perTurn != [] {
      AverageAtLeast(perTurn);
      PercentAtLeast(perTurn, threshold);
    }
  }

  /** With no turns the average and the correct share are 0 and the verdict
      is "No Hire", whatever the threshold. */
  lemma EmptyReportIsNoHire(threshold: int)
    ensures var r := FinalReportOf([], threshold);
      && r.overallScore == 0 && r.correctPercent == 0.0 && r.verdict == "No Hire"
      && r.strengths == [] && r.weaknesses == [] && r.topicsToStudy == [] && r.recommendations == []
  {
  }

  /** The report's lists are bounded (7, 7, 7 and 5), duplicate-free, free of
      empty items, and the recommendations are the first five topics. */
  lemma ReportLists(perTurn: seq<Assessment>, threshold: int)
    ensures var r := FinalReportOf(perTurn, threshold);
      && |r.strengths| <= 7 && |r.weaknesses| <= 7 && |r.topicsToStudy| <= 7 && |r.recommendations| <= 5
      && NoDuplicates(r.strengths) && NoDuplicates(r.weaknesses) && NoDuplicates(r.topicsToStudy)
      && "" !in r.strengths && "" !in r.weaknesses && "" !in r.topicsToStudy
      && r.recommendations == Take(r.topicsToStudy, 5)
  {
    DistinctIsDuplicateFree(GoodPointsOf(perTurn));
    DistinctIsDuplicateFree(MistakesOf(perTurn));
    DistinctIsDuplicateFree(TopicsOf(perTurn));
    DistinctOfTake(TopicsOf(perTurn), 7);
  }

  /** The overall score is the average rounded half to even: within one half
      of it. */
  lemma OverallScoreIsRoundedAverage(perTurn: seq<Assessment>, threshold: int)
    requires perTurn != []
    ensures var r := FinalReportOf(perTurn, threshold);
      var n := |perTurn|;
      -n <= 2 * (Sum(Scores(perTurn)) - r.overallScore * n) <= n
  {
  }

  // ------------------------------------- GPT4FreeEvaluator.generate_final_report

  /** Euclidean division of a non-negative number brackets it between two
      consecutive multiples. */
  lemma DivBounds(a: int, n: int)
    requires a >= 0 && n > 0
    ensures 0 <= a / n && (a / n) * n <= a < (a / n + 1) * n
  {
    assert a == (a / n) * n + a % n;
  }

  /** `int(sum / n)`: the mean truncated toward zero, 0 for no scores. */
  function TruncatedMean(scores: seq<int>): (r: int)
    ensures scores == [] ==> r == 0
    ensures scores != [] && Sum(scores) >= 0 ==> 0 <= r && r * |scores| <= Sum(scores) < (r + 1) * |scores|
    ensures scores != [] && Sum(scores) < 0 ==> r <= 0 && (r - 1) * |scores| < Sum(scores) <= r * |scores|
  {
    if scores == [] then 0
    else
      var n := |scores|;
      var total := Sum(scores);
      if total >= 0 then
        DivBounds(total, n);
        total / n
      else
        var q := (-total) / n;
        DivBounds(-total, n);
        assert (-q - 1) * n == -((q + 1) * n) && (-q) * n == -(q * n);
        -q
  }

  datatype StubReport = StubReport(
    overallScore: int,
    verdict: string,
    gradeEstimate: string,
    detailedFeedback: string,
    strengths: seq<string>,
    weaknesses: seq<string>,
    topicsToStudy: seq<string>,
    recommendations: seq<string>)

  /** The placeholder evaluator's report: only the score is computed. */
  function GenerateFinalReport(evaluations: seq<Assessment>): StubReport {
    StubReport(TruncatedMean(Scores(evaluations)), "Не определен", "Не определен",
               "Нет данных для детального отчета.", [], [], [], [])
  }

  /** The placeholder report's score is the mean of the scores (missing read
      as 0) truncated toward zero, and 0 without evaluations. */
  lemma StubScoreIsTruncatedMean(evaluations: seq<Assessment>)
    ensures var r := GenerateFinalReport(evaluations).overallScore;
      var n := |evaluations|;
      var total := Sum(Scores(evaluations));
      && (n == 0 ==> r == 0)
      && (n > 0 && total >= 0 ==> r * n <= total < (r + 1) * n)
      && (n > 0 && total < 0 ==> (r - 1) * n < total <= r * n)
  {
  }
}
