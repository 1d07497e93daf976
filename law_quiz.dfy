/**
 * The law-knowledge quiz: answering a question (once), moving on, and the
 * evaluation computed after the last question: the knowledge score, the
 * savings at stake and missed, the status band and the recommendations.
 * Which questions are asked is an input.
 */
module LawQuiz {
  import opened Common

  /** The parts of a quiz item the quiz logic reads. */
  datatype QuizItem = QuizItem(id: string, lawId: string, correctAnswer: int, potentialSavings: Option<int>)

  datatype QuizResult = QuizResult(questionId: string, selectedAnswer: int, isCorrect: bool, potentialSavings: int)

  datatype Status = Excellent | Good | NeedsImprovement | AtRisk

  datatype Evaluation = Evaluation(
    totalPotentialSavings: int, missedSavings: int, knowledgeScore: int, status: Status,
    recommendations: seq<string>)

  // ---------------------------------------------------------------------------
  // The evaluation

  function CorrectCount(results: seq<QuizResult>): (n: nat)
    ensures n <= |results|
    decreases |results|
  {
    if |results| == 0 then 0 else (if results[0].isCorrect then 1 else 0) + CorrectCount(results[1..])
  }

  /** `Math.round((correct / total) * 100)`, on exact rationals: the nearest integer, halves rounded up. */
  function KnowledgeScore(correct: nat, total: nat): (s: int)
    requires total > 0
    ensures 2 * total * s <= 200 * correct + total < 2 * total * (s + 1)
  {
    DivBounds(200 * correct + total, 2 * total);
    (200 * correct + total) / (2 * total)
  }

  lemma DivBounds(a: int, b: int)
    requires b > 0
    ensures b * (a / b) <= a < b * (a / b + 1)
  {
  }

  /** The score is a percentage, and a perfect or an empty record gives 100 or 0. */
  lemma ScoreBounds(correct: nat, total: nat)
    requires 0 < total && correct <= total
    ensures 0 <= KnowledgeScore(correct, total) <= 100
    ensures correct == total ==> KnowledgeScore(correct, total) == 100
    ensures correct == 0 ==> KnowledgeScore(correct, total) == 0
  {
    var s, t := KnowledgeScore(correct, total), 2 * total;
    MulMono(200, correct, total);
    MulCancel(t, s, 101);
    MulCancel(t, 0, s + 1);
    if correct == total {
      MulCancel(t, 100, s + 1);
    }
    if correct == 0 {
      MulCancel(t, s, 1);
    }
  }

  lemma MulMono(k: int, a: int, b: int)
    requires k > 0 && a <= b
    ensures k * a <= k * b
  {
  }

  lemma MulCancel(k: int, a: int, b: int)
    requires k > 0 && k * a < k * b
    ensures a < b
  {
  }

  /** More correct answers never lower the score. */
  lemma ScoreMonotone(c1: nat, c2: nat, total: nat)
    requires 0 < total && c1 <= c2
    ensures KnowledgeScore(c1, total) <= KnowledgeScore(c2, total)
  {
    var s1, s2 := KnowledgeScore(c1, total), KnowledgeScore(c2, total);
    MulCancel(2 * total, s1, s2 + 1);
  }

  /** The status bands. */
  function StatusOf(score: int): (st: Status)
    ensures st == Excellent <==> score >= 80
    ensures st == AtRisk <==> score < 40
  {
    if score >= 80 then Excellent
    else if score >= 60 then Good
    else if score >= 40 then NeedsImprovement
    else AtRisk
  }

  /** The general advice of each band. */
  function StatusAdvice(st: Status): (r: seq<string>)
    ensures 2 <= |r| <= 3 && NoDup(r)
  {
    match st
    case Excellent => ["素晴らしい！制度の理解が十分です", "定期的に法改正をチェックして知識を更新しましょう"]
    case Good => ["基本的な知識はありますが、まだ改善の余地があります", "間違えた分野の制度について詳しく調べてみましょう"]
    case NeedsImprovement => ["制度の理解を深めることで、大きな節約が期待できます",
                              "まずは基本的な税制優遇制度から学んでみましょう", "専門家への相談も検討してください"]
    case AtRisk => ["多くの制度を活用できていない可能性があります", "年間で大きな損失が発生しているかもしれません",
                    "税理士やファイナンシャルプランナーへの相談を強くお勧めします"]
  }

  const FurusatoTip := "ふるさと納税を活用すると年間数万円の節税が可能です"
  const IdecoTip := "iDeCoは老後資金の準備と節税を同時に実現できます"
  const NisaTip := "新NISAを活用して投資の利益を非課税にしましょう"

  /** `questions.find(q => q.id === id)`: the first question with the id. */
  function Find(questions: seq<QuizItem>, id: string): (r: Option<QuizItem>)
    ensures r.Some? ==> r.value in questions && r.value.id == id
    ensures r.None? ==> forall q :: q in questions ==> q.id != id
    decreases |questions|
  {
    if |questions| == 0 then None
    else if questions[0].id == id then Some(questions[0])
    else Find(questions[1..], id)
  }

  /** The tip for a wrongly answered question about one of three laws. */
  function TipsFor(q: Option<QuizItem>): (r: seq<string>)
    ensures |r| <= 1
  {
    if q.None? then []
    else if q.value.lawId == "furusato" then [FurusatoTip]
    else if q.value.lawId == "ideco" then [IdecoTip]
    else if q.value.lawId == "nisa" then [NisaTip]
    else []
  }

  /** The tips for the wrong answers, in the order of the results. */
  function Tips(results: seq<QuizResult>, questions: seq<QuizItem>): seq<string>
    decreases |results|
  {
    if |results| == 0 then []
    else
      var init := results[..|results| - 1];
      var last := results[|results| - 1];
      Tips(init, questions) + (if last.isCorrect then [] else TipsFor(Find(questions, last.questionId)))
  }

  /** The advice pushed in `handleNext`: the band's advice, then one tip per wrong answer on a known law. */
  method PushRecommendations(st: Status, results: seq<QuizResult>, questions: seq<QuizItem>) returns (recs: seq<string>)
    ensures recs == StatusAdvice(st) + Tips(results, questions)
  {
    recs := StatusAdvice(st);
    for i := 0 to |results|
      invariant recs == StatusAdvice(st) + Tips(results[..i], questions)
    {
      var result := results[i];
      assert results[..i + 1][..i] == results[..i];
      if !result.isCorrect {
        var question := Find(questions, result.questionId);
        if question.Some? {
          if question.value.lawId == "furusato" {
            recs := recs + [FurusatoTip];
          }
          if question.value.lawId == "ideco" {
            recs := recs + [IdecoTip];
          }
          if question.value.lawId == "nisa" {
            recs := recs + [NisaTip];
          }
        }
      }
    }
    assert results[..|results|] == results;
  }

  /** `Array.from(new Set(recs)).slice(0, 5)`. */
  function Final(recs: seq<string>): (r: seq<string>)
    ensures |r| <= 5 && NoDup(r)
    ensures forall x :: x in r ==> x in recs
  {
    var d := Dedup(recs);
    var r := d[..Min(5, |d|)];
    assert forall i, j :: 0 <= i < j < |r| ==> r[i] == d[i] && r[j] == d[j];
    r
  }

  /** `missedSavings`: the savings of the wrongly answered questions. */
  function Missed(results: seq<QuizResult>): int
    decreases |results|
  {
    if |results| == 0 then 0
    else (if results[0].isCorrect then 0 else results[0].potentialSavings) + Missed(results[1..])
  }

  /** `totalPotentialSavings`: the savings of every question, a missing value counting as 0. */
  function TotalSavings(questions: seq<QuizItem>): int
    decreases |questions|
  {
    if |questions| == 0 then 0 else questions[0].potentialSavings.GetOr(0) + TotalSavings(questions[1..])
  }

  /** Without wrong answers nothing is missed. */
  lemma {:induction false} MissedNone(results: seq<QuizResult>)
    requires forall r :: r in results ==> r.isCorrect
    ensures Missed(results) == 0 && CorrectCount(results) == |results|
    decreases |results|
  {
    if |results| > 0 {
      MissedNone(results[1..]);
    }
  }

  /** With non-negative savings the missed savings lie between 0 and the savings of all results. */
  lemma {:induction false} MissedBounded(results: seq<QuizResult>)
    requires forall r :: r in results ==> r.potentialSavings >= 0
    ensures 0 <= Missed(results) <= ResultSavings(results)
    decreases |results|
  {
    if |results| > 0 {
      MissedBounded(results[1..]);
    }
  }

  function ResultSavings(results: seq<QuizResult>): int
    decreases |results|
  {
    if |results| == 0 then 0 else results[0].potentialSavings + ResultSavings(results[1..])
  }

  /** Without wrong answers there are no tips. */
  lemma {:induction false} TipsOnlyForWrong(results: seq<QuizResult>, questions: seq<QuizItem>)
    requires forall r :: r in results ==> r.isCorrect
    ensures Tips(results, questions) == []
    decreases |results|
  {
    if |results| > 0 {
      TipsOnlyForWrong(results[..|results| - 1], questions);
    }
  }

  /** The recommendations start with the band's advice; they hold at most five entries, none twice. */
  lemma FinalStartsWithAdvice(st: Status, tips: seq<string>)
    ensures |Final(StatusAdvice(st) + tips)| >= |StatusAdvice(st)|
    ensures Final(StatusAdvice(st) + tips)[..|StatusAdvice(st)|] == StatusAdvice(st)
  {
    var a := StatusAdvice(st);
    DedupPrefix(a, tips);
    DedupOfNoDup(a);
    var d := Dedup(a + tips);
    assert a <= d;
    assert Final(a + tips) == d[..Min(5, |d|)];
  }

  // ---------------------------------------------------------------------------
  // The quiz state

  class Quiz {
    var questions: seq<QuizItem>
    var currentIndex: int
    var selectedAnswer: Option<int>
    var showExplanation: bool
    var results: seq<QuizResult>
    var quizComplete: bool
    var evaluation: Option<Evaluation>

    /**
     * The quiz is shown only with questions; the index stays on a question,
     * and at most one result is recorded per question reached.
     */
    predicate Valid()
      reads this
    {
      && |questions| > 0
      && 0 <= currentIndex < |questions|
      && |results| <= currentIndex + (if showExplanation then 1 else 0)
    }

    constructor(qs: seq<QuizItem>)
      requires |qs| > 0
      ensures Valid() && questions == qs && results == [] && !showExplanation && !quizComplete
    {
      questions, currentIndex, selectedAnswer, showExplanation := qs, 0, None, false;
      results, quizComplete, evaluation := [], false, None;
    }

    /** `handleAnswer`: ignored once the explanation is shown; otherwise records one result. */
    method HandleAnswer(answerIndex: int)
      requires Valid()
      modifies this
      ensures Valid()
      ensures old(showExplanation) ==> results == old(results) && selectedAnswer == old(selectedAnswer)
      ensures !old(showExplanation) ==>
        var q := questions[currentIndex];
        && showExplanation && selectedAnswer == Some(answerIndex)
        && results == old(results) + [QuizResult(q.id, answerIndex, answerIndex == q.correctAnswer, q.potentialSavings.GetOr(0))]
      ensures questions == old(questions) && currentIndex == old(currentIndex) && quizComplete == old(quizComplete)
    {
      if showExplanation {
        return;
      }
      selectedAnswer := Some(answerIndex);
      showExplanation := true;
      var q := questions[currentIndex];
      var isCorrect := answerIndex == q.correctAnswer;
      results := results + [QuizResult(q.id, answerIndex, isCorrect, q.potentialSavings.GetOr(0))];
    }

    /** `handleNext`: the next question, or after the last one the evaluation. */
    method HandleNext()
      requires Valid()
      modifies this
      ensures Valid()
      ensures old(currentIndex) < |questions| - 1 ==>
        currentIndex == old(currentIndex) + 1 && !showExplanation && selectedAnswer.None? && results == old(results)
      ensures old(currentIndex) == |questions| - 1 ==>
        quizComplete && evaluation.Some? && Judged(evaluation.value, questions, results)
      ensures questions == old(questions)
    {
      if currentIndex < |questions| - 1 {
        currentIndex := currentIndex + 1;
        selectedAnswer := None;
        showExplanation := false;
      } else {
        var correctCount := CorrectCount(results);
        var score := KnowledgeScore(correctCount, |questions|);
        var st := StatusOf(score);
        var recs := PushRecommendations(st, results, questions);
        evaluation := Some(Evaluation(TotalSavings(questions), Missed(results), score, st, Final(recs)));
        quizComplete := true;
      }
    }
  }

  /** The evaluation of a finished quiz. */
  predicate Judged(e: Evaluation, questions: seq<QuizItem>, results: seq<QuizResult>)
    requires |questions| > 0
  {
    && e.knowledgeScore == KnowledgeScore(CorrectCount(results), |questions|)
    && e.status == StatusOf(e.knowledgeScore)
    && e.totalPotentialSavings == TotalSavings(questions)
    && e.missedSavings == Missed(results)
    && e.recommendations == Final(StatusAdvice(e.status) + Tips(results, questions))
  }

  /** Answering every question right earns 100, the excellent band, nothing missed and no tips. */
  lemma PerfectQuiz(questions: seq<QuizItem>, results: seq<QuizResult>, e: Evaluation)
    requires |questions| > 0 && |results| == |questions|
    requires forall r :: r in results ==> r.isCorrect
    requires Judged(e, questions, results)
    ensures e.knowledgeScore == 100 && e.status == Excellent && e.missedSavings == 0
    ensures e.recommendations == StatusAdvice(Excellent)
  {
    MissedNone(results);
    ScoreBounds(|results|, |questions|);
    TipsOnlyForWrong(results, questions);
    var a := StatusAdvice(Excellent);
    assert a + [] == a;
    DedupOfNoDup(a);
  }
}
