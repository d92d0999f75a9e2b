/**
 * The quiz engine: scoring a submitted quiz, the difficulty adjustment that
 * precedes an adaptive question, and the fallback objects returned when a
 * call to the language model fails.
 *
 * Every call to the language model is a function-valued parameter that
 * returns a `Reply`: the JSON object it parsed, or the message of the
 * exception that the call or the parse raised. What the model answers is
 * not modelled; a parsed object may lack any key.
 */
module QuizGenerator {
  import opened Wrappers
  import opened Performance

  /** The outcome of one call to the language model. */
  datatype Reply<T> = Parsed(value: T) | Raised(message: string)

  /** A question object; every key may be missing from what the model returned. */
  datatype Question = Question(
    kind: Option<string>,            // "type"
    text: Option<string>,            // "question"
    options: Option<seq<string>>,    // "options"
    correctAnswer: Option<string>,   // "correct_answer"
    explanation: Option<string>)     // "explanation"

  /** A quiz object; its "questions" list is taken to be present. */
  datatype Quiz = Quiz(
    title: Option<string>,
    subject: Option<string>,
    difficulty: Option<string>,
    questions: seq<Question>)

  /** The free-response evaluator's object: "correct", "partial_credit", "explanation". */
  datatype Evaluation = Evaluation(
    correct: Option<bool>,
    partialCredit: Option<real>,
    explanation: Option<string>)

  /** One feedback entry: a graded question, or the single entry of the error result. */
  datatype Feedback =
    | Feedback(correct: bool, userAnswer: string, correctAnswer: string, explanation: string)
    | ErrorFeedback(error: string)

  /** The result of evaluating a quiz. */
  datatype QuizResult = QuizResult(score: real, total: nat, feedback: seq<Feedback>)

  /** The submitted answers, by 0-based question index. */
  type Answers = map<nat, string>

  /** The language-model call behind the free-response evaluator: (question, student answer, correct answer). */
  type Grader = (string, string, string) -> Reply<Evaluation>

  const MultipleChoice: string := "multiple_choice"
  const ProblemSolving: string := "problem_solving"

  // ---------------------------------------------------------------------
  // The free-response evaluator and its fallback
  // ---------------------------------------------------------------------

  const AnswerErrorPrefix: string := "Error evaluating answer: "

  /** What the evaluator returns when its call or parse raised `message`. */
  function EvaluationFallback(message: string): (e: Evaluation)
    ensures e.correct == Some(false) && e.partialCredit == Some(0.0)
    ensures e.explanation.Some? && AnswerErrorPrefix <= e.explanation.value
    ensures e.explanation.value[|AnswerErrorPrefix|..] == message
  {
    Evaluation(Some(false), Some(0.0), Some(AnswerErrorPrefix + message))
  }

  /**
   * Evaluates a free-response answer: the parsed object as it is, or the
   * fallback when the call failed. The fallback is complete (all three keys),
   * not correct and worth no credit.
   */
  function EvaluateProblemSolving(grader: Grader, question: string, userAnswer: string, correctAnswer: string): (e: Evaluation)
    ensures grader(question, userAnswer, correctAnswer).Parsed? ==> e == grader(question, userAnswer, correctAnswer).value
    ensures grader(question, userAnswer, correctAnswer).Raised? ==>
              e.correct == Some(false) && e.partialCredit == Some(0.0) && e.explanation.Some?
    ensures grader(question, userAnswer, correctAnswer).Raised? ==>
              e == EvaluationFallback(grader(question, userAnswer, correctAnswer).message)
  {
    match grader(question, userAnswer, correctAnswer)
    case Parsed(evaluation) => evaluation
    case Raised(message) => EvaluationFallback(message)
  }

  // ---------------------------------------------------------------------
  // Scoring one question
  // ---------------------------------------------------------------------

  /** The submitted answer for question `i`, or "" when there is none. */
  function AnswerFor(answers: Answers, i: nat): (answer: string)
    ensures i in answers ==> answer == answers[i]
    ensures i !in answers ==> answer == ""
  {
    if i in answers then answers[i] else ""
  }

  /** What one pass of the scoring loop does with a question. */
  datatype Step =
    | Graded(credit: real, entry: Feedback)   // adds `credit` to the score and `entry` to the feedback
    | Skipped                                 // a question of another type: no score, no feedback
    | Missing(key: string)                    // a lookup raised KeyError(key)

  /**
   * One pass of the scoring loop, with its lookups in the source's order:
   * "correct_answer", "type", then for a multiple-choice question
   * "explanation", and for a problem-solving question "question" and the
   * evaluation's "correct", "partial_credit" and "explanation".
   */
  function GradeQuestion(q: Question, answer: string, grader: Grader): Step
  {
    if q.correctAnswer.None? then Missing("correct_answer")
    else if q.kind.None? then Missing("type")
    else if q.kind.value == MultipleChoice then
      var isCorrect := answer == q.correctAnswer.value;
      if q.explanation.None? then Missing("explanation")
      else Graded(if isCorrect then 1.0 else 0.0, Feedback(isCorrect, answer, q.correctAnswer.value, q.explanation.value))
    else if q.kind.value == ProblemSolving then
      if q.text.None? then Missing("question")
      else
        var evaluation := EvaluateProblemSolving(grader, q.text.value, answer, q.correctAnswer.value);
        if evaluation.correct.None? then Missing("correct")
        else if evaluation.partialCredit.None? then Missing("partial_credit")
        else if evaluation.explanation.None? then Missing("explanation")
        else Graded(evaluation.partialCredit.value,
                    Feedback(evaluation.correct.value, answer, q.correctAnswer.value, evaluation.explanation.value))
    else Skipped
  }

  /**
   * What one pass of the scoring loop means: a missing key aborts, a question
   * of another type is skipped; a multiple-choice question earns 1 exactly
   * for the literal correct answer and 0 otherwise; a problem-solving
   * question takes its credit and its correct flag separately from the
   * evaluator; every entry echoes the submitted and the expected answer.
   */
  lemma GradeQuestionMeaning(q: Question, answer: string, grader: Grader)
    // a missing key aborts, a question of another type is skipped
    ensures q.correctAnswer.None? ==> GradeQuestion(q, answer, grader) == Missing("correct_answer")
    ensures q.correctAnswer.Some? && q.kind.None? ==> GradeQuestion(q, answer, grader) == Missing("type")
    ensures GradeQuestion(q, answer, grader).Skipped? <==>
              q.correctAnswer.Some? && q.kind.Some? && q.kind.value != MultipleChoice && q.kind.value != ProblemSolving
    // multiple choice: exact string match, credit 1 or 0
    ensures var s := GradeQuestion(q, answer, grader);
            q.correctAnswer.Some? && q.kind == Some(MultipleChoice) ==>
              (s.Missing? <==> q.explanation.None?) &&
              (q.explanation.None? ==> s == Missing("explanation"))
    ensures var s := GradeQuestion(q, answer, grader);
            q.kind == Some(MultipleChoice) && s.Graded? ==>
              (s.credit == 1.0 <==> answer == q.correctAnswer.value) &&
              (s.credit == 0.0 <==> answer != q.correctAnswer.value) &&
              s.entry.Feedback? && s.entry.correct == (answer == q.correctAnswer.value) &&
              s.entry.explanation == q.explanation.value
    // problem solving: aborts exactly when the text or an evaluation key is missing, naming the first one
    ensures q.correctAnswer.Some? && q.kind == Some(ProblemSolving) && q.text.None? ==>
              GradeQuestion(q, answer, grader) == Missing("question")
    ensures var s := GradeQuestion(q, answer, grader);
            q.correctAnswer.Some? && q.kind == Some(ProblemSolving) && q.text.Some? ==>
              var e := EvaluateProblemSolving(grader, q.text.value, answer, q.correctAnswer.value);
              (s.Missing? <==> e.correct.None? || e.partialCredit.None? || e.explanation.None?) &&
              (e.correct.None? ==> s == Missing("correct")) &&
              (e.correct.Some? && e.partialCredit.None? ==> s == Missing("partial_credit")) &&
              (e.correct.Some? && e.partialCredit.Some? && e.explanation.None? ==> s == Missing("explanation"))
    // problem solving: credit and correctness taken separately from the evaluator
    ensures var s := GradeQuestion(q, answer, grader);
            q.kind == Some(ProblemSolving) && s.Graded? ==>
              q.text.Some? &&
              var e := EvaluateProblemSolving(grader, q.text.value, answer, q.correctAnswer.value);
              e.partialCredit == Some(s.credit) && s.entry.Feedback? &&
              e.correct == Some(s.entry.correct) && e.explanation == Some(s.entry.explanation)
    // every feedback entry echoes the submitted and the expected answer
    ensures var s := GradeQuestion(q, answer, grader);
            s.Graded? ==> s.entry.Feedback? && s.entry.userAnswer == answer && Some(s.entry.correctAnswer) == q.correctAnswer
  {
  }

  /** The scoring step for question `i` of `qs`. */
  function StepAt(qs: seq<Question>, answers: Answers, grader: Grader, i: nat): Step
    requires i < |qs|
  {
    GradeQuestion(qs[i], AnswerFor(answers, i), grader)
  }

  // ---------------------------------------------------------------------
  // Scoring a quiz
  // ---------------------------------------------------------------------

  /** The score and feedback accumulated so far. */
  datatype Tally = Tally(score: real, feedback: seq<Feedback>)

  /**
   * The scoring loop over the first `n` questions: the accumulated tally, or
   * the key whose lookup raised and ended the loop.
   */
  function Run(qs: seq<Question>, answers: Answers, grader: Grader, n: nat): (r: Result<Tally, string>)
    requires n <= |qs|
    ensures r.Success? ==> |r.value.feedback| <= n
  {
    if n == 0 then Success(Tally(0.0, []))
    else
      match Run(qs, answers, grader, n - 1)
      case Failure(key) => Failure(key)
      case Success(t) =>
        match StepAt(qs, answers, grader, n - 1)
        case Graded(credit, entry) => Success(Tally(t.score + credit, t.feedback + [entry]))
        case Skipped => Success(t)
        case Missing(key) => Failure(key)
  }

  /** The start of the error entry; `str(KeyError(key))` is the key in single quotes. */
  const QuizErrorOpening: string := "Error evaluating quiz: '"

  /** The fixed result that replaces everything when a lookup raised `KeyError(key)`. */
  function ErrorResult(total: nat, key: string): (r: QuizResult)
    ensures r.score == 0.0 && r.total == total
    ensures |r.feedback| == 1 && r.feedback[0].ErrorFeedback?
    ensures QuizErrorOpening <= r.feedback[0].error && r.feedback[0].error[|QuizErrorOpening|..] == key + "'"
  {
    QuizResult(0.0, total, [ErrorFeedback(QuizErrorOpening + key + "'")])
  }

  /** What evaluating a quiz returns. */
  function Evaluate(quiz: Quiz, answers: Answers, grader: Grader): (r: QuizResult)
    ensures r.total == |quiz.questions|
  {
    match Run(quiz.questions, answers, grader, |quiz.questions|)
    case Success(t) => QuizResult(t.score, |quiz.questions|, t.feedback)
    case Failure(key) => ErrorResult(|quiz.questions|, key)
  }

  /** Once the loop has stopped on a missing key, it stays stopped on that key. */
  lemma {:induction false} RunFailurePersists(qs: seq<Question>, answers: Answers, grader: Grader, i: nat, n: nat)
    requires i <= n <= |qs|
    requires Run(qs, answers, grader, i).Failure?
    ensures Run(qs, answers, grader, n) == Run(qs, answers, grader, i)
  {
    if n > i {
      RunFailurePersists(qs, answers, grader, i, n - 1);
    }
  }

  /** When the loop reaches a question whose lookup raises `key`, evaluation returns the error result for `key`. */
  lemma EvaluateStopsAt(quiz: Quiz, answers: Answers, grader: Grader, i: nat, key: string)
    requires i < |quiz.questions|
    requires Run(quiz.questions, answers, grader, i).Success?
    requires StepAt(quiz.questions, answers, grader, i) == Missing(key)
    ensures Evaluate(quiz, answers, grader) == ErrorResult(|quiz.questions|, key)
  {
    RunFailurePersists(quiz.questions, answers, grader, i + 1, |quiz.questions|);
  }

  /**
   * Scores the submitted answers. Walks the questions in order, appending
   * feedback and accumulating the score; the first missing key discards what
   * was accumulated and returns the error result instead.
   */
  method EvaluateQuiz(quiz: Quiz, answers: Answers, grader: Grader) returns (results: QuizResult)
    ensures results == Evaluate(quiz, answers, grader)
    ensures results.total == |quiz.questions|
  {
    var qs := quiz.questions;
    var score := 0.0;
    var feedback: seq<Feedback> := [];
    var i := 0;
    while i < |qs|
      invariant i <= |qs|
      invariant Run(qs, answers, grader, i) == Success(Tally(score, feedback))
    {
      var question := qs[i];
      var userAnswer := AnswerFor(answers, i);
      if question.correctAnswer.None? {
        EvaluateStopsAt(quiz, answers, grader, i, "correct_answer");
        return ErrorResult(|qs|, "correct_answer");
      }
      var correctAnswer := question.correctAnswer.value;
      if question.kind.None? {
        EvaluateStopsAt(quiz, answers, grader, i, "type");
        return ErrorResult(|qs|, "type");
      }
      if question.kind.value == MultipleChoice {
        var isCorrect := userAnswer == correctAnswer;
        score := score + if isCorrect then 1.0 else 0.0;
        if question.explanation.None? {
          EvaluateStopsAt(quiz, answers, grader, i, "explanation");
          return ErrorResult(|qs|, "explanation");
        }
        assert StepAt(qs, answers, grader, i) == Graded(if isCorrect then 1.0 else 0.0,
          Feedback(isCorrect, userAnswer, correctAnswer, question.explanation.value));
        feedback := feedback + [Feedback(isCorrect, userAnswer, correctAnswer, question.explanation.value)];
      } else if question.kind.value == ProblemSolving {
        if question.text.None? {
          EvaluateStopsAt(quiz, answers, grader, i, "question");
          return ErrorResult(|qs|, "question");
        }
        var evaluation := EvaluateProblemSolving(grader, question.text.value, userAnswer, correctAnswer);
        if evaluation.correct.None? {
          EvaluateStopsAt(quiz, answers, grader, i, "correct");
          return ErrorResult(|qs|, "correct");
        }
        var isCorrect := evaluation.correct.value;
        if evaluation.partialCredit.None? {
          EvaluateStopsAt(quiz, answers, grader, i, "partial_credit");
          return ErrorResult(|qs|, "partial_credit");
        }
        score := score + evaluation.partialCredit.value;
        if evaluation.explanation.None? {
          EvaluateStopsAt(quiz, answers, grader, i, "explanation");
          return ErrorResult(|qs|, "explanation");
        }
        assert StepAt(qs, answers, grader, i) == Graded(evaluation.partialCredit.value,
          Feedback(isCorrect, userAnswer, correctAnswer, evaluation.explanation.value));
        feedback := feedback + [Feedback(isCorrect, userAnswer, correctAnswer, evaluation.explanation.value)];
      } else {
        assert StepAt(qs, answers, grader, i) == Skipped;
      }
      i := i + 1;
    }
    results := QuizResult(score, |qs|, feedback);
  }

  // ---------------------------------------------------------------------
  // What the scoring loop computes
  // ---------------------------------------------------------------------

  /** The loop stops exactly when some question's lookups raise, and it reports the key of the first such question. */
  lemma {:induction false} RunAbortsAtFirstMissing(qs: seq<Question>, answers: Answers, grader: Grader, n: nat)
    requires n <= |qs|
    ensures Run(qs, answers, grader, n).Failure? <==> exists i :: 0 <= i < n && StepAt(qs, answers, grader, i).Missing?
    ensures Run(qs, answers, grader, n).Failure? ==>
              exists i :: 0 <= i < n && StepAt(qs, answers, grader, i) == Missing(Run(qs, answers, grader, n).error) &&
                forall j :: 0 <= j < i ==> !StepAt(qs, answers, grader, j).Missing?
  {
    if n > 0 {
      RunAbortsAtFirstMissing(qs, answers, grader, n - 1);
      var step := StepAt(qs, answers, grader, n - 1);
      if Run(qs, answers, grader, n - 1).Failure? {
        assert Run(qs, answers, grader, n) == Run(qs, answers, grader, n - 1);
      } else if step.Missing? {
        assert forall j :: 0 <= j < n - 1 ==> !StepAt(qs, answers, grader, j).Missing?;
        assert Run(qs, answers, grader, n) == Failure(step.key);
      } else {
        assert Run(qs, answers, grader, n).Success?;
        assert forall j :: 0 <= j < n ==> !StepAt(qs, answers, grader, j).Missing?;
      }
    }
  }

  /** The credit question `q` earns with `answer`, defined directly from its type. */
  function CreditOf(q: Question, answer: string, grader: Grader): real
  {
    if q.kind == Some(MultipleChoice) then
      (if q.correctAnswer == Some(answer) then 1.0 else 0.0)
    else if q.kind == Some(ProblemSolving) && q.text.Some? && q.correctAnswer.Some? then
      EvaluateProblemSolving(grader, q.text.value, answer, q.correctAnswer.value).partialCredit.GetOr(0.0)
    else 0.0
  }

  /** The credits of the first `n` questions, in order. */
  function Credits(qs: seq<Question>, answers: Answers, grader: Grader, n: nat): (r: seq<real>)
    requires n <= |qs|
    ensures |r| == n
    ensures forall i :: 0 <= i < n ==> r[i] == CreditOf(qs[i], AnswerFor(answers, i), grader)
  {
    if n == 0 then [] else Credits(qs, answers, grader, n - 1) + [CreditOf(qs[n - 1], AnswerFor(answers, n - 1), grader)]
  }

  /** A graded question adds exactly its credit; a skipped one would have earned none. */
  lemma StepCreditIsCreditOf(q: Question, answer: string, grader: Grader)
    ensures GradeQuestion(q, answer, grader).Graded? ==> GradeQuestion(q, answer, grader).credit == CreditOf(q, answer, grader)
    ensures GradeQuestion(q, answer, grader).Skipped? ==> CreditOf(q, answer, grader) == 0.0
  {
  }

  /** On success the score is the in-order sum of the per-question credits. */
  lemma {:induction false} RunScoreIsSumOfCredits(qs: seq<Question>, answers: Answers, grader: Grader, n: nat)
    requires n <= |qs|
    requires Run(qs, answers, grader, n).Success?
    ensures Run(qs, answers, grader, n).value.score == Sum(Credits(qs, answers, grader, n))
  {
    if n > 0 {
      RunScoreIsSumOfCredits(qs, answers, grader, n - 1);
      StepCreditIsCreditOf(qs[n - 1], AnswerFor(answers, n - 1), grader);
      SumAppend(Credits(qs, answers, grader, n - 1), CreditOf(qs[n - 1], AnswerFor(answers, n - 1), grader));
    }
  }

  /** Every partial credit the evaluator's model returns lies in [0, 1]. */
  ghost predicate CreditsInUnitRange(grader: Grader)
  {
    forall q, a, c :: grader(q, a, c).Parsed? && grader(q, a, c).value.partialCredit.Some? ==>
      0.0 <= grader(q, a, c).value.partialCredit.value <= 1.0
  }

  /** With partial credits in [0, 1], the score lies between 0 and the number of questions, on both paths. */
  lemma ScoreWithinTotal(quiz: Quiz, answers: Answers, grader: Grader)
    requires CreditsInUnitRange(grader)
    ensures 0.0 <= Evaluate(quiz, answers, grader).score <= Evaluate(quiz, answers, grader).total as real
  {
    var qs := quiz.questions;
    if Run(qs, answers, grader, |qs|).Success? {
      RunScoreIsSumOfCredits(qs, answers, grader, |qs|);
      SumBounds(Credits(qs, answers, grader, |qs|));
    }
  }

  /** A question that yields a feedback entry. */
  predicate IsGradedKind(q: Question)
  {
    q.kind == Some(MultipleChoice) || q.kind == Some(ProblemSolving)
  }

  /** The indices, in increasing order, of the first `n` questions that yield feedback. */
  function GradedIndices(qs: seq<Question>, n: nat): (r: seq<nat>)
    requires n <= |qs|
    ensures forall j :: 0 <= j < |r| ==> r[j] < n && IsGradedKind(qs[r[j]])
    ensures forall j, k :: 0 <= j < k < |r| ==> r[j] < r[k]
    ensures forall i :: 0 <= i < n && IsGradedKind(qs[i]) ==> i in r
  {
    if n == 0 then []
    else GradedIndices(qs, n - 1) + (if IsGradedKind(qs[n - 1]) then [n - 1] else [])
  }

  /** On success the feedback holds one entry per multiple-choice or problem-solving question, in question order. */
  lemma {:induction false} RunFeedbackFollowsQuestions(qs: seq<Question>, answers: Answers, grader: Grader, n: nat)
    requires n <= |qs|
    requires Run(qs, answers, grader, n).Success?
    ensures |Run(qs, answers, grader, n).value.feedback| == |GradedIndices(qs, n)|
    ensures forall j :: 0 <= j < |GradedIndices(qs, n)| ==>
              StepAt(qs, answers, grader, GradedIndices(qs, n)[j]).Graded? &&
              Run(qs, answers, grader, n).value.feedback[j] == StepAt(qs, answers, grader, GradedIndices(qs, n)[j]).entry
  {
    if n > 0 {
      RunFeedbackFollowsQuestions(qs, answers, grader, n - 1);
      var step := StepAt(qs, answers, grader, n - 1);
      assert IsGradedKind(qs[n - 1]) <==> step.Graded?;
    }
  }

  /**
   * The error path: when some lookup raises, the result is score 0, the full
   * question count and exactly one error entry, naming the key of the first
   * question whose lookup raised.
   */
  lemma EvaluateErrorPath(quiz: Quiz, answers: Answers, grader: Grader, m: nat)
    requires m < |quiz.questions| && StepAt(quiz.questions, answers, grader, m).Missing?
    ensures exists i :: 0 <= i <= m && StepAt(quiz.questions, answers, grader, i).Missing? &&
              (forall j :: 0 <= j < i ==> !StepAt(quiz.questions, answers, grader, j).Missing?) &&
              Evaluate(quiz, answers, grader) == ErrorResult(|quiz.questions|, StepAt(quiz.questions, answers, grader, i).key)
  {
    var qs := quiz.questions;
    RunAbortsAtFirstMissing(qs, answers, grader, |qs|);
    var key := Run(qs, answers, grader, |qs|).error;
    var i :| 0 <= i < |qs| && StepAt(qs, answers, grader, i) == Missing(key) &&
             forall j :: 0 <= j < i ==> !StepAt(qs, answers, grader, j).Missing?;
    assert i <= m;
  }

  /**
   * On success, feedback entry `j` belongs to the `j`-th multiple-choice or
   * problem-solving question: it echoes that question's submitted answer
   * ("" when none) and correct answer, and for a multiple-choice question it
   * is marked correct exactly when the two strings are equal.
   */
  lemma EvaluateFeedbackAligned(quiz: Quiz, answers: Answers, grader: Grader)
    requires forall i :: 0 <= i < |quiz.questions| ==> !StepAt(quiz.questions, answers, grader, i).Missing?
    ensures var qs := quiz.questions;
            var r := Evaluate(quiz, answers, grader);
            var idx := GradedIndices(qs, |qs|);
            |r.feedback| == |idx| &&
            forall j :: 0 <= j < |idx| ==>
              r.feedback[j].Feedback? &&
              r.feedback[j].userAnswer == AnswerFor(answers, idx[j]) &&
              Some(r.feedback[j].correctAnswer) == qs[idx[j]].correctAnswer &&
              r.feedback[j] == StepAt(qs, answers, grader, idx[j]).entry &&
              (qs[idx[j]].kind == Some(MultipleChoice) ==>
                 r.feedback[j].correct == (AnswerFor(answers, idx[j]) == r.feedback[j].correctAnswer))
  {
    var qs := quiz.questions;
    RunAbortsAtFirstMissing(qs, answers, grader, |qs|);
    RunFeedbackFollowsQuestions(qs, answers, grader, |qs|);
  }

  // ---------------------------------------------------------------------
  // Worked scenarios
  // ---------------------------------------------------------------------

  /**
   * One multiple-choice question answered "B) 4" correctly and one
   * problem-solving question the evaluator marks correct with full credit:
   * score 2, total 2, two feedback entries both marked correct.
   */
  lemma TwoQuestionScenario(grader: Grader)
    requires forall q, a, c :: grader(q, a, c) == Parsed(Evaluation(Some(true), Some(1.0), Some("Correct method")))
    ensures var mc := Question(Some(MultipleChoice), Some("What is 2 + 2?"),
                               Some(["A) 3", "B) 4", "C) 5", "D) 6"]), Some("B) 4"), Some("2 + 2 = 4"));
            var ps := Question(Some(ProblemSolving), Some("Solve 2x = 4"), None, Some("x = 2"), Some("Divide by 2"));
            var r := Evaluate(Quiz(Some("Quiz"), Some("General Math"), Some("Beginner"), [mc, ps]),
                              map[0 := "B) 4", 1 := "x=2"], grader);
            r.score == 2.0 && r.total == 2 && |r.feedback| == 2 &&
            r.feedback[0].Feedback? && r.feedback[0].correct &&
            r.feedback[1].Feedback? && r.feedback[1].correct
  {
    var mc := Question(Some(MultipleChoice), Some("What is 2 + 2?"),
                       Some(["A) 3", "B) 4", "C) 5", "D) 6"]), Some("B) 4"), Some("2 + 2 = 4"));
    var ps := Question(Some(ProblemSolving), Some("Solve 2x = 4"), None, Some("x = 2"), Some("Divide by 2"));
    var qs := [mc, ps];
    var answers: Answers := map[0 := "B) 4", 1 := "x=2"];
    assert AnswerFor(answers, 0) == "B) 4" && AnswerFor(answers, 1) == "x=2";
    assert StepAt(qs, answers, grader, 0) == Graded(1.0, Feedback(true, "B) 4", "B) 4", "2 + 2 = 4"));
    assert StepAt(qs, answers, grader, 1) == Graded(1.0, Feedback(true, "x=2", "x = 2", "Correct method"));
    assert Run(qs, answers, grader, 0) == Success(Tally(0.0, []));
    assert [] + [Feedback(true, "B) 4", "B) 4", "2 + 2 = 4")] == [Feedback(true, "B) 4", "B) 4", "2 + 2 = 4")];
    assert Run(qs, answers, grader, 1) == Success(Tally(1.0, [Feedback(true, "B) 4", "B) 4", "2 + 2 = 4")]));
  }

  /**
   * Partial credit and the correct flag are independent: an evaluator answer
   * of 0.6 credit, not correct, scores 0.6 and is reported as incorrect.
   */
  lemma PartialCreditWithoutCorrectness(grader: Grader)
    requires forall q, a, c :: grader(q, a, c) == Parsed(Evaluation(Some(false), Some(0.6), Some("Right method, wrong sign")))
    ensures var ps := Question(Some(ProblemSolving), Some("Solve 2x = 4"), None, Some("x = 2"), Some("Divide by 2"));
            var r := Evaluate(Quiz(None, None, None, [ps]), map[0 := "x = -2"], grader);
            r.score == 0.6 && r.total == 1 && |r.feedback| == 1 &&
            r.feedback[0].Feedback? && !r.feedback[0].correct
  {
    var ps := Question(Some(ProblemSolving), Some("Solve 2x = 4"), None, Some("x = 2"), Some("Divide by 2"));
    var answers: Answers := map[0 := "x = -2"];
    assert AnswerFor(answers, 0) == "x = -2";
    var e := Feedback(false, "x = -2", "x = 2", "Right method, wrong sign");
    assert StepAt([ps], answers, grader, 0) == Graded(0.6, e);
    assert Run([ps], answers, grader, 0) == Success(Tally(0.0, []));
    assert [] + [e] == [e];
    assert Run([ps], answers, grader, 1) == Success(Tally(0.6, [e]));
  }

  // ---------------------------------------------------------------------
  // Quiz generation fallback
  // ---------------------------------------------------------------------

  const QuizErrorPrefix: string := "Error generating quiz: "

  /**
   * A generated quiz: the parsed object as it is (nothing checks its
   * question count or schema), or, when the call or the parse raised, a quiz
   * with no questions whose title embeds the error.
   */
  function GenerateQuiz(subject: string, difficulty: string, reply: Reply<Quiz>): (quiz: Quiz)
    ensures reply.Parsed? ==> quiz == reply.value
    ensures reply.Raised? ==>
              quiz.questions == [] && quiz.subject == Some(subject) && quiz.difficulty == Some(difficulty) &&
              quiz.title.Some? && QuizErrorPrefix <= quiz.title.value &&
              quiz.title.value[|QuizErrorPrefix|..] == reply.message
  {
    match reply
    case Parsed(parsed) => parsed
    case Raised(message) =>
      Quiz(Some(QuizErrorPrefix + message), Some(subject), Some(difficulty), [])
  }

  /** Evaluating the fallback quiz gives score 0 out of 0 with no feedback. */
  lemma FailedQuizEvaluatesEmpty(subject: string, difficulty: string, message: string, answers: Answers, grader: Grader)
    ensures Evaluate(GenerateQuiz(subject, difficulty, Raised(message)), answers, grader) == QuizResult(0.0, 0, [])
  {
  }

  /**
   * A failed evaluator call never stops the quiz: a problem-solving question
   * with its text and correct answer then earns 0 credit and is marked
   * incorrect.
   */
  lemma EvaluatorFailureScoresZero(q: Question, answer: string, grader: Grader)
    requires q.kind == Some(ProblemSolving) && q.text.Some? && q.correctAnswer.Some?
    requires grader(q.text.value, answer, q.correctAnswer.value).Raised?
    ensures GradeQuestion(q, answer, grader).Graded?
    ensures GradeQuestion(q, answer, grader).credit == 0.0
    ensures !GradeQuestion(q, answer, grader).entry.correct
  {
  }

  // ---------------------------------------------------------------------
  // Adaptive questions
  // ---------------------------------------------------------------------

  /**
   * The difficulty for the next adaptive question: unchanged for an empty
   * history; otherwise Advanced when the whole-history mean exceeds 0.8,
   * Beginner when it is below 0.6, and unchanged in between.
   */
  function AdjustDifficulty(current: string, history: seq<real>): (adjusted: string)
    ensures history == [] ==> adjusted == current
    ensures history != [] && Mean(history) > 0.8 ==> adjusted == Advanced.Name()
    ensures history != [] && Mean(history) < 0.6 ==> adjusted == Beginner.Name()
    ensures history != [] && 0.6 <= Mean(history) <= 0.8 ==> adjusted == current
  {
    if history == [] then current
    else
      var n := |history| as real;
      MeanVersusThreshold(history, 0.8);
      MeanVersusThreshold(history, 0.6);
      if Sum(history) > 0.8 * n then Advanced.Name()
      else if Sum(history) < 0.6 * n then Beginner.Name()
      else current
  }

  /** Adjusting an already adjusted difficulty against the same history changes nothing. */
  lemma AdjustDifficultyIdempotent(current: string, history: seq<real>)
    ensures AdjustDifficulty(AdjustDifficulty(current, history), history) == AdjustDifficulty(current, history)
  {
  }

  const AdaptiveErrorPrefix: string := "Error generating adaptive question: "

  /** The placeholder question returned when generating an adaptive question raised `message`. */
  function AdaptiveQuestionFallback(message: string): (q: Question)
    ensures q.kind == Some(MultipleChoice)
    ensures q.options.Some? && |q.options.value| == 4
    ensures q.correctAnswer.Some? && q.correctAnswer.value in q.options.value
    ensures q.explanation.Some?
    ensures q.text.Some? && AdaptiveErrorPrefix <= q.text.value && q.text.value[|AdaptiveErrorPrefix|..] == message
  {
    Question(
      Some(MultipleChoice),
      Some(AdaptiveErrorPrefix + message),
      Some(["A) Error", "B) Error", "C) Error", "D) Error"]),
      Some("A) Error"),
      Some("An error occurred while generating this question."))
  }

  /** The language-model call behind adaptive questions: (subject, adjusted difficulty). */
  type QuestionGateway = (string, string) -> Reply<Question>

  /**
   * An adaptive question: the model is asked for a question at the adjusted
   * difficulty, and its parsed object is returned as it is; when the call or
   * the parse raised, the placeholder question is returned.
   */
  function GenerateAdaptiveQuestion(subject: string, current: string, history: seq<real>, gateway: QuestionGateway): (q: Question)
    ensures gateway(subject, AdjustDifficulty(current, history)).Parsed? ==>
              q == gateway(subject, AdjustDifficulty(current, history)).value
    ensures gateway(subject, AdjustDifficulty(current, history)).Raised? ==>
              q == AdaptiveQuestionFallback(gateway(subject, AdjustDifficulty(current, history)).message)
  {
    match gateway(subject, AdjustDifficulty(current, history))
    case Parsed(question) => question
    case Raised(message) => AdaptiveQuestionFallback(message)
  }

  /** The placeholder question can be scored: it earns 1 exactly for the answer "A) Error", and never raises. */
  lemma AdaptiveFallbackIsScorable(message: string, answer: string, grader: Grader)
    ensures GradeQuestion(AdaptiveQuestionFallback(message), answer, grader).Graded?
    ensures GradeQuestion(AdaptiveQuestionFallback(message), answer, grader).credit == 1.0 <==> answer == "A) Error"
  {
  }
}
