# StemGenius quiz and session core, modelled in Dafny

StemGenius is a tutoring application. A web page collects questions and quiz
answers and passes them to a language model. This project models the
deterministic logic around those calls:

- **Quiz engine** (`quiz_generator.dfy`, module `QuizGenerator`):
  - scoring a submitted quiz (`evaluate_quiz`), including the error result that replaces everything once a required key is missing;
  - the difficulty adjustment that precedes an adaptive question;
  - the fallback objects returned when a language-model call fails, for quiz generation, answer evaluation and adaptive questions.
- **Session and adaptive helpers** (`utils.dfy`, module `Utils`):
  - the "set only if missing" session initialiser over a key/value store;
  - the recommendation over the last five scores;
  - the difficulty-assessment message;
  - the fixed topic and learning-tip tables.
- **Shared definitions**:
  - `performance.dfy` (module `Performance`): the three difficulty levels, and the sum and mean of a score sequence with the lemma that restates "mean ≥ t" as "sum ≥ t·n";
  - `wrappers.dfy` (module `Wrappers`): `Option` and `Result`.

Each language-model call becomes a function-valued parameter (`Grader`, `QuestionGateway`) or a `Reply` value. A reply is either the JSON object the call parsed (`Parsed`) or the message of the exception it raised (`Raised`). A parsed object's keys may be missing: each key of a question or an evaluation is an `Option`. Its field types are fixed by the datatypes.

How the scoring loop is modelled:

- `QuizGenerator.EvaluateQuiz` is the loop itself, written imperatively. Its score and feedback are accumulated in place, and the lookups happen in the same order as in the source.
- It is proved equal to the fold `Run` and its wrapper `Evaluate`.
- Lemmas about `Run` state what the result means:
  - the score is the in-order sum of the per-question credits;
  - there is one feedback entry per graded question;
  - the error result names the first key that was missing;
  - the score is bounded.

The session store is a class with a `map` field. `Initialize` makes the eight conditional writes one by one and is proved equal to the function `Initialized`, whose properties are lemmas.

Two promises rest only on what the language model is asked for; the code never checks them:

- **Score bounds.** The evaluator's prompt asks for a `partial_credit` between 0.0 and 1.0 (quiz_generator.py:147), but `evaluate_quiz` adds whatever value comes back (quiz_generator.py:112). `QuizGenerator.ScoreWithinTotal` therefore proves `0 ≤ score ≤ total` only under the hypothesis that every partial credit lies in [0, 1].
- **Question count.** The generation prompt asks for `num_questions` questions (quiz_generator.py:19, 25), but `generate_quiz` returns the parsed object as it is (quiz_generator.py:64-65). `QuizGenerator.GenerateQuiz` passes it through unchanged, and nothing relates its question count to the request.

## Model

| member | source | states |
|---|---|---|
| QuizGenerator.EvaluateQuiz | quiz_generator.py:76-128 | The scoring loop returns exactly `Evaluate(quiz, answers, grader)`: the accumulated score and feedback when every lookup succeeds, otherwise the error result. Its `total` is the question count on both paths. |
| QuizGenerator.Evaluate | quiz_generator.py:80-128 | The result's `total` equals the number of questions, on the success path and on the error path alike. |
| QuizGenerator.Run | quiz_generator.py:87-119 | After `n` questions the loop has produced at most `n` feedback entries. |
| QuizGenerator.ErrorResult | quiz_generator.py:123-128 | The error result has score 0, the given total and exactly one entry. That entry is an error entry reading "Error evaluating quiz: " followed by the key in single quotes, as `str(KeyError(key))` prints it. |
| QuizGenerator.AnswerFor | quiz_generator.py:88 | The submitted answer for index `i` when there is one, and "" otherwise. |
| QuizGenerator.GradeQuestion | quiz_generator.py:88-119 | One pass of the loop body, with the lookups in the source's order. It has no contract of its own; `QuizGenerator.GradeQuestionMeaning` (next row) states what it does. |
| QuizGenerator.GradeQuestionMeaning | quiz_generator.py:88-119 | One pass of the loop, with the key each abort reports. A missing `correct_answer` or `type` aborts with that key. A question of any other type is skipped. Multiple choice: it aborts exactly when `explanation` is missing, with "explanation"; otherwise it earns 1 exactly when the answer equals `correct_answer`, and 0 otherwise. Problem solving: a missing `question` aborts with "question". With the text present, it aborts exactly when the evaluation lacks `correct`, `partial_credit` or `explanation`, naming the first missing key in that order; otherwise its credit, correct flag and explanation come separately from the evaluator. Every entry echoes the submitted and the expected answer. |
| QuizGenerator.EvaluateProblemSolving | quiz_generator.py:130-170 | A parsed evaluation is returned unchanged. A failed call yields exactly `EvaluationFallback` of the exception message: `correct = false`, `partial_credit = 0.0`, and an explanation that shows the message. |
| QuizGenerator.EvaluationFallback | quiz_generator.py:165-170 | The fallback evaluation is incorrect and worth 0.0. Its explanation is "Error evaluating answer: " followed by the exception message. |
| QuizGenerator.RunFailurePersists | quiz_generator.py:87-128 | Once a lookup has raised, later questions cannot change the outcome: the exception leaves the loop. |
| QuizGenerator.EvaluateStopsAt | quiz_generator.py:89-128 | When the loop reaches a question whose lookup raises `key`, evaluating the quiz gives the error result for `key`. |
| QuizGenerator.RunAbortsAtFirstMissing | quiz_generator.py:87-128 | The loop fails exactly when some question has a missing key, and the key it reports belongs to the first such question. |
| QuizGenerator.Credits | quiz_generator.py:87-119 | The credit list has one entry per question, and entry `i` is the credit question `i` earns under an independent per-type definition (`CreditOf`). |
| QuizGenerator.StepCreditIsCreditOf | quiz_generator.py:92-112 | The credit a graded question adds equals `CreditOf`. A skipped question would earn 0 under `CreditOf`. |
| QuizGenerator.RunScoreIsSumOfCredits | quiz_generator.py:87-119 | On success the score is the in-order sum of the per-question credits. |
| QuizGenerator.ScoreWithinTotal | quiz_generator.py:80-128 | If every partial credit the evaluator returns lies in [0, 1], then `0 ≤ score ≤ total` on both paths. |
| QuizGenerator.GradedIndices | quiz_generator.py:87-104 | The indices of the multiple-choice and problem-solving questions: all in range, all graded kinds, strictly increasing, and no graded index is missing. |
| QuizGenerator.RunFeedbackFollowsQuestions | quiz_generator.py:87-119 | On success there is exactly one feedback entry per multiple-choice or problem-solving question, in question order. Each entry is that question's entry, and other types add nothing. |
| QuizGenerator.EvaluateErrorPath | quiz_generator.py:123-128 | If any question has a missing key, the result is score 0, the full question count and a single error entry. The entry names the key of the first question with a missing key. |
| QuizGenerator.EvaluateFeedbackAligned | quiz_generator.py:87-121 | With no missing key, feedback entry `j` belongs to the `j`-th graded question. It carries that question's submitted answer (`""` when absent) and its correct answer. A multiple-choice entry is marked correct exactly when the two strings are equal. |
| QuizGenerator.TwoQuestionScenario | quiz_generator.py:76-121 | A correct multiple-choice answer, plus a problem-solving answer that the evaluator marks correct with credit 1.0, give score 2.0, total 2 and two correct entries. |
| QuizGenerator.PartialCreditWithoutCorrectness | quiz_generator.py:111-118 | An evaluation with `partial_credit` 0.6 and `correct = false` adds 0.6 to the score and still yields an entry marked incorrect. |
| QuizGenerator.GenerateQuiz | quiz_generator.py:13-74 | A parsed quiz is returned as it is. On failure the quiz has no questions, copies subject and difficulty, and its title is "Error generating quiz: " followed by the message. |
| QuizGenerator.FailedQuizEvaluatesEmpty | quiz_generator.py:67-74 | Evaluating the fallback quiz gives score 0, total 0 and no feedback. |
| QuizGenerator.EvaluatorFailureScoresZero | quiz_generator.py:165-170 | A failed evaluator call does not abort the quiz: that problem-solving question is graded, earns 0 and is marked incorrect. |
| QuizGenerator.AdjustDifficulty | quiz_generator.py:178-187 | The current difficulty is kept for an empty history. Otherwise a whole-history mean above 0.8 gives "Advanced", below 0.6 gives "Beginner", and a mean in [0.6, 0.8] keeps the current difficulty. |
| QuizGenerator.AdjustDifficultyIdempotent | quiz_generator.py:178-187 | Adjusting an already adjusted difficulty against the same history changes nothing. |
| QuizGenerator.AdaptiveQuestionFallback | quiz_generator.py:219-226 | The fallback question is multiple choice and has four options. Its correct answer is one of those options, and it has an explanation. Its text is "Error generating adaptive question: " followed by the exception message. |
| QuizGenerator.GenerateAdaptiveQuestion | quiz_generator.py:172-226 | The model is asked at the adjusted difficulty. Its parsed question is returned unchanged, and a failure returns the fallback question. |
| QuizGenerator.AdaptiveFallbackIsScorable | quiz_generator.py:219-226 | The fallback question never makes scoring raise. It earns 1 exactly for the answer "A) Error". |
| Performance.MeanVersusThreshold | utils.py:62-69 | For a non-empty window, `mean ≥ t` holds exactly when `sum ≥ t·n`, and `mean > t` exactly when `sum > t·n`. |
| Performance.Sum | utils.py:62 | The left-to-right sum of the scores. It has no contract of its own; `Performance.SumAppend` and `Performance.SumBounds` (next rows) state its properties. |
| Performance.SumAppend | utils.py:62 | Appending a score adds it to the sum. |
| Performance.SumBounds | quiz_generator.py:112 | If every entry lies in [0, 1], the sum lies between 0 and the number of entries. |
| Performance.Mean | utils.py:62 | The mean: the sum divided by the length, for a non-empty sequence. `Performance.MeanVersusThreshold` states it against a threshold without division. |
| Utils.Initialized | utils.py:4-30 | After initialisation the keys are the old keys plus the eight session keys, and no other key is added. |
| Utils.SetDefault | utils.py:8-9 | One "set only if missing" write. It has no contract of its own; `Utils.SetDefaultMeaning` (next row) states it. |
| Utils.SetDefaultMeaning | utils.py:8-9 | The write adds the key and no other. A missing key gets the given value, and a store that already has the key is unchanged. |
| Utils.SetDefaultKeeps | utils.py:8-9 | A single "set only if missing" write leaves every present key and its value in place. |
| Utils.InitializedKeepsExisting | utils.py:8-30 | A key that was already present keeps its value. |
| Utils.InitializedKeepsComplete | utils.py:8-30 | A store that already holds all eight keys is left exactly as it is. |
| Utils.InitializedIdempotent | utils.py:4-30 | Initialising twice equals initialising once. |
| Utils.InitializedCounters | utils.py:8-15 | Missing `questions_asked`, `problems_solved` and `quizzes_completed` start at 0. |
| Utils.InitializedQuizState | utils.py:17-24 | Missing `current_quiz`, `quiz_answers` and `quiz_submitted` start as None, {} and False. |
| Utils.InitializedHistories | utils.py:26-30 | Missing `performance_history` and `messages` start as empty lists. |
| Utils.SessionState.SetIfMissing | utils.py:8-9 | Writes the value under the key only when the key is absent. |
| Utils.SessionState.Initialize | utils.py:4-30 | The eight in-place conditional writes leave the store equal to `Initialized` of the old store. |
| Utils.InitializeTwice | utils.py:4-30 | Running the initialiser again, as every page run does, leaves the store as the first run left it. |
| Utils.FormatDifficultyFeedback | utils.py:43-52 | "too_easy" gives the higher-difficulty message and "too_hard" the easier-level message. Any other value gives the "perfect" message. A record without "assessment" gives `None`, standing for the raised KeyError. Every case holds in both directions. |
| Utils.RecentWindow | utils.py:61 | The window holds min(5, n) scores. |
| Utils.RecentWindowIsSuffix | utils.py:61 | The window is the tail of the history: the older part followed by the window is the history. |
| Utils.CalculateAdaptiveDifficulty | utils.py:54-69 | An empty history recommends Intermediate. |
| Utils.RecommendationByMean | utils.py:61-69 | The thresholds are inclusive, each in both directions: a window mean ≥ 0.85 gives Advanced; a mean in [0.65, 0.85) gives Intermediate; a mean < 0.65 gives Beginner. |
| Utils.OlderScoresIgnored | utils.py:61-62 | Scores before the last five do not affect the recommendation. |
| Utils.SameTrailingWindow | utils.py:61-62 | Two histories with the same trailing five scores get the same recommendation. |
| Utils.RecommendationMonotone | utils.py:64-69 | A higher window mean never gives a lower level (Beginner < Intermediate < Advanced). |
| Utils.RecommendationUsesLastFive | utils.py:58-69 | For [0.9, 0.9, 0.9, 0.9, 0.9, 0.1] only the last five scores count, and the result is Intermediate. |
| Utils.RecommendationShortStrongHistory | utils.py:58-69 | The history [0.95, 0.9, 0.88] gives Advanced. |
| Utils.GetSubjectTopics | utils.py:82-120 | Each of the four known subjects has six distinct topics. Any other subject gives []. |
| Utils.LevelNamed | utils.py:143-197 | A difficulty name denotes a level exactly when it is one of the three level names. That level's name is the given name. |
| Utils.CalculusTips | utils.py:144-160 | Each Calculus level has three tips. |
| Utils.LinearAlgebraTips | utils.py:161-177 | Each Linear Algebra level has three tips. |
| Utils.DataScienceTips | utils.py:178-194 | Each Data Science level has three tips. |
| Utils.GetLearningTips | utils.py:139-197 | Three tips for every Calculus, Linear Algebra or Data Science pair with a known level. Every other pair, including all of "General Math", gives ["Keep practicing and asking questions!"]. |

## Left out

- `app.py` (the page script) is not part of this model. It consists of widgets, layout and reruns, and its session updates are interleaved with UI events.
- `stem_tutor.py` is not part of this model. Each of its methods is one language-model call inside an exception handler. Three of them fall back to an apology string that embeds the exception message (stem_tutor.py:46, 83, 151). `assess_difficulty` falls back to the record `{"assessment": "appropriate", "confidence": 0.5, "reasoning": ...}` (stem_tutor.py:113-118).
- Prompt construction and the client setup in `quiz_generator.py` are not modelled. The model call and `json.loads` of its answer are abstracted as a `Reply` parameter, and what the model answers is not constrained.
- `render_math_expression` is left out because both of its branches only call `st.markdown`.
- `validate_openai_key` is left out because it only reads the environment and shows a UI error.
- `format_quiz_score` is not modelled. It computes `score / total * 100`, picks one of five messages by percentage band (90, 80, 70 and 60) and formats the numbers for display. It raises ZeroDivisionError when `total` is 0, which the fallback quiz produces (see `QuizGenerator.FailedQuizEvaluatesEmpty`).
- A quiz whose "questions" key is missing is not modelled. `evaluate_quiz`'s own exception handler looks the key up again and raises out of the function.
- Exceptions other than KeyError in `evaluate_quiz` are not modelled. Examples are a non-numeric `partial_credit`, a question that is not a dictionary, or a parsed reply of the wrong JSON type. Field types are fixed by the datatypes.
- Floating point is not modelled: scores and means are exact `real`s, without IEEE rounding.
- Utils.FormatDifficultyFeedback: the KeyError raised for a record without "assessment" becomes `None`. Assessment values are strings only.
- Utils.CalculateAdaptiveDifficulty: levels are a datatype, and their names are given by `Level.Name`.
- Utils.RecentWindow: its contract states only the window length. The suffix property is the separate lemma `Utils.RecentWindowIsSuffix`.
- QuizGenerator.AdjustDifficulty: the current difficulty is an arbitrary string, as in the source. It is not restricted to the three level names.
- Utils.SessionState: the session store is a plain map. Streamlit's attribute-style access and its persistence across reruns are not modelled.
- Each language-model call (`Grader`, `QuestionGateway`) is modelled as a fixed function of its prompt arguments. Two identical calls therefore get the same reply, although the real calls sample at a nonzero temperature (quiz_generator.py:159) and promise no such thing. No lemma relies on two identical calls.
