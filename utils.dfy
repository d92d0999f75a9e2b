/**
 * The session and adaptive helpers of the tutoring application: the
 * session-state initialiser, the difficulty recommendation over a trailing
 * window of scores, the difficulty-assessment message and the fixed topic and
 * tip tables.
 */
module Utils {
  import opened Wrappers
  import opened Performance

  // ---------------------------------------------------------------------
  // Session state
  // ---------------------------------------------------------------------

  /** A value held in the session store (a Python object of the kinds the application keeps there). */
  datatype Value =
    | IntV(i: int)
    | NoneV
    | BoolV(b: bool)
    | StrV(s: string)
    | RealV(x: real)
    | ListV(items: seq<Value>)
    | DictV(entries: seq<(Value, Value)>)

  /** The eight progress and quiz keys the initialiser guarantees. */
  const SessionKeys: set<string> := {
    "questions_asked", "problems_solved", "quizzes_completed", "current_quiz",
    "quiz_answers", "quiz_submitted", "performance_history", "messages"}

  /** One "set only if missing" write: an existing key keeps its value, a missing one gets `v`. */
  function SetDefault(store: map<string, Value>, key: string, v: Value): map<string, Value>
  {
    store[key := if key in store then store[key] else v]
  }

  /**
   * The store after the eight conditional writes of the initialiser, in the
   * source's order: the eight keys are present and no other key is added.
   */
  function Initialized(store: map<string, Value>): (r: map<string, Value>)
    ensures r.Keys == store.Keys + SessionKeys
  {
    var s1 := SetDefault(store, "questions_asked", IntV(0));
    var s2 := SetDefault(s1, "problems_solved", IntV(0));
    var s3 := SetDefault(s2, "quizzes_completed", IntV(0));
    var s4 := SetDefault(s3, "current_quiz", NoneV);
    var s5 := SetDefault(s4, "quiz_answers", DictV([]));
    var s6 := SetDefault(s5, "quiz_submitted", BoolV(false));
    var s7 := SetDefault(s6, "performance_history", ListV([]));
    SetDefault(s7, "messages", ListV([]))
  }

  /**
   * What one conditional write does: it adds `key` and nothing else, a
   * missing key gets `v`, and a store that already has `key` is unchanged.
   */
  lemma SetDefaultMeaning(store: map<string, Value>, key: string, v: Value)
    ensures SetDefault(store, key, v).Keys == store.Keys + {key}
    ensures key !in store ==> SetDefault(store, key, v)[key] == v
    ensures key in store ==> SetDefault(store, key, v) == store
  {
  }

  /** A conditional write leaves every present key, and its value, in place. */
  lemma SetDefaultKeeps(store: map<string, Value>, key: string, v: Value, k: string)
    requires k in store
    ensures k in SetDefault(store, key, v) && SetDefault(store, key, v)[k] == store[k]
  {
  }

  /** A key that was already in the store keeps its value. */
  lemma InitializedKeepsExisting(store: map<string, Value>, k: string)
    requires k in store
    ensures Initialized(store)[k] == store[k]
  {
    var s1 := SetDefault(store, "questions_asked", IntV(0));
    SetDefaultKeeps(store, "questions_asked", IntV(0), k);
    var s2 := SetDefault(s1, "problems_solved", IntV(0));
    SetDefaultKeeps(s1, "problems_solved", IntV(0), k);
    var s3 := SetDefault(s2, "quizzes_completed", IntV(0));
    SetDefaultKeeps(s2, "quizzes_completed", IntV(0), k);
    var s4 := SetDefault(s3, "current_quiz", NoneV);
    SetDefaultKeeps(s3, "current_quiz", NoneV, k);
    var s5 := SetDefault(s4, "quiz_answers", DictV([]));
    SetDefaultKeeps(s4, "quiz_answers", DictV([]), k);
    var s6 := SetDefault(s5, "quiz_submitted", BoolV(false));
    SetDefaultKeeps(s5, "quiz_submitted", BoolV(false), k);
    var s7 := SetDefault(s6, "performance_history", ListV([]));
    SetDefaultKeeps(s6, "performance_history", ListV([]), k);
    SetDefaultKeeps(s7, "messages", ListV([]), k);
  }

  /** A store that already holds the eight keys is left exactly as it is. */
  lemma InitializedKeepsComplete(store: map<string, Value>)
    requires SessionKeys <= store.Keys
    ensures Initialized(store) == store
  {
  }

  /** Initialising an initialised store changes nothing. */
  lemma InitializedIdempotent(store: map<string, Value>)
    ensures Initialized(Initialized(store)) == Initialized(store)
  {
    InitializedKeepsComplete(Initialized(store));
  }

  /** A missing progress counter starts at 0. */
  lemma InitializedCounters(store: map<string, Value>)
    ensures "questions_asked" !in store ==> Initialized(store)["questions_asked"] == IntV(0)
    ensures "problems_solved" !in store ==> Initialized(store)["problems_solved"] == IntV(0)
    ensures "quizzes_completed" !in store ==> Initialized(store)["quizzes_completed"] == IntV(0)
  {
  }

  /** Missing quiz entries start as None, {} and False. */
  lemma InitializedQuizState(store: map<string, Value>)
    ensures "current_quiz" !in store ==> Initialized(store)["current_quiz"] == NoneV
    ensures "quiz_answers" !in store ==> Initialized(store)["quiz_answers"] == DictV([])
    ensures "quiz_submitted" !in store ==> Initialized(store)["quiz_submitted"] == BoolV(false)
  {
  }

  /** A missing performance history or message list starts empty. */
  lemma InitializedHistories(store: map<string, Value>)
    ensures "performance_history" !in store ==> Initialized(store)["performance_history"] == ListV([])
    ensures "messages" !in store ==> Initialized(store)["messages"] == ListV([])
  {
  }

  /** The per-session key/value store that the application mutates in place. */
  class SessionState {
    var store: map<string, Value>

    constructor (initial: map<string, Value>)
      ensures store == initial
    {
      store := initial;
    }

    /** Writes `v` under `key` only when `key` is missing. */
    method SetIfMissing(key: string, v: Value)
      modifies this
      ensures store == SetDefault(old(store), key, v)
    {
      if key !in store {
        store := store[key := v];
      }
    }

    /** Sets each of the eight keys that is missing to its start value. */
    method Initialize()
      modifies this
      ensures store == Initialized(old(store))
    {
      SetIfMissing("questions_asked", IntV(0));
      SetIfMissing("problems_solved", IntV(0));
      SetIfMissing("quizzes_completed", IntV(0));
      SetIfMissing("current_quiz", NoneV);
      SetIfMissing("quiz_answers", DictV([]));
      SetIfMissing("quiz_submitted", BoolV(false));
      SetIfMissing("performance_history", ListV([]));
      SetIfMissing("messages", ListV([]));
    }
  }

  /** Running the initialiser on every page run: the second call leaves the store as the first left it. */
  method InitializeTwice(s: SessionState)
    modifies s
    ensures s.store == Initialized(old(s.store))
  {
    s.Initialize();
    ghost var once := s.store;
    s.Initialize();
    InitializedIdempotent(old(s.store));
    assert s.store == once;
  }

  // ---------------------------------------------------------------------
  // Difficulty assessment message
  // ---------------------------------------------------------------------

  const TooEasyMessage: string := "\U{1F3AF} Consider trying a higher difficulty level!"
  const TooHardMessage: string := "\U{1F4A1} You might want to try an easier difficulty level first."
  const PerfectMessage: string := "\U{2705} Great! This difficulty level seems perfect for you."

  /**
   * The message for an assessment record. `None` stands for the `KeyError`
   * raised when the record has no "assessment" key.
   */
  function FormatDifficultyFeedback(assessment: map<string, string>): (r: Option<string>)
    ensures r.None? <==> "assessment" !in assessment
    ensures r == Some(TooEasyMessage) <==> "assessment" in assessment && assessment["assessment"] == "too_easy"
    ensures r == Some(TooHardMessage) <==> "assessment" in assessment && assessment["assessment"] == "too_hard"
    ensures r == Some(PerfectMessage) <==>
              "assessment" in assessment && assessment["assessment"] != "too_easy" && assessment["assessment"] != "too_hard"
  {
    if "assessment" !in assessment then None
    else if assessment["assessment"] == "too_easy" then Some(TooEasyMessage)
    else if assessment["assessment"] == "too_hard" then Some(TooHardMessage)
    else Some(PerfectMessage)
  }

  // ---------------------------------------------------------------------
  // Adaptive difficulty recommendation
  // ---------------------------------------------------------------------

  /** The last five scores, or the whole history when it is shorter. */
  function RecentWindow(history: seq<real>): (w: seq<real>)
    ensures |w| == if |history| < 5 then |history| else 5
  {
    if |history| <= 5 then history else history[|history| - 5..]
  }

  /** The window is the tail of the history: the history is its older part followed by the window. */
  lemma RecentWindowIsSuffix(history: seq<real>)
    ensures history[..|history| - |RecentWindow(history)|] + RecentWindow(history) == history
  {
  }

  /**
   * The recommended level: Intermediate for an empty history, otherwise
   * decided by the mean of the recent window against the inclusive
   * thresholds 0.85 and 0.65.
   */
  function CalculateAdaptiveDifficulty(history: seq<real>): (r: Level)
    ensures history == [] ==> r == Intermediate
  {
    if history == [] then Intermediate
    else
      var w := RecentWindow(history);
      var n := |w| as real;
      if Sum(w) >= 0.85 * n then Advanced
      else if Sum(w) >= 0.65 * n then Intermediate
      else Beginner
  }

  /**
   * The thresholds are inclusive and apply to the mean of the window:
   * at least 0.85 is Advanced, from 0.65 up to but excluding 0.85 is
   * Intermediate, and below 0.65 is Beginner.
   */
  lemma RecommendationByMean(history: seq<real>)
    requires history != []
    ensures CalculateAdaptiveDifficulty(history) == Advanced <==> Mean(RecentWindow(history)) >= 0.85
    ensures CalculateAdaptiveDifficulty(history) == Intermediate <==> 0.65 <= Mean(RecentWindow(history)) < 0.85
    ensures CalculateAdaptiveDifficulty(history) == Beginner <==> Mean(RecentWindow(history)) < 0.65
  {
    MeanVersusThreshold(RecentWindow(history), 0.85);
    MeanVersusThreshold(RecentWindow(history), 0.65);
  }

  /** Scores older than the last five do not affect the recommendation. */
  lemma OlderScoresIgnored(older: seq<real>, recent: seq<real>)
    requires |recent| >= 5
    ensures CalculateAdaptiveDifficulty(older + recent) == CalculateAdaptiveDifficulty(recent)
  {
    var h := older + recent;
    assert h[|h| - 5..] == recent[|recent| - 5..];
  }

  /** Two histories that end in the same five scores get the same recommendation. */
  lemma SameTrailingWindow(h1: seq<real>, h2: seq<real>)
    requires |h1| >= 5 && |h2| >= 5
    requires h1[|h1| - 5..] == h2[|h2| - 5..]
    ensures CalculateAdaptiveDifficulty(h1) == CalculateAdaptiveDifficulty(h2)
  {
    OlderScoresIgnored(h1[..|h1| - 5], h1[|h1| - 5..]);
    assert h1 == h1[..|h1| - 5] + h1[|h1| - 5..];
    OlderScoresIgnored(h2[..|h2| - 5], h2[|h2| - 5..]);
    assert h2 == h2[..|h2| - 5] + h2[|h2| - 5..];
  }

  /** A higher window mean never gives a lower recommendation. */
  lemma RecommendationMonotone(h1: seq<real>, h2: seq<real>)
    requires h1 != [] && h2 != []
    requires Mean(RecentWindow(h1)) <= Mean(RecentWindow(h2))
    ensures CalculateAdaptiveDifficulty(h1).Rank() <= CalculateAdaptiveDifficulty(h2).Rank()
  {
    RecommendationByMean(h1);
    RecommendationByMean(h2);
  }

  /** Of six scores only the last five count: five at 0.9 and a final 0.1 average 0.74, which is Intermediate. */
  lemma RecommendationUsesLastFive()
    ensures CalculateAdaptiveDifficulty([0.9, 0.9, 0.9, 0.9, 0.9, 0.1]) == Intermediate
  {
    var h := [0.9, 0.9, 0.9, 0.9, 0.9, 0.1];
    var w := [0.9, 0.9, 0.9, 0.9, 0.1];
    assert RecentWindow(h) == w;
    assert Sum(w) == 3.7 by {
      SumAppend([], 0.9);
      assert [] + [0.9] == [0.9];
      SumAppend([0.9], 0.9);
      assert [0.9] + [0.9] == [0.9, 0.9];
      SumAppend([0.9, 0.9], 0.9);
      assert [0.9, 0.9] + [0.9] == [0.9, 0.9, 0.9];
      SumAppend([0.9, 0.9, 0.9], 0.9);
      assert [0.9, 0.9, 0.9] + [0.9] == [0.9, 0.9, 0.9, 0.9];
      SumAppend([0.9, 0.9, 0.9, 0.9], 0.1);
      assert [0.9, 0.9, 0.9, 0.9] + [0.1] == w;
    }
  }

  /** Three scores averaging about 0.91 recommend Advanced. */
  lemma RecommendationShortStrongHistory()
    ensures CalculateAdaptiveDifficulty([0.95, 0.9, 0.88]) == Advanced
  {
    var h := [0.95, 0.9, 0.88];
    assert RecentWindow(h) == h;
    assert Sum(h) == 2.73 by {
      SumAppend([], 0.95);
      assert [] + [0.95] == [0.95];
      SumAppend([0.95], 0.9);
      assert [0.95] + [0.9] == [0.95, 0.9];
      SumAppend([0.95, 0.9], 0.88);
      assert [0.95, 0.9] + [0.88] == h;
    }
  }

  // ---------------------------------------------------------------------
  // Fixed tables
  // ---------------------------------------------------------------------

  /** The four subjects the application offers. */
  const Subjects: set<string> := {"Calculus", "Linear Algebra", "Data Science", "General Math"}

  /** The subjects that have learning tips ("General Math" has none). */
  const TipSubjects: set<string> := {"Calculus", "Linear Algebra", "Data Science"}

  /** The level names a tip table is keyed by. */
  const LevelNames: set<string> := {"Beginner", "Intermediate", "Advanced"}

  const DefaultTip: string := "Keep practicing and asking questions!"

  /** The six topics of a known subject, or no topics for any other subject. */
  function GetSubjectTopics(subject: string): (r: seq<string>)
    ensures subject in Subjects ==> |r| == 6
    ensures subject !in Subjects ==> r == []
    ensures forall i, j :: 0 <= i < j < |r| ==> r[i] != r[j]
  {
    var topics := map[
      "Calculus" := [
        "Limits and Continuity",
        "Derivatives and Differentiation",
        "Integration and Antiderivatives",
        "Applications of Derivatives",
        "Applications of Integration",
        "Sequences and Series"],
      "Linear Algebra" := [
        "Vectors and Vector Spaces",
        "Matrices and Matrix Operations",
        "Linear Transformations",
        "Eigenvalues and Eigenvectors",
        "Determinants",
        "Systems of Linear Equations"],
      "Data Science" := [
        "Statistics and Probability",
        "Hypothesis Testing",
        "Regression Analysis",
        "Machine Learning Basics",
        "Data Visualization",
        "Statistical Inference"],
      "General Math" := [
        "Algebra",
        "Trigonometry",
        "Geometry",
        "Precalculus",
        "Number Theory",
        "Discrete Mathematics"]
    ];
    if subject in topics then topics[subject] else []
  }

  /** The level a difficulty name denotes, if it names one. */
  function LevelNamed(name: string): (r: Option<Level>)
    ensures r.Some? <==> name in LevelNames
    ensures r.Some? ==> r.value.Name() == name
  {
    if name == "Beginner" then Some(Beginner)
    else if name == "Intermediate" then Some(Intermediate)
    else if name == "Advanced" then Some(Advanced)
    else None
  }

  /** The Calculus tips for each level. */
  function CalculusTips(level: Level): (r: seq<string>)
    ensures |r| == 3
  {
    match level
    case Beginner => [
      "Start with understanding limits conceptually",
      "Practice basic derivative rules",
      "Use graphical representations to visualize concepts"]
    case Intermediate => [
      "Focus on application problems",
      "Master integration techniques",
      "Connect derivatives and integrals conceptually"]
    case Advanced => [
      "Work on multivariable calculus",
      "Study advanced integration methods",
      "Explore real-world applications"]
  }

  /** The Linear Algebra tips for each level. */
  function LinearAlgebraTips(level: Level): (r: seq<string>)
    ensures |r| == 3
  {
    match level
    case Beginner => [
      "Understand vector operations geometrically",
      "Practice matrix arithmetic",
      "Learn to solve basic systems of equations"]
    case Intermediate => [
      "Study linear transformations",
      "Understand eigenvalues and eigenvectors",
      "Work with different vector spaces"]
    case Advanced => [
      "Explore abstract vector spaces",
      "Study advanced matrix decompositions",
      "Apply linear algebra to machine learning"]
  }

  /** The Data Science tips for each level. */
  function DataScienceTips(level: Level): (r: seq<string>)
    ensures |r| == 3
  {
    match level
    case Beginner => [
      "Learn basic statistical concepts",
      "Practice with real datasets",
      "Understand data visualization principles"]
    case Intermediate => [
      "Study hypothesis testing",
      "Learn regression techniques",
      "Understand machine learning basics"]
    case Advanced => [
      "Explore advanced ML algorithms",
      "Study deep learning concepts",
      "Work on complex data projects"]
  }

  /**
   * Three tips for a subject/level pair of the table, or the single default
   * tip for any other pair (including every "General Math" pair).
   */
  function GetLearningTips(subject: string, difficulty: string): (r: seq<string>)
    ensures subject in TipSubjects && difficulty in LevelNames ==> |r| == 3
    ensures !(subject in TipSubjects && difficulty in LevelNames) ==> r == [DefaultTip]
  {
    match LevelNamed(difficulty)
    case None => [DefaultTip]
    case Some(level) =>
      if subject == "Calculus" then CalculusTips(level)
      else if subject == "Linear Algebra" then LinearAlgebraTips(level)
      else if subject == "Data Science" then DataScienceTips(level)
      else [DefaultTip]
  }
}
