/** The records of the isotope quiz: an isotope card, a question and the
    state of one quiz run. The string unions of the record types become
    enumerations, each with its spelling and a parser back from it. */
module QuizTypes {
  import opened Common

  datatype Category = Actinide | TransitionMetal | Nonmetal | Metalloid

  datatype QuestionKind = MultipleChoice | Identification | Properties

  datatype Difficulty = Easy | Medium | Hard

  function CategoryName(c: Category): string {
    match c
    case Actinide => "actinide"
    case TransitionMetal => "transition-metal"
    case Nonmetal => "nonmetal"
    case Metalloid => "metalloid"
  }

  /** The category a spelling stands for; `None` for any other string. */
  function ParseCategory(s: string): (r: Option<Category>)
    ensures r.Some? ==> CategoryName(r.value) == s
    ensures r.None? ==> forall c: Category :: CategoryName(c) != s
  {
    if s == "actinide" then Some(Actinide)
    else if s == "transition-metal" then Some(TransitionMetal)
    else if s == "nonmetal" then Some(Nonmetal)
    else if s == "metalloid" then Some(Metalloid)
    else None
  }

  lemma {:induction false} CategoryRoundTrip(c: Category)
    ensures ParseCategory(CategoryName(c)) == Some(c)
  {
  }

  function KindName(k: QuestionKind): string {
    match k
    case MultipleChoice => "multiple-choice"
    case Identification => "identification"
    case Properties => "properties"
  }

  function ParseKind(s: string): (r: Option<QuestionKind>)
    ensures r.Some? ==> KindName(r.value) == s
    ensures r.None? ==> forall k: QuestionKind :: KindName(k) != s
  {
    if s == "multiple-choice" then Some(MultipleChoice)
    else if s == "identification" then Some(Identification)
    else if s == "properties" then Some(Properties)
    else None
  }

  lemma {:induction false} KindRoundTrip(k: QuestionKind)
    ensures ParseKind(KindName(k)) == Some(k)
  {
  }

  function DifficultyName(d: Difficulty): string {
    match d
    case Easy => "easy"
    case Medium => "medium"
    case Hard => "hard"
  }

  function ParseDifficulty(s: string): (r: Option<Difficulty>)
    ensures r.Some? ==> DifficultyName(r.value) == s
    ensures r.None? ==> forall d: Difficulty :: DifficultyName(d) != s
  {
    if s == "easy" then Some(Easy)
    else if s == "medium" then Some(Medium)
    else if s == "hard" then Some(Hard)
    else None
  }

  lemma {:induction false} DifficultyRoundTrip(d: Difficulty)
    ensures ParseDifficulty(DifficultyName(d)) == Some(d)
  {
  }

  /** An isotope card. The optional fields of the record are `Option`s. */
  datatype Isotope = Isotope(
    symbol: string,
    name: string,
    elementSymbol: string,
    atomicNumber: int,
    massNumber: int,
    neutrons: int,
    protons: int,
    electrons: int,
    halfLife: Option<string>,
    decayType: Option<string>,
    applications: Option<seq<string>>,
    category: Category,
    color: string)

  /** A quiz question; `kind` is the record's `type` field. */
  datatype Question = Question(
    id: int,
    kind: QuestionKind,
    question: string,
    options: seq<string>,
    correctAnswer: int,
    explanation: string,
    isotope: Isotope,
    difficulty: Difficulty)

  /** One quiz run: position, score, one optional chosen option per question. */
  datatype QuizState = QuizState(
    currentQuestion: int,
    score: int,
    answers: seq<Option<int>>,
    timeRemaining: int,
    isComplete: bool,
    showExplanation: bool)
}
