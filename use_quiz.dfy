/** The single-run quiz engine: the hook's state and its four operations
    over the fixed question bank, with the score/answer bookkeeping. */
module UseQuiz {
  import opened Common
  import opened QuizTypes
  import IsotopeBank
  import QuestionCard

  /** The state a run starts from: first question, no score, every slot empty. */
  function FreshState(n: nat): QuizState {
    QuizState(0, 0, seq(n, _ => None), 0, false, false)
  }

  /** Number of slots holding the keyed option of their question. */
  function CorrectCount(qs: seq<Question>, answers: seq<Option<int>>): (c: nat)
    requires |answers| == |qs|
    ensures c <= |qs|
  {
    if qs == [] then 0
    else (if answers[0] == Some(qs[0].correctAnswer) then 1 else 0) + CorrectCount(qs[1..], answers[1..])
  }

  /** A run with nothing answered has counted nothing. */
  lemma {:induction false} CorrectCountEmpty(qs: seq<Question>, answers: seq<Option<int>>)
    requires |answers| == |qs|
    requires forall i :: 0 <= i < |answers| ==> answers[i] == None
    ensures CorrectCount(qs, answers) == 0
  {
    if qs != [] {
      CorrectCountEmpty(qs[1..], answers[1..]);
    }
  }

  /** Filling an empty slot with `a` adds one to the count exactly when `a`
      is that question's key. */
  lemma {:induction false} CorrectCountFill(qs: seq<Question>, answers: seq<Option<int>>, i: nat, a: int)
    requires |answers| == |qs| && i < |qs| && answers[i] == None
    ensures CorrectCount(qs, answers[i := Some(a)])
      == CorrectCount(qs, answers) + (if a == qs[i].correctAnswer then 1 else 0)
  {
    if i > 0 {
      assert answers[i := Some(a)][1..] == answers[1..][i - 1 := Some(a)];
      CorrectCountFill(qs[1..], answers[1..], i - 1, a);
    } else {
      assert answers[i := Some(a)][1..] == answers[1..];
    }
  }

  /** Running `selectAnswer` with the key twice on one question scores two
      points for one correct slot: the hook itself does not guard repeats. */
  method RepeatedCorrectAnswer() returns (score: int, correct: nat)
    ensures score == 2 && correct == 1
  {
    var hook := new QuizHook();
    hook.StartQuiz();
    IsotopeBank.QuestionsWellFormed();
    var key := hook.questions[0].correctAnswer;
    hook.SelectAnswer(key);
    hook.SelectAnswer(key);
    score := hook.quizState.score;
    var answers := hook.quizState.answers;
    assert answers == seq(|hook.questions|, _ => None)[0 := Some(key)];
    CorrectCountEmpty(hook.questions, seq(|hook.questions|, _ => None));
    CorrectCountFill(hook.questions, seq(|hook.questions|, _ => None), 0, key);
    correct := CorrectCount(hook.questions, answers);
  }

  /** The hook: `quizState`, `hasStarted` and `showResult`, each replaced by the operations. */
  class QuizHook {
    const questions: seq<Question>
    var quizState: QuizState
    var hasStarted: bool
    var showResult: bool

    /** Shape facts that hold in every state the operations reach. */
    ghost predicate Valid()
      reads this
    {
      |questions| > 0
      && |quizState.answers| == |questions|
      && quizState.timeRemaining == 0
      && 0 <= quizState.currentQuestion < |questions|
      && (quizState.isComplete ==> quizState.currentQuestion == |questions| - 1)
      && quizState.showExplanation == showResult
    }

    /** What the card's click guard maintains: the current slot is empty
        until an answer is shown, and no later slot is filled yet. */
    ghost predicate Guarded()
      reads this
      requires Valid()
    {
      (!showResult ==> quizState.answers[quizState.currentQuestion] == None)
      && forall j :: quizState.currentQuestion < j < |questions| ==> quizState.answers[j] == None
    }

    /** The score is the number of correctly answered slots. */
    ghost predicate ScoreCounts()
      reads this
      requires Valid()
    {
      quizState.score == CorrectCount(questions, quizState.answers)
    }

    constructor ()
      ensures questions == IsotopeBank.Questions
      ensures quizState == FreshState(|questions|)
      ensures !hasStarted && !showResult
      ensures Valid() && Guarded() && ScoreCounts()
    {
      IsotopeBank.QuestionsWellFormed();
      questions := IsotopeBank.Questions;
      quizState := FreshState(|IsotopeBank.Questions|);
      hasStarted := false;
      showResult := false;
      new;
      CorrectCountEmpty(questions, quizState.answers);
    }

    method StartQuiz()
      requires Valid()
      modifies this
      ensures quizState == FreshState(|questions|)
      ensures quizState.currentQuestion == 0 && quizState.score == 0 && !quizState.isComplete
      ensures forall i :: 0 <= i < |quizState.answers| ==> quizState.answers[i] == None
      ensures hasStarted && !showResult && !quizState.showExplanation
      ensures Valid() && Guarded() && ScoreCounts()
    {
      hasStarted := true;
      quizState := FreshState(|questions|);
      showResult := false;
      CorrectCountEmpty(questions, quizState.answers);
    }

    method SelectAnswer(answerIndex: int)
      requires Valid()
      modifies this
      ensures quizState.answers == old(quizState.answers)[old(quizState.currentQuestion) := Some(answerIndex)]
      ensures quizState.score == old(quizState.score)
        + (if answerIndex == questions[old(quizState.currentQuestion)].correctAnswer then 1 else 0)
      ensures quizState.currentQuestion == old(quizState.currentQuestion)
      ensures quizState.isComplete == old(quizState.isComplete)
      ensures quizState.timeRemaining == old(quizState.timeRemaining)
      ensures quizState.showExplanation && showResult
      ensures hasStarted == old(hasStarted)
      ensures Valid()
      ensures old(Guarded()) ==> Guarded()
      ensures old(ScoreCounts()) && old(quizState.answers[quizState.currentQuestion]) == None ==> ScoreCounts()
    {
      var cur := quizState.currentQuestion;
      var newAnswers := quizState.answers[cur := Some(answerIndex)];
      var isCorrect := answerIndex == questions[cur].correctAnswer;
      var newScore := if isCorrect then quizState.score + 1 else quizState.score;
      if quizState.answers[cur] == None {
        CorrectCountFill(questions, quizState.answers, cur, answerIndex);
      }
      quizState := quizState.(answers := newAnswers, score := newScore, showExplanation := true);
      showResult := true;
    }

    method NextQuestion()
      requires Valid()
      modifies this
      ensures old(quizState.currentQuestion) + 1 >= |questions| ==>
        quizState == old(quizState).(isComplete := true) && showResult == old(showResult)
      ensures old(quizState.currentQuestion) + 1 < |questions| ==>
        quizState == old(quizState).(currentQuestion := old(quizState.currentQuestion) + 1, showExplanation := false)
        && !showResult
      ensures old(quizState.isComplete) ==> quizState == old(quizState) && showResult == old(showResult)
      ensures hasStarted == old(hasStarted)
      ensures Valid()
      ensures old(Guarded()) ==> Guarded()
      ensures old(ScoreCounts()) ==> ScoreCounts()
    {
      var nextIndex := quizState.currentQuestion + 1;
      if nextIndex >= |questions| {
        quizState := quizState.(isComplete := true);
      } else {
        quizState := quizState.(currentQuestion := nextIndex, showExplanation := false);
        showResult := false;
      }
    }

    method RestartQuiz()
      requires Valid()
      modifies this
      ensures quizState == FreshState(|questions|)
      ensures !hasStarted && !showResult
      ensures Valid() && Guarded() && ScoreCounts()
    {
      quizState := FreshState(|questions|);
      hasStarted := false;
      showResult := false;
      CorrectCountEmpty(questions, quizState.answers);
    }

    /** A click on option `index` of the current question's card. Under the
        card's guard every operation keeps the score equal to the count. */
    method ClickOption(index: int)
      requires Valid() && Guarded() && ScoreCounts()
      modifies this
      ensures old(showResult) ==> quizState == old(quizState) && showResult
      ensures quizState.currentQuestion == old(quizState.currentQuestion)
      ensures !old(showResult) ==>
        quizState.answers == old(quizState.answers)[quizState.currentQuestion := Some(index)] && showResult
      ensures Valid() && Guarded() && ScoreCounts()
    {
      var forwarded := QuestionCard.OnClick(showResult, index);
      if forwarded.Some? {
        SelectAnswer(forwarded.value);
      }
    }
  }
}
