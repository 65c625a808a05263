/** The per-option verdict shown by a question card, its click guard,
    the explanation gate and the difficulty badge. */
module QuestionCard {
  import opened Common
  import opened QuizTypes

  /** What one option button shows. */
  datatype OptionView = OptionView(isSelected: bool, isCorrect: bool, isWrong: bool, shouldHighlight: bool)

  /** Before the result nothing is marked; after it, the keyed option is
      highlighted and a selected other option is marked wrong, never both. */
  function ViewOption(q: Question, selected: Option<int>, showResult: bool, index: int): (v: OptionView)
    ensures !showResult ==> !v.isWrong && !v.shouldHighlight
    ensures showResult ==> (v.shouldHighlight <==> index == q.correctAnswer)
    ensures showResult ==> (v.isWrong <==> selected == Some(index) && index != q.correctAnswer)
    ensures !(v.isWrong && v.shouldHighlight)
  {
    var isSelected := selected == Some(index);
    var isCorrect := index == q.correctAnswer;
    OptionView(isSelected, isCorrect, showResult && isSelected && !isCorrect, showResult && isCorrect)
  }

  /** The buttons of all options, in option order. */
  function Views(q: Question, selected: Option<int>, showResult: bool): (vs: seq<OptionView>)
    ensures |vs| == |q.options|
  {
    seq(|q.options|, i => ViewOption(q, selected, showResult, i))
  }

  /** While the result is hidden no option is marked right or wrong. */
  lemma {:induction false} NothingMarkedBeforeResult(q: Question, selected: Option<int>)
    ensures forall i :: 0 <= i < |Views(q, selected, false)| ==>
      !Views(q, selected, false)[i].isWrong && !Views(q, selected, false)[i].shouldHighlight
  {
  }

  /** Once the result shows, the highlighted options are exactly the keyed one. */
  lemma {:induction false} ExactlyKeyHighlighted(q: Question, selected: Option<int>)
    requires 0 <= q.correctAnswer < |q.options|
    ensures var vs := Views(q, selected, true);
      vs[q.correctAnswer].shouldHighlight
      && forall i :: 0 <= i < |vs| && vs[i].shouldHighlight ==> i == q.correctAnswer
  {
  }

  /** A wrong mark is on the selected option, never on the highlighted one,
      and at most one option carries it. */
  lemma {:induction false} WrongIsSelectedAndUnique(q: Question, selected: Option<int>, showResult: bool)
    ensures var vs := Views(q, selected, showResult);
      (forall i :: 0 <= i < |vs| && vs[i].isWrong ==> vs[i].isSelected && !vs[i].shouldHighlight)
      && (forall i, j :: 0 <= i < |vs| && 0 <= j < |vs| && vs[i].isWrong && vs[j].isWrong ==> i == j)
  {
  }

  /** Clicking option `index` reports it to the quiz only while the result is hidden. */
  function OnClick(showResult: bool, index: int): (forwarded: Option<int>)
    ensures forwarded.Some? <==> !showResult
    ensures forwarded.Some? ==> forwarded.value == index
  {
    if showResult then None else Some(index)
  }

  /** The explanation panel renders exactly when it is requested and the
      result shows, which is when clicks on the options are no longer
      forwarded. */
  predicate ShowsExplanation(showExplanation: bool, showResult: bool): (shown: bool)
    ensures shown <==> showExplanation && showResult
    ensures shown <==> showExplanation && forall i :: OnClick(showResult, i).None?
  {
    assert OnClick(showResult, 0).None? ==> showResult;
    showExplanation && showResult
  }

  function DifficultyColor(difficulty: string): (c: string)
    ensures ParseDifficulty(difficulty).None? ==> c == "text-gray-600 bg-gray-100"
    ensures ParseDifficulty(difficulty).Some? ==> c != "text-gray-600 bg-gray-100"
  {
    if difficulty == "easy" then "text-green-600 bg-green-100"
    else if difficulty == "medium" then "text-yellow-600 bg-yellow-100"
    else if difficulty == "hard" then "text-red-600 bg-red-100"
    else "text-gray-600 bg-gray-100"
  }

  /** The three difficulties get three different badges, none of them the
      badge every other string gets. */
  lemma {:induction false} DifficultyColorsDistinct(other: string)
    requires ParseDifficulty(other).None?
    ensures DifficultyColor(other) == "text-gray-600 bg-gray-100"
    ensures forall d: Difficulty :: DifficultyColor(DifficultyName(d)) != DifficultyColor(other)
    ensures forall d, e: Difficulty :: DifficultyColor(DifficultyName(d)) == DifficultyColor(DifficultyName(e)) ==> d == e
  {
  }

  /** The badge label: the difficulty with its first letter upper-cased. */
  function DifficultyLabel(d: Difficulty): (r: string)
    ensures r == match d case Easy => "Easy" case Medium => "Medium" case Hard => "Hard"
  {
    Capitalize(DifficultyName(d))
  }
}
