/** The multi-level quiz page: four levels of two questions, answers kept
    in a map keyed by question id, a 70% pass mark rounded up, and the
    player's progress (level, XP, completed levels). */
module LevelQuiz {
  import opened Common
  import QuizResults

  /** A level question; the explanation wording is not modelled. */
  datatype LevelQuestion = LevelQuestion(id: int, question: string, options: seq<string>, correct: int)

  datatype Reward = Reward(xp: int, badge: string, color: string)

  datatype Level = Level(name: string, questions: seq<LevelQuestion>, reward: Reward)

  datatype UserProgress = UserProgress(level: int, xp: int, completedLevels: seq<int>)

  const Levels: map<int, Level> := map[
    1 := Level("Nuclear Novice", [
      LevelQuestion(1, "Which isotope is most commonly used in medical imaging procedures?",
        ["Technetium-99m", "Cobalt-60", "Iodine-131", "Uranium-235"], 0),
      LevelQuestion(2, "What is the primary economic advantage of food irradiation?",
        ["Lower cost", "Faster processing", "No chemical residues and longer shelf life", "Better taste"], 2)],
      Reward(100, "First Steps", "bg-green-500")),
    2 := Level("Isotope Explorer", [
      LevelQuestion(3, "In industrial applications, what percentage of defects can radiographic testing detect?",
        ["85%", "92%", "99.5%", "100%"], 2),
      LevelQuestion(4, "Which space mission benefit demonstrates RTG systems' ROI?",
        ["Reduced weight", "30+ year operational life", "Faster travel", "Better communication"], 1)],
      Reward(200, "Knowledge Seeker", "bg-blue-500")),
    3 := Level("Nuclear Economist", [
      LevelQuestion(5, "What is the annual market value of the global nuclear medicine industry?",
        ["$2.4 billion", "$4.1 billion", "$8.2 billion", "$12.5 billion"], 2),
      LevelQuestion(6, "Which isotope production method is most cost-effective for medical applications?",
        ["Reactor production", "Cyclotron production", "Generator systems", "Accelerator production"], 2)],
      Reward(300, "Economic Expert", "bg-purple-500")),
    4 := Level("Nuclear Master", [
      LevelQuestion(7, "What percentage of global electricity could be powered by nuclear waste isotopes?",
        ["5%", "15%", "25%", "35%"], 1),
      LevelQuestion(8, "Which emerging isotope market shows 20%+ annual growth?",
        ["Medical imaging", "Food irradiation", "Targeted radiotherapy", "Industrial gauging"], 2)],
      Reward(500, "Nuclear Master", "bg-gold-500"))
  ]

  /** Number of levels, `Object.keys(levels).length`. */
  const LevelCount := 4

  /** The questions of a level, or none for a level the table lacks. */
  function Questions(level: int): seq<LevelQuestion> {
    if level in Levels then Levels[level].questions else []
  }

  /** Levels 1..4 exist, each with two questions whose ids are 2l-1 and 2l
      and whose answer key indexes an option. */
  lemma {:induction false} LevelsShape()
    ensures Levels.Keys == {1, 2, 3, 4} && |Levels.Keys| == LevelCount
    ensures forall l :: 1 <= l <= LevelCount ==>
      |Questions(l)| == 2 && Questions(l)[0].id == 2 * l - 1 && Questions(l)[1].id == 2 * l
      && 0 <= Questions(l)[0].correct < |Questions(l)[0].options|
      && 0 <= Questions(l)[1].correct < |Questions(l)[1].options|
  {
    LevelKeys();
    forall l | 1 <= l <= LevelCount
      ensures |Questions(l)| == 2 && Questions(l)[0].id == 2 * l - 1 && Questions(l)[1].id == 2 * l
      ensures 0 <= Questions(l)[0].correct < |Questions(l)[0].options|
      ensures 0 <= Questions(l)[1].correct < |Questions(l)[1].options|
    {
      LevelShape(l);
    }
  }

  lemma {:induction false} LevelKeys()
    ensures Levels.Keys == {1, 2, 3, 4}
  {
    assert Levels.Keys == {1, 2, 3, 4};
  }

  /** The shape of one level's questions. */
  lemma {:induction false} LevelShape(l: int)
    requires 1 <= l <= LevelCount
    ensures |Questions(l)| == 2 && Questions(l)[0].id == 2 * l - 1 && Questions(l)[1].id == 2 * l
    ensures 0 <= Questions(l)[0].correct < |Questions(l)[0].options|
    ensures 0 <= Questions(l)[1].correct < |Questions(l)[1].options|
  {
    var qs := Levels[l].questions;
    assert Questions(l) == qs;
    if l == 1 {
      assert qs[0].correct == 0 && qs[1].correct == 2;
    } else if l == 2 {
      assert qs[0].correct == 2 && qs[1].correct == 1;
    } else if l == 3 {
      assert qs[0].correct == 2 && qs[1].correct == 2;
    } else {
      assert qs[0].correct == 1 && qs[1].correct == 2;
    }
  }

  /** The recorded answer to `q` is its key; a missing answer never is. */
  predicate Hit(q: LevelQuestion, answers: map<int, int>) {
    q.id in answers && answers[q.id] == q.correct
  }

  /** Number of questions whose recorded answer is their key. */
  function CountCorrect(qs: seq<LevelQuestion>, answers: map<int, int>): (c: nat)
    ensures c <= |qs|
    ensures c == |qs| <==> forall i :: 0 <= i < |qs| ==> Hit(qs[i], answers)
  {
    if qs == [] then 0
    else
      var c := CountCorrect(qs[..|qs| - 1], answers) + (if Hit(qs[|qs| - 1], answers) then 1 else 0);
      assert forall i :: 0 <= i < |qs| - 1 ==> qs[..|qs| - 1][i] == qs[i];
      c
  }

  /** `Math.ceil(n * 0.7)`, in whole numbers: the least t with 10t >= 7n. */
  function PassThreshold(n: nat): (t: nat)
    ensures 10 * t >= 7 * n
    ensures t == 0 || 10 * (t - 1) < 7 * n
  {
    (7 * n + 9) / 10
  }

  /** With two questions per level the mark is two: both answers must be right. */
  lemma {:induction false} TwoQuestionLevelsNeedBoth(level: int, answers: map<int, int>)
    requires 1 <= level <= LevelCount
    ensures PassThreshold(|Questions(level)|) == 2
    ensures CountCorrect(Questions(level), answers) >= PassThreshold(|Questions(level)|)
      <==> Hit(Questions(level)[0], answers) && Hit(Questions(level)[1], answers)
  {
    LevelsShape();
  }

  datatype Badge = Badge(name: string, color: string, icon: string)

  /** The badge for a score, stated in whole numbers: 90% or more of the
      questions is a perfect score, under 70% is "Try Again"; with no
      questions the percentage is Infinity or NaN. */
  function GetBadge(score: nat, total: nat): (b: Badge)
    ensures total > 0 ==> (b.name == "Perfect Score" <==> 100 * score >= 90 * total)
    ensures total > 0 ==> (b.name == "Level Passed" <==> 70 * total <= 100 * score < 90 * total)
    ensures total > 0 ==> (b.name == "Try Again" <==> 100 * score < 70 * total)
    ensures total == 0 ==> b.name == if score > 0 then "Perfect Score" else "Try Again"
  {
    PercentageBands(score, total);
    var percentage := QuizResults.Percentage(score, total);
    if QuizResults.AtLeast(percentage, 90.0) then Badge("Perfect Score", "bg-gold-500", "ri-trophy-fill")
    else if QuizResults.AtLeast(percentage, 70.0) then Badge("Level Passed", "bg-green-500", "ri-medal-line")
    else Badge("Try Again", "bg-gray-500", "ri-refresh-line")
  }

  lemma {:induction false} PercentageBands(score: nat, total: nat)
    ensures total > 0 ==> (QuizResults.AtLeast(QuizResults.Percentage(score, total), 90.0) <==> 100 * score >= 90 * total)
    ensures total > 0 ==> (QuizResults.AtLeast(QuizResults.Percentage(score, total), 70.0) <==> 100 * score >= 70 * total)
  {
    if total > 0 {
      QuizResults.PercentageAtLeast(score, total, 90);
      QuizResults.PercentageAtLeast(score, total, 70);
    }
  }

  /** The badge says "Try Again" exactly when the score is under the pass mark. */
  lemma {:induction false} BadgeTryAgainIffFailed(score: nat, total: nat)
    requires total > 0
    ensures GetBadge(score, total).name == "Try Again" <==> score < PassThreshold(total)
  {
    QuizResults.PercentageAtLeast(score, total, 90);
    QuizResults.PercentageAtLeast(score, total, 70);
  }

  /** The page's state. */
  class QuizPage {
    var currentQuestion: int
    var selectedAnswers: map<int, int>
    var showResults: bool
    var score: int
    var currentLevel: int
    var userProgress: UserProgress
    /** The `userProgress` entry of the browser's local storage. Saving and
        reading back through JSON gives the same record, so it is held as
        the record itself. */
    var saved: Option<UserProgress>

    ghost predicate Valid()
      reads this
    {
      1 <= currentLevel <= LevelCount
      && 0 <= currentQuestion < |Questions(currentLevel)|
      && 0 <= score <= |Questions(currentLevel)|
    }

    constructor (stored: Option<UserProgress>)
      ensures currentQuestion == 0 && selectedAnswers == map[] && !showResults && score == 0
      ensures currentLevel == 1 && userProgress == UserProgress(1, 0, []) && saved == stored
      ensures Valid()
    {
      saved := stored;
      currentQuestion := 0;
      selectedAnswers := map[];
      showResults := false;
      score := 0;
      currentLevel := 1;
      userProgress := UserProgress(1, 0, []);
      LevelsShape();
    }

    /** The mount effect: progress saved by an earlier visit replaces the default. */
    method LoadProgress()
      modifies this`userProgress
      ensures userProgress == if saved.Some? then saved.value else old(userProgress)
    {
      if saved.Some? {
        userProgress := saved.value;
      }
    }

    method HandleAnswerSelect(questionId: int, answerIndex: int)
      modifies this`selectedAnswers
      ensures selectedAnswers == old(selectedAnswers)[questionId := answerIndex]
      ensures selectedAnswers[questionId] == answerIndex
      ensures forall k :: k != questionId ==>
        (k in selectedAnswers <==> k in old(selectedAnswers))
        && (k in selectedAnswers ==> selectedAnswers[k] == old(selectedAnswers)[k])
    {
      selectedAnswers := selectedAnswers[questionId := answerIndex];
    }

    method HandleSubmit()
      requires Valid()
      modifies this`score, this`userProgress, this`showResults, this`saved
      ensures score == CountCorrect(Questions(currentLevel), selectedAnswers)
      ensures score >= PassThreshold(|Questions(currentLevel)|) ==>
        userProgress == UserProgress(
          Max(currentLevel + 1, old(userProgress.level)),
          old(userProgress.xp) + Levels[currentLevel].reward.xp,
          old(userProgress.completedLevels) + [currentLevel])
        && saved == Some(userProgress)
      ensures score < PassThreshold(|Questions(currentLevel)|) ==> userProgress == old(userProgress) && saved == old(saved)
      ensures userProgress.level >= old(userProgress.level)
      ensures showResults
      ensures Valid()
    {
      LevelKeys();
      var questions := Questions(currentLevel);
      var correctCount := 0;
      var i := 0;
      while i < |questions|
        invariant 0 <= i <= |questions|
        invariant correctCount == CountCorrect(questions[..i], selectedAnswers)
      {
        if questions[i].id in selectedAnswers && selectedAnswers[questions[i].id] == questions[i].correct {
          correctCount := correctCount + 1;
        }
        assert questions[..i + 1][..i] == questions[..i];
        i := i + 1;
      }
      assert questions[..i] == questions;
      score := correctCount;
      var passThreshold := PassThreshold(|questions|);
      if correctCount >= passThreshold {
        var newXP := userProgress.xp + Levels[currentLevel].reward.xp;
        var newCompletedLevels := userProgress.completedLevels + [currentLevel];
        userProgress := UserProgress(Max(currentLevel + 1, userProgress.level), newXP, newCompletedLevels);
        saved := Some(userProgress);
      }
      showResults := true;
    }

    method ResetQuiz()
      requires 1 <= currentLevel <= LevelCount
      modifies this`currentQuestion, this`selectedAnswers, this`showResults, this`score
      ensures currentQuestion == 0 && selectedAnswers == map[] && !showResults && score == 0
      ensures Valid()
    {
      LevelsShape();
      currentQuestion := 0;
      selectedAnswers := map[];
      showResults := false;
      score := 0;
    }

    method NextLevel()
      requires Valid()
      modifies this`currentLevel, this`currentQuestion, this`selectedAnswers, this`showResults, this`score
      ensures old(currentLevel) < LevelCount ==>
        currentLevel == old(currentLevel) + 1
        && currentQuestion == 0 && selectedAnswers == map[] && !showResults && score == 0
      ensures old(currentLevel) >= LevelCount ==>
        currentLevel == old(currentLevel) && currentQuestion == old(currentQuestion)
        && selectedAnswers == old(selectedAnswers) && showResults == old(showResults) && score == old(score)
      ensures Valid()
    {
      if currentLevel < LevelCount {
        currentLevel := currentLevel + 1;
        ResetQuiz();
      }
    }

    /** The Previous button: disabled on the first question, otherwise one back. */
    method ClickPrevious()
      requires Valid()
      modifies this`currentQuestion
      ensures currentQuestion == if old(currentQuestion) == 0 then 0 else old(currentQuestion) - 1
      ensures Valid()
    {
      if currentQuestion != 0 {
        currentQuestion := Max(0, currentQuestion - 1);
      }
    }

    /** The Next button: shown before the last question, enabled once the
        current question has an answer. */
    method ClickNext()
      requires Valid()
      modifies this`currentQuestion
      ensures var q := Questions(currentLevel)[old(currentQuestion)];
        currentQuestion == if old(currentQuestion) < |Questions(currentLevel)| - 1 && q.id in selectedAnswers
          then old(currentQuestion) + 1 else old(currentQuestion)
      ensures Valid()
    {
      var questions := Questions(currentLevel);
      if currentQuestion != |questions| - 1 && questions[currentQuestion].id in selectedAnswers {
        currentQuestion := currentQuestion + 1;
      }
    }

    /** The Complete Level button: shown on the last question while the
        results are not shown, enabled once as many answers are recorded as
        the level has questions. */
    method ClickSubmit()
      requires Valid() && !showResults
      modifies this`score, this`userProgress, this`showResults, this`saved
      ensures var n := |Questions(currentLevel)|;
        showResults == (currentQuestion == n - 1 && |selectedAnswers.Keys| >= n)
      ensures showResults ==> score == CountCorrect(Questions(currentLevel), selectedAnswers)
      ensures showResults && score >= PassThreshold(|Questions(currentLevel)|) ==>
        userProgress == UserProgress(
          Max(currentLevel + 1, old(userProgress.level)),
          old(userProgress.xp) + Levels[currentLevel].reward.xp,
          old(userProgress.completedLevels) + [currentLevel])
        && saved == Some(userProgress)
      ensures showResults && score < PassThreshold(|Questions(currentLevel)|) ==>
        userProgress == old(userProgress) && saved == old(saved)
      ensures !showResults ==> score == old(score) && userProgress == old(userProgress) && saved == old(saved)
      ensures userProgress.level >= old(userProgress.level)
      ensures Valid()
    {
      var n := |Questions(currentLevel)|;
      if currentQuestion == n - 1 && |selectedAnswers.Keys| >= n {
        HandleSubmit();
      }
    }

    /** Clicking option `index` of the current question records it. */
    method ClickOption(index: int)
      requires Valid()
      modifies this`selectedAnswers
      ensures selectedAnswers == old(selectedAnswers)[Questions(currentLevel)[currentQuestion].id := index]
    {
      HandleAnswerSelect(Questions(currentLevel)[currentQuestion].id, index);
    }
  }

  /** Answering both questions of the first level with their keys passes it. */
  lemma {:induction false} FirstLevelKeysPass(answers: map<int, int>)
    requires answers == map[Questions(1)[0].id := Questions(1)[0].correct, Questions(1)[1].id := Questions(1)[1].correct]
    ensures |answers.Keys| >= |Questions(1)|
    ensures CountCorrect(Questions(1), answers) >= PassThreshold(|Questions(1)|)
  {
    LevelShape(1);
    assert answers.Keys == {1, 2};
    TwoQuestionLevelsNeedBoth(1, answers);
  }

  /** Passing the first level saves the new progress, and a later visit
      loads it back: level 2 unlocked with level 1 completed. */
  method ProgressSurvivesReload() returns (before: UserProgress, after: UserProgress)
    ensures before == after
    ensures before.level == 2 && before.completedLevels == [1] && before.xp == Levels[1].reward.xp
  {
    LevelShape(1);
    var page := new QuizPage(None);
    var qs := Questions(1);
    page.ClickOption(qs[0].correct);
    page.ClickNext();
    page.ClickOption(qs[1].correct);
    FirstLevelKeysPass(page.selectedAnswers);
    page.ClickSubmit();
    before := page.userProgress;
    var revisit := new QuizPage(page.saved);
    revisit.LoadProgress();
    after := revisit.userProgress;
  }

  function Max(a: int, b: int): int {
    if a >= b then a else b
  }
}
