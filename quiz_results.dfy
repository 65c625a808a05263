/** The results screen of the single-run quiz: the score as a percentage,
    its grade band and the band's message. */
module QuizResults {

  /** A JavaScript number as far as the percentage can produce one:
      `score / 0` is Infinity for a positive score and NaN for zero. */
  datatype Num = Finite(value: real) | PosInfinity | NaN

  /** `n >= bound` under JavaScript comparison: false for NaN. */
  predicate AtLeast(n: Num, bound: real) {
    match n
    case Finite(v) => v >= bound
    case PosInfinity => true
    case NaN => false
  }

  /** `(score / totalQuestions) * 100`. */
  function Percentage(score: nat, total: nat): (p: Num)
    ensures total > 0 ==> p.Finite? && p.value >= 0.0 && p.value * total as real == 100.0 * score as real
    ensures total == 0 ==> (p == PosInfinity <==> score > 0) && (p == NaN <==> score == 0)
  {
    if total > 0 then Finite(score as real / total as real * 100.0)
    else if score > 0 then PosInfinity
    else NaN
  }

  datatype Grade = APlus | A | B | C | D

  /** Bands compared from the top; the first that holds wins. */
  function GetGrade(percentage: Num): (g: Grade)
    ensures Rank(g) >= 1 <==> AtLeast(percentage, 60.0)
    ensures Rank(g) >= 2 <==> AtLeast(percentage, 70.0)
    ensures Rank(g) >= 3 <==> AtLeast(percentage, 80.0)
    ensures Rank(g) >= 4 <==> AtLeast(percentage, 90.0)
  {
    if AtLeast(percentage, 90.0) then APlus
    else if AtLeast(percentage, 80.0) then A
    else if AtLeast(percentage, 70.0) then B
    else if AtLeast(percentage, 60.0) then C
    else D
  }

  datatype GradeInfo = GradeInfo(grade: string, color: string, bg: string)

  function Info(g: Grade): GradeInfo {
    match g
    case APlus => GradeInfo("A+", "text-green-600", "bg-green-100")
    case A => GradeInfo("A", "text-green-600", "bg-green-100")
    case B => GradeInfo("B", "text-blue-600", "bg-blue-100")
    case C => GradeInfo("C", "text-yellow-600", "bg-yellow-100")
    case D => GradeInfo("D", "text-red-600", "bg-red-100")
  }

  /** The message uses the same boundaries as the grade. */
  function GetPerformanceMessage(percentage: Num): (m: string)
    ensures m == Message(GetGrade(percentage))
  {
    if AtLeast(percentage, 90.0) then "Outstanding! You have excellent knowledge of nuclear isotopes!"
    else if AtLeast(percentage, 80.0) then "Great job! You have a solid understanding of nuclear technology!"
    else if AtLeast(percentage, 70.0) then "Good work! You're developing strong knowledge in this area!"
    else if AtLeast(percentage, 60.0) then "Not bad! Keep studying to improve your understanding!"
    else "Keep learning! Nuclear technology is complex but fascinating!"
  }

  /** Position of a grade, D lowest. */
  function Rank(g: Grade): nat {
    match g
    case D => 0
    case C => 1
    case B => 2
    case A => 3
    case APlus => 4
  }

  /** The message each band shows. */
  function Message(g: Grade): string {
    match g
    case APlus => "Outstanding! You have excellent knowledge of nuclear isotopes!"
    case A => "Great job! You have a solid understanding of nuclear technology!"
    case B => "Good work! You're developing strong knowledge in this area!"
    case C => "Not bad! Keep studying to improve your understanding!"
    case D => "Keep learning! Nuclear technology is complex but fascinating!"
  }

  lemma {:induction false} MessageLength(g: Grade)
    ensures |Message(g)| == match g case APlus => 62 case A => 64 case B => 59 case C => 53 case D => 61
  {
    match g
    case APlus =>
    case A =>
    case B =>
    case C =>
    case D =>
  }

  /** Different grades get different messages, so the two correspond one to one. */
  lemma {:induction false} MessagesDistinct(g: Grade, h: Grade)
    requires g != h
    ensures Message(g) != Message(h)
  {
    MessageLength(g);
    MessageLength(h);
  }

  /** A higher percentage never gets a lower grade. */
  lemma {:induction false} GradeMonotone(p: real, q: real)
    requires p <= q
    ensures Rank(GetGrade(Finite(p))) <= Rank(GetGrade(Finite(q)))
  {
  }

  /** The grade of a score, compared in whole numbers: score·100 against band·total. */
  function GradeByCounts(score: nat, total: nat): Grade {
    if 100 * score >= 90 * total && (total > 0 || score > 0) then APlus
    else if 100 * score >= 80 * total && total > 0 then A
    else if 100 * score >= 70 * total && total > 0 then B
    else if 100 * score >= 60 * total && total > 0 then C
    else D
  }

  lemma {:induction false} PercentageAtLeast(score: nat, total: nat, band: nat)
    requires total > 0
    ensures AtLeast(Percentage(score, total), band as real) <==> 100 * score >= band * total
  {
    var s, t := score as real, total as real;
    assert s / t * 100.0 * t == 100.0 * s;
    if s / t * 100.0 >= band as real {
      assert s / t * 100.0 * t >= band as real * t;
    } else {
      assert s / t * 100.0 * t < band as real * t;
    }
  }

  /** The whole-number comparison gives the same grade as the percentage. */
  lemma {:induction false} GradeByCountsAgrees(score: nat, total: nat)
    ensures GradeByCounts(score, total) == GetGrade(Percentage(score, total))
  {
    if total > 0 {
      PercentageAtLeast(score, total, 90);
      PercentageAtLeast(score, total, 80);
      PercentageAtLeast(score, total, 70);
      PercentageAtLeast(score, total, 60);
    }
  }

  /** Every question right is A+; none right is D. */
  lemma {:induction false} FullAndZeroScores(total: nat)
    requires total > 0
    ensures GetGrade(Percentage(total, total)) == APlus
    ensures GetGrade(Percentage(0, total)) == D
  {
    GradeByCountsAgrees(total, total);
    GradeByCountsAgrees(0, total);
  }

  /** With twelve questions no score lands exactly on a band boundary, so
      rounding in the division cannot move a result across a band. */
  lemma {:induction false} TwelveQuestionsAvoidBoundaries(score: nat)
    requires score <= 12
    ensures 100 * score != 90 * 12 && 100 * score != 80 * 12
    ensures 100 * score != 70 * 12 && 100 * score != 60 * 12
  {
  }
}
