/** The prediction-scoring rule of the calculate-points handler, and the
    rounded accuracy percentage shared by the user-stats handler and the
    front end's cross-group aggregation. */
module Scoring {
  import opened Wrappers

  /** The side of a match. */
  datatype Side = TeamA | TeamB

  /** The label a prediction stores for a side. */
  function SideLabel(s: Side): string {
    match s
    case TeamA => "team_a"
    case TeamB => "team_b"
  }

  /** The two winner labels differ. */
  lemma LabelsDiffer()
    ensures SideLabel(TeamA) != SideLabel(TeamB)
    ensures "team_a" != "team_b"
  {
    assert "team_a"[5] != "team_b"[5];
  }

  /** Points for naming the winner, and the bonus for the exact score. */
  const WinnerPoints: int := 3
  const ExactScoreBonus: int := 2

  /** A stored result score read with `|| 0`: a null score counts as 0. */
  function ResultScore(o: Option<int>): (r: int)
    ensures o.None? ==> r == 0
    ensures o.Some? ==> r == o.value
  {
    o.GetOr(0)
  }

  /** The winner of a result: the side with the strictly higher score; a
      level result has none. */
  function ActualWinner(a: int, b: int): (w: Option<Side>)
    ensures w == Some(TeamA) <==> a > b
    ensures w == Some(TeamB) <==> a < b
    ensures w == None <==> a == b
  {
    if a > b then Some(TeamA) else if a < b then Some(TeamB) else None
  }

  /** The actual winner as the nullable label it is compared against. */
  function WinnerLabel(a: int, b: int): Option<string> {
    match ActualWinner(a, b)
    case Some(s) => Some(SideLabel(s))
    case None => None
  }

  /** The three scoring fields written back into a prediction row. */
  datatype Outcome = Outcome(isCorrect: bool, isExactScore: bool, points: int)

  /** Scores one prediction (`pick`, `predA`, `predB`, each nullable) against
      the result `a`-`b`. The pick is compared with the nullable winner label,
      so on a level result only a null pick compares equal. */
  function Award(pick: Option<string>, predA: Option<int>, predB: Option<int>, a: int, b: int): (o: Outcome)
    ensures o.isExactScore ==> o.isCorrect
    ensures o.points == 0 <==> !o.isCorrect
    ensures o.points == 3 <==> o.isCorrect && !o.isExactScore
    ensures o.points == 5 <==> o.isExactScore
    ensures o.isCorrect <==> (a > b && pick == Some("team_a")) || (a < b && pick == Some("team_b")) || (a == b && pick.None?)
    ensures o.isExactScore <==> o.isCorrect && predA == Some(a) && predB == Some(b)
  {
    var isCorrect := pick == WinnerLabel(a, b);
    var isExactScore := isCorrect && predA == Some(a) && predB == Some(b);
    var points := if isCorrect then WinnerPoints + (if isExactScore then ExactScoreBonus else 0) else 0;
    Outcome(isCorrect, isExactScore, points)
  }

  /** The points of an outcome follow from its two flags alone. */
  predicate PointsMatchFlags(isCorrect: bool, isExactScore: bool, points: int) {
    (isExactScore ==> isCorrect) &&
    points == (if isExactScore then 5 else if isCorrect then 3 else 0)
  }

  /** Every outcome of the rule is one of 0, 3 or 5 points, consistent with
      its flags. */
  lemma AwardConsistent(pick: Option<string>, predA: Option<int>, predB: Option<int>, a: int, b: int)
    ensures var o := Award(pick, predA, predB, a, b);
      PointsMatchFlags(o.isCorrect, o.isExactScore, o.points) && o.points in {0, 3, 5}
  {
  }

  /** On a level result, a prediction that names a team scores nothing. */
  lemma DrawScoresNothing(pick: string, predA: Option<int>, predB: Option<int>, a: int)
    ensures Award(Some(pick), predA, predB, a, a) == Outcome(false, false, 0)
  {
  }

  /** Scoring depends on the result only through the winner and the two
      scores: swapping the teams' scores and the pick gives the same award. */
  lemma AwardSymmetric(predA: Option<int>, predB: Option<int>, a: int, b: int)
    requires a != b
    ensures Award(Some("team_a"), predA, predB, a, b) == Award(Some("team_b"), predB, predA, b, a)
  {
  }

  /** `Math.round(100 * correct / total)` for a positive total, 0 otherwise:
      the integer nearest to the percentage, halves rounded up. */
  function Accuracy(correct: int, total: int): (r: int)
    ensures total <= 0 ==> r == 0
    ensures total > 0 ==> 2 * total * r - total <= 200 * correct < 2 * total * r + total
    ensures 0 <= correct <= total ==> 0 <= r <= 100
  {
    if total > 0 then
      var r := (200 * correct + total) / (2 * total);
      RoundingBounds(200 * correct + total, 2 * total);
      PercentInRange(correct, total, r);
      r
    else 0
  }

  /** Floor division brackets its numerator. */
  lemma RoundingBounds(x: int, d: int)
    requires d > 0
    ensures d * (x / d) <= x < d * (x / d) + d
  {
  }

  /** A rounded share of a total lies between 0 and 100. */
  lemma PercentInRange(correct: int, total: int, r: int)
    requires total > 0
    requires 2 * total * r <= 200 * correct + total < 2 * total * r + 2 * total
    ensures 0 <= correct <= total ==> 0 <= r <= 100
  {
    ScaleMonotone(2 * total, r, -1);
    ScaleMonotone(2 * total, 101, r);
  }

  /** Scaling by a positive factor keeps the order. */
  lemma ScaleMonotone(k: int, x: int, y: int)
    requires k > 0
    ensures x <= y ==> k * x <= k * y
  {
    if x <= y {
      assert k * y - k * x == k * (y - x);
    }
  }

  /** The rounding of `Accuracy` is the one of the definition: an exact
      half goes up. */
  lemma AccuracyExamples()
    ensures Accuracy(1, 3) == 33 && Accuracy(2, 3) == 67 && Accuracy(1, 8) == 13
    ensures Accuracy(0, 0) == 0 && Accuracy(4, 4) == 100
  {
  }
}
