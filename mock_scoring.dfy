/** The mock data set read as worked examples of the scoring rule: every
    stored outcome is the one the rule gives for the result of its match. */
module MockScoring {
  import opened Wrappers
  import opened Scoring
  import opened FrontTypes
  import opened MockData

  /** A prediction whose stored outcome is what the scoring rule gives for
      the result of its match, or, before there is a final result, the
      defaults. */
  predicate ScoredAgainst(p: Prediction, m: Match) {
    if m.status == Completed && m.scoreA.Some? && m.scoreB.Some? then
      var o := Award(Some(p.predictedWinner), p.predictedScoreA, p.predictedScoreB, m.scoreA.value, m.scoreB.value);
      p.isCorrect == o.isCorrect && p.isExactScore == o.isExactScore && p.pointsEarned == o.points
    else !p.isCorrect && !p.isExactScore && p.pointsEarned == 0
  }

  /** Every prediction of `ps` is scored against the match of `ms` it names. */
  predicate FollowsScoringRule(ps: seq<Prediction>, ms: seq<Match>) {
    forall i, j :: 0 <= i < |ps| && 0 <= j < |ms| && ps[i].matchId == ms[j].id ==> ScoredAgainst(ps[i], ms[j])
  }

  lemma FollowsScoringRuleAppend(xs: seq<Prediction>, ys: seq<Prediction>, ms: seq<Match>)
    requires FollowsScoringRule(xs, ms) && FollowsScoringRule(ys, ms)
    ensures FollowsScoringRule(xs + ys, ms)
  {
    forall i, j | 0 <= i < |xs + ys| && 0 <= j < |ms| && (xs + ys)[i].matchId == ms[j].id
      ensures ScoredAgainst((xs + ys)[i], ms[j])
    {
      if i >= |xs| {
        assert (xs + ys)[i] == ys[i - |xs|];
      }
    }
  }

  /** The match ids of the data set are pairwise distinct. */
  lemma MatchIdsUnique(now: int, dateOf: string -> int)
    ensures forall j, l :: 0 <= j < l < |Matches(now, dateOf)| ==> Matches(now, dateOf)[j].id != Matches(now, dateOf)[l].id
  {
  }

  /** Prediction `i` of `ps` names match `idx[i]` of `ms` and is scored
      against it. */
  predicate ScoredAgainstIndexed(ps: seq<Prediction>, ms: seq<Match>, idx: seq<nat>) {
    |idx| == |ps| &&
    forall i :: 0 <= i < |ps| ==> idx[i] < |ms| && ps[i].matchId == ms[idx[i]].id && ScoredAgainst(ps[i], ms[idx[i]])
  }

  /** With distinct match ids, the match a prediction names is the one it was
      checked against. */
  lemma FollowsByIndex(ps: seq<Prediction>, ms: seq<Match>, idx: seq<nat>)
    requires forall j, l :: 0 <= j < l < |ms| ==> ms[j].id != ms[l].id
    requires ScoredAgainstIndexed(ps, ms, idx)
    ensures FollowsScoringRule(ps, ms)
  {
    forall i, j | 0 <= i < |ps| && 0 <= j < |ms| && ps[i].matchId == ms[j].id
      ensures ScoredAgainst(ps[i], ms[j])
    {
      assert !(j < idx[i]) && !(idx[i] < j);
    }
  }

  /** Each of the block's predictions names the match at its index and is
      scored against it. */
  lemma LivePredictionsIndexed(now: int, dateOf: string -> int)
    ensures ScoredAgainstIndexed(LivePredictions(), Matches(now, dateOf), [0, 1, 0, 0])
  {
    var ps, ms, idx := LivePredictions(), Matches(now, dateOf), [0, 1, 0, 0];
    LabelsDiffer();
    forall i | 0 <= i < |ps|
      ensures idx[i] < |ms| && ps[i].matchId == ms[idx[i]].id && ScoredAgainst(ps[i], ms[idx[i]])
    {
      if i == 0 {
        assert ps[0].matchId == LiveMatch1(now).id && ScoredAgainst(ps[0], LiveMatch1(now));
      } else if i == 1 {
        assert ps[1].matchId == LiveMatch2(now).id && ScoredAgainst(ps[1], LiveMatch2(now));
      } else if i == 2 {
        assert ps[2].matchId == LiveMatch1(now).id && ScoredAgainst(ps[2], LiveMatch1(now));
      } else {
        assert ps[3].matchId == LiveMatch1(now).id && ScoredAgainst(ps[3], LiveMatch1(now));
      }
    }
  }

  lemma LivePredictionsFollowRule(now: int, dateOf: string -> int)
    ensures FollowsScoringRule(LivePredictions(), Matches(now, dateOf))
  {
    LivePredictionsIndexed(now, dateOf);
    MatchIdsUnique(now, dateOf);
    FollowsByIndex(LivePredictions(), Matches(now, dateOf), [0, 1, 0, 0]);
  }
  /** Each of the block's predictions names the match at its index and is
      scored against it. */
  lemma CurrentUserPredictionsIndexed(now: int, dateOf: string -> int)
    ensures ScoredAgainstIndexed(CurrentUserPredictions(), Matches(now, dateOf), [2, 3, 5, 6, 7, 8])
  {
    var ps, ms, idx := CurrentUserPredictions(), Matches(now, dateOf), [2, 3, 5, 6, 7, 8];
    LabelsDiffer();
    forall i | 0 <= i < |ps|
      ensures idx[i] < |ms| && ps[i].matchId == ms[idx[i]].id && ScoredAgainst(ps[i], ms[idx[i]])
    {
      if i == 0 {
        assert ps[0].matchId == Match001(dateOf).id && ScoredAgainst(ps[0], Match001(dateOf));
      } else if i == 1 {
        assert ps[1].matchId == Match002(dateOf).id && ScoredAgainst(ps[1], Match002(dateOf));
      } else if i == 2 {
        assert ps[2].matchId == Match005(dateOf).id && ScoredAgainst(ps[2], Match005(dateOf));
      } else if i == 3 {
        assert ps[3].matchId == Match006(dateOf).id && ScoredAgainst(ps[3], Match006(dateOf));
      } else if i == 4 {
        assert ps[4].matchId == Match007(dateOf).id && ScoredAgainst(ps[4], Match007(dateOf));
      } else {
        assert ps[5].matchId == Match008(dateOf).id && ScoredAgainst(ps[5], Match008(dateOf));
      }
    }
  }

  lemma CurrentUserPredictionsFollowRule(now: int, dateOf: string -> int)
    ensures FollowsScoringRule(CurrentUserPredictions(), Matches(now, dateOf))
  {
    CurrentUserPredictionsIndexed(now, dateOf);
    MatchIdsUnique(now, dateOf);
    FollowsByIndex(CurrentUserPredictions(), Matches(now, dateOf), [2, 3, 5, 6, 7, 8]);
  }
  /** Each of the block's predictions names the match at its index and is
      scored against it. */
  lemma User2PredictionsIndexed(now: int, dateOf: string -> int)
    ensures ScoredAgainstIndexed(User2Predictions(), Matches(now, dateOf), [5, 6, 7, 8])
  {
    var ps, ms, idx := User2Predictions(), Matches(now, dateOf), [5, 6, 7, 8];
    LabelsDiffer();
    forall i | 0 <= i < |ps|
      ensures idx[i] < |ms| && ps[i].matchId == ms[idx[i]].id && ScoredAgainst(ps[i], ms[idx[i]])
    {
      if i == 0 {
        assert ps[0].matchId == Match005(dateOf).id && ScoredAgainst(ps[0], Match005(dateOf));
      } else if i == 1 {
        assert ps[1].matchId == Match006(dateOf).id && ScoredAgainst(ps[1], Match006(dateOf));
      } else if i == 2 {
        assert ps[2].matchId == Match007(dateOf).id && ScoredAgainst(ps[2], Match007(dateOf));
      } else {
        assert ps[3].matchId == Match008(dateOf).id && ScoredAgainst(ps[3], Match008(dateOf));
      }
    }
  }

  lemma User2PredictionsFollowRule(now: int, dateOf: string -> int)
    ensures FollowsScoringRule(User2Predictions(), Matches(now, dateOf))
  {
    User2PredictionsIndexed(now, dateOf);
    MatchIdsUnique(now, dateOf);
    FollowsByIndex(User2Predictions(), Matches(now, dateOf), [5, 6, 7, 8]);
  }
  /** Each of the block's predictions names the match at its index and is
      scored against it. */
  lemma User3PredictionsIndexed(now: int, dateOf: string -> int)
    ensures ScoredAgainstIndexed(User3Predictions(), Matches(now, dateOf), [5, 6, 7, 8])
  {
    var ps, ms, idx := User3Predictions(), Matches(now, dateOf), [5, 6, 7, 8];
    LabelsDiffer();
    forall i | 0 <= i < |ps|
      ensures idx[i] < |ms| && ps[i].matchId == ms[idx[i]].id && ScoredAgainst(ps[i], ms[idx[i]])
    {
      if i == 0 {
        assert ps[0].matchId == Match005(dateOf).id && ScoredAgainst(ps[0], Match005(dateOf));
      } else if i == 1 {
        assert ps[1].matchId == Match006(dateOf).id && ScoredAgainst(ps[1], Match006(dateOf));
      } else if i == 2 {
        assert ps[2].matchId == Match007(dateOf).id && ScoredAgainst(ps[2], Match007(dateOf));
      } else {
        assert ps[3].matchId == Match008(dateOf).id && ScoredAgainst(ps[3], Match008(dateOf));
      }
    }
  }

  lemma User3PredictionsFollowRule(now: int, dateOf: string -> int)
    ensures FollowsScoringRule(User3Predictions(), Matches(now, dateOf))
  {
    User3PredictionsIndexed(now, dateOf);
    MatchIdsUnique(now, dateOf);
    FollowsByIndex(User3Predictions(), Matches(now, dateOf), [5, 6, 7, 8]);
  }
  /** Each of the block's predictions names the match at its index and is
      scored against it. */
  lemma User4PredictionsIndexed(now: int, dateOf: string -> int)
    ensures ScoredAgainstIndexed(User4Predictions(), Matches(now, dateOf), [5, 6, 7, 8])
  {
    var ps, ms, idx := User4Predictions(), Matches(now, dateOf), [5, 6, 7, 8];
    LabelsDiffer();
    forall i | 0 <= i < |ps|
      ensures idx[i] < |ms| && ps[i].matchId == ms[idx[i]].id && ScoredAgainst(ps[i], ms[idx[i]])
    {
      if i == 0 {
        assert ps[0].matchId == Match005(dateOf).id && ScoredAgainst(ps[0], Match005(dateOf));
      } else if i == 1 {
        assert ps[1].matchId == Match006(dateOf).id && ScoredAgainst(ps[1], Match006(dateOf));
      } else if i == 2 {
        assert ps[2].matchId == Match007(dateOf).id && ScoredAgainst(ps[2], Match007(dateOf));
      } else {
        assert ps[3].matchId == Match008(dateOf).id && ScoredAgainst(ps[3], Match008(dateOf));
      }
    }
  }

  lemma User4PredictionsFollowRule(now: int, dateOf: string -> int)
    ensures FollowsScoringRule(User4Predictions(), Matches(now, dateOf))
  {
    User4PredictionsIndexed(now, dateOf);
    MatchIdsUnique(now, dateOf);
    FollowsByIndex(User4Predictions(), Matches(now, dateOf), [5, 6, 7, 8]);
  }
  /** Every mock prediction on a completed match carries exactly the outcome
      of the 3-points-for-the-winner, 2-more-for-the-exact-score rule, and
      every other one carries none. */
  lemma MockPredictionsFollowScoringRule(now: int, dateOf: string -> int)
    ensures forall i, j ::
      (0 <= i < |Predictions()| && 0 <= j < |Matches(now, dateOf)| &&
       Predictions()[i].matchId == Matches(now, dateOf)[j].id) ==>
      ScoredAgainst(Predictions()[i], Matches(now, dateOf)[j])
  {
    var ms := Matches(now, dateOf);
    LivePredictionsFollowRule(now, dateOf);
    CurrentUserPredictionsFollowRule(now, dateOf);
    User2PredictionsFollowRule(now, dateOf);
    User3PredictionsFollowRule(now, dateOf);
    User4PredictionsFollowRule(now, dateOf);
    FollowsScoringRuleAppend(LivePredictions(), CurrentUserPredictions(), ms);
    FollowsScoringRuleAppend(LivePredictions() + CurrentUserPredictions(), User2Predictions(), ms);
    FollowsScoringRuleAppend(LivePredictions() + CurrentUserPredictions() + User2Predictions(), User3Predictions(), ms);
    FollowsScoringRuleAppend(LivePredictions() + CurrentUserPredictions() + User2Predictions() + User3Predictions(),
                             User4Predictions(), ms);
    assert FollowsScoringRule(Predictions(), ms);
  }

  /** Every prediction scored by the rule against a match carries points that
      agree with its flags. */
  lemma ScoredConsistent(p: Prediction, m: Match)
    requires ScoredAgainst(p, m)
    ensures PointsMatchFlags(p.isCorrect, p.isExactScore, p.pointsEarned)
  {
    if m.status == Completed && m.scoreA.Some? && m.scoreB.Some? {
      AwardConsistent(Some(p.predictedWinner), p.predictedScoreA, p.predictedScoreB, m.scoreA.value, m.scoreB.value);
    }
  }

  /** The points of every prediction agree with its two flags. */
  predicate FlagsConsistent(ps: seq<Prediction>) {
    forall i :: 0 <= i < |ps| ==> PointsMatchFlags(ps[i].isCorrect, ps[i].isExactScore, ps[i].pointsEarned)
  }

  lemma IndexedFlagsConsistent(ps: seq<Prediction>, ms: seq<Match>, idx: seq<nat>)
    requires ScoredAgainstIndexed(ps, ms, idx)
    ensures FlagsConsistent(ps)
  {
    forall i | 0 <= i < |ps|
      ensures PointsMatchFlags(ps[i].isCorrect, ps[i].isExactScore, ps[i].pointsEarned)
    {
      ScoredConsistent(ps[i], ms[idx[i]]);
    }
  }

  lemma FlagsConsistentAppend(xs: seq<Prediction>, ys: seq<Prediction>)
    requires FlagsConsistent(xs) && FlagsConsistent(ys)
    ensures FlagsConsistent(xs + ys)
  {
    forall i | 0 <= i < |xs + ys|
      ensures PointsMatchFlags((xs + ys)[i].isCorrect, (xs + ys)[i].isExactScore, (xs + ys)[i].pointsEarned)
    {
      if i >= |xs| {
        assert (xs + ys)[i] == ys[i - |xs|];
      }
    }
  }

  /** In the data set an exact score always comes with the right winner and
      5 points, and every prediction is worth 0, 3 or 5 points. */
  lemma MockExactScoresAreFivePoints(now: int, dateOf: string -> int)
    ensures forall i :: 0 <= i < |Predictions()| && Predictions()[i].isExactScore ==>
      Predictions()[i].isCorrect && Predictions()[i].pointsEarned == 5
    ensures forall i :: 0 <= i < |Predictions()| ==> Predictions()[i].pointsEarned in {0, 3, 5}
  {
    var ms := Matches(now, dateOf);
    LivePredictionsIndexed(now, dateOf);
    CurrentUserPredictionsIndexed(now, dateOf);
    User2PredictionsIndexed(now, dateOf);
    User3PredictionsIndexed(now, dateOf);
    User4PredictionsIndexed(now, dateOf);
    IndexedFlagsConsistent(LivePredictions(), ms, [0, 1, 0, 0]);
    IndexedFlagsConsistent(CurrentUserPredictions(), ms, [2, 3, 5, 6, 7, 8]);
    IndexedFlagsConsistent(User2Predictions(), ms, [5, 6, 7, 8]);
    IndexedFlagsConsistent(User3Predictions(), ms, [5, 6, 7, 8]);
    IndexedFlagsConsistent(User4Predictions(), ms, [5, 6, 7, 8]);
    FlagsConsistentAppend(LivePredictions(), CurrentUserPredictions());
    FlagsConsistentAppend(LivePredictions() + CurrentUserPredictions(), User2Predictions());
    FlagsConsistentAppend(LivePredictions() + CurrentUserPredictions() + User2Predictions(), User3Predictions());
    FlagsConsistentAppend(LivePredictions() + CurrentUserPredictions() + User2Predictions() + User3Predictions(),
                          User4Predictions());
    assert FlagsConsistent(Predictions());
  }

  /** Predictions on the live and upcoming matches carry the unscored
      defaults: no flag set and 0 points. */
  lemma MockUnplayedPredictionsUnscored(now: int, dateOf: string -> int)
    ensures forall i, j ::
      (0 <= i < |Predictions()| && 0 <= j < |Matches(now, dateOf)| &&
       Predictions()[i].matchId == Matches(now, dateOf)[j].id && Matches(now, dateOf)[j].status != Completed) ==>
      !Predictions()[i].isCorrect && !Predictions()[i].isExactScore && Predictions()[i].pointsEarned == 0
  {
    MockPredictionsFollowScoringRule(now, dateOf);
  }
}
