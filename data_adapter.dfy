/** The front end's adapter from Convex documents, whose fields are loosely
    typed, to the records it renders, and the two group helpers built on
    them: a user's score in a group and the group leaderboard. */
module DataAdapter {
  import opened Wrappers
  import opened Seqs
  import opened JsValues
  import opened FrontTypes

  // ---- Convex documents as the adapter receives them ----

  /** A match document. The date is read by the platform's date parser,
      which is an input here (`parsedDate`, `None` for an invalid date). */
  datatype ConvexMatchDoc = ConvexMatchDoc(id: JsValue, teamA: JsValue, teamB: JsValue, tournament: JsValue,
                                           status: JsValue, winner: JsValue, scoreA: JsValue, scoreB: JsValue)

  datatype ConvexPredictionDoc = ConvexPredictionDoc(id: JsValue, userId: JsValue, matchId: JsValue, groupId: JsValue,
                                                     predictedWinner: JsValue, predictedScoreA: JsValue,
                                                     predictedScoreB: JsValue, pointsEarned: JsValue,
                                                     isCorrect: JsValue, isExactScore: JsValue)

  /** A group document; `members` is `None` when the field is not an array. */
  datatype ConvexGroupDoc = ConvexGroupDoc(id: JsValue, name: JsValue, inviteCode: JsValue, description: JsValue,
                                           members: Option<seq<string>>, createdBy: JsValue)

  /** A user document, which may carry its id as `id` or as `_id`. */
  datatype ConvexUserDoc = ConvexUserDoc(id: JsValue, underscoreId: JsValue, name: JsValue, email: JsValue,
                                         totalPoints: JsValue, badges: Option<seq<string>>)

  // ---- field coercions ----

  /** The adapter's `parseNumber`: null, undefined and "" are 0, and so is
      anything `Number` turns into NaN. */
  function ParseNumber(v: JsValue): (n: int)
    ensures v == JsNull || v == JsUndefined || v == JsString("") ==> n == 0
    ensures ToNumber(v).None? ==> n == 0
  {
    if v == JsNull || v == JsUndefined || v == JsString("") then 0
    else ToNumber(v).GetOr(0)
  }

  /** The early return of `parseNumber` changes nothing: `Number` already maps
      null and "" to 0 and undefined to NaN. */
  lemma ParseNumberIsNumberOrZero(v: JsValue)
    ensures ParseNumber(v) == ToNumber(v).GetOr(0)
  {
  }

  /** A number stored as its decimal text is read back. */
  lemma ParseNumberOfText(n: int)
    ensures ParseNumber(JsString(IntToString(n))) == n
    ensures ParseNumber(JsNum(n)) == n
  {
    NumberOfToString(n);
  }

  /** The adapter's `parseBoolean`: a boolean is itself, a string is true
      exactly when it reads "true" in any letter case, anything else is
      false. */
  function ParseBoolean(v: JsValue): (b: bool)
    ensures v.JsBool? ==> b == v.b
    ensures !v.JsBool? && !v.JsString? ==> !b
  {
    match v
    case JsBool(x) => x
    case JsString(s) => ToLowerCase(s) == "true"
    case _ => false
  }

  lemma LowerCharIs(c: char, lower: char)
    requires 'a' <= lower <= 'z'
    ensures LowerChar(c) == lower <==> c == lower || c as int == lower as int - 32
  {
  }

  /** Exactly the four-letter spellings of "true", in any letter case, are
      true. */
  lemma ParseBooleanOfString(s: string)
    ensures ParseBoolean(JsString(s)) <==>
      |s| == 4 && (s[0] == 't' || s[0] == 'T') && (s[1] == 'r' || s[1] == 'R') &&
                  (s[2] == 'u' || s[2] == 'U') && (s[3] == 'e' || s[3] == 'E')
  {
    var l := ToLowerCase(s);
    if |s| == 4 {
      LowerCharIs(s[0], 't');
      LowerCharIs(s[1], 'r');
      LowerCharIs(s[2], 'u');
      LowerCharIs(s[3], 'e');
      assert l == "true" <==> l[0] == 't' && l[1] == 'r' && l[2] == 'u' && l[3] == 'e';
    }
  }

  /** The match status: the text lower-cased, kept when it is one of the three
      the front end knows, and "upcoming" otherwise. */
  function AdaptStatus(v: JsValue): (st: MatchStatus)
    ensures st == Live <==> ToLowerCase(ToJsString(v)) == "live"
    ensures st == Completed <==> ToLowerCase(ToJsString(v)) == "completed"
  {
    var s := ToLowerCase(ToJsString(v));
    if s == "upcoming" then Upcoming
    else if s == "live" then Live
    else if s == "completed" then Completed
    else Upcoming
  }

  /** Each status reads back from its label, in any letter case. */
  lemma AdaptStatusOfLabel(st: MatchStatus)
    ensures AdaptStatus(JsString(StatusLabel(st))) == st
  {
  }

  /** The status the Convex store writes for a match that has ended is
      "finished", which the adapter does not know: such a match is shown as
      upcoming. Upper-case labels are understood. */
  lemma FinishedShowsAsUpcoming()
    ensures AdaptStatus(JsString("finished")) == Upcoming
    ensures AdaptStatus(JsString("LIVE")) == Live
  {
    var f := ToLowerCase("finished");
    assert f[0] == 'f';
    var l := ToLowerCase("LIVE");
    assert l == "live";
  }

  // ---- the four adapters ----

  /** `adaptConvexMatch`: text fields through `String`, the status as above,
      the date when it is valid and non-zero and `now` otherwise, the winner
      verbatim when truthy, and each score only when it is positive. */
  function AdaptConvexMatch(doc: ConvexMatchDoc, parsedDate: Option<int>, now: int): (m: Match)
    ensures m.scoreA.Some? <==> ParseNumber(doc.scoreA) > 0
    ensures m.scoreB.Some? <==> ParseNumber(doc.scoreB) > 0
    ensures m.scoreA.Some? ==> m.scoreA.value == ParseNumber(doc.scoreA)
    ensures m.scoreB.Some? ==> m.scoreB.value == ParseNumber(doc.scoreB)
    ensures m.winner.Some? <==> Truthy(doc.winner)
    ensures m.winner.Some? ==> m.winner.value == ToJsString(doc.winner) != ""
    ensures parsedDate.Some? && parsedDate.value != 0 ==> m.matchDate == parsedDate.value
    ensures parsedDate.None? || parsedDate.value == 0 ==> m.matchDate == now
    ensures m.matchDate != 0 || now == 0
    ensures m.status == AdaptStatus(doc.status)
    ensures m.id == ToJsString(doc.id) && m.tournament == ToJsString(doc.tournament)
    ensures m.teamA == ToJsString(doc.teamA) && m.teamB == ToJsString(doc.teamB)
  {
    var scoreA := ParseNumber(doc.scoreA);
    var scoreB := ParseNumber(doc.scoreB);
    Match(ToJsString(doc.id), ToJsString(doc.teamA), ToJsString(doc.teamB),
          if parsedDate.Some? && parsedDate.value != 0 then parsedDate.value else now,
          ToJsString(doc.tournament),
          AdaptStatus(doc.status),
          if Truthy(doc.winner) && ToJsString(doc.winner) != "" then Some(ToJsString(doc.winner)) else None,
          if scoreA > 0 then Some(scoreA) else None,
          if scoreB > 0 then Some(scoreB) else None)
  }

  /** An optional number as Convex stores it: decimal text, or "" when
      absent. */
  function NumberText(n: Option<int>): JsValue {
    match n
    case Some(v) => JsString(IntToString(v))
    case None => JsString("")
  }

  /** The Convex document of a front-end match. */
  function MatchDocOf(m: Match): ConvexMatchDoc {
    ConvexMatchDoc(JsString(m.id), JsString(m.teamA), JsString(m.teamB), JsString(m.tournament),
                   JsString(StatusLabel(m.status)), JsString(m.winner.GetOr("")),
                   NumberText(m.scoreA), NumberText(m.scoreB))
  }

  /** A match whose scores are absent or positive and whose winner is absent
      or non-empty survives the trip through its Convex document. */
  lemma AdaptMatchRoundTrip(m: Match, now: int)
    requires m.scoreA.None? || m.scoreA.value > 0
    requires m.scoreB.None? || m.scoreB.value > 0
    requires m.winner != Some("")
    requires m.matchDate != 0
    ensures AdaptConvexMatch(MatchDocOf(m), Some(m.matchDate), now) == m
  {
    AdaptStatusOfLabel(m.status);
    if m.scoreA.Some? { ParseNumberOfText(m.scoreA.value); }
    if m.scoreB.Some? { ParseNumberOfText(m.scoreB.value); }
  }

  /** A score of 0 is lost: a finished 3-0 is shown without its second
      score. */
  lemma ZeroScoreIsDropped(doc: ConvexMatchDoc, parsedDate: Option<int>, now: int)
    requires doc.scoreA == JsString("3") && doc.scoreB == JsString("0")
    ensures AdaptConvexMatch(doc, parsedDate, now).scoreA == Some(3)
    ensures AdaptConvexMatch(doc, parsedDate, now).scoreB.None?
  {
    ParseNumberOfText(3);
    ParseNumberOfText(0);
  }

  /** `adaptConvexPrediction`: text fields through `String`, an empty winner
      replaced by "team_a", every number through `parseNumber` (so an absent
      predicted score becomes 0) and the flags through `parseBoolean`. */
  function AdaptConvexPrediction(doc: ConvexPredictionDoc): (p: Prediction)
    ensures p.id == ToJsString(doc.id) && p.userId == ToJsString(doc.userId)
    ensures p.matchId == ToJsString(doc.matchId) && p.groupId == ToJsString(doc.groupId)
    ensures p.predictedWinner != ""
    ensures ToJsString(doc.predictedWinner) != "" ==> p.predictedWinner == ToJsString(doc.predictedWinner)
    ensures doc.predictedWinner == JsString("") ==> p.predictedWinner == "team_a"
    ensures doc.predictedWinner == JsUndefined ==> p.predictedWinner == "undefined"
    ensures p.predictedScoreA == Some(ParseNumber(doc.predictedScoreA))
    ensures p.predictedScoreB == Some(ParseNumber(doc.predictedScoreB))
    ensures doc.predictedScoreA == JsUndefined ==> p.predictedScoreA == Some(0)
    ensures p.pointsEarned == ParseNumber(doc.pointsEarned)
    ensures p.isCorrect <==> ParseBoolean(doc.isCorrect)
    ensures p.isExactScore <==> ParseBoolean(doc.isExactScore)
  {
    var w := ToJsString(doc.predictedWinner);
    Prediction(ToJsString(doc.id), ToJsString(doc.userId), ToJsString(doc.matchId), ToJsString(doc.groupId),
               if w != "" then w else "team_a",
               Some(ParseNumber(doc.predictedScoreA)), Some(ParseNumber(doc.predictedScoreB)),
               ParseNumber(doc.pointsEarned),
               ParseBoolean(doc.isCorrect), ParseBoolean(doc.isExactScore))
  }

  function BoolText(b: bool): JsValue {
    JsString(if b then "true" else "false")
  }

  /** The Convex document of a front-end prediction. */
  function PredictionDocOf(p: Prediction): ConvexPredictionDoc {
    ConvexPredictionDoc(JsString(p.id), JsString(p.userId), JsString(p.matchId), JsString(p.groupId),
                        JsString(p.predictedWinner), NumberText(p.predictedScoreA), NumberText(p.predictedScoreB),
                        JsString(IntToString(p.pointsEarned)), BoolText(p.isCorrect), BoolText(p.isExactScore))
  }

  /** A prediction with a winner and both scores survives the trip through its
      Convex document. */
  lemma AdaptPredictionRoundTrip(p: Prediction)
    requires p.predictedWinner != ""
    requires p.predictedScoreA.Some? && p.predictedScoreB.Some?
    ensures AdaptConvexPrediction(PredictionDocOf(p)) == p
  {
    var doc := PredictionDocOf(p);
    assert ParseNumber(doc.predictedScoreA) == p.predictedScoreA.value by {
      ParseNumberOfText(p.predictedScoreA.value);
    }
    assert ParseNumber(doc.predictedScoreB) == p.predictedScoreB.value by {
      ParseNumberOfText(p.predictedScoreB.value);
    }
    assert ParseNumber(doc.pointsEarned) == p.pointsEarned by {
      ParseNumberOfText(p.pointsEarned);
    }
    ParseBoolText(p.isCorrect);
    ParseBoolText(p.isExactScore);
  }

  lemma ParseBoolText(b: bool)
    ensures ParseBoolean(BoolText(b)) == b
  {
    if b {
      ParseBooleanOfString("true");
    } else {
      ParseBooleanOfString("false");
    }
  }

  /** `adaptConvexGroup`: text fields through `String`, members kept only when
      they are an array. */
  function AdaptConvexGroup(doc: ConvexGroupDoc): (g: Group)
    ensures doc.members.None? ==> g.members == []
    ensures doc.members.Some? ==> g.members == doc.members.value
    ensures g.description.Some?
  {
    Group(ToJsString(doc.id), ToJsString(doc.name), ToJsString(doc.inviteCode), Some(ToJsString(doc.description)),
          doc.members.GetOr([]), ToJsString(doc.createdBy))
  }

  function GroupDocOf(g: Group): ConvexGroupDoc {
    ConvexGroupDoc(JsString(g.id), JsString(g.name), JsString(g.inviteCode), JsString(g.description.GetOr("")),
                   Some(g.members), JsString(g.createdBy))
  }

  /** A group with a description survives the trip through its document. */
  lemma AdaptGroupRoundTrip(g: Group)
    requires g.description.Some?
    ensures AdaptConvexGroup(GroupDocOf(g)) == g
  {
  }

  /** `adaptConvexUser`: the id from `id`, or from `_id` when `id` is falsy;
      an empty name shown as "Unknown"; the points through `Number`, NaN and
      0 both giving 0; badges kept only when they are an array. */
  function AdaptConvexUser(doc: ConvexUserDoc): (u: User)
    ensures u.name != ""
    ensures Truthy(doc.id) ==> u.id == ToJsString(doc.id)
    ensures !Truthy(doc.id) ==> u.id == ToJsString(doc.underscoreId)
    ensures ToNumber(doc.totalPoints).None? ==> u.totalPoints == 0
    ensures doc.badges.None? ==> u.badges == []
  {
    var name := ToJsString(doc.name);
    User(if Truthy(doc.id) then ToJsString(doc.id) else ToJsString(doc.underscoreId),
         if name != "" then name else "Unknown",
         ToJsString(doc.email),
         ToNumber(doc.totalPoints).GetOr(0),
         doc.badges.GetOr([]))
  }

  function UserDocOf(u: User): ConvexUserDoc {
    ConvexUserDoc(JsString(u.id), JsUndefined, JsString(u.name), JsString(u.email), JsNum(u.totalPoints), Some(u.badges))
  }

  /** A user with an id and a name survives the trip through its document. */
  lemma AdaptUserRoundTrip(u: User)
    requires u.id != "" && u.name != ""
    ensures AdaptConvexUser(UserDocOf(u)) == u
  {
  }

  // ---- a user's score in a group ----

  /** The predictions of `userId` in `groupId`, in their order. */
  function OwnedBy(ps: seq<Prediction>, userId: string, groupId: string): (r: seq<Prediction>)
    ensures |r| <= |ps|
    ensures forall p :: p in r ==> p in ps && p.userId == userId && p.groupId == groupId
    ensures forall i :: 0 <= i < |ps| && ps[i].userId == userId && ps[i].groupId == groupId ==> ps[i] in r
  {
    if ps == [] then []
    else
      var last := ps[|ps| - 1];
      OwnedBy(ps[..|ps| - 1], userId, groupId) + (if last.userId == userId && last.groupId == groupId then [last] else [])
  }

  /** The `reduce` of `calculateUserScoreInGroup`: `points_earned` summed
      over front-end predictions. */
  function SumEarned(ps: seq<Prediction>): (total: int)
    ensures (forall i :: 0 <= i < |ps| ==> ps[i].pointsEarned >= 0) ==> total >= 0
  {
    if ps == [] then 0 else SumEarned(ps[..|ps| - 1]) + ps[|ps| - 1].pointsEarned
  }

  /** `calculateUserScoreInGroup`: the points of the user's predictions in the
      group, filtered then summed. */
  function CalculateUserScoreInGroup(userId: string, groupId: string, ps: seq<Prediction>): (score: int)
    ensures (forall i :: 0 <= i < |ps| ==> ps[i].pointsEarned >= 0) ==> score >= 0
    ensures (forall i :: 0 <= i < |ps| ==> ps[i].userId != userId || ps[i].groupId != groupId) ==> score == 0
  {
    SumEarned(OwnedBy(ps, userId, groupId))
  }

  /** The same score as one running total over all predictions. */
  function ScoreFold(userId: string, groupId: string, ps: seq<Prediction>): int {
    if ps == [] then 0
    else
      var last := ps[|ps| - 1];
      ScoreFold(userId, groupId, ps[..|ps| - 1]) + (if last.userId == userId && last.groupId == groupId then last.pointsEarned else 0)
  }

  lemma {:induction false} SumEarnedAppend(xs: seq<Prediction>, ys: seq<Prediction>)
    ensures SumEarned(xs + ys) == SumEarned(xs) + SumEarned(ys)
  {
    if ys == [] {
      assert xs + ys == xs;
    } else {
      assert (xs + ys)[..|xs + ys| - 1] == xs + ys[..|ys| - 1];
      SumEarnedAppend(xs, ys[..|ys| - 1]);
    }
  }

  /** Filtering then summing equals the running total. */
  lemma {:induction false} ScoreIsFold(userId: string, groupId: string, ps: seq<Prediction>)
    ensures CalculateUserScoreInGroup(userId, groupId, ps) == ScoreFold(userId, groupId, ps)
  {
    if ps != [] {
      var last := ps[|ps| - 1];
      ScoreIsFold(userId, groupId, ps[..|ps| - 1]);
      SumEarnedAppend(OwnedBy(ps[..|ps| - 1], userId, groupId),
                      if last.userId == userId && last.groupId == groupId then [last] else []);
    }
  }

  lemma {:induction false} OwnedByAppend(xs: seq<Prediction>, ys: seq<Prediction>, userId: string, groupId: string)
    ensures OwnedBy(xs + ys, userId, groupId) == OwnedBy(xs, userId, groupId) + OwnedBy(ys, userId, groupId)
  {
    if ys == [] {
      assert xs + ys == xs;
    } else {
      assert (xs + ys)[..|xs + ys| - 1] == xs + ys[..|ys| - 1];
      OwnedByAppend(xs, ys[..|ys| - 1], userId, groupId);
    }
  }

  /** The score of a concatenation is the sum of the scores, and a prediction
      of another user or another group adds nothing. */
  lemma ScoreAdditive(userId: string, groupId: string, xs: seq<Prediction>, ys: seq<Prediction>)
    ensures CalculateUserScoreInGroup(userId, groupId, xs + ys) ==
            CalculateUserScoreInGroup(userId, groupId, xs) + CalculateUserScoreInGroup(userId, groupId, ys)
  {
    OwnedByAppend(xs, ys, userId, groupId);
    SumEarnedAppend(OwnedBy(xs, userId, groupId), OwnedBy(ys, userId, groupId));
  }

  lemma OthersDoNotCount(userId: string, groupId: string, ps: seq<Prediction>, p: Prediction)
    requires p.userId != userId || p.groupId != groupId
    ensures CalculateUserScoreInGroup(userId, groupId, ps + [p]) == CalculateUserScoreInGroup(userId, groupId, ps)
  {
    ScoreAdditive(userId, groupId, ps, [p]);
    assert [p][..0] == [];
    assert OwnedBy([p], userId, groupId) == [];
  }

  lemma SumEarnedOfOwnedStep(userId: string, groupId: string, ps: seq<Prediction>, p: Prediction)
    ensures CalculateUserScoreInGroup(userId, groupId, ps + [p]) ==
            CalculateUserScoreInGroup(userId, groupId, ps) +
            (if p.userId == userId && p.groupId == groupId then p.pointsEarned else 0)
  {
    var pre := ps + [p];
    assert pre[..|pre| - 1] == ps && pre[|pre| - 1] == p;
    var own := OwnedBy(ps, userId, groupId);
    var tail := if p.userId == userId && p.groupId == groupId then [p] else [];
    assert OwnedBy(pre, userId, groupId) == own + tail;
    SumEarnedAppend(own, tail);
    assert [p][..0] == [];
    assert SumEarned(tail) == if p.userId == userId && p.groupId == groupId then p.pointsEarned else 0;
  }

  /** One more prediction adds its points to its own user and group only. */
  lemma ScoreOfPrefix(userId: string, groupId: string, ps: seq<Prediction>, k: nat)
    requires k < |ps|
    ensures CalculateUserScoreInGroup(userId, groupId, ps[..k + 1]) ==
            CalculateUserScoreInGroup(userId, groupId, ps[..k]) +
            (if ps[k].userId == userId && ps[k].groupId == groupId then ps[k].pointsEarned else 0)
  {
    assert ps[..k + 1] == ps[..k] + [ps[k]];
    SumEarnedOfOwnedStep(userId, groupId, ps[..k], ps[k]);
  }

  /** The score of a user in a group read off a table of running totals:
      `partial[k]` is the score over the first `k` predictions. */
  lemma ScoreByRunningTotals(userId: string, groupId: string, ps: seq<Prediction>, partial: seq<int>)
    requires |partial| == |ps| + 1 && partial[0] == 0
    requires forall k :: 0 <= k < |ps| ==>
      partial[k + 1] == partial[k] + (if ps[k].userId == userId && ps[k].groupId == groupId then ps[k].pointsEarned else 0)
    ensures CalculateUserScoreInGroup(userId, groupId, ps) == partial[|ps|]
  {
    assert ps[..0] == [];
    for k := 0 to |ps|
      invariant CalculateUserScoreInGroup(userId, groupId, ps[..k]) == partial[k]
    {
      ScoreOfPrefix(userId, groupId, ps, k);
    }
    assert ps[..|ps|] == ps;
  }

  // ---- the leaderboard ----

  datatype LeaderboardEntry = LeaderboardEntry(userId: string, userName: string, score: int)

  predicate NonIncreasing(es: seq<LeaderboardEntry>) {
    forall i, j :: 0 <= i < j < |es| ==> es[i].score >= es[j].score
  }

  /** The entries with score `v`, in their order. */
  function WithScore(es: seq<LeaderboardEntry>, v: int): seq<LeaderboardEntry> {
    if es == [] then [] else (if es[0].score == v then [es[0]] else []) + WithScore(es[1..], v)
  }

  /** Inserts `x` after every leading entry whose score is at least its own. */
  function Insert(s: seq<LeaderboardEntry>, x: LeaderboardEntry): (r: seq<LeaderboardEntry>)
    ensures |r| == |s| + 1
  {
    if s == [] then [x]
    else if s[0].score >= x.score then [s[0]] + Insert(s[1..], x)
    else [x] + s
  }

  /** Insertion adds exactly `x`. */
  lemma {:induction false} InsertAddsOne(s: seq<LeaderboardEntry>, x: LeaderboardEntry)
    ensures multiset(Insert(s, x)) == multiset(s) + multiset{x}
  {
    if s != [] && s[0].score >= x.score {
      InsertAddsOne(s[1..], x);
      assert s == [s[0]] + s[1..];
    }
  }

  /** Insertion invents no score above a bound that `s` and `x` respect. */
  lemma {:induction false} InsertBounded(s: seq<LeaderboardEntry>, x: LeaderboardEntry, bound: int)
    requires forall i :: 0 <= i < |s| ==> s[i].score <= bound
    requires x.score <= bound
    ensures forall j :: 0 <= j < |Insert(s, x)| ==> Insert(s, x)[j].score <= bound
  {
    if s != [] && s[0].score >= x.score {
      InsertBounded(s[1..], x, bound);
      var t := Insert(s[1..], x);
      assert Insert(s, x) == [s[0]] + t;
      forall j | 0 < j < |Insert(s, x)|
        ensures Insert(s, x)[j].score <= bound
      {
        assert Insert(s, x)[j] == t[j - 1];
      }
    } else if s != [] {
      assert Insert(s, x) == [x] + s;
      forall j | 0 < j < |Insert(s, x)|
        ensures Insert(s, x)[j].score <= bound
      {
        assert Insert(s, x)[j] == s[j - 1];
      }
    }
  }

  /** Inserting into a non-increasing sequence keeps it non-increasing. */
  lemma {:induction false} InsertIntoSorted(s: seq<LeaderboardEntry>, x: LeaderboardEntry)
    requires NonIncreasing(s)
    ensures NonIncreasing(Insert(s, x))
  {
    var r := Insert(s, x);
    if s != [] && s[0].score >= x.score {
      var t := Insert(s[1..], x);
      InsertIntoSorted(s[1..], x);
      InsertBounded(s[1..], x, s[0].score);
      assert r == [s[0]] + t;
      forall i, j | 0 <= i < j < |r|
        ensures r[i].score >= r[j].score
      {
        assert r[j] == t[j - 1];
        if i > 0 {
          assert r[i] == t[i - 1];
        }
      }
    } else if s != [] {
      assert r == [x] + s;
      forall i, j | 0 <= i < j < |r|
        ensures r[i].score >= r[j].score
      {
        assert r[j] == s[j - 1];
        if i > 0 {
          assert r[i] == s[i - 1];
        }
      }
    }
  }

  /** `sort((a, b) => b.score - a.score)`: highest score first; JavaScript's
      sort is stable, so entries with equal scores keep their order. */
  function SortByScore(es: seq<LeaderboardEntry>): (r: seq<LeaderboardEntry>)
    ensures NonIncreasing(r)
    ensures multiset(r) == multiset(es)
    ensures |r| == |es|
  {
    if es == [] then []
    else
      assert es == es[..|es| - 1] + [es[|es| - 1]];
      InsertIntoSorted(SortByScore(es[..|es| - 1]), es[|es| - 1]);
      InsertAddsOne(SortByScore(es[..|es| - 1]), es[|es| - 1]);
      Insert(SortByScore(es[..|es| - 1]), es[|es| - 1])
  }

  lemma {:induction false} WithScoreAppend(xs: seq<LeaderboardEntry>, ys: seq<LeaderboardEntry>, v: int)
    ensures WithScore(xs + ys, v) == WithScore(xs, v) + WithScore(ys, v)
  {
    if xs == [] {
      assert xs + ys == ys;
    } else {
      var head := if xs[0].score == v then [xs[0]] else [];
      calc {
        WithScore(xs + ys, v);
        { assert xs + ys != [] && (xs + ys)[0] == xs[0] && (xs + ys)[1..] == xs[1..] + ys; }
        head + WithScore(xs[1..] + ys, v);
        { WithScoreAppend(xs[1..], ys, v); }
        head + (WithScore(xs[1..], v) + WithScore(ys, v));
        (head + WithScore(xs[1..], v)) + WithScore(ys, v);
      }
    }
  }

  lemma {:induction false} WithScoreNone(s: seq<LeaderboardEntry>, v: int)
    requires forall i :: 0 <= i < |s| ==> s[i].score < v
    ensures WithScore(s, v) == []
  {
    if s != [] {
      WithScoreNone(s[1..], v);
    }
  }

  lemma WithScoreSingle(x: LeaderboardEntry, v: int)
    ensures WithScore([x], v) == if x.score == v then [x] else []
  {
    assert [x][1..] == [];
  }

  lemma {:induction false} WithScoreInsert(s: seq<LeaderboardEntry>, x: LeaderboardEntry, v: int)
    requires NonIncreasing(s)
    ensures WithScore(Insert(s, x), v) == WithScore(s, v) + (if x.score == v then [x] else [])
  {
    WithScoreSingle(x, v);
    if s == [] {
    } else if s[0].score >= x.score {
      var t := Insert(s[1..], x);
      var head := WithScore([s[0]], v);
      var xPart := if x.score == v then [x] else [];
      assert s == [s[0]] + s[1..];
      calc {
        WithScore(Insert(s, x), v);
        { assert Insert(s, x) == [s[0]] + t; }
        WithScore([s[0]] + t, v);
        { WithScoreAppend([s[0]], t, v); }
        head + WithScore(t, v);
        { WithScoreInsert(s[1..], x, v); }
        head + (WithScore(s[1..], v) + xPart);
        head + WithScore(s[1..], v) + xPart;
        { WithScoreAppend([s[0]], s[1..], v); }
        WithScore(s, v) + xPart;
      }
    } else {
      WithScoreNone(s, x.score);
      assert Insert(s, x) == [x] + s;
      WithScoreAppend([x], s, v);
    }
  }

  /** The sort is stable: for every score, the entries with that score come
      out in the order they went in. */
  lemma {:induction false} SortIsStable(es: seq<LeaderboardEntry>, v: int)
    ensures WithScore(SortByScore(es), v) == WithScore(es, v)
  {
    if es != [] {
      var init := es[..|es| - 1];
      var x := es[|es| - 1];
      var sorted := SortByScore(init);
      assert SortByScore(es) == Insert(sorted, x);
      SortIsStable(init, v);
      WithScoreInsert(sorted, x, v);
      assert WithScore(es, v) == WithScore(init, v) + WithScore([x], v) by {
        SplitLast(es);
        WithScoreAppend(init, [x], v);
      }
      WithScoreSingle(x, v);
    }
  }

  /** A member's shown name: the user's name when the user exists and has a
      non-empty name, "Unknown" otherwise. */
  function DisplayName(users: seq<User>, memberId: string): (n: string)
    ensures n != ""
    ensures (forall i :: 0 <= i < |users| ==> users[i].id != memberId) ==> n == "Unknown"
  {
    match FirstIndex(users, (u: User) => u.id == memberId)
    case None => "Unknown"
    case Some(k) => if users[k].name != "" then users[k].name else "Unknown"
  }

  /** The shown name when the first user with that id is at index `k`. */
  lemma DisplayNameAt(users: seq<User>, memberId: string, k: nat)
    requires k < |users| && users[k].id == memberId
    requires forall j :: 0 <= j < k ==> users[j].id != memberId
    ensures DisplayName(users, memberId) == if users[k].name != "" then users[k].name else "Unknown"
  {
    var f := FirstIndex(users, (u: User) => u.id == memberId);
    assert f.Some?;
  }

  /** One entry per member, in the group's member order. */
  function MemberEntries(groupId: string, members: seq<string>, users: seq<User>, ps: seq<Prediction>): (es: seq<LeaderboardEntry>)
    ensures |es| == |members|
    ensures forall i :: 0 <= i < |es| ==>
      es[i].userId == members[i] && es[i].userName == DisplayName(users, members[i])
      && es[i].score == CalculateUserScoreInGroup(members[i], groupId, ps)
  {
    seq(|members|, i requires 0 <= i < |members| =>
      LeaderboardEntry(members[i], DisplayName(users, members[i]), CalculateUserScoreInGroup(members[i], groupId, ps)))
  }

  /** `getGroupLeaderboard`: no group gives an empty board; otherwise every
      member appears once with their score in the group, highest first, and
      members with equal scores in the group's order. */
  function GetGroupLeaderboard(groupId: string, group: Option<Group>, users: seq<User>, ps: seq<Prediction>): (r: seq<LeaderboardEntry>)
    ensures group.None? ==> r == []
    ensures group.Some? ==> |r| == |group.value.members|
    ensures NonIncreasing(r)
    ensures group.Some? ==> multiset(r) == multiset(MemberEntries(groupId, group.value.members, users, ps))
    ensures forall e :: e in r ==>
      group.Some? && e.userId in group.value.members && e.userName != "" &&
      e.score == CalculateUserScoreInGroup(e.userId, groupId, ps)
  {
    match group
    case None => []
    case Some(g) =>
      var es := MemberEntries(groupId, g.members, users, ps);
      var r := SortByScore(es);
      assert forall e :: e in r ==> e in multiset(es);
      r
  }

  /** Members with equal scores appear in the group's member order. */
  lemma LeaderboardTiesKeepMemberOrder(groupId: string, g: Group, users: seq<User>, ps: seq<Prediction>, v: int)
    ensures WithScore(GetGroupLeaderboard(groupId, Some(g), users, ps), v) ==
            WithScore(MemberEntries(groupId, g.members, users, ps), v)
  {
    SortIsStable(MemberEntries(groupId, g.members, users, ps), v);
  }
}
