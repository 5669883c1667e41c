/** The match simulator: each tick advances the Match table by one step.
    It scores a point in the ongoing match (finishing it at 10), or starts
    the next upcoming match, or creates a new match between two distinct
    teams. `Math.random()` is an oracle of draws, `crypto.randomUUID()` the
    parameter `newId` and `new Date().toISOString()` the parameter `now`. */
module SimulateTick {
  import opened Wrappers
  import opened Seqs
  import opened JsValues
  import opened Random

  /** The teams a simulated match is drawn from. */
  const Teams: seq<string> := ["T1", "Gen.G", "JD Gaming", "BLG", "G2", "Fnatic"]

  /** A document of the Match table. Scores are stored as text and may be
      missing. */
  datatype MatchDoc = MatchDoc(
    id: string,
    createdBy: string,
    createdById: string,
    createdDate: string,
    updatedDate: string,
    isSample: string,
    matchDate: string,
    scoreA: Option<string>,
    scoreB: Option<string>,
    status: string,
    teamA: string,
    teamALogo: string,
    teamB: string,
    teamBLogo: string,
    tournament: string,
    winner: string)

  predicate IsOngoing(m: MatchDoc) { m.status == "ongoing" }

  predicate IsUpcoming(m: MatchDoc) { m.status == "upcoming" }

  /** The team a draw picks: `teams[Math.floor(Math.random() * teams.length)]`. */
  function TeamOf(r: real): (t: string)
    requires IsDraw(r)
    ensures t in Teams
  {
    Teams[PickIndex(r, |Teams|)]
  }

  /** The table has neither an ongoing nor an upcoming match, so a tick
      creates one. */
  predicate NeedsNewMatch(ms: seq<MatchDoc>) {
    forall i :: 0 <= i < |ms| ==> !IsOngoing(ms[i]) && !IsUpcoming(ms[i])
  }

  /** The draws for a new match: the first picks team A, and some later draw
      picks another team, which ends the redraw loop. */
  predicate TeamDrawsSettle(d: seq<real>) {
    |d| > 0 && AllDraws(d) && exists j :: 1 <= j < |d| && TeamOf(d[j]) != TeamOf(d[0])
  }

  /** The first draw from position `i` on that picks a team other than `first`. */
  function FirstOtherTeam(d: seq<real>, first: string, i: nat): (j: nat)
    requires AllDraws(d) && i <= |d|
    requires exists k :: i <= k < |d| && TeamOf(d[k]) != first
    ensures i <= j < |d| && TeamOf(d[j]) != first
    ensures forall k :: i <= k < j ==> TeamOf(d[k]) == first
    decreases |d| - i
  {
    if TeamOf(d[i]) != first then i else FirstOtherTeam(d, first, i + 1)
  }

  /** The draw that ends the `teamB` redraw loop. */
  function TeamBDraw(d: seq<real>): (j: nat)
    requires TeamDrawsSettle(d)
    ensures 1 <= j < |d| && TeamOf(d[j]) != TeamOf(d[0])
    ensures forall k :: 1 <= k < j ==> TeamOf(d[k]) == TeamOf(d[0])
  {
    FirstOtherTeam(d, TeamOf(d[0]), 1)
  }

  /** The match inserted when there is nothing to play. */
  function NewMatch(now: string, newId: string, teamA: string, teamB: string): MatchDoc {
    MatchDoc(newId, "system", "system", now, now, "", now, Some("0"), Some("0"), "ongoing",
      teamA, "", teamB, "", "Simulated League", "none")
  }

  /** `s || "0"` for a stored score. */
  function TextOrZero(s: Option<string>): string {
    if s.Some? && s.value != "" then s.value else "0"
  }

  /** A stored score as the simulator reads it: `parseInt(s || "0", 10)`,
      NaN being `None`. */
  function ScoreOf(s: Option<string>): Option<int> {
    ParseInt(TextOrZero(s))
  }

  /** `n + 1` on a number that may be NaN. */
  function Inc(n: Option<int>): Option<int> {
    if n.Some? then Some(n.value + 1) else None
  }

  /** `n >= 10`; NaN compares false. */
  predicate ReachesTen(n: Option<int>) {
    n.Some? && n.value >= 10
  }

  /** `a > b`; NaN compares false. */
  predicate Leads(a: Option<int>, b: Option<int>) {
    a.Some? && b.Some? && a.value > b.value
  }

  /** Team A scores when the draw exceeds 0.5, team B otherwise. */
  predicate TeamAScores(scoreDraw: real) {
    scoreDraw > 0.5
  }

  /** The ongoing match after one point: both scores rewritten as text and,
      once either reaches 10, the match finished with the leader's name as
      winner (team B's name unless team A strictly leads). */
  function Scored(m: MatchDoc, scoreDraw: real, now: string): (r: MatchDoc)
    ensures r.id == m.id && r.teamA == m.teamA && r.teamB == m.teamB && r.updatedDate == now
    ensures r.status != "finished" ==> r.status == m.status && r.winner == m.winner
    ensures r.status == "finished" ==> r.winner == m.winner || r.winner == m.teamA || r.winner == m.teamB
  {
    var a := ScoreOf(m.scoreA);
    var b := ScoreOf(m.scoreB);
    var na := if TeamAScores(scoreDraw) then Inc(a) else a;
    var nb := if TeamAScores(scoreDraw) then b else Inc(b);
    var m1 := m.(scoreA := Some(NumToString(na)), scoreB := Some(NumToString(nb)), updatedDate := now);
    if ReachesTen(na) || ReachesTen(nb) then
      m1.(status := "finished", winner := if Leads(na, nb) then m.teamA else m.teamB)
    else m1
  }

  /** The table after one tick: a match is added exactly when there is
      nothing to play, and otherwise at most one existing match changes. */
  function Tick(ms: seq<MatchDoc>, now: string, newId: string, teamDraws: seq<real>, scoreDraw: real): (r: seq<MatchDoc>)
    requires NeedsNewMatch(ms) ==> TeamDrawsSettle(teamDraws)
    ensures |r| == (if NeedsNewMatch(ms) then |ms| + 1 else |ms|)
    ensures forall i, j :: 0 <= i < j < |ms| ==> r[i] == ms[i] || r[j] == ms[j]
  {
    match FirstIndex(ms, IsOngoing)
    case Some(k) => ms[k := Scored(ms[k], scoreDraw, now)]
    case None =>
      match FirstIndex(ms, IsUpcoming)
      case Some(k) => ms[k := ms[k].(status := "ongoing")]
      case None =>
        ms + [NewMatch(now, newId, TeamOf(teamDraws[0]), TeamOf(teamDraws[TeamBDraw(teamDraws)]))]
  }

  /** The Match table of the Convex deployment. */
  class MatchTable {
    var matches: seq<MatchDoc>

    constructor (ms: seq<MatchDoc>)
      ensures matches == ms
    {
      matches := ms;
    }

    /** `simulateTick`: `teamDraws` are the `Math.random()` draws of the
        new-match branch, `scoreDraw` the one of the scoring branch. */
    method SimulateTick(now: string, newId: string, teamDraws: seq<real>, scoreDraw: real)
      modifies this
      requires NeedsNewMatch(matches) ==> TeamDrawsSettle(teamDraws)
      ensures matches == Tick(old(matches), now, newId, teamDraws, scoreDraw)
    {
      var current := FirstIndex(matches, IsOngoing);
      if current.None? {
        var next := FirstIndex(matches, IsUpcoming);
        if next.Some? {
          matches := matches[next.value := matches[next.value].(status := "ongoing")];
          return;
        }
        var teamA := Teams[PickIndex(teamDraws[0], |Teams|)];
        var teamB := teamA;
        ghost var stop := TeamBDraw(teamDraws);
        var j := 0;
        while teamB == teamA
          invariant 0 <= j <= stop
          invariant j == 0 ==> teamB == teamA
          invariant j > 0 ==> teamB == TeamOf(teamDraws[j])
          decreases stop - j
        {
          j := j + 1;
          teamB := Teams[PickIndex(teamDraws[j], |Teams|)];
        }
        matches := matches + [NewMatch(now, newId, teamA, teamB)];
        return;
      }
      var k := current.value;
      var m := matches[k];
      var scoreA := ParseInt(TextOrZero(m.scoreA));
      var scoreB := ParseInt(TextOrZero(m.scoreB));
      var randomTeamIsA := scoreDraw > 0.5;
      var newScoreA := if randomTeamIsA then Inc(scoreA) else scoreA;
      var newScoreB := if randomTeamIsA then scoreB else Inc(scoreB);
      matches := matches[k := m.(scoreA := Some(NumToString(newScoreA)), scoreB := Some(NumToString(newScoreB)), updatedDate := now)];
      if ReachesTen(newScoreA) || ReachesTen(newScoreB) {
        var winner := if Leads(newScoreA, newScoreB) then m.teamA else m.teamB;
        matches := matches[k := matches[k].(status := "finished", winner := winner, updatedDate := now)];
      }
    }
  }

  // Properties of a tick

  /** With no ongoing match, the first upcoming match becomes ongoing and
      nothing else changes. */
  lemma StartsFirstUpcoming(ms: seq<MatchDoc>, now: string, newId: string, teamDraws: seq<real>, scoreDraw: real, k: nat)
    requires forall i :: 0 <= i < |ms| ==> !IsOngoing(ms[i])
    requires k < |ms| && IsUpcoming(ms[k]) && forall i :: 0 <= i < k ==> !IsUpcoming(ms[i])
    ensures Tick(ms, now, newId, teamDraws, scoreDraw) == ms[k := ms[k].(status := "ongoing")]
  {
  }

  /** With neither an ongoing nor an upcoming match, one new ongoing match
      is appended, at 0-0, between two distinct teams of the list. */
  lemma CreatesMatch(ms: seq<MatchDoc>, now: string, newId: string, teamDraws: seq<real>, scoreDraw: real)
    requires NeedsNewMatch(ms) && TeamDrawsSettle(teamDraws)
    ensures var r := Tick(ms, now, newId, teamDraws, scoreDraw);
      |r| == |ms| + 1 && r[..|ms|] == ms
      && var m := r[|ms|];
      m.status == "ongoing" && m.scoreA == Some("0") && m.scoreB == Some("0")
      && m.teamA in Teams && m.teamB in Teams && m.teamA != m.teamB
      && m.teamA == TeamOf(teamDraws[0]) && m.winner == "none" && m.id == newId
  {
    var r := Tick(ms, now, newId, teamDraws, scoreDraw);
    assert r == ms + [r[|ms|]];
  }

  /** What the simulator writes as a score, it reads back. */
  lemma ScoreOfToString(n: int)
    ensures ScoreOf(Some(IntToString(n))) == Some(n)
  {
    ParseIntOfToString(n);
    assert TextOrZero(Some(IntToString(n))) == IntToString(n);
  }

  /** A score written from the number `n` reads back as `n`. */
  lemma ScoreOfWritten(text: Option<string>, written: Option<int>, n: int)
    requires written == Some(n) && text == Some(NumToString(written))
    ensures ScoreOf(text) == Some(n)
  {
    ScoreOfToString(n);
  }

  /** A missing or empty score reads as 0. */
  lemma MissingScoreIsZero()
    ensures ScoreOf(None) == Some(0) && ScoreOf(Some("")) == Some(0)
  {
    ParseIntOfToString(0);
    assert IntToString(0) == "0";
  }

  /** The scores a point writes, as text. */
  lemma ScoredTexts(m: MatchDoc, scoreDraw: real, now: string)
    ensures var a, b := ScoreOf(m.scoreA), ScoreOf(m.scoreB);
      var r := Scored(m, scoreDraw, now);
      r.scoreA == Some(NumToString(if TeamAScores(scoreDraw) then Inc(a) else a))
      && r.scoreB == Some(NumToString(if TeamAScores(scoreDraw) then b else Inc(b)))
  {
  }

  /** One point: the side the draw names gains 1, the other keeps its score. */
  lemma ScoredAddsOne(m: MatchDoc, scoreDraw: real, now: string, a: int, b: int)
    requires ScoreOf(m.scoreA) == Some(a) && ScoreOf(m.scoreB) == Some(b)
    ensures var r := Scored(m, scoreDraw, now);
      (TeamAScores(scoreDraw) ==> ScoreOf(r.scoreA) == Some(a + 1) && ScoreOf(r.scoreB) == Some(b))
      && (!TeamAScores(scoreDraw) ==> ScoreOf(r.scoreA) == Some(a) && ScoreOf(r.scoreB) == Some(b + 1))
  {
    var r := Scored(m, scoreDraw, now);
    ScoredTexts(m, scoreDraw, now);
    if TeamAScores(scoreDraw) {
      ScoreOfWritten(r.scoreA, Inc(Some(a)), a + 1);
      ScoreOfWritten(r.scoreB, Some(b), b);
    } else {
      ScoreOfWritten(r.scoreA, Some(a), a);
      ScoreOfWritten(r.scoreB, Inc(Some(b)), b + 1);
    }
  }

  /** On the first ongoing match exactly one side gains a point (a missing
      score counting as 0) and no other match changes. */
  lemma ScoresOnePoint(ms: seq<MatchDoc>, now: string, newId: string, teamDraws: seq<real>, scoreDraw: real, k: nat, a: int, b: int)
    requires k < |ms| && IsOngoing(ms[k]) && forall i :: 0 <= i < k ==> !IsOngoing(ms[i])
    requires ScoreOf(ms[k].scoreA) == Some(a) && ScoreOf(ms[k].scoreB) == Some(b)
    ensures var r := Tick(ms, now, newId, teamDraws, scoreDraw);
      |r| == |ms| && (forall i :: 0 <= i < |ms| && i != k ==> r[i] == ms[i])
      && (TeamAScores(scoreDraw) ==> ScoreOf(r[k].scoreA) == Some(a + 1) && ScoreOf(r[k].scoreB) == Some(b))
      && (!TeamAScores(scoreDraw) ==> ScoreOf(r[k].scoreA) == Some(a) && ScoreOf(r[k].scoreB) == Some(b + 1))
  {
    TickScoresFirstOngoing(ms, now, newId, teamDraws, scoreDraw, k);
    ScoredAddsOne(ms[k], scoreDraw, now, a, b);
  }

  /** A tick on a table with an ongoing match scores the first one. */
  lemma TickScoresFirstOngoing(ms: seq<MatchDoc>, now: string, newId: string, teamDraws: seq<real>, scoreDraw: real, k: nat)
    requires k < |ms| && IsOngoing(ms[k]) && forall i :: 0 <= i < k ==> !IsOngoing(ms[i])
    ensures Tick(ms, now, newId, teamDraws, scoreDraw) == ms[k := Scored(ms[k], scoreDraw, now)]
  {
    assert FirstIndex(ms, IsOngoing) == Some(k);
  }

  /** A score that reads as a number from 0 to 9. */
  predicate BelowTen(s: Option<string>) {
    ScoreOf(s).Some? && 0 <= ScoreOf(s).value < 10
  }

  /** Every match still to be played or being played has both scores below 10. */
  predicate LiveScoresBelowTen(ms: seq<MatchDoc>) {
    forall i :: 0 <= i < |ms| && (IsOngoing(ms[i]) || IsUpcoming(ms[i])) ==>
      BelowTen(ms[i].scoreA) && BelowTen(ms[i].scoreB)
  }

  /** From scores below 10, a finished match has a unique leader at 10, who
      is named winner; a match left ongoing stays below 10. */
  lemma {:induction false} FinishHasNoTie(m: MatchDoc, scoreDraw: real, now: string)
    requires BelowTen(m.scoreA) && BelowTen(m.scoreB) && IsOngoing(m)
    ensures var r := Scored(m, scoreDraw, now);
      var na := ScoreOf(r.scoreA);
      var nb := ScoreOf(r.scoreB);
      na.Some? && nb.Some?
      && (r.status == "finished" <==> na.value == 10 || nb.value == 10)
      && (r.status == "finished" ==>
            na.value != nb.value && r.winner == (if na.value > nb.value then m.teamA else m.teamB))
      && (r.status != "finished" ==> IsOngoing(r) && BelowTen(r.scoreA) && BelowTen(r.scoreB))
  {
    var a := ScoreOf(m.scoreA).value;
    var b := ScoreOf(m.scoreB).value;
    ScoredAddsOne(m, scoreDraw, now, a, b);
  }

  lemma ScoringKeepsBelowTen(ms: seq<MatchDoc>, k: nat, scoreDraw: real, now: string)
    requires LiveScoresBelowTen(ms) && k < |ms| && IsOngoing(ms[k])
    ensures LiveScoresBelowTen(ms[k := Scored(ms[k], scoreDraw, now)])
  {
    var r := ms[k := Scored(ms[k], scoreDraw, now)];
    forall i | 0 <= i < |r| && (IsOngoing(r[i]) || IsUpcoming(r[i]))
      ensures BelowTen(r[i].scoreA) && BelowTen(r[i].scoreB)
    {
      if i == k {
        FinishHasNoTie(ms[k], scoreDraw, now);
        assert Scored(ms[k], scoreDraw, now).status != "finished";
      } else {
        assert r[i] == ms[i];
      }
    }
  }

  lemma StartingKeepsBelowTen(ms: seq<MatchDoc>, k: nat)
    requires LiveScoresBelowTen(ms) && k < |ms| && IsUpcoming(ms[k])
    ensures LiveScoresBelowTen(ms[k := ms[k].(status := "ongoing")])
  {
    var r := ms[k := ms[k].(status := "ongoing")];
    forall i | 0 <= i < |r| && (IsOngoing(r[i]) || IsUpcoming(r[i]))
      ensures BelowTen(r[i].scoreA) && BelowTen(r[i].scoreB)
    {
      assert r[i].scoreA == ms[i].scoreA && r[i].scoreB == ms[i].scoreB;
      assert IsOngoing(ms[i]) || IsUpcoming(ms[i]);
    }
  }

  /** A score of "0", as a new match gets, is below 10. */
  lemma ZeroIsBelowTen()
    ensures BelowTen(Some("0"))
  {
    ScoreOfToString(0);
    assert IntToString(0) == "0";
  }

  lemma CreatingKeepsBelowTen(ms: seq<MatchDoc>, m: MatchDoc)
    requires LiveScoresBelowTen(ms) && BelowTen(m.scoreA) && BelowTen(m.scoreB)
    ensures LiveScoresBelowTen(ms + [m])
  {
    var r := ms + [m];
    forall i | 0 <= i < |r| && (IsOngoing(r[i]) || IsUpcoming(r[i]))
      ensures BelowTen(r[i].scoreA) && BelowTen(r[i].scoreB)
    {
      if i < |ms| {
        assert r[i] == ms[i];
      } else {
        assert r[i] == m;
      }
    }
  }

  /** A tick keeps every live match below 10, so no match ever finishes tied. */
  lemma TickKeepsScoresBelowTen(ms: seq<MatchDoc>, now: string, newId: string, teamDraws: seq<real>, scoreDraw: real)
    requires NeedsNewMatch(ms) ==> TeamDrawsSettle(teamDraws)
    requires LiveScoresBelowTen(ms)
    ensures LiveScoresBelowTen(Tick(ms, now, newId, teamDraws, scoreDraw))
  {
    var current := FirstIndex(ms, IsOngoing);
    var next := FirstIndex(ms, IsUpcoming);
    if current.Some? {
      ScoringKeepsBelowTen(ms, current.value, scoreDraw, now);
    } else if next.Some? {
      StartingKeepsBelowTen(ms, next.value);
    } else {
      var m := NewMatch(now, newId, TeamOf(teamDraws[0]), TeamOf(teamDraws[TeamBDraw(teamDraws)]));
      assert BelowTen(m.scoreA) && BelowTen(m.scoreB) by {
        assert m.scoreA == Some("0") && m.scoreB == Some("0");
        ZeroIsBelowTen();
      }
      CreatingKeepsBelowTen(ms, m);
    }
  }

  /** There is never more than one ongoing match after a tick that starts
      from at most one. */
  predicate AtMostOneOngoing(ms: seq<MatchDoc>) {
    forall i, j :: 0 <= i < j < |ms| ==> !(IsOngoing(ms[i]) && IsOngoing(ms[j]))
  }

  lemma TickKeepsOneOngoing(ms: seq<MatchDoc>, now: string, newId: string, teamDraws: seq<real>, scoreDraw: real)
    requires NeedsNewMatch(ms) ==> TeamDrawsSettle(teamDraws)
    requires AtMostOneOngoing(ms)
    ensures AtMostOneOngoing(Tick(ms, now, newId, teamDraws, scoreDraw))
  {
    var r := Tick(ms, now, newId, teamDraws, scoreDraw);
    if FirstIndex(ms, IsOngoing).None? && FirstIndex(ms, IsUpcoming).None? {
      assert r == ms + [r[|ms|]];
    }
  }
}
