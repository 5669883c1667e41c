/** The front end's cross-group fold: the user's stats in each of their groups
    are added up into one set of totals, a list of per-group scores and an
    overall accuracy. The groups list and each group's stats result are the
    answers of the front end's services, taken here as inputs. */
module ScoreAggregation {
  import opened Wrappers
  import Scoring

  /** A group as the groups service lists it. */
  datatype GroupRef = GroupRef(id: string, name: string)

  /** The groups service's answer: a list (absent on failure) and an error text. */
  datatype GroupsResult = GroupsResult(groups: Option<seq<GroupRef>>, error: Option<string>)

  /** A group's stats as delivered; any number may be missing. */
  datatype GroupStats = GroupStats(
    score: Option<int>,
    totalPoints: Option<int>,
    correctPredictions: Option<int>,
    totalPredictions: Option<int>,
    exactScores: Option<int>,
    accuracy: Option<int>)

  /** One group's score result: stats (absent when null) and an error text. */
  datatype ScoreResult = ScoreResult(stats: Option<GroupStats>, error: Option<string>)

  datatype GroupScore = GroupScore(
    groupId: string,
    groupName: string,
    score: int,
    correctPredictions: int,
    accuracy: int)

  datatype AggregatedStats = AggregatedStats(
    totalPoints: int,
    groupsCount: nat,
    correctPredictions: int,
    totalPredictions: int,
    exactScores: int,
    accuracy: int,
    groupScores: seq<GroupScore>)

  /** The service's answer: stats, or none and an error text. */
  datatype Aggregation = Aggregation(stats: Option<AggregatedStats>, error: Option<string>)

  const GroupsLoadError := "Erreur lors du chargement des groupes"

  /** A string or null is truthy when it is a non-empty string. */
  predicate TruthyText(s: Option<string>) {
    s.Some? && s.value != ""
  }

  /** `x || fallback` for a number that may be missing: 0 is falsy too. */
  function OrElse(x: Option<int>, fallback: int): int {
    if x.Some? && x.value != 0 then x.value else fallback
  }

  /** The groups fetch fails when it reports an error or returns no list. */
  predicate FetchFailed(f: GroupsResult) {
    TruthyText(f.error) || f.groups.None?
  }

  /** The error returned when the groups fetch fails. */
  function FetchError(f: GroupsResult): (msg: string)
    ensures msg != ""
    ensures TruthyText(f.error) ==> msg == f.error.value
    ensures !TruthyText(f.error) ==> msg == GroupsLoadError
  {
    if TruthyText(f.error) then f.error.value else GroupsLoadError
  }

  /** A group whose result has an error or no stats is skipped. */
  predicate Skipped(r: ScoreResult) {
    TruthyText(r.error) || r.stats.None?
  }

  /** `score || total_points || 0`: a group whose `score` is missing or 0
      counts with its `total_points`, 0 when that is missing too. */
  function GroupPoints(s: GroupStats): (points: int)
    ensures (s.score.None? || s.score.value == 0) ==> points == s.totalPoints.GetOr(0)
    ensures s.score.Some? && s.score.value != 0 ==> points == s.score.value
  {
    OrElse(s.score, OrElse(s.totalPoints, 0))
  }

  function CorrectOf(s: GroupStats): int { OrElse(s.correctPredictions, 0) }

  function PredictionsOf(s: GroupStats): int { OrElse(s.totalPredictions, 0) }

  function ExactOf(s: GroupStats): int { OrElse(s.exactScores, 0) }

  /** The sum of `f` over the stats of the groups that are not skipped. */
  function SumKept(rs: seq<ScoreResult>, f: GroupStats -> int): (total: int)
    ensures (forall i :: 0 <= i < |rs| ==> Skipped(rs[i])) ==> total == 0
  {
    if rs == [] then 0
    else
      var last := rs[|rs| - 1];
      SumKept(rs[..|rs| - 1], f) + (if Skipped(last) then 0 else f(last.stats.value))
  }

  /** The `group_scores` entry of a group that is not skipped. */
  function Entry(g: GroupRef, s: GroupStats): GroupScore {
    GroupScore(g.id, g.name, GroupPoints(s), CorrectOf(s), OrElse(s.accuracy, 0))
  }

  /** The `group_scores` list: one entry per group that is not skipped. */
  function Entries(gs: seq<GroupRef>, rs: seq<ScoreResult>): (es: seq<GroupScore>)
    requires |gs| == |rs|
    ensures |es| <= |rs|
  {
    if rs == [] then []
    else
      var last := rs[|rs| - 1];
      Entries(gs[..|gs| - 1], rs[..|rs| - 1])
        + (if Skipped(last) then [] else [Entry(gs[|gs| - 1], last.stats.value)])
  }

  /** The positions of the groups that are not skipped, in input order. */
  function KeptIndices(rs: seq<ScoreResult>): (ks: seq<nat>)
    ensures forall k :: 0 <= k < |ks| ==> ks[k] < |rs| && !Skipped(rs[ks[k]])
    ensures forall k, l :: 0 <= k < l < |ks| ==> ks[k] < ks[l]
    ensures forall i :: 0 <= i < |rs| && !Skipped(rs[i]) ==> i in ks
  {
    if rs == [] then []
    else KeptIndices(rs[..|rs| - 1]) + (if Skipped(rs[|rs| - 1]) then [] else [|rs| - 1])
  }

  /** The sum of the `score` fields of some entries. */
  function EntryPoints(es: seq<GroupScore>): int {
    if es == [] then 0 else EntryPoints(es[..|es| - 1]) + es[|es| - 1].score
  }

  /** The sum of the `correct_predictions` fields of some entries. */
  function EntryCorrect(es: seq<GroupScore>): int {
    if es == [] then 0 else EntryCorrect(es[..|es| - 1]) + es[|es| - 1].correctPredictions
  }

  /** `getAggregatedUserStats`. `scores[i]` is the score result of group `i`. */
  method GetAggregatedUserStats(fetch: GroupsResult, scores: seq<ScoreResult>) returns (res: Aggregation)
    requires !FetchFailed(fetch) ==> |scores| == |fetch.groups.value|
    ensures res.stats.None? <==> FetchFailed(fetch)
    ensures FetchFailed(fetch) ==> res.error == Some(FetchError(fetch))
    ensures !FetchFailed(fetch) ==> res.error.None?
    ensures !FetchFailed(fetch) ==>
      var st := res.stats.value;
      st.totalPoints == SumKept(scores, GroupPoints)
      && st.correctPredictions == SumKept(scores, CorrectOf)
      && st.totalPredictions == SumKept(scores, PredictionsOf)
      && st.exactScores == SumKept(scores, ExactOf)
      && st.groupsCount == |fetch.groups.value|
      && st.accuracy == Scoring.Accuracy(st.correctPredictions, st.totalPredictions)
      && st.groupScores == Entries(fetch.groups.value, scores)
  {
    if FetchFailed(fetch) {
      return Aggregation(None, Some(FetchError(fetch)));
    }
    var groups := fetch.groups.value;
    var totalPoints, correct, total, exact := 0, 0, 0, 0;
    var groupScores: seq<GroupScore> := [];
    for i := 0 to |groups|
      invariant totalPoints == SumKept(scores[..i], GroupPoints)
      invariant correct == SumKept(scores[..i], CorrectOf)
      invariant total == SumKept(scores[..i], PredictionsOf)
      invariant exact == SumKept(scores[..i], ExactOf)
      invariant groupScores == Entries(groups[..i], scores[..i])
    {
      assert scores[..i + 1][..i] == scores[..i];
      assert groups[..i + 1][..i] == groups[..i];
      var r := scores[i];
      if Skipped(r) {
        continue;
      }
      var s := r.stats.value;
      var groupScore := GroupPoints(s);
      totalPoints := totalPoints + groupScore;
      correct := correct + CorrectOf(s);
      total := total + PredictionsOf(s);
      exact := exact + ExactOf(s);
      groupScores := groupScores + [GroupScore(groups[i].id, groups[i].name, groupScore, CorrectOf(s), OrElse(s.accuracy, 0))];
    }
    assert scores[..|groups|] == scores;
    assert groups[..|groups|] == groups;
    var accuracy := if total > 0 then Scoring.Accuracy(correct, total) else 0;
    res := Aggregation(Some(AggregatedStats(totalPoints, |groups|, correct, total, exact, accuracy, groupScores)), None);
  }

  // Properties of the fold

  lemma {:induction false} SumKeptAppend(a: seq<ScoreResult>, b: seq<ScoreResult>, f: GroupStats -> int)
    ensures SumKept(a + b, f) == SumKept(a, f) + SumKept(b, f)
    decreases |b|
  {
    if b == [] {
      assert a + b == a;
    } else {
      assert (a + b)[..|a + b| - 1] == a + b[..|b| - 1];
      SumKeptAppend(a, b[..|b| - 1], f);
    }
  }

  /** A skipped group contributes nothing to any total, wherever it sits. */
  lemma SkippedAddsNothing(a: seq<ScoreResult>, r: ScoreResult, b: seq<ScoreResult>, f: GroupStats -> int)
    requires Skipped(r)
    ensures SumKept(a + [r] + b, f) == SumKept(a + b, f)
  {
    SumKeptAppend(a + [r], b, f);
    SumKeptAppend(a, [r], f);
    SumKeptAppend(a, b, f);
    assert [r][..0] == [];
  }

  lemma {:induction false} EntriesAppend(ga: seq<GroupRef>, ra: seq<ScoreResult>, gb: seq<GroupRef>, rb: seq<ScoreResult>)
    requires |ga| == |ra| && |gb| == |rb|
    ensures Entries(ga + gb, ra + rb) == Entries(ga, ra) + Entries(gb, rb)
    decreases |rb|
  {
    if rb == [] {
      assert ga + gb == ga && ra + rb == ra;
    } else {
      assert (ga + gb)[..|ga + gb| - 1] == ga + gb[..|gb| - 1];
      assert (ra + rb)[..|ra + rb| - 1] == ra + rb[..|rb| - 1];
      EntriesAppend(ga, ra, gb[..|gb| - 1], rb[..|rb| - 1]);
    }
  }

  /** A skipped group gets no `group_scores` entry, wherever it sits. */
  lemma SkippedHasNoEntry(ga: seq<GroupRef>, ra: seq<ScoreResult>, g: GroupRef, r: ScoreResult, gb: seq<GroupRef>, rb: seq<ScoreResult>)
    requires |ga| == |ra| && |gb| == |rb| && Skipped(r)
    ensures Entries(ga + [g] + gb, ra + [r] + rb) == Entries(ga + gb, ra + rb)
  {
    assert Entries([g], [r]) == [] by {
      assert [g][..0] == [] && [r][..0] == [];
    }
    calc {
      Entries(ga + [g] + gb, ra + [r] + rb);
      == { EntriesAppend(ga + [g], ra + [r], gb, rb); }
      Entries(ga + [g], ra + [r]) + Entries(gb, rb);
      == { EntriesAppend(ga, ra, [g], [r]); assert Entries(ga, ra) + [] == Entries(ga, ra); }
      Entries(ga, ra) + Entries(gb, rb);
      == { EntriesAppend(ga, ra, gb, rb); }
      Entries(ga + gb, ra + rb);
    }
  }

  /** `group_scores` holds exactly one entry per group that is not skipped,
      in input order. */
  lemma {:induction false} EntriesFollowKeptGroups(gs: seq<GroupRef>, rs: seq<ScoreResult>)
    requires |gs| == |rs|
    ensures |Entries(gs, rs)| == |KeptIndices(rs)|
    ensures forall k :: 0 <= k < |KeptIndices(rs)| ==>
      Entries(gs, rs)[k] == Entry(gs[KeptIndices(rs)[k]], rs[KeptIndices(rs)[k]].stats.value)
  {
    if rs != [] {
      var n := |rs| - 1;
      EntriesFollowKeptGroups(gs[..n], rs[..n]);
      var es := Entries(gs[..n], rs[..n]);
      var ks := KeptIndices(rs[..n]);
      assert forall k :: 0 <= k < |ks| ==> es[k] == Entry(gs[ks[k]], rs[ks[k]].stats.value) by {
        forall k | 0 <= k < |ks|
          ensures es[k] == Entry(gs[ks[k]], rs[ks[k]].stats.value)
        {
          assert rs[..n][ks[k]] == rs[ks[k]] && gs[..n][ks[k]] == gs[ks[k]];
        }
      }
      if Skipped(rs[n]) {
        assert Entries(gs, rs) == es + [] == es;
        assert KeptIndices(rs) == ks + [] == ks;
      } else {
        var e := Entry(gs[n], rs[n].stats.value);
        assert Entries(gs, rs) == es + [e];
        assert KeptIndices(rs) == ks + [n];
        EntriesAtExtend(gs, rs, es, ks, n);
      }
    }
  }

  /** Entries listed at positions `ks` of a list of groups. */
  predicate EntriesAt(gs: seq<GroupRef>, rs: seq<ScoreResult>, es: seq<GroupScore>, ks: seq<nat>)
    requires |gs| == |rs|
  {
    |es| == |ks| &&
    forall k :: 0 <= k < |ks| ==>
      ks[k] < |rs| && !Skipped(rs[ks[k]]) && es[k] == Entry(gs[ks[k]], rs[ks[k]].stats.value)
  }

  lemma EntriesAtExtend(gs: seq<GroupRef>, rs: seq<ScoreResult>, es: seq<GroupScore>, ks: seq<nat>, n: nat)
    requires |gs| == |rs| && n < |rs| && !Skipped(rs[n]) && EntriesAt(gs, rs, es, ks)
    ensures EntriesAt(gs, rs, es + [Entry(gs[n], rs[n].stats.value)], ks + [n])
  {
    var e := Entry(gs[n], rs[n].stats.value);
    forall k | 0 <= k < |ks| + 1
      ensures (ks + [n])[k] < |rs| && !Skipped(rs[(ks + [n])[k]])
        && (es + [e])[k] == Entry(gs[(ks + [n])[k]], rs[(ks + [n])[k]].stats.value)
    {
      if k < |ks| {
        assert (es + [e])[k] == es[k] && (ks + [n])[k] == ks[k];
      }
    }
  }

  /** The total points equal the sum of the per-group scores listed. */
  lemma {:induction false} TotalIsSumOfGroupScores(gs: seq<GroupRef>, rs: seq<ScoreResult>)
    requires |gs| == |rs|
    ensures SumKept(rs, GroupPoints) == EntryPoints(Entries(gs, rs))
    ensures SumKept(rs, CorrectOf) == EntryCorrect(Entries(gs, rs))
  {
    if rs != [] {
      var n := |rs| - 1;
      TotalIsSumOfGroupScores(gs[..n], rs[..n]);
      var es := Entries(gs[..n], rs[..n]);
      if !Skipped(rs[n]) {
        var e := Entry(gs[n], rs[n].stats.value);
        assert (es + [e])[..|es|] == es;
      } else {
        assert es + [] == es;
      }
    }
  }

  /** `groups_count` counts every group fetched, skipped ones included. */
  lemma GroupsCountIncludesSkipped(gs: seq<GroupRef>, rs: seq<ScoreResult>)
    requires |gs| == |rs|
    ensures |Entries(gs, rs)| <= |gs|
    ensures |Entries(gs, rs)| == |gs| <==> forall i :: 0 <= i < |rs| ==> !Skipped(rs[i])
  {
    EntriesFollowKeptGroups(gs, rs);
    KeptIndicesBound(rs);
  }

  lemma {:induction false} KeptIndicesBound(rs: seq<ScoreResult>)
    ensures |KeptIndices(rs)| <= |rs|
    ensures |KeptIndices(rs)| == |rs| <==> forall i :: 0 <= i < |rs| ==> !Skipped(rs[i])
  {
    if rs != [] {
      var n := |rs| - 1;
      KeptIndicesBound(rs[..n]);
      if Skipped(rs[n]) {
        assert !(forall i :: 0 <= i < |rs| ==> !Skipped(rs[i]));
      } else {
        assert (forall i :: 0 <= i < |rs| ==> !Skipped(rs[i]))
          <==> (forall i :: 0 <= i < n ==> !Skipped(rs[..n][i]));
      }
    }
  }
}
