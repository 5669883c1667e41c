/** The front end's mock data set: four users, two groups, nine matches and
    twenty-two predictions, and the two helpers it exports, which compute
    over that data set. The lemmas read the data set as a table of worked
    examples of the scoring rule and of the leaderboard. */
module MockData {
  import opened Wrappers
  import opened Seqs
  import opened Scoring
  import opened FrontTypes
  import DataAdapter

  const CurrentUserId := "68ff41ed427e6e91197d5f27"
  const MainGroupId := "68ff444219c8249f0bdd47e8"
  const User2Id := "user_002"
  const User3Id := "user_003"
  const User4Id := "user_004"

  function CurrentUser(): User {
    User(CurrentUserId, "PronoMaster", "user@leagueofprono.com", 47, ["premier_prono", "perfect_score"])
  }

  function Users(): seq<User> {
    [CurrentUser(),
     User(User2Id, "FakerFan", "faker@example.com", 52, ["premier_prono", "serie_5"]),
     User(User3Id, "T1Believer", "t1@example.com", 38, ["premier_prono"]),
     User(User4Id, "G2Army", "g2@example.com", 29, ["premier_prono"])]
  }

  function Groups(): seq<Group> {
    [Group(MainGroupId, "Les foufous de M8", "HRQO3ACS", Some(""),
           [CurrentUserId, User2Id, User3Id, User4Id], CurrentUserId),
     Group("group_002", "LEC Fans", "LEC2024X", Some("Pour les vrais fans de la LEC"),
           [CurrentUserId, User2Id], User2Id)]
  }

  /** The matches; the live ones are dated `now`, the others by the platform's
      parsing of a local date-time (`dateOf`). */
  function Matches(now: int, dateOf: string -> int): seq<Match> {
    [LiveMatch1(now), LiveMatch2(now), Match001(dateOf), Match002(dateOf), Match003(dateOf),
     Match005(dateOf), Match006(dateOf), Match007(dateOf), Match008(dateOf)]
  }

  function LiveMatch1(now: int): Match {
    Match("match_live_001", "T1", "Gen.G", now, "Worlds 2025 - Finals", Live, None, Some(1), Some(0))
  }

  function LiveMatch2(now: int): Match {
    Match("match_live_002", "G2 Esports", "Fnatic", now, "LEC Summer Playoffs", Live, None, Some(2), Some(1))
  }

  function Match001(dateOf: string -> int): Match {
    Match("match_001", "Cloud9", "Team Liquid", dateOf("2025-11-12T20:00:00"), "LCS Finals", Upcoming, None, None, None)
  }

  function Match002(dateOf: string -> int): Match {
    Match("match_002", "JD Gaming", "Bilibili Gaming", dateOf("2025-11-08T12:00:00"), "LPL Summer", Upcoming, None, None, None)
  }

  function Match003(dateOf: string -> int): Match {
    Match("match_003", "MAD Lions", "Rogue", dateOf("2025-11-09T18:00:00"), "LEC Summer", Upcoming, None, None, None)
  }

  function Match005(dateOf: string -> int): Match {
    Match("match_005", "T1", "DRX", dateOf("2025-10-20T18:00:00"), "Worlds 2025 - Semi Finals", Completed, Some("team_a"), Some(3), Some(1))
  }

  function Match006(dateOf: string -> int): Match {
    Match("match_006", "G2 Esports", "MAD Lions", dateOf("2025-10-18T16:00:00"), "LEC Summer", Completed, Some("team_a"), Some(3), Some(2))
  }

  function Match007(dateOf: string -> int): Match {
    Match("match_007", "Gen.G", "KT Rolster", dateOf("2025-10-15T14:00:00"), "LCK Summer Finals", Completed, Some("team_b"), Some(2), Some(3))
  }

  function Match008(dateOf: string -> int): Match {
    Match("match_008", "Fnatic", "Team Vitality", dateOf("2025-10-12T17:00:00"), "LEC Summer", Completed, Some("team_a"), Some(3), Some(0))
  }

  function P(id: string, userId: string, matchId: string, winner: string, a: int, b: int,
             points: int, correct: bool, exact: bool): Prediction {
    Prediction(id, userId, matchId, MainGroupId, winner, Some(a), Some(b), points, correct, exact)
  }

  /** The predictions on the two live matches. */
  function LivePredictions(): seq<Prediction> {
    [P("pred_live_001", CurrentUserId, "match_live_001", "team_a", 3, 1, 0, false, false),
     P("pred_live_002", CurrentUserId, "match_live_002", "team_a", 3, 0, 0, false, false),
     P("pred_live_003", User2Id, "match_live_001", "team_b", 2, 3, 0, false, false),
     P("pred_live_004", User3Id, "match_live_001", "team_a", 3, 2, 0, false, false)]
  }

  /** The current user's predictions on the other matches. */
  function CurrentUserPredictions(): seq<Prediction> {
    [P("pred_001", CurrentUserId, "match_001", "team_a", 3, 2, 0, false, false),
     P("pred_002", CurrentUserId, "match_002", "team_a", 3, 1, 0, false, false),
     P("pred_005", CurrentUserId, "match_005", "team_a", 3, 1, 5, true, true),
     P("pred_006", CurrentUserId, "match_006", "team_a", 3, 0, 3, true, false),
     P("pred_007", CurrentUserId, "match_007", "team_a", 3, 1, 0, false, false),
     P("pred_008", CurrentUserId, "match_008", "team_a", 3, 0, 5, true, true)]
  }

  function User2Predictions(): seq<Prediction> {
    [P("pred_101", User2Id, "match_005", "team_a", 3, 2, 3, true, false),
     P("pred_102", User2Id, "match_006", "team_a", 3, 2, 5, true, true),
     P("pred_103", User2Id, "match_007", "team_b", 2, 3, 5, true, true),
     P("pred_104", User2Id, "match_008", "team_a", 3, 1, 3, true, false)]
  }

  function User3Predictions(): seq<Prediction> {
    [P("pred_201", User3Id, "match_005", "team_a", 3, 0, 3, true, false),
     P("pred_202", User3Id, "match_006", "team_b", 1, 3, 0, false, false),
     P("pred_203", User3Id, "match_007", "team_a", 3, 2, 0, false, false),
     P("pred_204", User3Id, "match_008", "team_a", 3, 1, 3, true, false)]
  }

  function User4Predictions(): seq<Prediction> {
    [P("pred_301", User4Id, "match_005", "team_b", 1, 3, 0, false, false),
     P("pred_302", User4Id, "match_006", "team_a", 3, 1, 3, true, false),
     P("pred_303", User4Id, "match_007", "team_b", 1, 3, 3, true, false),
     P("pred_304", User4Id, "match_008", "team_a", 3, 0, 5, true, true)]
  }

  /** The twenty-two mock predictions, in the data set's order. */
  function Predictions(): seq<Prediction> {
    LivePredictions() + CurrentUserPredictions() + User2Predictions() + User3Predictions() + User4Predictions()
  }

  /** The mock `calculateUserScoreInGroup`, over the mock predictions: the
      running total of the user's points in the group. */
  function CalculateUserScoreInGroup(userId: string, groupId: string): (score: int)
    ensures score == DataAdapter.ScoreFold(userId, groupId, Predictions())
  {
    DataAdapter.ScoreIsFold(userId, groupId, Predictions());
    DataAdapter.CalculateUserScoreInGroup(userId, groupId, Predictions())
  }

  /** The mock `getGroupLeaderboard`: the group looked up by id in the mock
      groups, then ranked over the mock users and predictions. */
  function GetGroupLeaderboard(groupId: string): (r: seq<DataAdapter.LeaderboardEntry>)
    ensures (forall i :: 0 <= i < |Groups()| ==> Groups()[i].id != groupId) ==> r == []
    ensures DataAdapter.NonIncreasing(r)
    ensures forall e :: e in r ==> e.score == CalculateUserScoreInGroup(e.userId, groupId)
  {
    var k := FirstIndex(Groups(), (g: Group) => g.id == groupId);
    var group := if k.Some? then Some(Groups()[k.value]) else None;
    DataAdapter.GetGroupLeaderboard(groupId, group, Users(), Predictions())
  }


  lemma UserIdsDiffer()
    ensures CurrentUserId != User2Id && CurrentUserId != User3Id && CurrentUserId != User4Id
    ensures User2Id != User3Id && User2Id != User4Id && User3Id != User4Id
  {
    assert |CurrentUserId| != |User2Id|;
    assert User2Id[7] != User3Id[7] && User2Id[7] != User4Id[7] && User3Id[7] != User4Id[7];
  }



  // The members' scores, each read off the mock predictions block by block.

  /** A user's score is the sum of their scores over the five blocks. */
  lemma ScoreByBlocks(userId: string, groupId: string)
    ensures CalculateUserScoreInGroup(userId, groupId) ==
      DataAdapter.CalculateUserScoreInGroup(userId, groupId, LivePredictions()) +
      DataAdapter.CalculateUserScoreInGroup(userId, groupId, CurrentUserPredictions()) +
      DataAdapter.CalculateUserScoreInGroup(userId, groupId, User2Predictions()) +
      DataAdapter.CalculateUserScoreInGroup(userId, groupId, User3Predictions()) +
      DataAdapter.CalculateUserScoreInGroup(userId, groupId, User4Predictions())
  {
    var l, c, u2, u3, u4 := LivePredictions(), CurrentUserPredictions(), User2Predictions(), User3Predictions(), User4Predictions();
    DataAdapter.ScoreAdditive(userId, groupId, l + c + u2 + u3, u4);
    DataAdapter.ScoreAdditive(userId, groupId, l + c + u2, u3);
    DataAdapter.ScoreAdditive(userId, groupId, l + c, u2);
    DataAdapter.ScoreAdditive(userId, groupId, l, c);
  }

  /** A block in which the user earned nothing adds nothing to their score. */
  lemma NothingEarnedIn(userId: string, groupId: string, ps: seq<Prediction>)
    requires forall k :: 0 <= k < |ps| && ps[k].userId == userId && ps[k].groupId == groupId ==> ps[k].pointsEarned == 0
    ensures DataAdapter.CalculateUserScoreInGroup(userId, groupId, ps) == 0
  {
    DataAdapter.ScoreByRunningTotals(userId, groupId, ps, seq(|ps| + 1, _ => 0));
  }

  /** The predictions of a block all belong to one user. */
  predicate AllBy(ps: seq<Prediction>, owner: string) {
    forall k :: 0 <= k < |ps| ==> ps[k].userId == owner
  }

  lemma BlockOwners()
    ensures AllBy(CurrentUserPredictions(), CurrentUserId)
    ensures AllBy(User2Predictions(), User2Id)
    ensures AllBy(User3Predictions(), User3Id)
    ensures AllBy(User4Predictions(), User4Id)
  {
  }

  /** No live prediction has earned anything yet. */
  lemma LiveEarnsNothing(userId: string, groupId: string)
    ensures DataAdapter.CalculateUserScoreInGroup(userId, groupId, LivePredictions()) == 0
  {
    NothingEarnedIn(userId, groupId, LivePredictions());
  }

  /** Another user's block adds nothing to a score. */
  lemma NotTheirs(userId: string, groupId: string, ps: seq<Prediction>, owner: string)
    requires AllBy(ps, owner) && userId != owner
    ensures DataAdapter.CalculateUserScoreInGroup(userId, groupId, ps) == 0
  {
    NothingEarnedIn(userId, groupId, ps);
  }

  lemma OwnBlockOfCurrentUser()
    ensures DataAdapter.CalculateUserScoreInGroup(CurrentUserId, MainGroupId, CurrentUserPredictions()) == 13
  {
    DataAdapter.ScoreByRunningTotals(CurrentUserId, MainGroupId, CurrentUserPredictions(), [0, 0, 0, 5, 8, 8, 13]);
  }

  lemma ScoreOfCurrentUser()
    ensures CalculateUserScoreInGroup(CurrentUserId, MainGroupId) == 13
  {
    UserIdsDiffer();
    BlockOwners();
    LiveEarnsNothing(CurrentUserId, MainGroupId);
    OwnBlockOfCurrentUser();
    NotTheirs(CurrentUserId, MainGroupId, User2Predictions(), User2Id);
    NotTheirs(CurrentUserId, MainGroupId, User3Predictions(), User3Id);
    NotTheirs(CurrentUserId, MainGroupId, User4Predictions(), User4Id);
    ScoreByBlocks(CurrentUserId, MainGroupId);
  }

  lemma OwnBlockOfUser2()
    ensures DataAdapter.CalculateUserScoreInGroup(User2Id, MainGroupId, User2Predictions()) == 16
  {
    DataAdapter.ScoreByRunningTotals(User2Id, MainGroupId, User2Predictions(), [0, 3, 8, 13, 16]);
  }

  lemma ScoreOfUser2()
    ensures CalculateUserScoreInGroup(User2Id, MainGroupId) == 16
  {
    UserIdsDiffer();
    BlockOwners();
    LiveEarnsNothing(User2Id, MainGroupId);
    NotTheirs(User2Id, MainGroupId, CurrentUserPredictions(), CurrentUserId);
    OwnBlockOfUser2();
    NotTheirs(User2Id, MainGroupId, User3Predictions(), User3Id);
    NotTheirs(User2Id, MainGroupId, User4Predictions(), User4Id);
    ScoreByBlocks(User2Id, MainGroupId);
  }

  lemma OwnBlockOfUser3()
    ensures DataAdapter.CalculateUserScoreInGroup(User3Id, MainGroupId, User3Predictions()) == 6
  {
    DataAdapter.ScoreByRunningTotals(User3Id, MainGroupId, User3Predictions(), [0, 3, 3, 3, 6]);
  }

  lemma ScoreOfUser3()
    ensures CalculateUserScoreInGroup(User3Id, MainGroupId) == 6
  {
    UserIdsDiffer();
    BlockOwners();
    LiveEarnsNothing(User3Id, MainGroupId);
    NotTheirs(User3Id, MainGroupId, CurrentUserPredictions(), CurrentUserId);
    NotTheirs(User3Id, MainGroupId, User2Predictions(), User2Id);
    OwnBlockOfUser3();
    NotTheirs(User3Id, MainGroupId, User4Predictions(), User4Id);
    ScoreByBlocks(User3Id, MainGroupId);
  }

  lemma OwnBlockOfUser4()
    ensures DataAdapter.CalculateUserScoreInGroup(User4Id, MainGroupId, User4Predictions()) == 11
  {
    DataAdapter.ScoreByRunningTotals(User4Id, MainGroupId, User4Predictions(), [0, 0, 3, 6, 11]);
  }

  lemma ScoreOfUser4()
    ensures CalculateUserScoreInGroup(User4Id, MainGroupId) == 11
  {
    UserIdsDiffer();
    BlockOwners();
    LiveEarnsNothing(User4Id, MainGroupId);
    NotTheirs(User4Id, MainGroupId, CurrentUserPredictions(), CurrentUserId);
    NotTheirs(User4Id, MainGroupId, User2Predictions(), User2Id);
    NotTheirs(User4Id, MainGroupId, User3Predictions(), User3Id);
    OwnBlockOfUser4();
    ScoreByBlocks(User4Id, MainGroupId);
  }

  /** The predictions of a block all belong to one group. */
  predicate AllIn(ps: seq<Prediction>, groupId: string) {
    forall k :: 0 <= k < |ps| ==> ps[k].groupId == groupId
  }

  lemma BlockGroups()
    ensures AllIn(LivePredictions(), MainGroupId)
    ensures AllIn(CurrentUserPredictions(), MainGroupId)
    ensures AllIn(User2Predictions(), MainGroupId)
    ensures AllIn(User3Predictions(), MainGroupId)
    ensures AllIn(User4Predictions(), MainGroupId)
  {
  }

  /** A block of another group adds nothing to a score. */
  lemma NotInGroup(userId: string, groupId: string, ps: seq<Prediction>, other: string)
    requires AllIn(ps, other) && groupId != other
    ensures DataAdapter.CalculateUserScoreInGroup(userId, groupId, ps) == 0
  {
    NothingEarnedIn(userId, groupId, ps);
  }

  /** Every mock prediction is in the main group, so no one scores in another. */
  lemma NoScoreOutsideMainGroup(userId: string, groupId: string)
    requires groupId != MainGroupId
    ensures CalculateUserScoreInGroup(userId, groupId) == 0
  {
    BlockGroups();
    NotInGroup(userId, groupId, LivePredictions(), MainGroupId);
    NotInGroup(userId, groupId, CurrentUserPredictions(), MainGroupId);
    NotInGroup(userId, groupId, User2Predictions(), MainGroupId);
    NotInGroup(userId, groupId, User3Predictions(), MainGroupId);
    NotInGroup(userId, groupId, User4Predictions(), MainGroupId);
    ScoreByBlocks(userId, groupId);
  }

  lemma ScoreOfCurrentUserInSecondGroup()
    ensures CalculateUserScoreInGroup(CurrentUserId, "group_002") == 0
  {
    assert MainGroupId != "group_002";
    NoScoreOutsideMainGroup(CurrentUserId, "group_002");
  }

  lemma ScoreOfUser2InSecondGroup()
    ensures CalculateUserScoreInGroup(User2Id, "group_002") == 0
  {
    assert MainGroupId != "group_002";
    NoScoreOutsideMainGroup(User2Id, "group_002");
  }

  lemma SortSnoc(es: seq<DataAdapter.LeaderboardEntry>, x: DataAdapter.LeaderboardEntry)
    ensures DataAdapter.SortByScore(es + [x]) == DataAdapter.Insert(DataAdapter.SortByScore(es), x)
  {
    assert (es + [x])[..|es|] == es;
  }

  lemma InsertPast(s: seq<DataAdapter.LeaderboardEntry>, x: DataAdapter.LeaderboardEntry)
    requires s != [] && s[0].score >= x.score
    ensures DataAdapter.Insert(s, x) == [s[0]] + DataAdapter.Insert(s[1..], x)
  {
  }

  lemma InsertHere(s: seq<DataAdapter.LeaderboardEntry>, x: DataAdapter.LeaderboardEntry)
    requires s == [] || s[0].score < x.score
    ensures DataAdapter.Insert(s, x) == [x] + s
  {
  }

  lemma SortOne(e: DataAdapter.LeaderboardEntry)
    ensures DataAdapter.SortByScore([e]) == [e]
  {
    SortSnoc([], e);
    assert [] + [e] == [e];
  }

  lemma InsertAfterTwo(a: DataAdapter.LeaderboardEntry, b: DataAdapter.LeaderboardEntry, x: DataAdapter.LeaderboardEntry)
    requires a.score >= b.score >= x.score
    ensures DataAdapter.Insert([a, b], x) == [a, b, x]
  {
    InsertPast([a, b], x);
    assert [a, b][1..] == [b];
    InsertPast([b], x);
    assert [b][1..] == [];
    InsertHere([], x);
  }

  lemma InsertBeforeLast(a: DataAdapter.LeaderboardEntry, b: DataAdapter.LeaderboardEntry,
                         c: DataAdapter.LeaderboardEntry, x: DataAdapter.LeaderboardEntry)
    requires a.score >= b.score >= x.score > c.score
    ensures DataAdapter.Insert([a, b, c], x) == [a, b, x, c]
  {
    InsertPast([a, b, c], x);
    assert [a, b, c][1..] == [b, c];
    InsertPast([b, c], x);
    assert [b, c][1..] == [c];
    InsertHere([c], x);
  }

  lemma SortTwoSwapped(e0: DataAdapter.LeaderboardEntry, e1: DataAdapter.LeaderboardEntry)
    requires e1.score > e0.score
    ensures DataAdapter.SortByScore([e0, e1]) == [e1, e0]
  {
    SortOne(e0);
    SortSnoc([e0], e1);
    assert [e0] + [e1] == [e0, e1];
    InsertHere([e0], e1);
  }

  lemma SortThree(e0: DataAdapter.LeaderboardEntry, e1: DataAdapter.LeaderboardEntry, e2: DataAdapter.LeaderboardEntry)
    requires e1.score > e0.score > e2.score
    ensures DataAdapter.SortByScore([e0, e1, e2]) == [e1, e0, e2]
  {
    SortSnoc([e0, e1], e2);
    assert [e0, e1] + [e2] == [e0, e1, e2];
    SortTwoSwapped(e0, e1);
    InsertAfterTwo(e1, e0, e2);
  }

  /** Sorting four entries with distinct scores, the second highest, then the
      first, the fourth and the third. */
  lemma SortFour(e0: DataAdapter.LeaderboardEntry, e1: DataAdapter.LeaderboardEntry,
                 e2: DataAdapter.LeaderboardEntry, e3: DataAdapter.LeaderboardEntry)
    requires e1.score > e0.score > e3.score > e2.score
    ensures DataAdapter.SortByScore([e0, e1, e2, e3]) == [e1, e0, e3, e2]
  {
    SortSnoc([e0, e1, e2], e3);
    assert [e0, e1, e2] + [e3] == [e0, e1, e2, e3];
    SortThree(e0, e1, e2);
    InsertBeforeLast(e1, e0, e2, e3);
  }

  /** Sorting two entries with equal scores keeps them in place. */
  lemma SortTwoTied(e0: DataAdapter.LeaderboardEntry, e1: DataAdapter.LeaderboardEntry)
    requires e0.score == e1.score
    ensures DataAdapter.SortByScore([e0, e1]) == [e0, e1]
  {
    assert DataAdapter.Insert([e0], e1) == [e0, e1] by {
      InsertPast([e0], e1);
      assert [e0][1..] == [];
      InsertHere([], e1);
    }
    SortOne(e0);
    SortSnoc([e0], e1);
    assert [e0] + [e1] == [e0, e1];
  }

  /** The names the leaderboard shows for the four mock users. */
  lemma CurrentUserName()
    ensures DataAdapter.DisplayName(Users(), CurrentUserId) == "PronoMaster"
  {
    DataAdapter.DisplayNameAt(Users(), CurrentUserId, 0);
  }

  lemma User2Name()
    ensures DataAdapter.DisplayName(Users(), User2Id) == "FakerFan"
  {
    assert CurrentUserId != User2Id by { UserIdsDiffer(); }
    DataAdapter.DisplayNameAt(Users(), User2Id, 1);
  }

  lemma User3Name()
    ensures DataAdapter.DisplayName(Users(), User3Id) == "T1Believer"
  {
    assert CurrentUserId != User3Id && User2Id != User3Id by { UserIdsDiffer(); }
    DataAdapter.DisplayNameAt(Users(), User3Id, 2);
  }

  lemma User4Name()
    ensures DataAdapter.DisplayName(Users(), User4Id) == "G2Army"
  {
    assert CurrentUserId != User4Id && User2Id != User4Id && User3Id != User4Id by { UserIdsDiffer(); }
    DataAdapter.DisplayNameAt(Users(), User4Id, 3);
  }

  lemma MainEntry0()
    ensures DataAdapter.MemberEntries(MainGroupId, Groups()[0].members, Users(), Predictions())[0] ==
            DataAdapter.LeaderboardEntry(CurrentUserId, "PronoMaster", 13)
  {
    var members := Groups()[0].members;
    assert members[0] == CurrentUserId;
    ScoreOfCurrentUser();
    CurrentUserName();
  }

  lemma MainEntry1()
    ensures DataAdapter.MemberEntries(MainGroupId, Groups()[0].members, Users(), Predictions())[1] ==
            DataAdapter.LeaderboardEntry(User2Id, "FakerFan", 16)
  {
    var members := Groups()[0].members;
    assert members[1] == User2Id;
    ScoreOfUser2();
    User2Name();
  }

  lemma MainEntry2()
    ensures DataAdapter.MemberEntries(MainGroupId, Groups()[0].members, Users(), Predictions())[2] ==
            DataAdapter.LeaderboardEntry(User3Id, "T1Believer", 6)
  {
    var members := Groups()[0].members;
    assert members[2] == User3Id;
    ScoreOfUser3();
    User3Name();
  }

  lemma MainEntry3()
    ensures DataAdapter.MemberEntries(MainGroupId, Groups()[0].members, Users(), Predictions())[3] ==
            DataAdapter.LeaderboardEntry(User4Id, "G2Army", 11)
  {
    var members := Groups()[0].members;
    assert members[3] == User4Id;
    ScoreOfUser4();
    User4Name();
  }

  lemma SecondEntry0()
    ensures DataAdapter.MemberEntries("group_002", Groups()[1].members, Users(), Predictions())[0] ==
            DataAdapter.LeaderboardEntry(CurrentUserId, "PronoMaster", 0)
  {
    var members := Groups()[1].members;
    assert members[0] == CurrentUserId;
    ScoreOfCurrentUserInSecondGroup();
    CurrentUserName();
  }

  lemma SecondEntry1()
    ensures DataAdapter.MemberEntries("group_002", Groups()[1].members, Users(), Predictions())[1] ==
            DataAdapter.LeaderboardEntry(User2Id, "FakerFan", 0)
  {
    var members := Groups()[1].members;
    assert members[1] == User2Id;
    ScoreOfUser2InSecondGroup();
    User2Name();
  }

  lemma FourEntries(es: seq<DataAdapter.LeaderboardEntry>, a: DataAdapter.LeaderboardEntry, b: DataAdapter.LeaderboardEntry, c: DataAdapter.LeaderboardEntry, d: DataAdapter.LeaderboardEntry)
    requires |es| == 4 && es[0] == a && es[1] == b && es[2] == c && es[3] == d
    ensures es == [a, b, c, d]
  {
  }

  lemma TwoEntries(es: seq<DataAdapter.LeaderboardEntry>, a: DataAdapter.LeaderboardEntry, b: DataAdapter.LeaderboardEntry)
    requires |es| == 2 && es[0] == a && es[1] == b
    ensures es == [a, b]
  {
  }

  lemma MainGroupEntries()
    ensures DataAdapter.MemberEntries(MainGroupId, Groups()[0].members, Users(), Predictions()) ==
      [DataAdapter.LeaderboardEntry(CurrentUserId, "PronoMaster", 13), DataAdapter.LeaderboardEntry(User2Id, "FakerFan", 16),
       DataAdapter.LeaderboardEntry(User3Id, "T1Believer", 6), DataAdapter.LeaderboardEntry(User4Id, "G2Army", 11)]
  {
    var es := DataAdapter.MemberEntries(MainGroupId, Groups()[0].members, Users(), Predictions());
    assert |es| == 4;
    MainEntry0();
    MainEntry1();
    MainEntry2();
    MainEntry3();
    FourEntries(es, DataAdapter.LeaderboardEntry(CurrentUserId, "PronoMaster", 13), DataAdapter.LeaderboardEntry(User2Id, "FakerFan", 16),
                DataAdapter.LeaderboardEntry(User3Id, "T1Believer", 6), DataAdapter.LeaderboardEntry(User4Id, "G2Army", 11));
  }

  lemma SecondGroupEntries()
    ensures DataAdapter.MemberEntries("group_002", Groups()[1].members, Users(), Predictions()) ==
      [DataAdapter.LeaderboardEntry(CurrentUserId, "PronoMaster", 0), DataAdapter.LeaderboardEntry(User2Id, "FakerFan", 0)]
  {
    var es := DataAdapter.MemberEntries("group_002", Groups()[1].members, Users(), Predictions());
    assert |es| == 2;
    SecondEntry0();
    SecondEntry1();
    TwoEntries(es, DataAdapter.LeaderboardEntry(CurrentUserId, "PronoMaster", 0), DataAdapter.LeaderboardEntry(User2Id, "FakerFan", 0));
  }

  /** The ranking of the main group: FakerFan 16, PronoMaster 13, G2Army 11,
      T1Believer 6. */
  lemma MainGroupLeaderboard()
    ensures GetGroupLeaderboard(MainGroupId) ==
      [DataAdapter.LeaderboardEntry(User2Id, "FakerFan", 16),
       DataAdapter.LeaderboardEntry(CurrentUserId, "PronoMaster", 13),
       DataAdapter.LeaderboardEntry(User4Id, "G2Army", 11),
       DataAdapter.LeaderboardEntry(User3Id, "T1Believer", 6)]
  {
    assert FirstIndex(Groups(), (g: Group) => g.id == MainGroupId) == Some(0);
    MainGroupEntries();
    SortFour(DataAdapter.LeaderboardEntry(CurrentUserId, "PronoMaster", 13),
             DataAdapter.LeaderboardEntry(User2Id, "FakerFan", 16),
             DataAdapter.LeaderboardEntry(User3Id, "T1Believer", 6),
             DataAdapter.LeaderboardEntry(User4Id, "G2Army", 11));
  }

  /** Nobody has a prediction in the second group, so both members score 0 and
      stay in member order. */
  lemma SecondGroupLeaderboard()
    ensures GetGroupLeaderboard("group_002") ==
      [DataAdapter.LeaderboardEntry(CurrentUserId, "PronoMaster", 0),
       DataAdapter.LeaderboardEntry(User2Id, "FakerFan", 0)]
  {
    assert Groups()[0].id != "group_002";
    assert FirstIndex(Groups(), (g: Group) => g.id == "group_002") == Some(1);
    SecondGroupEntries();
    SortTwoTied(DataAdapter.LeaderboardEntry(CurrentUserId, "PronoMaster", 0),
                DataAdapter.LeaderboardEntry(User2Id, "FakerFan", 0));
  }

  /** An unknown group has an empty leaderboard. */
  lemma UnknownGroupLeaderboard()
    ensures GetGroupLeaderboard("group_999") == []
  {
  }
}
