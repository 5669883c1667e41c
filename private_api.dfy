/** The private REST API's handlers over its relational store, held in
    memory: scoring a finished match, a user's statistics in a group,
    submitting a prediction, creating, joining and leaving groups, and the
    friend-request lifecycle. Each handler returns the HTTP status it
    answers with. */
module PrivateApi {
  import opened Wrappers
  import opened Seqs
  import opened Scoring
  import opened Random
  import opened ApiTables

  datatype Status = Ok | Created | BadRequest | Forbidden | NotFound

  /** The match as the public API reports it; every field may be absent. */
  datatype PublicMatch = PublicMatch(status: Option<string>, scoreA: Option<int>, scoreB: Option<int>)

  /** The body of the user-stats response. */
  datatype UserStats = UserStats(totalPoints: int, correctPredictions: nat, totalPredictions: nat, exactScores: nat, accuracy: int)

  /** The stored match after the refresh that precedes scoring: a non-empty
      status replaces the stored one (`||`), a non-null score replaces the
      stored score (`??`). */
  function Refreshed(m: MatchRow, fetched: Option<PublicMatch>): (r: MatchRow)
    ensures r.id == m.id
    ensures fetched.None? ==> r == m
    ensures fetched.Some? && fetched.value.scoreA.Some? ==> r.resultScoreA == fetched.value.scoreA
    ensures fetched.Some? && fetched.value.scoreA.None? ==> r.resultScoreA == m.resultScoreA
    ensures fetched.Some? && fetched.value.scoreB.Some? ==> r.resultScoreB == fetched.value.scoreB
    ensures fetched.Some? && fetched.value.scoreB.None? ==> r.resultScoreB == m.resultScoreB
    ensures r.status == if fetched.Some? && Present(fetched.value.status) then fetched.value.status.value else m.status
  {
    match fetched
    case None => m
    case Some(pm) =>
      m.(status := if Present(pm.status) then pm.status.value else m.status,
         resultScoreA := if pm.scoreA.Some? then pm.scoreA else m.resultScoreA,
         resultScoreB := if pm.scoreB.Some? then pm.scoreB else m.resultScoreB)
  }

  /** A submitted predicted score as stored, `score || null`: an absent score
      and a score of 0 are both stored as null. */
  function StoredScore(submitted: Option<int>): (r: Option<int>)
    ensures r != Some(0)
    ensures r.None? <==> submitted.None? || submitted == Some(0)
    ensures r.Some? ==> r == submitted
  {
    if submitted == Some(0) then None else submitted
  }

  /** Because 0 is stored as null, a prediction submitted through the API
      never has the exact score of a result in which a side scored 0
      (a 3-0, say), even when the user typed that score. */
  lemma ZeroScoreNeverExact(pick: string, submittedA: Option<int>, submittedB: Option<int>, a: int, b: int)
    requires a == 0 || b == 0
    ensures !Award(Some(pick), StoredScore(submittedA), StoredScore(submittedB), a, b).isExactScore
  {
  }

  /** Invite-code generation: ten characters, each drawn from the 36-character
      alphabet with one draw. */
  method GenerateInviteCode(draws: seq<real>) returns (code: string)
    requires CodeDraws(draws)
    ensures IsInviteCode(code)
    ensures code == InviteCodeOf(draws)
  {
    code := "";
    for i := 0 to 10
      invariant |code| == i
      invariant forall k :: 0 <= k < i ==> code[k] == InviteAlphabet[PickIndex(draws[k], 36)]
    {
      code := code + [InviteAlphabet[PickIndex(draws[i], 36)]];
    }
  }

  /** The invite-code loop of group creation: codes are generated from
      successive batches of draws until one is used by no group. */
  method UnusedInviteCode(groups: seq<GroupRow>, codeDraws: seq<seq<real>>) returns (inviteCode: string)
    requires forall j :: 0 <= j < |codeDraws| ==> CodeDraws(codeDraws[j])
    requires FirstFreeCode(groups, codeDraws).Some?
    ensures inviteCode == InviteCodeOf(codeDraws[FirstFreeCode(groups, codeDraws).value])
    ensures IsInviteCode(inviteCode) && !InviteCodeTaken(groups, inviteCode)
  {
    ghost var free := FirstFreeCode(groups, codeDraws).value;
    var j := 0;
    inviteCode := GenerateInviteCode(codeDraws[0]);
    var codeExists := true;
    while codeExists
      invariant 0 <= j <= free
      invariant inviteCode == InviteCodeOf(codeDraws[j])
      invariant !codeExists ==> j == free
      decreases free - j, codeExists
    {
      var existing := FirstIndex(groups, (g: GroupRow) => g.inviteCode == inviteCode);
      if existing.None? {
        codeExists := false;
      } else {
        j := j + 1;
        inviteCode := GenerateInviteCode(codeDraws[j]);
      }
    }
  }

  /** The summing loop of user-stats: the points, the correct predictions
      and the exact scores of the caller's predictions in the group. */
  method TallyStats(own: seq<PredictionRow>) returns (totalPoints: int, correctPredictions: nat, exactScores: nat)
    ensures totalPoints == SumPoints(own)
    ensures correctPredictions == CountCorrect(own)
    ensures exactScores == CountExact(own)
  {
    totalPoints, correctPredictions, exactScores := 0, 0, 0;
    for i := 0 to |own|
      invariant totalPoints == SumPoints(own[..i])
      invariant correctPredictions == CountCorrect(own[..i])
      invariant exactScores == CountExact(own[..i])
    {
      assert own[..i + 1][..i] == own[..i];
      totalPoints := totalPoints + own[i].pointsEarned;
      if own[i].isCorrect == Some(true) {
        correctPredictions := correctPredictions + 1;
      }
      if own[i].isExactScore == Some(true) {
        exactScores := exactScores + 1;
      }
    }
    assert own[..|own|] == own;
  }

  /** The rescoring loop of calculate-points: every row referencing the match
      is rewritten with its new flags and points, and the rewrites counted. */
  method RescoreRows(rows: seq<PredictionRow>, matchId: string, a: int, b: int) returns (rescored: seq<PredictionRow>, updated: nat)
    ensures rescored == RescoreMatch(rows, matchId, a, b)
    ensures updated == CountForMatch(rows, matchId)
  {
    rescored := rows;
    updated := 0;
    var i := 0;
    while i < |rows|
      invariant 0 <= i <= |rows|
      invariant |rescored| == |rows|
      invariant rescored[..i] == RescoreMatch(rows[..i], matchId, a, b)
      invariant rescored[i..] == rows[i..]
      invariant updated == CountForMatch(rows[..i], matchId)
    {
      assert rows[..i + 1][..i] == rows[..i];
      if rows[i].matchId == matchId {
        rescored := rescored[i := ScorePrediction(rows[i], a, b)];
        updated := updated + 1;
      }
      assert rescored[..i + 1] == rescored[..i] + [rescored[i]];
      i := i + 1;
    }
    assert rows[..|rows|] == rows;
    assert rescored == rescored[..|rows|];
  }

  class Database {
    var users: seq<UserRow>
    var matches: map<string, MatchRow>
    var groups: seq<GroupRow>
    var memberships: seq<MembershipRow>
    var predictions: seq<PredictionRow>
    var friendRequests: seq<FriendRequestRow>

    /** The constraints the store and the handlers keep. */
    ghost predicate Valid()
      reads this
    {
      UniqueEmails(users) &&
      UniqueGroups(groups) &&
      UniqueMemberships(memberships) &&
      MembershipsReferenceGroups(memberships, groups) &&
      UniquePredictions(predictions) &&
      AllWellScored(predictions) &&
      UniqueFriendRequests(friendRequests)
    }

    /** A store with the given users and matches and nothing else. */
    constructor (users: seq<UserRow>, matches: map<string, MatchRow>)
      requires UniqueEmails(users)
      ensures Valid()
      ensures this.users == users && this.matches == matches
      ensures groups == [] && memberships == [] && predictions == [] && friendRequests == []
    {
      this.users := users;
      this.matches := matches;
      groups := [];
      memberships := [];
      predictions := [];
      friendRequests := [];
    }

    /** POST /api/matches/:matchId/calculate-points. An unknown match is 404;
        otherwise the match is refreshed from `fetched`, and unless its status
        is then "finished" the answer is 400. A finished match rescores every
        prediction referencing it, null result scores counting as 0, and
        reports how many rows it rewrote. */
    method CalculatePoints(matchId: string, fetched: Option<PublicMatch>) returns (status: Status, updated: nat)
      requires Valid()
      modifies this
      ensures Valid()
      ensures users == old(users) && groups == old(groups) && memberships == old(memberships)
      ensures friendRequests == old(friendRequests)
      ensures matchId !in old(matches) ==>
        status == NotFound && updated == 0 && matches == old(matches) && predictions == old(predictions)
      ensures matchId in old(matches) ==>
        matches == old(matches)[matchId := Refreshed(old(matches)[matchId], fetched)]
      ensures matchId in old(matches) && matches[matchId].status != "finished" ==>
        status == BadRequest && updated == 0 && predictions == old(predictions)
      ensures matchId in old(matches) && matches[matchId].status == "finished" ==>
        status == Ok &&
        predictions == RescoreMatch(old(predictions), matchId,
                                    ResultScore(matches[matchId].resultScoreA), ResultScore(matches[matchId].resultScoreB)) &&
        updated == CountForMatch(old(predictions), matchId)
    {
      if matchId !in matches {
        return NotFound, 0;
      }
      var m := Refreshed(matches[matchId], fetched);
      matches := matches[matchId := m];
      if m.status != "finished" {
        return BadRequest, 0;
      }
      var a := ResultScore(m.resultScoreA);
      var b := ResultScore(m.resultScoreB);
      var rows := predictions;
      var rescored;
      rescored, updated := RescoreRows(rows, matchId, a, b);
      RescorePreservesInvariants(rows, matchId, a, b);
      predictions := rescored;
      status := Ok;
    }

    /** GET /api/groups/:id/user-stats. A non-member is refused with 403.
        Otherwise the statistics of the caller's predictions in the group are
        summed, counted and rounded, and the caller's membership score is set
        to the total. */
    method UserGroupStats(userId: string, groupId: string) returns (status: Status, stats: UserStats)
      requires Valid()
      modifies this
      ensures Valid()
      ensures users == old(users) && matches == old(matches) && groups == old(groups)
      ensures predictions == old(predictions) && friendRequests == old(friendRequests)
      ensures FindMembership(old(memberships), userId, groupId).None? ==>
        status == Forbidden && memberships == old(memberships)
      ensures FindMembership(old(memberships), userId, groupId).Some? ==>
        var k := FindMembership(old(memberships), userId, groupId).value;
        var own := Owned(predictions, userId, groupId);
        status == Ok &&
        stats == UserStats(SumPoints(own), CountCorrect(own), |own|, CountExact(own), Accuracy(CountCorrect(own), |own|)) &&
        memberships == old(memberships)[k := old(memberships)[k].(score := stats.totalPoints)]
      ensures status == Ok ==>
        stats.exactScores <= stats.correctPredictions <= stats.totalPredictions &&
        stats.totalPoints == 3 * stats.correctPredictions + 2 * stats.exactScores &&
        0 <= stats.accuracy <= 100
    {
      var k := FindMembership(memberships, userId, groupId);
      if k.None? {
        return Forbidden, UserStats(0, 0, 0, 0, 0);
      }
      var own := Owned(predictions, userId, groupId);
      var totalPoints, correctPredictions, exactScores := TallyStats(own);
      var totalPredictions := |own|;
      memberships := memberships[k.value := memberships[k.value].(score := totalPoints)];
      OwnedWellScored(predictions, userId, groupId);
      StatsConsistent(own);
      stats := UserStats(totalPoints, correctPredictions, totalPredictions, exactScores,
                         Accuracy(correctPredictions, totalPredictions));
      status := Ok;
    }

    /** POST /api/groups/:id/matches/:matchId/predict. A non-member is
        refused with 403 and a missing winner with 400. Otherwise the caller's
        prediction for (match, group) is updated in place if it exists and
        created with id `newId`, null flags and 0 points if not; scores of 0
        are stored as null. */
    method Predict(userId: string, groupId: string, matchId: string,
                   winner: Option<string>, scoreA: Option<int>, scoreB: Option<int>, newId: string)
      returns (status: Status, saved: Option<PredictionRow>)
      requires Valid()
      requires forall i :: 0 <= i < |predictions| ==> predictions[i].id != newId
      modifies this
      ensures Valid()
      ensures users == old(users) && matches == old(matches) && groups == old(groups)
      ensures memberships == old(memberships) && friendRequests == old(friendRequests)
      ensures FindMembership(memberships, userId, groupId).None? ==>
        status == Forbidden && saved.None? && predictions == old(predictions)
      ensures FindMembership(memberships, userId, groupId).Some? && !Present(winner) ==>
        status == BadRequest && saved.None? && predictions == old(predictions)
      ensures FindMembership(memberships, userId, groupId).Some? && Present(winner) ==>
        status == Created && saved.Some? && saved.value in predictions &&
        PredictionKey(saved.value) == (userId, matchId, groupId) &&
        saved.value.predictedWinner == winner &&
        saved.value.predictedScoreA == StoredScore(scoreA) && saved.value.predictedScoreB == StoredScore(scoreB)
      ensures status == Created ==>
        var k := FindPrediction(old(predictions), userId, matchId, groupId);
        if k.Some? then
          predictions == old(predictions)[k.value := saved.value] &&
          saved.value == old(predictions)[k.value].(predictedWinner := winner,
                                                    predictedScoreA := StoredScore(scoreA),
                                                    predictedScoreB := StoredScore(scoreB))
        else
          predictions == old(predictions) + [saved.value] &&
          saved.value == PredictionRow(newId, userId, matchId, groupId, winner,
                                       StoredScore(scoreA), StoredScore(scoreB), None, None, 0)
    {
      if FindMembership(memberships, userId, groupId).None? {
        return Forbidden, None;
      }
      if !Present(winner) {
        return BadRequest, None;
      }
      var k := FindPrediction(predictions, userId, matchId, groupId);
      var row;
      if k.Some? {
        row := predictions[k.value].(predictedWinner := winner,
                                     predictedScoreA := StoredScore(scoreA),
                                     predictedScoreB := StoredScore(scoreB));
        UpdatePredictionKeepsInvariants(predictions, k.value, row);
        predictions := predictions[k.value := row];
        assert predictions[k.value] == row;
      } else {
        row := PredictionRow(newId, userId, matchId, groupId, winner,
                             StoredScore(scoreA), StoredScore(scoreB), None, None, 0);
        AddPredictionKeepsInvariants(predictions, row);
        predictions := predictions + [row];
      }
      return Created, Some(row);
    }

    /** POST /api/groups. A missing name is 400. Otherwise invite codes are
        generated, one batch of ten draws at a time, until one is not in use;
        the group is created with it and the creator joins it with score 0. */
    method CreateGroup(userId: string, name: Option<string>, description: Option<string>,
                       codeDraws: seq<seq<real>>, newGroupId: string)
      returns (status: Status, created: Option<GroupRow>)
      requires Valid()
      requires forall j :: 0 <= j < |codeDraws| ==> CodeDraws(codeDraws[j])
      requires FirstFreeCode(groups, codeDraws).Some?
      requires newGroupId !in GroupIds(groups)
      modifies this
      ensures Valid()
      ensures users == old(users) && matches == old(matches)
      ensures predictions == old(predictions) && friendRequests == old(friendRequests)
      ensures !Present(name) ==>
        status == BadRequest && created.None? && groups == old(groups) && memberships == old(memberships)
      ensures Present(name) ==>
        var code := InviteCodeOf(codeDraws[FirstFreeCode(old(groups), codeDraws).value]);
        var g := GroupRow(newGroupId, name.value, if Present(description) then description.value else "", code, userId);
        status == Created && created == Some(g) &&
        !InviteCodeTaken(old(groups), code) && IsInviteCode(code) &&
        groups == old(groups) + [g] &&
        memberships == old(memberships) + [MembershipRow(userId, newGroupId, 0)]
    {
      if !Present(name) {
        return BadRequest, None;
      }
      var inviteCode := UnusedInviteCode(groups, codeDraws);
      var g := GroupRow(newGroupId, name.value, if Present(description) then description.value else "", inviteCode, userId);
      AddGroupKeepsInvariants(groups, memberships, g, userId);
      groups := groups + [g];
      memberships := memberships + [MembershipRow(userId, newGroupId, 0)];
      return Created, Some(g);
    }

    /** POST /api/groups/:id/join. A missing code is 400; no group with both
        that id and that code is 404; an existing member is 400. Otherwise the
        caller joins with score 0. */
    method JoinGroup(userId: string, groupId: string, inviteCode: Option<string>) returns (status: Status)
      requires Valid()
      modifies this
      ensures Valid()
      ensures users == old(users) && matches == old(matches) && groups == old(groups)
      ensures predictions == old(predictions) && friendRequests == old(friendRequests)
      ensures !Present(inviteCode) ==> status == BadRequest && memberships == old(memberships)
      ensures Present(inviteCode) && FindGroupWithCode(groups, groupId, inviteCode.value).None? ==>
        status == NotFound && memberships == old(memberships)
      ensures Present(inviteCode) && FindGroupWithCode(groups, groupId, inviteCode.value).Some? &&
              FindMembership(old(memberships), userId, groupId).Some? ==>
        status == BadRequest && memberships == old(memberships)
      ensures Present(inviteCode) && FindGroupWithCode(groups, groupId, inviteCode.value).Some? &&
              FindMembership(old(memberships), userId, groupId).None? ==>
        status == Ok && memberships == old(memberships) + [MembershipRow(userId, groupId, 0)]
      ensures FindMembership(memberships, userId, groupId).Some? <==>
        status == Ok || FindMembership(old(memberships), userId, groupId).Some?
    {
      if !Present(inviteCode) {
        return BadRequest;
      }
      var g := FindGroupWithCode(groups, groupId, inviteCode.value);
      if g.None? {
        return NotFound;
      }
      if FindMembership(memberships, userId, groupId).Some? {
        return BadRequest;
      }
      assert groups[g.value] in groups;
      memberships := memberships + [MembershipRow(userId, groupId, 0)];
      assert memberships[|memberships| - 1].userId == userId;
      return Ok;
    }

    /** POST /api/groups/:id/leave. A non-member is 404; otherwise exactly the
        caller's membership row is deleted. */
    method LeaveGroup(userId: string, groupId: string) returns (status: Status)
      requires Valid()
      modifies this
      ensures Valid()
      ensures users == old(users) && matches == old(matches) && groups == old(groups)
      ensures predictions == old(predictions) && friendRequests == old(friendRequests)
      ensures FindMembership(old(memberships), userId, groupId).None? ==>
        status == NotFound && memberships == old(memberships)
      ensures FindMembership(old(memberships), userId, groupId).Some? ==>
        status == Ok && memberships == RemoveAt(old(memberships), FindMembership(old(memberships), userId, groupId).value)
      ensures FindMembership(memberships, userId, groupId).None?
    {
      var k := FindMembership(memberships, userId, groupId);
      if k.None? {
        return NotFound;
      }
      memberships := RemoveAt(memberships, k.value);
      return Ok;
    }

    /** POST /api/friend-requests. A missing email is 400, an unknown email
        404, oneself 400, and a pair that already has a request in either
        direction, whatever its status, 400. Otherwise a pending request from
        the caller to that user is created. */
    method SendFriendRequest(userId: string, email: Option<string>, newId: string) returns (status: Status)
      requires Valid()
      requires forall i :: 0 <= i < |friendRequests| ==> friendRequests[i].id != newId
      modifies this
      ensures Valid()
      ensures users == old(users) && matches == old(matches) && groups == old(groups)
      ensures memberships == old(memberships) && predictions == old(predictions)
      ensures !Present(email) ==> status == BadRequest && friendRequests == old(friendRequests)
      ensures Present(email) && FindUserByEmail(users, email.value).None? ==>
        status == NotFound && friendRequests == old(friendRequests)
      ensures Present(email) && FindUserByEmail(users, email.value).Some? ==>
        var target := users[FindUserByEmail(users, email.value).value].id;
        (target == userId ==> status == BadRequest && friendRequests == old(friendRequests)) &&
        (target != userId && FindRequestBetween(old(friendRequests), userId, target).Some? ==>
           status == BadRequest && friendRequests == old(friendRequests)) &&
        (target != userId && FindRequestBetween(old(friendRequests), userId, target).None? ==>
           status == Ok && friendRequests == old(friendRequests) + [FriendRequestRow(newId, userId, target, Pending)])
    {
      if !Present(email) {
        return BadRequest;
      }
      var t := FindUserByEmail(users, email.value);
      if t.None? {
        return NotFound;
      }
      var target := users[t.value].id;
      if target == userId {
        return BadRequest;
      }
      if FindRequestBetween(friendRequests, userId, target).Some? {
        return BadRequest;
      }
      var r := FriendRequestRow(newId, userId, target, Pending);
      forall i | 0 <= i < |friendRequests|
        ensures !SamePair(friendRequests[i], r)
      {
        assert !Between(friendRequests[i], userId, target);
      }
      friendRequests := friendRequests + [r];
      return Ok;
    }

    /** POST /api/friend-requests/:requestId/accept. An unknown request is
        404, and one addressed to someone else 403; otherwise its status
        becomes accepted. */
    method AcceptFriendRequest(userId: string, requestId: string) returns (status: Status)
      requires Valid()
      modifies this
      ensures Valid()
      ensures users == old(users) && matches == old(matches) && groups == old(groups)
      ensures memberships == old(memberships) && predictions == old(predictions)
      ensures FindRequest(old(friendRequests), requestId).None? ==>
        status == NotFound && friendRequests == old(friendRequests)
      ensures FindRequest(old(friendRequests), requestId).Some? ==>
        var k := FindRequest(old(friendRequests), requestId).value;
        (old(friendRequests)[k].receiverId != userId ==> status == Forbidden && friendRequests == old(friendRequests)) &&
        (old(friendRequests)[k].receiverId == userId ==>
           status == Ok && friendRequests == old(friendRequests)[k := old(friendRequests)[k].(status := Accepted)])
    {
      var k := FindRequest(friendRequests, requestId);
      if k.None? {
        return NotFound;
      }
      if friendRequests[k.value].receiverId != userId {
        return Forbidden;
      }
      friendRequests := friendRequests[k.value := friendRequests[k.value].(status := Accepted)];
      return Ok;
    }

    /** POST /api/friend-requests/:requestId/reject. An unknown request is
        404, and one addressed to someone else 403; otherwise the request is
        deleted. */
    method RejectFriendRequest(userId: string, requestId: string) returns (status: Status)
      requires Valid()
      modifies this
      ensures Valid()
      ensures users == old(users) && matches == old(matches) && groups == old(groups)
      ensures memberships == old(memberships) && predictions == old(predictions)
      ensures FindRequest(old(friendRequests), requestId).None? ==>
        status == NotFound && friendRequests == old(friendRequests)
      ensures FindRequest(old(friendRequests), requestId).Some? ==>
        var k := FindRequest(old(friendRequests), requestId).value;
        (old(friendRequests)[k].receiverId != userId ==> status == Forbidden && friendRequests == old(friendRequests)) &&
        (old(friendRequests)[k].receiverId == userId ==>
           status == Ok && friendRequests == RemoveAt(old(friendRequests), k))
      ensures status == Ok ==> FindRequest(friendRequests, requestId).None?
    {
      var k := FindRequest(friendRequests, requestId);
      if k.None? {
        return NotFound;
      }
      if friendRequests[k.value].receiverId != userId {
        return Forbidden;
      }
      friendRequests := RemoveAt(friendRequests, k.value);
      return Ok;
    }

    /** DELETE /api/friends/:id. Without an accepted request between the two
        users, in either direction, the answer is 404; otherwise that request
        is deleted and the two are no longer friends. */
    method RemoveFriend(userId: string, friendId: string) returns (status: Status)
      requires Valid()
      modifies this
      ensures Valid()
      ensures users == old(users) && matches == old(matches) && groups == old(groups)
      ensures memberships == old(memberships) && predictions == old(predictions)
      ensures FindFriendship(old(friendRequests), userId, friendId).None? ==>
        status == NotFound && friendRequests == old(friendRequests)
      ensures FindFriendship(old(friendRequests), userId, friendId).Some? ==>
        status == Ok &&
        friendRequests == RemoveAt(old(friendRequests), FindFriendship(old(friendRequests), userId, friendId).value)
      ensures FindFriendship(friendRequests, userId, friendId).None?
    {
      var k := FindFriendship(friendRequests, userId, friendId);
      if k.None? {
        return NotFound;
      }
      friendRequests := RemoveAt(friendRequests, k.value);
      return Ok;
    }
  }
}
