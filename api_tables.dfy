/** The rows of the private API's relational store, the invariants the
    handlers keep over them, and the pure specifications of the two loops of
    the handlers: rescoring every prediction of a match, and a user's
    statistics in a group. */
module ApiTables {
  import opened Wrappers
  import opened Seqs
  import opened Scoring
  import opened Random

  datatype UserRow = UserRow(id: string, username: string, email: string)

  /** A match; the result scores are nullable columns. */
  datatype MatchRow = MatchRow(id: string, status: string, resultScoreA: Option<int>, resultScoreB: Option<int>)

  /** A prediction. `predictedWinner` is a nullable text column; the scoring
      flags are null until the match is scored. */
  datatype PredictionRow = PredictionRow(
    id: string,
    userId: string,
    matchId: string,
    groupId: string,
    predictedWinner: Option<string>,
    predictedScoreA: Option<int>,
    predictedScoreB: Option<int>,
    isCorrect: Option<bool>,
    isExactScore: Option<bool>,
    pointsEarned: int)

  datatype GroupRow = GroupRow(id: string, name: string, description: string, inviteCode: string, createdById: string)

  /** A user's membership of a group, with their cumulative score in it. */
  datatype MembershipRow = MembershipRow(userId: string, groupId: string, score: int)

  datatype FriendStatus = Pending | Accepted | Rejected | Blocked

  datatype FriendRequestRow = FriendRequestRow(id: string, requesterId: string, receiverId: string, status: FriendStatus)

  /** A request-body field read with `if (!field)`: absent or empty is missing. */
  predicate Present(o: Option<string>) {
    o.Some? && o.value != ""
  }

  // ---- table invariants ----

  function PredictionKey(p: PredictionRow): (string, string, string) {
    (p.userId, p.matchId, p.groupId)
  }

  /** Row ids are distinct and there is at most one prediction per
      (user, match, group). */
  predicate UniquePredictions(ps: seq<PredictionRow>) {
    forall i, j :: 0 <= i < j < |ps| ==> ps[i].id != ps[j].id && PredictionKey(ps[i]) != PredictionKey(ps[j])
  }

  /** The stored points agree with the stored flags (a null flag reads as false). */
  predicate WellScored(p: PredictionRow) {
    PointsMatchFlags(p.isCorrect == Some(true), p.isExactScore == Some(true), p.pointsEarned)
  }

  predicate AllWellScored(ps: seq<PredictionRow>) {
    forall i :: 0 <= i < |ps| ==> WellScored(ps[i])
  }

  predicate UniqueMemberships(ms: seq<MembershipRow>) {
    forall i, j :: 0 <= i < j < |ms| ==> ms[i].userId != ms[j].userId || ms[i].groupId != ms[j].groupId
  }

  function GroupIds(gs: seq<GroupRow>): set<string> {
    set g | g in gs :: g.id
  }

  predicate MembershipsReferenceGroups(ms: seq<MembershipRow>, gs: seq<GroupRow>) {
    forall i :: 0 <= i < |ms| ==> ms[i].groupId in GroupIds(gs)
  }

  /** Invite codes are exactly ten characters from A-Z and 0-9. */
  predicate IsInviteCodeChar(c: char) {
    'A' <= c <= 'Z' || '0' <= c <= '9'
  }

  predicate IsInviteCode(s: string) {
    |s| == 10 && forall i :: 0 <= i < |s| ==> IsInviteCodeChar(s[i])
  }

  /** Group ids and invite codes are distinct, and every code is well formed. */
  predicate UniqueGroups(gs: seq<GroupRow>) {
    (forall i, j :: 0 <= i < j < |gs| ==> gs[i].id != gs[j].id && gs[i].inviteCode != gs[j].inviteCode) &&
    (forall i :: 0 <= i < |gs| ==> IsInviteCode(gs[i].inviteCode))
  }

  predicate SamePair(r: FriendRequestRow, s: FriendRequestRow) {
    (r.requesterId == s.requesterId && r.receiverId == s.receiverId) ||
    (r.requesterId == s.receiverId && r.receiverId == s.requesterId)
  }

  /** Request ids are distinct, nobody has a request to themself, and two
      users share at most one request, whichever of them sent it. */
  predicate UniqueFriendRequests(rs: seq<FriendRequestRow>) {
    (forall i :: 0 <= i < |rs| ==> rs[i].requesterId != rs[i].receiverId) &&
    (forall i, j :: 0 <= i < j < |rs| ==> rs[i].id != rs[j].id && !SamePair(rs[i], rs[j]))
  }

  predicate UniqueEmails(us: seq<UserRow>) {
    forall i, j :: 0 <= i < j < |us| ==> us[i].email != us[j].email
  }

  // ---- lookups (the ORM's findFirst / findUnique) ----

  function FindMembership(ms: seq<MembershipRow>, userId: string, groupId: string): (k: Option<nat>)
    ensures k.Some? ==> k.value < |ms| && ms[k.value].userId == userId && ms[k.value].groupId == groupId
    ensures k.None? <==> forall i :: 0 <= i < |ms| ==> ms[i].userId != userId || ms[i].groupId != groupId
  {
    FirstIndex(ms, (m: MembershipRow) => m.userId == userId && m.groupId == groupId)
  }

  function FindPrediction(ps: seq<PredictionRow>, userId: string, matchId: string, groupId: string): (k: Option<nat>)
    ensures k.Some? ==> k.value < |ps| && PredictionKey(ps[k.value]) == (userId, matchId, groupId)
    ensures k.None? <==> forall i :: 0 <= i < |ps| ==> PredictionKey(ps[i]) != (userId, matchId, groupId)
  {
    FirstIndex(ps, (p: PredictionRow) => PredictionKey(p) == (userId, matchId, groupId))
  }

  function FindGroupWithCode(gs: seq<GroupRow>, groupId: string, code: string): (k: Option<nat>)
    ensures k.Some? ==> k.value < |gs| && gs[k.value].id == groupId && gs[k.value].inviteCode == code
    ensures k.None? <==> forall i :: 0 <= i < |gs| ==> gs[i].id != groupId || gs[i].inviteCode != code
  {
    FirstIndex(gs, (g: GroupRow) => g.id == groupId && g.inviteCode == code)
  }

  predicate InviteCodeTaken(gs: seq<GroupRow>, code: string) {
    exists i :: 0 <= i < |gs| && gs[i].inviteCode == code
  }

  function FindUserByEmail(us: seq<UserRow>, email: string): (k: Option<nat>)
    ensures k.Some? ==> k.value < |us| && us[k.value].email == email
    ensures k.None? <==> forall i :: 0 <= i < |us| ==> us[i].email != email
  {
    FirstIndex(us, (u: UserRow) => u.email == email)
  }

  function FindRequest(rs: seq<FriendRequestRow>, requestId: string): (k: Option<nat>)
    ensures k.Some? ==> k.value < |rs| && rs[k.value].id == requestId
    ensures k.None? <==> forall i :: 0 <= i < |rs| ==> rs[i].id != requestId
  {
    FirstIndex(rs, (r: FriendRequestRow) => r.id == requestId)
  }

  /** A request between the two users in either direction, whatever its status. */
  predicate Between(r: FriendRequestRow, a: string, b: string) {
    (r.requesterId == a && r.receiverId == b) || (r.requesterId == b && r.receiverId == a)
  }

  function FindRequestBetween(rs: seq<FriendRequestRow>, a: string, b: string): (k: Option<nat>)
    ensures k.Some? ==> k.value < |rs| && Between(rs[k.value], a, b)
    ensures k.None? <==> forall i :: 0 <= i < |rs| ==> !Between(rs[i], a, b)
  {
    FirstIndex(rs, (r: FriendRequestRow) => Between(r, a, b))
  }

  function FindFriendship(rs: seq<FriendRequestRow>, a: string, b: string): (k: Option<nat>)
    ensures k.Some? ==> k.value < |rs| && Between(rs[k.value], a, b) && rs[k.value].status == Accepted
    ensures k.None? <==> forall i :: 0 <= i < |rs| ==> !Between(rs[i], a, b) || rs[i].status != Accepted
  {
    FirstIndex(rs, (r: FriendRequestRow) => Between(r, a, b) && r.status == Accepted)
  }

  // ---- invite codes ----

  /** The 36 characters codes are drawn from: "ABCDEFGHIJKLMNOPQRSTUVWXYZ0123456789". */
  const InviteAlphabet: string :=
    seq(36, i requires 0 <= i < 36 => if i < 26 then (('A' as int) + i) as char else (('0' as int) + i - 26) as char)

  lemma InviteAlphabetText()
    ensures InviteAlphabet == "ABCDEFGHIJKLMNOPQRSTUVWXYZ0123456789"
  {
  }

  /** The alphabet holds exactly the code characters. */
  lemma InviteAlphabetIsCodeChars(c: char)
    ensures IsInviteCodeChar(c) <==> c in InviteAlphabet
  {
    if 'A' <= c <= 'Z' {
      assert InviteAlphabet[(c as int) - ('A' as int)] == c;
    } else if '0' <= c <= '9' {
      assert InviteAlphabet[(c as int) - ('0' as int) + 26] == c;
    }
  }

  /** Ten draws, one per character. */
  predicate CodeDraws(rs: seq<real>) {
    |rs| == 10 && AllDraws(rs)
  }

  /** The code the generator builds from ten draws. */
  function InviteCodeOf(rs: seq<real>): (code: string)
    requires CodeDraws(rs)
    ensures IsInviteCode(code)
  {
    seq(10, i requires 0 <= i < 10 => InviteAlphabet[PickIndex(rs[i], 36)])
  }

  /** The first batch of draws whose code is not used by any group: where the
      regenerate-until-unused loop of group creation stops. */
  function FirstFreeCode(gs: seq<GroupRow>, batches: seq<seq<real>>): (k: Option<nat>)
    requires forall j :: 0 <= j < |batches| ==> CodeDraws(batches[j])
    ensures k.Some? ==> k.value < |batches| && !InviteCodeTaken(gs, InviteCodeOf(batches[k.value]))
    ensures k.Some? ==> forall j :: 0 <= j < k.value ==> InviteCodeTaken(gs, InviteCodeOf(batches[j]))
    ensures k.None? <==> forall j :: 0 <= j < |batches| ==> InviteCodeTaken(gs, InviteCodeOf(batches[j]))
  {
    if |batches| == 0 then None
    else if !InviteCodeTaken(gs, InviteCodeOf(batches[0])) then Some(0)
    else match FirstFreeCode(gs, batches[1..])
      case None => None
      case Some(k) => Some(k + 1)
  }

  /** Adding a group with a fresh id and an unused, well-formed code, and
      its creator's membership, keeps the group and membership invariants. */
  lemma AddGroupKeepsInvariants(gs: seq<GroupRow>, ms: seq<MembershipRow>, g: GroupRow, userId: string)
    requires UniqueGroups(gs) && UniqueMemberships(ms) && MembershipsReferenceGroups(ms, gs)
    requires g.id !in GroupIds(gs) && !InviteCodeTaken(gs, g.inviteCode) && IsInviteCode(g.inviteCode)
    ensures UniqueGroups(gs + [g])
    ensures UniqueMemberships(ms + [MembershipRow(userId, g.id, 0)])
    ensures MembershipsReferenceGroups(ms + [MembershipRow(userId, g.id, 0)], gs + [g])
  {
    var gs' := gs + [g];
    assert GroupIds(gs') == GroupIds(gs) + {g.id};
    forall i | 0 <= i < |gs|
      ensures gs'[i].id != g.id && gs'[i].inviteCode != g.inviteCode
    {
      assert gs[i] in gs;
    }
  }

  // ---- scoring a match ----

  /** A prediction row with its three scoring fields rewritten for the
      result `a`-`b`. */
  function ScorePrediction(p: PredictionRow, a: int, b: int): (q: PredictionRow)
    ensures q.id == p.id && PredictionKey(q) == PredictionKey(p)
    ensures q.predictedWinner == p.predictedWinner
    ensures q.predictedScoreA == p.predictedScoreA && q.predictedScoreB == p.predictedScoreB
    ensures var o := Award(p.predictedWinner, p.predictedScoreA, p.predictedScoreB, a, b);
      q.isCorrect == Some(o.isCorrect) && q.isExactScore == Some(o.isExactScore) && q.pointsEarned == o.points
    ensures WellScored(q)
  {
    var o := Award(p.predictedWinner, p.predictedScoreA, p.predictedScoreB, a, b);
    p.(isCorrect := Some(o.isCorrect), isExactScore := Some(o.isExactScore), pointsEarned := o.points)
  }

  /** Every prediction of match `m` rescored against `a`-`b`; the others as
      they were. */
  function RescoreMatch(ps: seq<PredictionRow>, m: string, a: int, b: int): (r: seq<PredictionRow>)
    ensures |r| == |ps|
    ensures forall i :: 0 <= i < |ps| ==> r[i] == if ps[i].matchId == m then ScorePrediction(ps[i], a, b) else ps[i]
  {
    if ps == [] then []
    else
      var last := ps[|ps| - 1];
      RescoreMatch(ps[..|ps| - 1], m, a, b) + [if last.matchId == m then ScorePrediction(last, a, b) else last]
  }

  /** The number of predictions of match `m`. */
  function CountForMatch(ps: seq<PredictionRow>, m: string): (n: nat)
    ensures n <= |ps|
    ensures n == 0 <==> forall i :: 0 <= i < |ps| ==> ps[i].matchId != m
  {
    if ps == [] then 0
    else CountForMatch(ps[..|ps| - 1], m) + (if ps[|ps| - 1].matchId == m then 1 else 0)
  }

  /** Scoring is a full overwrite: scoring the same result twice is scoring it once. */
  lemma RescoreIdempotent(ps: seq<PredictionRow>, m: string, a: int, b: int)
    ensures RescoreMatch(RescoreMatch(ps, m, a, b), m, a, b) == RescoreMatch(ps, m, a, b)
  {
    var once := RescoreMatch(ps, m, a, b);
    var twice := RescoreMatch(once, m, a, b);
    forall i | 0 <= i < |ps|
      ensures twice[i] == once[i]
    {
    }
  }

  /** Rescoring keeps row ids and keys, so it keeps the prediction table's
      uniqueness, and leaves every row well scored if they were. */
  lemma RescorePreservesInvariants(ps: seq<PredictionRow>, m: string, a: int, b: int)
    requires UniquePredictions(ps) && AllWellScored(ps)
    ensures UniquePredictions(RescoreMatch(ps, m, a, b)) && AllWellScored(RescoreMatch(ps, m, a, b))
  {
    var r := RescoreMatch(ps, m, a, b);
    forall i | 0 <= i < |ps|
      ensures r[i].id == ps[i].id && PredictionKey(r[i]) == PredictionKey(ps[i]) && WellScored(r[i])
    {
    }
  }

  /** Rewriting a row in place, with its id and key unchanged and well
      scored, keeps the prediction table's invariants. */
  lemma UpdatePredictionKeepsInvariants(ps: seq<PredictionRow>, k: nat, row: PredictionRow)
    requires UniquePredictions(ps) && AllWellScored(ps)
    requires k < |ps| && row.id == ps[k].id && PredictionKey(row) == PredictionKey(ps[k]) && WellScored(row)
    ensures UniquePredictions(ps[k := row]) && AllWellScored(ps[k := row])
  {
  }

  /** Appending a well-scored row with a fresh id and a fresh key keeps the
      prediction table's invariants. */
  lemma AddPredictionKeepsInvariants(ps: seq<PredictionRow>, row: PredictionRow)
    requires UniquePredictions(ps) && AllWellScored(ps) && WellScored(row)
    requires forall i :: 0 <= i < |ps| ==> ps[i].id != row.id && PredictionKey(ps[i]) != PredictionKey(row)
    ensures UniquePredictions(ps + [row]) && AllWellScored(ps + [row])
  {
  }

  /** The indices of the predictions of match `m`. */
  function IndicesForMatch(ps: seq<PredictionRow>, m: string): set<nat> {
    set i: nat | i < |ps| && ps[i].matchId == m
  }

  /** The number of rows the handler reports updating is the number of
      predictions referencing the match. */
  lemma {:induction false} CountForMatchIsCardinality(ps: seq<PredictionRow>, m: string)
    ensures CountForMatch(ps, m) == |IndicesForMatch(ps, m)|
  {
    if ps != [] {
      var n := |ps| - 1;
      CountForMatchIsCardinality(ps[..n], m);
      var before := IndicesForMatch(ps[..n], m);
      if ps[n].matchId == m {
        assert IndicesForMatch(ps, m) == before + {n};
      } else {
        assert IndicesForMatch(ps, m) == before;
      }
    }
  }

  // ---- a user's statistics in a group ----

  /** The user's predictions in the group, in table order. */
  function Owned(ps: seq<PredictionRow>, userId: string, groupId: string): (r: seq<PredictionRow>)
    ensures |r| <= |ps|
    ensures forall q :: q in r ==> q in ps && q.userId == userId && q.groupId == groupId
    ensures forall i :: 0 <= i < |ps| && ps[i].userId == userId && ps[i].groupId == groupId ==> ps[i] in r
  {
    if ps == [] then []
    else
      var last := ps[|ps| - 1];
      Owned(ps[..|ps| - 1], userId, groupId) + (if last.userId == userId && last.groupId == groupId then [last] else [])
  }

  /** The user's points: `points_earned` summed over their rows. */
  function SumPoints(ps: seq<PredictionRow>): (total: int)
    ensures (forall i :: 0 <= i < |ps| ==> ps[i].pointsEarned >= 0) ==> total >= 0
  {
    if ps == [] then 0 else SumPoints(ps[..|ps| - 1]) + ps[|ps| - 1].pointsEarned
  }

  /** The number of rows whose `is_correct` is set. */
  function CountCorrect(ps: seq<PredictionRow>): (n: nat)
    ensures n <= |ps|
    ensures n == 0 <==> forall i :: 0 <= i < |ps| ==> ps[i].isCorrect != Some(true)
  {
    if ps == [] then 0 else CountCorrect(ps[..|ps| - 1]) + (if ps[|ps| - 1].isCorrect == Some(true) then 1 else 0)
  }

  /** The number of rows whose `is_exact_score` is set. */
  function CountExact(ps: seq<PredictionRow>): (n: nat)
    ensures n <= |ps|
    ensures n == 0 <==> forall i :: 0 <= i < |ps| ==> ps[i].isExactScore != Some(true)
  {
    if ps == [] then 0 else CountExact(ps[..|ps| - 1]) + (if ps[|ps| - 1].isExactScore == Some(true) then 1 else 0)
  }

  /** On well-scored rows the statistics are consistent: exact scores are a
      subset of correct winners, and the points are 3 per correct winner plus
      2 per exact score. */
  lemma {:induction false} StatsConsistent(ps: seq<PredictionRow>)
    requires AllWellScored(ps)
    ensures CountExact(ps) <= CountCorrect(ps) <= |ps|
    ensures SumPoints(ps) == WinnerPoints * CountCorrect(ps) + ExactScoreBonus * CountExact(ps)
  {
    if ps != [] {
      StatsConsistent(ps[..|ps| - 1]);
    }
  }

  /** Every row of the table is well scored, so is every row the user owns. */
  lemma OwnedWellScored(ps: seq<PredictionRow>, userId: string, groupId: string)
    requires AllWellScored(ps)
    ensures AllWellScored(Owned(ps, userId, groupId))
  {
    var own := Owned(ps, userId, groupId);
    forall i | 0 <= i < |own|
      ensures WellScored(own[i])
    {
      assert own[i] in own;
    }
  }
}
