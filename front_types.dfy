/** The records the front end renders. `winner` and `predictedWinner` are
    meant to be "team_a" or "team_b", but nothing enforces it, so they are
    plain strings. Match dates are epoch milliseconds. */
module FrontTypes {
  import opened Wrappers

  datatype User = User(id: string, name: string, email: string, totalPoints: int, badges: seq<string>)

  datatype Group = Group(id: string, name: string, inviteCode: string, description: Option<string>,
                         members: seq<string>, createdBy: string)

  datatype MatchStatus = Upcoming | Live | Completed

  function StatusLabel(s: MatchStatus): string {
    match s
    case Upcoming => "upcoming"
    case Live => "live"
    case Completed => "completed"
  }

  datatype Match = Match(id: string, teamA: string, teamB: string, matchDate: int, tournament: string,
                         status: MatchStatus, winner: Option<string>, scoreA: Option<int>, scoreB: Option<int>)

  datatype Prediction = Prediction(id: string, userId: string, matchId: string, groupId: string,
                                   predictedWinner: string, predictedScoreA: Option<int>, predictedScoreB: Option<int>,
                                   pointsEarned: int, isCorrect: bool, isExactScore: bool)
}
