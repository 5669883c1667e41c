# League of Prono, the scoring core, in Dafny

League of Prono is a betting-among-friends app for League of Legends
matches. Users join groups with an invite code and predict match winners
and scores. Each finished match earns them points:
- 3 for the right winner;
- 2 more for the exact score.

This project models the parts of the repository that hold rules, and proves
what those rules promise.

- **Scoring** (`scoring.dfy`, module `Scoring`). This is the pure 0/3/5 rule of the private API's calculate-points handler:
  - the actual winner is derived from two result scores, with a null score counted as 0;
  - each prediction gets its correct and exact-score flags and its points;
  - the accuracy is the rounded percentage used by user-stats and by the front end's aggregation.
- **The private API** (`api_tables.dfy` and `private_api.dfy`, modules `ApiTables` and `PrivateApi`). The handlers are methods of a class `Database` that holds the relational tables as sequences. Each handler returns the HTTP status it answers with. The handlers are:
  - calculate-points: refresh, 404, 400, then rescore every prediction of the match and count them;
  - user-stats: 403, then sums and counts, and the membership score written back;
  - predict: 403, 400, then an upsert keyed by (user, match, group), with `score || null`;
  - group create, join and leave: invite codes of ten characters over `A-Z0-9`, and the membership rules;
  - friend requests: send, accept, reject and remove.

  `ApiTables` holds the row types, the table invariants, the lookups and the specification functions the methods are proved against.
- **Front-end adapter** (`data_adapter.dfy`, module `DataAdapter`). This is `dataAdapter.ts`:
  - the `parseNumber` and `parseBoolean` coercions;
  - the status whitelist;
  - the four Convex-document adapters;
  - `calculateUserScoreInGroup`;
  - `getGroupLeaderboard`, which is a map, a filter and a stable sort by score.

  `js_values.dfy` (module `JsValues`) gives the JavaScript semantics it relies on: truthiness, `String`, `Number`, `parseInt`, `toString` and ASCII `toLowerCase`. `front_types.dfy` holds the front end's record types.
- **Mock data** (`mock_data.dfy`, `mock_scoring.dfy`). The fixtures of `mockData.ts` are four users, two groups, nine matches and twenty-two predictions. The module has the file's two helpers over them, and lemmas that read the fixtures as worked examples:
  - every scored prediction follows the 0/3/5 rule;
  - the per-user scores;
  - the exact leaderboard of each group.
- **Cross-group aggregation** (`score_aggregation.dfy`). This is the loop of `getAggregatedUserStats`, a method with a loop and invariants:
  - groups whose score fetch failed are skipped;
  - the four totals are summed;
  - one `group_scores` entry is pushed per kept group.
- **Match simulator** (`simulate_tick.dfy`). This is `simulateTick`, as a method of a class `MatchTable` that holds the Convex Match table. One tick does one of three things:
  - it scores one point in the ongoing match, finishing it at 10;
  - it starts the first upcoming match;
  - it creates a match between two distinct teams.

`wrappers.dfy`, `seqs.dfy` and `random.dfy` hold the `Option` type, a first-index search, which models the ORM's `findFirst` and JavaScript's `find`, deletion at an index, and the draw oracle.

Everything the source takes from outside is a parameter:
- `Math.random()` is a sequence of reals in [0, 1), and an index is picked as `Math.floor(r * n)`;
- `crypto.randomUUID()` and `uuidv4()` are fresh ids;
- `new Date()` is a `now` value;
- the public-API fetch that precedes scoring is an optional `PublicMatch`;
- the per-group score fetches of the aggregation are a sequence of results.

## Model

Paths are relative to the repository root.

| member | source | states |
|---|---|---|
| Scoring.ResultScore | packages/prono-api-private/src/index.ts:1554-1555 | A null result score counts as 0; a present one counts as itself. |
| Scoring.ActualWinner | packages/prono-api-private/src/index.ts:1556-1561 | Team A exactly when its score is higher, team B exactly when lower, no winner exactly when level. |
| Scoring.Award | packages/prono-api-private/src/index.ts:1563-1579 | A prediction is correct iff it names the actual winner (on a level result only a null pick matches). It is exact iff it is correct and both predicted scores equal the result. Exact implies correct. Points are 0 iff wrong, 3 iff correct but not exact, and 5 iff exact. |
| Scoring.AwardConsistent | packages/prono-api-private/src/index.ts:1564-1579 | Every award is worth 0, 3 or 5 points, and its points follow from its two flags alone. |
| Scoring.DrawScoresNothing | packages/prono-api-private/src/index.ts:1554-1564 | On a level result (0-0 included, which is what two null scores become), a prediction naming a team is neither correct nor exact and earns 0. |
| Scoring.AwardSymmetric | packages/prono-api-private/src/index.ts:1556-1579 | Swapping the two teams' scores, both in the result and in the prediction, and the pick, gives the same award. |
| Scoring.Accuracy | packages/prono-api-private/src/index.ts:1674 | With no predictions the accuracy is 0. Otherwise it is the integer nearest to 100·correct/total, halves rounded up, and lies in 0..100 when correct ≤ total. |
| Scoring.AccuracyExamples | packages/prono-api-private/src/index.ts:1674 | 1/3 rounds to 33, 2/3 to 67, 1/8 to 13, 0/0 gives 0, and 4/4 gives 100. |
| ApiTables.FindMembership | packages/prono-api-private/src/index.ts:1624-1629 | Finds the first membership row of that user in that group; there is none exactly when no row matches. |
| ApiTables.FindPrediction | packages/prono-api-private/src/index.ts:968-974 | Finds the first prediction with that (user, match, group) key; there is none exactly when no row has the key. |
| ApiTables.FindGroupWithCode | packages/prono-api-private/src/index.ts:644-652 | Finds a group that has both that id and that invite code; there is none exactly when no group has both. |
| ApiTables.FindUserByEmail | packages/prono-api-private/src/index.ts:1190-1192 | Finds the user with that email; there is none exactly when no user has it. |
| ApiTables.FindRequest | packages/prono-api-private/src/index.ts:1302-1304 | Finds the friend request with that id; there is none exactly when no request has it. |
| ApiTables.FindRequestBetween | packages/prono-api-private/src/index.ts:1203-1210 | Finds a request between the two users in either direction, whatever its status; there is none exactly when no such request exists. |
| ApiTables.FindFriendship | packages/prono-api-private/src/index.ts:1388-1395 | Finds an accepted request between the two users in either direction; there is none exactly when no such request exists. |
| ApiTables.InviteAlphabetText | packages/prono-api-private/src/index.ts:394 | The code alphabet is "ABCDEFGHIJKLMNOPQRSTUVWXYZ0123456789". |
| ApiTables.InviteAlphabetIsCodeChars | packages/prono-api-private/src/index.ts:394 | A character is in the alphabet exactly when it is an upper-case letter or a digit. |
| ApiTables.InviteCodeOf | packages/prono-api-private/src/index.ts:393-400 | The code built from ten draws has ten characters, each from `A-Z0-9`. |
| ApiTables.FirstFreeCode | packages/prono-api-private/src/index.ts:551-564 | The regenerate-until-unused loop stops at the first batch of draws whose code no group uses, and every earlier batch gave a code already in use. There is no stopping point exactly when every batch gives a code in use. |
| ApiTables.AddGroupKeepsInvariants | packages/prono-api-private/src/index.ts:569-586 | Adding a group with a fresh id and an unused, well-formed code, plus its creator's membership, keeps group ids and codes unique, memberships unique, and every membership pointing at a group. |
| ApiTables.ScorePrediction | packages/prono-api-private/src/index.ts:1563-1590 | Rescoring a row keeps its id, key, pick and predicted scores. Its `is_correct`, `is_exact_score` and `points_earned` become the flags and points of the 0/3/5 award of its pick and predicted scores against the result, so its points are consistent with its flags. |
| ApiTables.RescoreMatch | packages/prono-api-private/src/index.ts:1552-1593 | Rescoring a match keeps the table's length. Each row that references the match becomes its rescored row, and every other row is unchanged. |
| ApiTables.CountForMatch | packages/prono-api-private/src/index.ts:1552-1598 | The number of predictions of the match is at most the table's size, and 0 exactly when no row references the match. |
| ApiTables.RescoreIdempotent | packages/prono-api-private/src/index.ts:1553-1593 | Scoring is a full overwrite: scoring the same result twice gives the table that scoring it once gives. |
| ApiTables.RescorePreservesInvariants | packages/prono-api-private/src/index.ts:1582-1590 | Rescoring keeps prediction ids and keys unique and keeps every row's points consistent with its flags. |
| ApiTables.UpdatePredictionKeepsInvariants | packages/prono-api-private/src/index.ts:992-1000 | Rewriting a prediction in place, with its id and key unchanged, keeps the table's uniqueness and scoring invariants. |
| ApiTables.AddPredictionKeepsInvariants | packages/prono-api-private/src/index.ts:1003-1013 | Appending a prediction with a fresh id and a fresh key keeps the table's uniqueness and scoring invariants. |
| ApiTables.CountForMatchIsCardinality | packages/prono-api-private/src/index.ts:1552-1598 | The reported number of updated rows equals the number of predictions that reference the match. |
| ApiTables.Owned | packages/prono-api-private/src/index.ts:1636-1641 | The rows selected for user-stats all belong to that user and that group and come from the table, and every row of that user in that group is selected. |
| ApiTables.SumPoints | packages/prono-api-private/src/index.ts:1647-1648 | The summed `points_earned` is never negative when no row's points are. |
| ApiTables.CountCorrect | packages/prono-api-private/src/index.ts:1649 | The number of correct rows is at most the number of rows, and 0 exactly when no row has `is_correct` set. |
| ApiTables.CountExact | packages/prono-api-private/src/index.ts:1650 | The number of exact rows is at most the number of rows, and 0 exactly when no row has `is_exact_score` set. |
| ApiTables.StatsConsistent | packages/prono-api-private/src/index.ts:1644-1652 | On scored rows, exact scores ≤ correct winners ≤ predictions, and total points = 3·correct + 2·exact. |
| PrivateApi.Refreshed | packages/prono-api-private/src/index.ts:1521-1536 | Without fetched data the match is unchanged. Otherwise a non-empty fetched status replaces the stored one (`||`), and each non-null fetched score replaces the stored score (`??`). |
| PrivateApi.StoredScore | packages/prono-api-private/src/index.ts:996-997 | A falsy score is stored as null: the stored score is null exactly when the submitted one is absent or 0, it is never 0, and otherwise it is the submitted score. |
| PrivateApi.ZeroScoreNeverExact | packages/prono-api-private/src/index.ts:996-997 | Because 0 is stored as null, no prediction submitted through the API is ever exact for a result where a side scored 0. |
| PrivateApi.GenerateInviteCode | packages/prono-api-private/src/index.ts:393-400 | The character loop returns a ten-character code over `A-Z0-9`, namely the code its draws determine. |
| PrivateApi.UnusedInviteCode | packages/prono-api-private/src/index.ts:551-564 | The regeneration loop returns the code of the first batch of draws not used by any group, and that code is well formed and unused. |
| PrivateApi.TallyStats | packages/prono-api-private/src/index.ts:1644-1651 | The accumulation loop returns the sum of the points, the number of correct rows and the number of exact rows. |
| PrivateApi.RescoreRows | packages/prono-api-private/src/index.ts:1552-1593 | The rescoring loop returns the table with every prediction of the match rescored, and the number of rows it rewrote. |
| PrivateApi.Database.CalculatePoints | packages/prono-api-private/src/index.ts:1492-1610 | An unknown match gives 404 and changes nothing. Otherwise the match is refreshed. A refreshed status other than "finished" gives 400 and leaves the predictions alone. A finished match rescores every prediction of that match against its result (null scores as 0) and reports their number. Other tables are unchanged and the store's invariants are kept. |
| PrivateApi.Database.UserGroupStats | packages/prono-api-private/src/index.ts:1614-1683 | A non-member gets 403 and nothing changes. A member gets their points, correct, total and exact counts over their predictions in the group, and the rounded accuracy. Their membership score is set to the points. Exact ≤ correct ≤ total, points = 3·correct + 2·exact, and 0 ≤ accuracy ≤ 100. |
| PrivateApi.Database.Predict | packages/prono-api-private/src/index.ts:878-1041 | A non-member gets 403 and a missing or empty winner gets 400; neither changes anything. Otherwise the caller's row for (match, group) is updated in place if it exists, or else created with null flags and 0 points. Either way the row carries the pick, and each score with 0 replaced by null. The key stays unique. |
| PrivateApi.Database.CreateGroup | packages/prono-api-private/src/index.ts:530-625 | A missing name gives 400. Otherwise the group is appended with the first unused generated invite code, and the creator joins it with score 0. |
| PrivateApi.Database.JoinGroup | packages/prono-api-private/src/index.ts:627-688 | A missing code gives 400, no group with both that id and that code gives 404, and an existing member gets 400. Otherwise a membership with score 0 is appended. Afterwards the caller is a member exactly when they were already a member or the join succeeded. |
| PrivateApi.Database.LeaveGroup | packages/prono-api-private/src/index.ts:690-733 | A non-member gets 404. Otherwise exactly that membership row is deleted, and the caller is no longer a member. |
| PrivateApi.Database.SendFriendRequest | packages/prono-api-private/src/index.ts:1174-1240 | A missing email gives 400, an unknown email 404, oneself 400, and an existing request in either direction 400. Otherwise a pending request from the caller to the target is appended. |
| PrivateApi.Database.AcceptFriendRequest | packages/prono-api-private/src/index.ts:1292-1334 | An unknown request gives 404 and a request addressed to someone else 403. Otherwise exactly that request's status becomes accepted. |
| PrivateApi.Database.RejectFriendRequest | packages/prono-api-private/src/index.ts:1336-1376 | An unknown request gives 404 and a request addressed to someone else 403. Otherwise exactly that request is deleted. |
| PrivateApi.Database.RemoveFriend | packages/prono-api-private/src/index.ts:1378-1414 | Without an accepted request between the two users, in either direction, the answer is 404. Otherwise that request is deleted and the two are no longer friends. |
| JsValues.NumberOfToString | packages/prono-front/app/data/dataAdapter.ts:82-86 | `Number` reads back the decimal text `toString` writes, for every integer. |
| JsValues.ParseIntOfToString | packages/prono-convex/convex/matches/simulateTick.ts:49-57 | `parseInt(s, 10)` reads back the decimal text `toString` writes, for every integer. |
| JsValues.ParseIntIgnoresTrailingText | packages/prono-convex/convex/matches/simulateTick.ts:49-50 | `parseInt` stops at the first non-digit ("12abc" is 12), where `Number` gives NaN. |
| JsValues.ParseInt | packages/prono-convex/convex/matches/simulateTick.ts:49-50 | `parseInt(s, 10)` of an empty text is NaN. |
| JsValues.ParseIntOfDigits | packages/prono-convex/convex/matches/simulateTick.ts:49-50 | `parseInt(s, 10)` reads a non-empty text of digits only as its decimal value. |
| JsValues.StringToNumber | packages/prono-front/app/data/dataAdapter.ts:84 | `Number` of an empty or all-blank text is 0, and a text of digits only reads as its decimal value. |
| JsValues.ToNumber | packages/prono-front/app/data/dataAdapter.ts:84 | `Number(undefined)` is NaN, and null and false are 0. A number is itself, and a string is read as `Number` reads text. |
| JsValues.ToJsString | packages/prono-front/app/data/dataAdapter.ts:126-130 | `String(v)` of a string is the string itself. Null gives "null" and undefined "undefined". A number gives text that `Number` reads back as that number. The result is empty exactly when `v` is the empty string. |
| JsValues.Truthy | packages/prono-front/app/data/dataAdapter.ts:94-101 | Exactly null, undefined, false, 0 and "" are falsy. A string is truthy exactly when it is non-empty. Any other value is truthy exactly when `Number` makes it a number other than 0. |
| JsValues.ToLowerCase | packages/prono-front/app/data/dataAdapter.ts:91 | Lower-casing keeps the length and leaves no upper-case ASCII letter. Each upper-case letter becomes the letter 32 code points on, and every other character is kept. |
| JsValues.ToLowerCaseIdempotent | packages/prono-front/app/data/dataAdapter.ts:91 | Lower-casing twice gives the same text as lower-casing once. |
| DataAdapter.ParseNumber | packages/prono-front/app/data/dataAdapter.ts:82-86 | null, undefined, "" and anything `Number` cannot read are 0. |
| DataAdapter.ParseNumberIsNumberOrZero | packages/prono-front/app/data/dataAdapter.ts:113-117 | `parseNumber` is `Number` with NaN replaced by 0, so its early return changes nothing. |
| DataAdapter.ParseNumberOfText | packages/prono-front/app/data/dataAdapter.ts:82-86 | A number given as itself or as its decimal text is returned unchanged. |
| DataAdapter.ParseBoolean | packages/prono-front/app/data/dataAdapter.ts:119-123 | A boolean is itself, and anything other than a boolean or a string is false. |
| DataAdapter.ParseBooleanOfString | packages/prono-front/app/data/dataAdapter.ts:119-123 | A string is true exactly when it is "true" in some mixture of letter cases. |
| DataAdapter.AdaptStatus | packages/prono-front/app/data/dataAdapter.ts:91-99 | The status is live exactly when the lower-cased text is "live", and completed exactly when it is "completed". Everything else is upcoming. |
| DataAdapter.AdaptStatusOfLabel | packages/prono-front/app/data/dataAdapter.ts:91-99 | Each of the three statuses is read back from its own label. |
| DataAdapter.FinishedShowsAsUpcoming | packages/prono-front/app/data/dataAdapter.ts:91-99 | "finished", which the Convex store writes for an ended match, is shown as upcoming, while "LIVE" is understood as live. |
| DataAdapter.AdaptConvexMatch | packages/prono-front/app/data/dataAdapter.ts:80-107 | The id, teams and tournament are `String` of the stored fields, and the status is the adapted status. Each score is kept exactly when it parses to a positive number, and then it is that number. The winner is kept verbatim exactly when it is truthy. The date is the parsed date when that is valid and non-zero, and now otherwise. |
| DataAdapter.AdaptMatchRoundTrip | packages/prono-front/app/data/dataAdapter.ts:80-107 | A match with positive or absent scores and a non-empty or absent winner is rebuilt exactly from its Convex document. |
| DataAdapter.ZeroScoreIsDropped | packages/prono-front/app/data/dataAdapter.ts:104-105 | A stored 3-0 is shown with score A 3 and no score B. |
| DataAdapter.AdaptConvexPrediction | packages/prono-front/app/data/dataAdapter.ts:112-137 | The ids are `String` of the stored ids. The winner is `String` of the stored winner when that is non-empty, and "team_a" when it is empty. So an absent winner becomes "undefined" and a null one "null", and the winner is never empty. Both predicted scores and the points are `parseNumber` of the stored values, so an undefined score reads as 0. The flags are `parseBoolean` of the stored flags. |
| DataAdapter.AdaptPredictionRoundTrip | packages/prono-front/app/data/dataAdapter.ts:112-137 | A prediction with a winner and both scores is rebuilt exactly from its Convex document, where numbers and flags are stored as text. |
| DataAdapter.AdaptConvexGroup | packages/prono-front/app/data/dataAdapter.ts:142-151 | The members are kept when they are an array and are empty otherwise; the description is always present. |
| DataAdapter.AdaptGroupRoundTrip | packages/prono-front/app/data/dataAdapter.ts:142-151 | A group with a description is rebuilt exactly from its document. |
| DataAdapter.AdaptConvexUser | packages/prono-front/app/data/dataAdapter.ts:156-164 | The id comes from `id` when truthy and from `_id` otherwise. The name is never empty ("Unknown"). NaN points are 0. Badges that are not an array are empty. |
| DataAdapter.AdaptUserRoundTrip | packages/prono-front/app/data/dataAdapter.ts:156-164 | A user with an id and a name is rebuilt exactly from its document. |
| DataAdapter.OwnedBy | packages/prono-front/app/data/dataAdapter.ts:181-182 | The filter keeps only predictions of that user in that group, drawn from the input, and keeps every such prediction. |
| DataAdapter.CalculateUserScoreInGroup | packages/prono-front/app/data/dataAdapter.ts:176-184 | The score is never negative when no prediction's points are, and it is 0 when the user has no prediction in the group. |
| DataAdapter.ScoreIsFold | packages/prono-front/app/data/dataAdapter.ts:176-184 | Filtering then summing equals one running total that adds only that user's points in that group. |
| DataAdapter.ScoreAdditive | packages/prono-front/app/data/dataAdapter.ts:176-184 | The score over a concatenation is the sum of the scores over its parts. |
| DataAdapter.OthersDoNotCount | packages/prono-front/app/data/dataAdapter.ts:176-184 | A prediction of another user or another group does not change the score. |
| DataAdapter.ScoreByRunningTotals | packages/prono-front/app/data/dataAdapter.ts:176-184 | The score equals the last entry of any table of running totals that adds exactly the (user, group) points. |
| DataAdapter.SortByScore | packages/prono-front/app/data/dataAdapter.ts:207 | The sort yields a permutation of its input with non-increasing scores. |
| DataAdapter.SortIsStable | packages/prono-front/app/data/dataAdapter.ts:207 | The sort is stable: for each score, the entries with that score keep their input order. |
| DataAdapter.DisplayName | packages/prono-front/app/data/dataAdapter.ts:197-206 | A member's shown name is never empty, and it is "Unknown" when no user has their id. |
| DataAdapter.DisplayNameAt | packages/prono-front/app/data/dataAdapter.ts:197-206 | The shown name is the first matching user's name when that is non-empty, and "Unknown" otherwise. |
| DataAdapter.MemberEntries | packages/prono-front/app/data/dataAdapter.ts:197-206 | There is one entry per member, in member order. Each entry holds the member's id, their shown name and their score in the group. |
| DataAdapter.GetGroupLeaderboard | packages/prono-front/app/data/dataAdapter.ts:189-208 | An undefined group gives []. Otherwise there is one entry per member, a permutation of the members' entries, with non-increasing scores. Each entry names a member with a non-empty name and their score in the group. |
| DataAdapter.LeaderboardTiesKeepMemberOrder | packages/prono-front/app/data/dataAdapter.ts:189-208 | Members with equal scores appear in the group's member order. |
| MockData.ScoreOfCurrentUser | packages/prono-front/app/data/mockData.ts:199-475 | In the main group, PronoMaster scores 13. |
| MockData.ScoreOfUser2 | packages/prono-front/app/data/mockData.ts:199-475 | In the main group, user_002 (FakerFan) scores 16. |
| MockData.ScoreOfUser3 | packages/prono-front/app/data/mockData.ts:199-475 | In the main group, user_003 (T1Believer) scores 6. |
| MockData.ScoreOfUser4 | packages/prono-front/app/data/mockData.ts:199-475 | In the main group, user_004 (G2Army) scores 11. |
| MockData.NoScoreOutsideMainGroup | packages/prono-front/app/data/mockData.ts:471-475 | Every mock prediction is in the main group, so everyone scores 0 in any other group. |
| MockData.MainGroupLeaderboard | packages/prono-front/app/data/mockData.ts:478-493 | The main group's leaderboard is exactly FakerFan 16, PronoMaster 13, G2Army 11, T1Believer 6. |
| MockData.SecondGroupLeaderboard | packages/prono-front/app/data/mockData.ts:478-493 | The "LEC Fans" group's leaderboard is PronoMaster 0 then FakerFan 0, in member order. |
| MockData.UnknownGroupLeaderboard | packages/prono-front/app/data/mockData.ts:479-480 | An unknown group has an empty leaderboard. |
| MockData.CalculateUserScoreInGroup | packages/prono-front/app/data/mockData.ts:471-475 | The mock score equals the running total that adds only the points of that user's predictions in that group. |
| MockData.GetGroupLeaderboard | packages/prono-front/app/data/mockData.ts:478-493 | A group id that no mock group has gives []. The board has non-increasing scores, and each entry carries its member's mock score in the group. |
| MockScoring.MockPredictionsFollowScoringRule | packages/prono-front/app/data/mockData.ts:151-467 | Every mock prediction on a completed match carries exactly the flags and points of the 0/3/5 rule for that match's score. Every other prediction carries the defaults. |
| MockScoring.MockExactScoresAreFivePoints | packages/prono-front/app/data/mockData.ts:274-467 | In the fixtures, an exact score always comes with a correct winner and 5 points, and every prediction is worth 0, 3 or 5. |
| MockScoring.MockUnplayedPredictionsUnscored | packages/prono-front/app/data/mockData.ts:200-273 | Predictions on live and upcoming matches have no flag set and 0 points. |
| ScoreAggregation.FetchError | packages/prono-front/app/services/scoreAggregationService.ts:33-38 | The error text is the fetch's own error when truthy, and the fixed message otherwise. It is never empty. |
| ScoreAggregation.KeptIndices | packages/prono-front/app/services/scoreAggregationService.ts:51-59 | The loop keeps exactly the groups that have stats and no error, in increasing input order. |
| ScoreAggregation.GetAggregatedUserStats | packages/prono-front/app/services/scoreAggregationService.ts:26-103 | There are no stats, only an error, exactly when the groups fetch fails. Otherwise the totals are the sums over the kept groups of the group's score (its `score`, else its `total_points`, else 0) and of the three counts. `groups_count` counts every fetched group. The accuracy is rounded as above, and `group_scores` lists the kept groups' entries. |
| ScoreAggregation.SkippedAddsNothing | packages/prono-front/app/services/scoreAggregationService.ts:52-59 | A skipped group contributes nothing to any total, wherever it sits. |
| ScoreAggregation.SkippedHasNoEntry | packages/prono-front/app/services/scoreAggregationService.ts:52-59 | A skipped group gets no `group_scores` entry, wherever it sits. |
| ScoreAggregation.EntriesFollowKeptGroups | packages/prono-front/app/services/scoreAggregationService.ts:67-73 | `group_scores` has exactly one entry per kept group, in input order, built from that group's stats. |
| ScoreAggregation.TotalIsSumOfGroupScores | packages/prono-front/app/services/scoreAggregationService.ts:61-73 | `total_points` and `correct_predictions` equal the sums of the `group_scores` entries' fields. |
| ScoreAggregation.GroupPoints | packages/prono-front/app/services/scoreAggregationService.ts:61 | A group whose `score` is missing or 0 counts with its `total_points` (0 when missing). Otherwise it counts with its `score`. |
| ScoreAggregation.SumKept | packages/prono-front/app/services/scoreAggregationService.ts:51-65 | Any total over a list of groups that are all skipped is 0. |
| ScoreAggregation.Entries | packages/prono-front/app/services/scoreAggregationService.ts:67-73 | There are never more `group_scores` entries than groups. |
| ScoreAggregation.GroupsCountIncludesSkipped | packages/prono-front/app/services/scoreAggregationService.ts:84 | There are at most as many entries as fetched groups, and exactly as many only when no group is skipped. |
| SimulateTick.TeamOf | packages/prono-convex/convex/matches/simulateTick.ts:20-21 | A draw picks one of the six listed teams. |
| SimulateTick.TeamBDraw | packages/prono-convex/convex/matches/simulateTick.ts:22-23 | The redraw loop stops at the first later draw that picks a team other than team A. |
| SimulateTick.MatchTable.SimulateTick | packages/prono-convex/convex/matches/simulateTick.ts:3-76 | The table after the mutation is the one-tick transition of the table before it. |
| SimulateTick.StartsFirstUpcoming | packages/prono-convex/convex/matches/simulateTick.ts:7-17 | With no ongoing match, the first upcoming match becomes ongoing and nothing else changes. |
| SimulateTick.CreatesMatch | packages/prono-convex/convex/matches/simulateTick.ts:19-45 | With neither an ongoing nor an upcoming match, one match is appended: ongoing, "0"-"0", winner "none", and two distinct teams from the list. |
| SimulateTick.ScoreOfToString | packages/prono-convex/convex/matches/simulateTick.ts:49-57 | A score the simulator writes is read back as the same number. |
| SimulateTick.MissingScoreIsZero | packages/prono-convex/convex/matches/simulateTick.ts:49-50 | A missing or empty score reads as 0. |
| SimulateTick.ScoredAddsOne | packages/prono-convex/convex/matches/simulateTick.ts:52-57 | The side the draw names gains exactly 1, and the other side keeps its score. |
| SimulateTick.TickScoresFirstOngoing | packages/prono-convex/convex/matches/simulateTick.ts:7-60 | With an ongoing match, the tick scores the first ongoing match. |
| SimulateTick.ScoresOnePoint | packages/prono-convex/convex/matches/simulateTick.ts:48-60 | On the first ongoing match exactly one side gains a point (a missing score counts as 0), and every other match is unchanged. |
| SimulateTick.FinishHasNoTie | packages/prono-convex/convex/matches/simulateTick.ts:64-75 | From scores below 10, the match finishes exactly when a side reaches 10. That side strictly leads and its team's name is stored as winner. A match that does not finish stays ongoing below 10. |
| SimulateTick.TickKeepsScoresBelowTen | packages/prono-convex/convex/matches/simulateTick.ts:52-66 | Every tick keeps the scores of all ongoing and upcoming matches below 10, so no match ever finishes tied. |
| SimulateTick.Tick | packages/prono-convex/convex/matches/simulateTick.ts:3-76 | A tick adds one match exactly when no match is ongoing or upcoming, and otherwise keeps the table's length. Of any two existing matches, at least one is unchanged. |
| SimulateTick.Scored | packages/prono-convex/convex/matches/simulateTick.ts:48-75 | Scoring a point keeps the match's id and teams and stamps `updated_date`. A match that does not become finished keeps its status and winner. A finished one has its old winner or one of its two teams as winner. |
| SimulateTick.TickKeepsOneOngoing | packages/prono-convex/convex/matches/simulateTick.ts:7-45 | A table with at most one ongoing match still has at most one after a tick. |

## Left out

- Authentication and error plumbing are not modelled:
  - 401 for a missing session, and the 500 answers of every `catch`;
  - routing, CORS, logging and the Prisma client itself, whose tables are sequences here.
- Outbound `fetch` calls are not modelled:
  - the match refresh before scoring is taken as an optional input;
  - the on-the-fly match and team creation in predict (`index.ts:911-965`) is left out. For a missing match the model neither looks it up nor creates it, and its Match table stays unchanged.
- Where the intended design of the system differs from the code, the model follows the code:
  - predict does not reject a prediction on a finished match; it accepts a prediction on any match;
  - calculate-points does not require both result scores to be present, because a null score counts as 0;
  - calculate-points does not update the groups' cumulative scores; only user-stats writes a membership score.
- Read-only listing endpoints are left out because they apply no rule: group and friend lists, pending friend requests (`index.ts:1242-1290`), predictions, profile and badges.
- `Number` is modelled only for an optional sign and decimal digits, with surrounding white space. Fractions, exponents, hexadecimal and `Infinity` are read as NaN.
- `toLowerCase` is ASCII only.
- JsValues.IsSpace: `Number` and `parseInt` trim only ASCII white space here (space, tab, line feed, carriage return, vertical tab, form feed). JavaScript also trims U+00A0, U+FEFF, U+2028, U+2029 and the other Unicode space separators; a string padded with those reads as NaN in the model.
- The `catch` of `getAggregatedUserStats` (`packages/prono-front/app/services/scoreAggregationService.ts:96-101`) is not modelled: the group and score fetches are inputs that always return a value, so nothing can throw. The null stats and fixed error message a rejected fetch would produce are not modelled.
- Accuracy: `Math.round` of a floating-point quotient is modelled as exact rounding, halves up. A quotient whose floating-point value falls just below a half is not modelled.
- Dates are parameters:
  - `new Date(...).getTime()` in the fixtures is a `dateOf` function;
  - the date parsing of the match adapter is a `parsedDate` input;
  - the several `new Date()` calls of one handler or tick are a single `now`.
- PrivateApi.UnusedInviteCode and SimulateTick.TeamBDraw: the invite-code loop and the team redraw loop end only with probability 1. The model requires a draw sequence in which they stop, and does not prove they terminate otherwise.
- Concurrency between scoring triggers, and the front end's polling and realtime clients, are not modelled.
- The per-group score fetches of the aggregation service are inputs, not models of `getUserGroupScore`.
- Convex documents keep their text-typed fields as strings: simulator scores, dates and ids.
- A stored prediction whose pick is null is correct on a level result, because null equals null. The predict handler never writes such a row, since it rejects a missing winner. Scoring.Award keeps this behaviour.
