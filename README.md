# Family AFL tipping: a Dafny model of the competition rules

This project models the rules of a family AFL tipping competition and proves properties of them:

- who may tip and for whom;
- when a round locks;
- how tips are saved, scored and deleted;
- how the ladder, the single-user rank, streaks, head-to-head tallies and family-group standings are derived;
- how results from the Squiggle API are numbered, keyed, cached and stored;
- the scheduler's job bookkeeping;
- the client-side rule helpers;
- the scripts that import a historical spreadsheet of tips.

There is one module per source file, in a file of the same name:
`TipsService`, `UserService`, `LadderService`, `SquiggleService`, `SchedulerService`,
`Migrations`, `TipsRoute` (only the `tip_for_user` gate of `POST /api/tips`),
`Helpers`, `Countdown` and `HistoryPage`. The import pipeline is `CsvTransformer`,
`TeamNameMapper`, `ImportTemplate`, `DataValidator`, `KeyValidator` and `SqlGenerator`.

Four helper modules sit underneath them:

- `Store` holds the SQLite tables as maps keyed by their UNIQUE constraints:
  - users by id;
  - rounds by `(round_number, year)`;
  - the Squiggle mirror and `games` by `squiggle_game_key`;
  - tips by `(user_id, game_id)`.

  The services that write the database do so through the `Store.Database` class, whose fields are those tables.
- `Text` models JavaScript's string built-ins on `seq<char>`. `Trim` removes JavaScript's full white-space set; only the case mapping of `toLowerCase` is ASCII (see "## Left out").
- `Sorting` holds set minima, sorted keys and a stable insertion sort.
- `Clock` holds times in integer milliseconds.
- `Wrappers` holds `Option` and `Result`.

The loops and in-place updates of the source are Dafny methods. Each method is proved against a function of its inputs or of the old state. The properties the code promises are lemmas about those functions:

- round trips;
- partitions and counts;
- idempotent reruns;
- permutations;
- orderings;
- both directions of each "iff".

The clock, the day and month, network outcomes, job-body outcomes, file contents and query results are parameters.

## Model

| member | source | states |
|---|---|---|
| Store.RewriteRound | backend/scripts/simple-setup.ts:68-76 | rewriting a round's row in place, with its id and its (round_number, year) key, keeps the rounds table keyed, its ids unique and below the AUTOINCREMENT counter |
| Store.ReplaceTip | backend/scripts/simple-setup.ts:102-117 | an `INSERT OR REPLACE` on UNIQUE(user_id, game_id) with the next id keeps the tips table keyed with unique ids below the advanced counter |
| Store.RoundById | backend/src/services/TipsService.ts:153 | `SELECT ... FROM rounds WHERE id = ?`: the round with that id, or none exactly when no round has it |
| Store.GameById | backend/src/services/TipsService.ts:21-26 | `... FROM games g WHERE g.id = ?`: the game with that id, or none exactly when no game has it |
| Store.OwnedTipKey | backend/src/services/TipsService.ts:292-297 | `WHERE t.id = ? AND t.user_id = ?`: the key of a tip with that id owned by the user, or none exactly when the user owns no such tip |
| Store.LockoutOf | backend/src/services/TipsService.ts:21-26 | the `lockout_time` joined from the round with that id (none when the round is missing) |
| Store.TallyOf | backend/src/services/LadderService.ts:20-30 | `correct_tips ≤ completed_tips ≤ total_tips`, with no completed tips when there are no tips |
| Store.Percentage | backend/src/services/LadderService.ts:23-27 | the `CASE WHEN completed = 0 THEN 0` branch: 0 without decided tips |
| Store.PercentageMeaning | backend/src/services/LadderService.ts:23-27 | with decided tips the percentage is correct/completed × 100, and it never exceeds 100 |
| Store.Database.constructor | backend/scripts/simple-setup.ts:18-117 | the empty tables satisfy every key, UNIQUE and counter constraint |
| UserService.CanUserTipFor | backend/src/services/UserService.ts:127-139 | tipping for oneself is always allowed, before any lookup; otherwise false when either user is missing, true for an admin, else true iff the two `family_group_id` values are equal (`===`, so two missing groups count as equal) |
| UserService.UsersCanTipFor | backend/src/services/UserService.ts:103-122 | nobody for an unknown user, every user for an admin, nobody for a non-admin without a group (SQL `= NULL`), and a user with a group is among their own results |
| UserService.UsersCanTipForAgrees | backend/src/services/UserService.ts:103-140 | for existing users where `u` has a family group, `t` is in `getUsersCanTipFor(u)` iff `canUserTipFor(u, t)` |
| UserService.GrouplessUsersDisagree | backend/src/services/UserService.ts:113-139 | for two groupless non-admin users the check allows tipping (`null === null`) while the list is empty (`NULL = NULL` is not true in SQL) |
| UserService.UserByName | backend/src/services/UserService.ts:46-57 | the user with that name, or none exactly when no user has it (names are UNIQUE) |
| UserService.Applied | backend/src/services/UserService.ts:166-195 | the updated row: each supplied field is replaced, every other field and the id are kept |
| UserService.SetColumns | backend/src/services/UserService.ts:167-185 | a column is in the `SET` list iff its field was supplied |
| UserService.UpdateUser | backend/src/services/UserService.ts:166-202 | no fields: throws before writing; an unknown id: fails after a write that matched no row and so checked no constraint, whatever the name; an existing row given a name another user has: fails with the table unchanged (UNIQUE); otherwise only that row changes, to `Applied`, and it is returned; every other table is unchanged |
| UserService.StatsTips | backend/src/services/UserService.ts:209-225 | the tips counted are the user's own, restricted to rounds of the year only when a (truthy) year is given |
| UserService.UserStatsOf | backend/src/services/UserService.ts:208-228 | correct ≤ completed ≤ total, and the percentage is null exactly when there is no decided tip, else correct/completed × 100 |
| TipsRoute.Target | backend/src/routes/tips.ts:31-60 | a missing `user_id` is refused; without `tip_for_user` the target is the caller; with one, "not found" exactly when no user has that name; any accepted target passes `canUserTipFor`, and a different target is the named user |
| TipsRoute.PostTips | backend/src/routes/tips.ts:27-72 | a refusal writes nothing; otherwise the tips are those `submitTips(user_id, tips, targetUserId)` writes for a permitted target, and the count it returns is reported; no other table changes |
| Countdown.CalculateLockoutTime | frontend/src/hooks/useCountdown.ts:56-60 | the lockout is exactly 7,200,000 ms (two hours) before the first game |
| Countdown.CountdownAt | frontend/src/hooks/useCountdown.ts:20-41 | expired iff there is no target or the difference is ≤ 0, and then every field is 0 |
| Countdown.CountdownSplit | frontend/src/hooks/useCountdown.ts:36-39 | for a positive difference hours are 0..23, minutes and seconds 0..59, and the recomposed total is ≤ the difference and within one second of it |
| TipsService.IsRoundOpen | backend/src/services/TipsService.ts:151-159 | open iff the round is missing, has no `lockout_time`, or `now ≤ lockout_time` |
| TipsService.JudgeCases | backend/src/services/TipsService.ts:21-43 | the checks in order: "game missing" iff no game has the id; "locked" iff the game exists and its round is closed; "invalid team" iff it is open and the team is neither side; an accepted tip names that game, whose round is open and which the team plays in |
| TipsService.AcceptedAtLockout | backend/src/services/TipsService.ts:34 | at `now == lockout_time` a tip for a playing team is still accepted (the test is strictly after) |
| TipsService.SubmitAll | backend/src/services/TipsService.ts:14-60 | the count of upserted tips never exceeds the number submitted, and one tip id is used per upsert |
| TipsService.SubmitStep | backend/src/services/TipsService.ts:18-56 | one loop turn: an accepted tip is upserted and counted, a rejected one changes nothing |
| TipsService.SubmitAllPrefix | backend/src/services/TipsService.ts:18-57 | the batch is processed tip by tip, in order |
| TipsService.RejectedTipIsSkipped | backend/src/services/TipsService.ts:28-43 | a rejected tip anywhere in the batch is skipped and the rest of the batch proceeds exactly as without it |
| TipsService.LastAccepted | backend/src/services/TipsService.ts:18-50 | the last accepted submission for a game, if any, is one of the batch, for that game, and accepted |
| TipsService.SubmitAllFinalRows | backend/src/services/TipsService.ts:15-50 | after the batch, the row for (target user, game) holds the last accepted submission for that game, with the caller's key and `is_correct` reset to null; every other row is as before (INSERT OR REPLACE on UNIQUE(user_id, game_id)) |
| TipsService.SubmitAllKeepsKeys | backend/src/services/TipsService.ts:46-50 | the tips table stays keyed by (user_id, game_id) with unique ids below the counter |
| TipsService.StepKeepsKeys | backend/src/services/TipsService.ts:46-50 | one upsert keeps the tips table's key and id constraints |
| TipsService.SubmitTips | backend/src/services/TipsService.ts:14-60 | the loop: the saved tips belong to `targetUserId || userId`, the new tips table and the count are those of `SubmitAll`, the count is at most the batch size, and no other table changes |
| TipsService.SubmitOne | backend/src/services/TipsService.ts:19-56 | one iteration of the loop, as `SubmitStep` |
| TipsService.CurrentRound | backend/src/services/TipsService.ts:164-191 | the lowest-numbered active round of the year, else the lowest-numbered upcoming one, else the highest-numbered round, else none exactly when the year has no round; stored status only |
| TipsService.LowestWith | backend/src/services/TipsService.ts:166-178 | `WHERE year = ? AND status = ? ORDER BY round_number LIMIT 1`: the lowest-numbered round of the year with that status, or none exactly when there is none |
| TipsService.Highest | backend/src/services/TipsService.ts:183-187 | `ORDER BY round_number DESC LIMIT 1`: the highest-numbered round of the year, or none exactly when the year has no round |
| TipsService.FirstGameTime | backend/src/services/TipsService.ts:202 | `MIN(g.start_time)`: none exactly when the round has no game, else a start time of one of its games that no other game precedes |
| TipsService.DerivedStatusMeaning | backend/src/services/TipsService.ts:211-220 | completed iff the round has ≥ 1 game and all are complete; active iff not that and some game has started by `now`; otherwise upcoming |
| TipsService.StatusCanRegress | backend/src/services/TipsService.ts:214-220 | the status comes from the games alone: a round with no games is upcoming whatever it was before |
| TipsService.RoundStepIdempotent | backend/src/services/TipsService.ts:222-238 | after one run the status is the derived one and the lockout is set when there are games, so a second run on the same data changes nothing |
| TipsService.UpdateRoundStatus | backend/src/services/TipsService.ts:196-239 | an unknown round changes nothing; otherwise only that round changes, the status is written iff it differs from the derived one and the lockout is set to the first game's start only while unset |
| TipsService.ScoreTips | backend/src/services/TipsService.ts:258-265 | the conditional `UPDATE` over a whole table: every tip is replaced by its scored version and no tip is added or removed |
| TipsService.ScoreTipsMeaning | backend/src/services/TipsService.ts:258-265 | only the selected tips that are still null are set, to `selected_team == winner`; decided or unselected tips are unchanged; repeating the update changes nothing, and the table's keys are kept |
| TipsService.CompletedGameWinner | backend/src/services/TipsService.ts:246-255 | a winner is found only for a complete game with a non-empty mirror winner |
| TipsService.UpdateTipCorrectness | backend/src/services/TipsService.ts:244-268 | a no-op unless the game is complete with a winner; then exactly the null tips of that game are scored |
| TipsService.DeleteTip | backend/src/services/TipsService.ts:290-308 | false and nothing deleted when the user does not own the tip; an error and nothing deleted when the lockout is set and `now` is after it; otherwise exactly that tip is removed and true returned |
| LadderService.UserTips | backend/src/services/LadderService.ts:34 | `LEFT JOIN tips t ON u.id = t.user_id`: exactly the tips of the user |
| LadderService.YearTips | backend/src/services/LadderService.ts:37-39 | the user's tips whose round exists and is of the year, and only those |
| LadderService.Eligible | backend/src/services/LadderService.ts:36-40 | a user is listed iff they exist and have a tip in a round of the year |
| LadderService.StandingOf | backend/src/services/LadderService.ts:16-31 | the row carries the user's id and name, and counts every tip of the user (the year test sits in the LEFT JOIN, so it filters nothing) |
| LadderService.OutranksAsymmetric | backend/src/services/LadderService.ts:42 | no two rows are each ahead of the other under `correct DESC, percentage DESC, name ASC` |
| LadderService.OutranksTotal | backend/src/services/LadderService.ts:42 | two rows with different names are always ordered one way or the other |
| LadderService.OutranksNegativelyTransitive | backend/src/services/LadderService.ts:42 | if c is ahead of a, any b is behind c or ahead of a |
| LadderService.LadderOrderIsPreorder | backend/src/services/LadderService.ts:42 | "listed no later than" is a total preorder, so sorting by it is well defined |
| LadderService.StandingsOfUsers | backend/src/services/LadderService.ts:41 | one row per listed id, in that order, holding that user's standing |
| LadderService.EligibleStandings | backend/src/services/LadderService.ts:36-41 | one row per eligible user (the GROUP BY), each with its own counts, no user twice |
| LadderService.StandingsOfUsersDistinct | backend/src/services/LadderService.ts:41 | rows built from ascending ids carry those ids and are pairwise distinct |
| LadderService.RowNamesDiffer | backend/src/services/LadderService.ts:41-42 | rows for distinct users have distinct names, since user names are UNIQUE |
| LadderService.LadderSortedStrictly | backend/src/services/LadderService.ts:42 | sorted rows with distinct names are strictly ordered |
| LadderService.SortStandings | backend/src/services/LadderService.ts:42 | `ORDER BY`: a permutation of its input, in ladder order |
| LadderService.ReorderedStandings | backend/src/services/LadderService.ts:41-42 | any permutation of the grouped rows still lists each eligible user exactly once with their own counts |
| LadderService.SortedStandings | backend/src/services/LadderService.ts:15-43 | the ladder's rows: exactly the eligible users, each once, with their own counts |
| LadderService.SortedStandingsStrict | backend/src/services/LadderService.ts:42 | every row is strictly ahead of every later row and no user appears twice |
| LadderService.LatestRound | backend/src/services/LadderService.ts:31-35 | `MAX(r.round_number)`: NULL iff the user has no tip in the year's rounds; otherwise the number of one of those rounds and no other is higher |
| LadderService.RankRows | backend/src/services/LadderService.ts:46-49 | the rows numbered consecutively from `first`, contents unchanged |
| LadderService.Ladder | backend/src/services/LadderService.ts:14-49 | `getLadder(year).ladder`: the sorted rows ranked 1..n in order |
| LadderService.LadderRowCounts | backend/src/services/LadderService.ts:20-22 | every row has correct ≤ completed ≤ total, total is all the user's tips and at least one is in the year |
| LadderService.Summary | backend/src/services/LadderService.ts:52-58 | completed rounds never exceed total rounds, and total rounds are exactly the year's rounds |
| LadderService.BetterPerformers | backend/src/services/LadderService.ts:101-134 | the users counted as better are eligible and never the user itself |
| LadderService.LadderPosition | backend/src/services/LadderService.ts:72-140 | null exactly for an unknown user; otherwise the user's own counts with rank between 1 and one more than the number of eligible users |
| LadderService.IdsBefore | backend/src/services/LadderService.ts:46-49 | exactly the ids of the rows before position i |
| LadderService.IdsBeforeSize | backend/src/services/LadderService.ts:46-49 | with distinct ids there are i of them |
| LadderService.RowsBeatingRow | backend/src/services/LadderService.ts:125-128 | in strictly ordered rows with no two level on score, the rows satisfying the rank query's condition against row i are exactly the earlier ones |
| LadderService.BetterAreEarlier | backend/src/services/LadderService.ts:101-134 | in any ordering of the eligible users in strict ladder order without score ties, the users counted as better than row i are the users of the earlier rows |
| LadderService.PositionMatchesLadder | backend/src/services/LadderService.ts:125-139 | when no two eligible users are level on correct tips and percentage, the single-user rank equals the ladder rank of that user's row (the ladder ranks at lines 46-49) |
| LadderService.SortedRowPosition | backend/src/services/LadderService.ts:136-139 | the single-user rank of the user in sorted row i is i + 1 when there are no score ties |
| LadderService.Partner | backend/src/services/LadderService.ts:157 | the partner tip is u2's tip on the same game, when there is one |
| LadderService.Compared | backend/src/services/LadderService.ts:153 | the compared games are among u1's tips |
| LadderService.Outcome | backend/src/services/LadderService.ts:150-151 | a game of u1 is counted iff u1's tip has the first verdict and u2 has a tip on the same game with the second; so the wins of either side are among the compared games |
| LadderService.HeadToHeadPartition | backend/src/services/LadderService.ts:150-153 | every compared game is exactly one of a win for u1, a win for u2, or a draw |
| LadderService.HeadToHeadOf | backend/src/services/LadderService.ts:145-163 | wins + wins + draws == compared; without both users, NULL names and zero counts; otherwise both names and the counts over u1's tips paired on game with u2's, `user1_wins` being the pairs where u1 was correct and u2 wrong and `user2_wins` those where u1 was wrong and u2 correct |
| LadderService.Members | backend/src/services/LadderService.ts:193 | the members of a group are users |
| LadderService.GroupTips | backend/src/services/LadderService.ts:193-194 | exactly the tips of the group's members |
| LadderService.GroupStandingOf | backend/src/services/LadderService.ts:170-191 | the group row carries the group's id and name and counts all its members' tips |
| LadderService.TippingGroups | backend/src/services/LadderService.ts:196-197 | `HAVING COUNT(t.id) > 0`: a group is listed iff its members have at least one tip |
| LadderService.StandingsOfGroups | backend/src/services/LadderService.ts:196 | one row per listed group id, in that order |
| LadderService.GroupStandings | backend/src/services/LadderService.ts:192-197 | exactly the tipping groups, one row each (as many rows as tipping groups, ids strictly ascending), each with its own counts |
| LadderService.SortedGroupStandings | backend/src/services/LadderService.ts:198 | a permutation of the group rows (same multiset, one per tipping group, ids pairwise distinct), in ladder order |
| LadderService.StandingsOfGroupsAscending | backend/src/services/LadderService.ts:196-197 | rows built from strictly ascending group ids have strictly ascending ids |
| LadderService.SortedGroupStandingsStrict | backend/src/services/LadderService.ts:198 | with `family_groups.name` UNIQUE (backend/scripts/simple-setup.ts:20), each sorted group row strictly outranks every later one, so the ladder order of groups has no ties |
| LadderService.RankGroups | backend/src/services/LadderService.ts:201-204 | the group rows numbered consecutively from `first`, with each group's member count |
| LadderService.FamilyStandings | backend/src/services/LadderService.ts:168-205 | `getFamilyGroupStandings(year)`: the sorted group rows ranked 1..n with their member counts |
| LadderService.FamilyRowCounts | backend/src/services/LadderService.ts:174-197 | every family row is an existing group with at least one tip and consistent counts |
| LadderService.FinalRun | backend/src/services/LadderService.ts:282-300 | the current run is no longer than the prefix |
| LadderService.LongestRun | backend/src/services/LadderService.ts:290-298 | the longest run is at least the final run and no longer than the prefix |
| LadderService.FinalRunMeaning | backend/src/services/LadderService.ts:284-296 | the final run is a run of that value that cannot be extended to the left |
| LadderService.LongestRunOccurs | backend/src/services/LadderService.ts:290-298 | the longest run occurs in the prefix |
| LadderService.LongestRunBounds | backend/src/services/LadderService.ts:290-298 | no run of the value in the prefix is longer than it |
| LadderService.RunEndingAt | backend/src/services/LadderService.ts:284-296 | a run ending at the end of the prefix is no longer than the final run |
| LadderService.DecidedGames | backend/src/services/LadderService.ts:270-273 | exactly the games on which the user has a decided tip in a round of the year |
| LadderService.KeysFor | backend/src/services/LadderService.ts:270-273 | one key per game id, in order |
| LadderService.ByStartTime | backend/src/services/LadderService.ts:274 | `ORDER BY g.start_time`: a permutation of the rows with NULL times first and the rest in ascending time |
| LadderService.NullsFirstConcat | backend/src/services/LadderService.ts:274 | untimed rows then ascending timed rows are in that order |
| LadderService.StreakKeys | backend/src/services/LadderService.ts:265-275 | the query's rows: one per decided game of the user in the year, each a decided tip of the user, in start-time order (ties in ascending game id, a modelling choice) |
| LadderService.PermutedKeys | backend/src/services/LadderService.ts:274 | a reordering of the keys holds exactly the keys of those games |
| LadderService.Outcomes | backend/src/services/LadderService.ts:283 | one outcome per row, true iff the tip is correct |
| LadderService.Streaks | backend/src/services/LadderService.ts:277-308 | the loop: total is the row count; with no rows all zero and type NULL; otherwise the current type is the last outcome and the current streak the length of the final run; the longest streaks are the longest runs of each outcome, and the current streak never exceeds the longest of its type |
| LadderService.StreakOutcomes | backend/src/services/LadderService.ts:265-283 | one outcome per decided game of the user in the year |
| LadderService.UserStreakInfo | backend/src/services/LadderService.ts:263-309 | `getUserStreakInfo(u, year)`: the loop's promises over the query's outcomes |
| SquiggleService.PaddedRound | backend/src/services/SquiggleService.ts:23 | `padStart(2, '0')` of a round 0..99 is two digits whose value is the round |
| SquiggleService.GameKeyInjective | backend/src/services/SquiggleService.ts:18-26 | for rounds 0..99 and games 1..9 the key determines both numbers: no two such games share a key |
| SquiggleService.GameKeyShape | backend/src/services/SquiggleService.ts:20-25 | for rounds 0..99 and games 1..9 the key is exactly three digits |
| SquiggleService.GameKeyCollision | backend/src/services/SquiggleService.ts:22-26 | outside that range keys collide: round 10 game 10 and round 101 game 0 are both "1010" |
| SquiggleService.OrZero | backend/src/services/SquiggleService.ts:165-170 | `x \|\| 0`: a missing number is 0, a present one is kept |
| SquiggleService.NonEmpty | backend/src/services/SquiggleService.ts:172 | `s \|\| null`: present iff the string is present and non-empty |
| SquiggleService.Process | backend/src/services/SquiggleService.ts:153-175 | complete iff the raw value is exactly 100; the key is that of (round, game number); missing scores are 0; an empty winner is none |
| SquiggleService.InRound | backend/src/services/SquiggleService.ts:135-140 | `gamesByRound[r]`: only games of round r, none when the round does not occur |
| SquiggleService.RoundsUpTo | backend/src/services/SquiggleService.ts:135-140 | every game's round is a key of the dictionary |
| SquiggleService.ByDate | backend/src/services/SquiggleService.ts:150 | the sort is a permutation of the round's games in ascending date |
| SquiggleService.Raws | backend/src/services/SquiggleService.ts:174 | one raw game per processed game, in order |
| SquiggleService.NumberedUpTo | backend/src/services/SquiggleService.ts:152-177 | the first k sorted games, numbered 1..k |
| SquiggleService.RoundBlockShape | backend/src/services/SquiggleService.ts:145-178 | a round's output block holds exactly that round's games, in date order, numbered 1..k, keyed by round and number and stamped with the year |
| SquiggleService.Blocks | backend/src/services/SquiggleService.ts:145 | one block per round |
| SquiggleService.BlocksAt | backend/src/services/SquiggleService.ts:145-178 | block t is round t's block |
| SquiggleService.RoundOrder | backend/src/services/SquiggleService.ts:145 | `Object.keys` lists integer keys in ascending order, each present round once |
| SquiggleService.GroupByRound | backend/src/services/SquiggleService.ts:133-140 | the loop: the dictionary's keys are exactly the rounds present and each holds that round's games in input order |
| SquiggleService.PushNumbered | backend/src/services/SquiggleService.ts:152-178 | the inner loop appends the round's sorted games numbered from 1 |
| SquiggleService.ProcessGames | backend/src/services/SquiggleService.ts:131-182 | the method's output is `ProcessedOf`: the rounds in ascending order, each block sorted and numbered |
| SquiggleService.BlocksStep | backend/src/services/SquiggleService.ts:145-179 | appending the next round's block extends the concatenation by one block |
| SquiggleService.PushRound | backend/src/services/SquiggleService.ts:146-178 | one round of the outer loop appends that round's block |
| SquiggleService.SelectNone | backend/src/services/SquiggleService.ts:131-182 | selecting no rounds keeps no game |
| SquiggleService.SelectAddCount | backend/src/services/SquiggleService.ts:131-182 | adding a round to the selection adds exactly that round's games, per game |
| SquiggleService.SelectAdd | backend/src/services/SquiggleService.ts:131-182 | the same as multisets |
| SquiggleService.SelectStep | backend/src/services/SquiggleService.ts:135-140 | one step of the selection, as multisets |
| SquiggleService.InRoundStep | backend/src/services/SquiggleService.ts:136-139 | one push into `gamesByRound[r]`, as multisets |
| SquiggleService.SelectAll | backend/src/services/SquiggleService.ts:135-140 | selecting every round present keeps every game |
| SquiggleService.RawsAppend | backend/src/services/SquiggleService.ts:177 | the raw games of a concatenation concatenate |
| SquiggleService.FirstRounds | backend/src/services/SquiggleService.ts:145 | the set of the first j rounds |
| SquiggleService.BlocksRaws | backend/src/services/SquiggleService.ts:145-179 | the first j blocks hold exactly the games of the first j rounds |
| SquiggleService.ConcatMultiset | backend/src/services/SquiggleService.ts:177 | the games of a concatenation are those of both parts |
| SquiggleService.ProcessedIsPermutation | backend/src/services/SquiggleService.ts:131-182 | `processGames` emits exactly one processed game per input game: a permutation, no game lost or repeated |
| SquiggleService.RoundBlockInOutput | backend/src/services/SquiggleService.ts:145-179 | each present round's games appear contiguously in the output, after the lower rounds' games, in date order numbered 1..k |
| SquiggleService.TablesOf | backend/src/services/SquiggleService.ts:187-248 | a valid database's tables satisfy the key and id constraints |
| SquiggleService.MirrorRow | backend/src/services/SquiggleService.ts:201-215 | the mirror row carries the game's key and year and the raw 0..100 completion value |
| SquiggleService.SaveStepValid | backend/src/services/SquiggleService.ts:190-245 | saving one game keeps every key, id and counter constraint |
| SquiggleService.RewriteRoundsInsert | backend/src/services/SquiggleService.ts:218-221 | inserting a new round under a fresh key with the next id keeps the rounds table valid |
| SquiggleService.SaveStepMeaning | backend/src/services/SquiggleService.ts:190-240 | a skipped game changes nothing; otherwise the mirror row is replaced by key, the round is inserted only when absent (completed or upcoming, no lockout), and the game row is replaced under its key with a new id and the round's id; other game rows are unchanged |
| SquiggleService.SaveAllValid | backend/src/services/SquiggleService.ts:190-245 | the whole loop keeps the constraints |
| SquiggleService.SaveAllKeepsRounds | backend/src/services/SquiggleService.ts:218-221 | `INSERT OR IGNORE`: ingestion never overwrites an existing round, status and lockout included |
| SquiggleService.LastSaved | backend/src/services/SquiggleService.ts:190-196 | the last game saved under a key is an unskipped game with that key |
| SquiggleService.SaveAllMirror | backend/src/services/SquiggleService.ts:201-215 | the mirror is keyed by the game key alone: afterwards the row under a key is that of the last game saved with it, whatever its year, or the old row when none was |
| SquiggleService.SaveOne | backend/src/services/SquiggleService.ts:190-245 | one iteration of the loop writes the tables as `SaveStep` says and nothing else |
| SquiggleService.EnsureRound | backend/src/services/SquiggleService.ts:217-226 | the round is inserted only when absent and its id is returned; no other table changes |
| SquiggleService.SaveGamesToDatabase | backend/src/services/SquiggleService.ts:187-248 | the loop: the tables become `SaveAll` of the games, constraints kept, users, groups and tips unchanged |
| SquiggleService.ActiveGames | backend/src/services/SquiggleService.ts:338-341 | the filter keeps only active games, a sub-multiset of its input |
| SquiggleService.ScoringWinner | backend/src/services/SquiggleService.ts:345-365 | tips are scored iff the raw completion is 100 and the winner is non-empty |
| SquiggleService.LiveStepMeaning | backend/src/services/SquiggleService.ts:343-375 | one live update adds or removes no row; the game row gets the scores and `is_complete` iff completion is 100; other rows, decided tips and tips of other keys are unchanged |
| SquiggleService.LiveStepScores | backend/src/services/SquiggleService.ts:365-373 | an unscored tip of the game gets `selected_team == winner` when the game is finished with a winner, and is unchanged otherwise |
| SquiggleService.LiveStepIdempotent | backend/src/services/SquiggleService.ts:343-375 | applying the same update twice equals applying it once |
| SquiggleService.LiveAllKeepsVerdicts | backend/src/services/SquiggleService.ts:343-375 | over a whole run the constraints hold, no tip is added or removed and a decided tip keeps its verdict |
| SquiggleService.LiveOne | backend/src/services/SquiggleService.ts:344-374 | the three UPDATEs of one iteration give `LiveStep`; the other tables are unchanged |
| SquiggleService.ScoreLiveTips | backend/src/services/SquiggleService.ts:365-374 | the third UPDATE changes only the tips, as `TipsScored` |
| SquiggleService.LiveStepKeepsIds | backend/src/services/SquiggleService.ts:347-374 | the UPDATEs keep the key constraints and the id bounds |
| SquiggleService.UpdateLiveScores | backend/src/services/SquiggleService.ts:330-381 | a failed fetch changes nothing (the error is swallowed); otherwise the active processed games are applied in order; rounds, users and groups are unchanged |
| SquiggleService.GamesTtl | backend/src/services/SquiggleService.ts:386-390 | five minutes on a Saturday or Sunday, an hour otherwise (the TTL constants at lines 10-11, chosen at line 57) |
| SquiggleService.CacheKey | backend/src/services/SquiggleService.ts:32 | every games key starts with `games_` |
| SquiggleService.RoundZeroIsAll | backend/src/services/SquiggleService.ts:32 | `round \|\| 'all'`: round 0 shares the key of no round |
| SquiggleService.Lookup | backend/src/services/SquiggleService.ts:31-126 | a fresh entry is served from the cache; otherwise a response is stored stamped `now` with the TTL and returned; a failed request falls back to an expired entry, and errors only when there is none |
| SquiggleService.Get | backend/src/services/SquiggleService.ts:33-85 | `Map.get`: present iff the key is in the map |
| SquiggleService.StoredIsServed | backend/src/services/SquiggleService.ts:36-62 | once a response is stored, every fetch of that key before the TTL runs out is served from it and stores nothing, whatever the network does |
| SquiggleService.SquiggleCache.constructor | backend/src/services/SquiggleService.ts:8-9 | both caches start empty |
| SquiggleService.SquiggleCache.FetchGames | backend/src/services/SquiggleService.ts:31-78 | the result and the new games cache are those `Lookup` decides under the games key and TTL; the teams cache is unchanged |
| SquiggleService.SquiggleCache.FetchTeams | backend/src/services/SquiggleService.ts:83-126 | the same under the key `teams` with a fixed 24-hour TTL; the games cache is unchanged |
| SquiggleService.SquiggleCache.ClearCache | backend/src/services/SquiggleService.ts:395-399 | both caches become empty |
| SquiggleService.SquiggleCache.CacheStats | backend/src/services/SquiggleService.ts:404-413 | the keys are those of both caches and the size counts each once |
| SchedulerService.GetMinutes | backend/src/services/SchedulerService.ts:367 | `getMinutes()` on local time is in 0..59 |
| SchedulerService.GetHours | backend/src/services/SchedulerService.ts:370 | `getHours()` on local time is in 0..23 |
| SchedulerService.HourSplit | backend/src/services/SchedulerService.ts:367-368 | a time's offset in its hour is its minute field plus its offset in the minute |
| SchedulerService.DaySplit | backend/src/services/SchedulerService.ts:370-391 | a time's offset in its day is its hour field plus its offset in the hour |
| SchedulerService.SetHoursNext | backend/src/services/SchedulerService.ts:370-391 | `setHours(getHours() + 1)` is exactly one hour later, rolling over midnight |
| SchedulerService.WholeHours | backend/src/services/SchedulerService.ts:371-392 | a whole number of hours has no minutes and is its own hour start |
| SchedulerService.CeilBounds | backend/src/services/SchedulerService.ts:367-383 | `Math.ceil(m / n) * n` for n in 5, 10, 15 is the least multiple of n not below m, at most 60 |
| SchedulerService.RoundUpIntendedMeaning | backend/src/services/SchedulerService.ts:365-388 | the intended every-n-minutes time starts a minute that is a multiple of n, from the current minute and less than n minutes later |
| SchedulerService.RoundUpBeforeOverflow | backend/src/services/SchedulerService.ts:367-372 | as written, the branch agrees with the intent while the minutes round up below 60 |
| SchedulerService.RoundUpOverflow | backend/src/services/SchedulerService.ts:367-372 | when the minutes round up to 60 the branch lands two hours after the hour start instead of one |
| SchedulerService.NextHour | backend/src/services/SchedulerService.ts:389-393 | the hourly branch gives the next whole hour |
| SchedulerService.NextRunSkipsAnHour | backend/src/services/SchedulerService.ts:365-372 | at 00:59 `*/5 * * * *` reports 02:00 where 01:00 is meant |
| SchedulerService.MissingChar | backend/src/services/SchedulerService.ts:365-381 | `includes` is false when one of the searched characters is absent |
| SchedulerService.JobPatternsNextRun | backend/src/services/SchedulerService.ts:360-396 | of the four registered patterns only the round-status one (`0 */2 * * *`) is recognised, as hourly; the others report the current time (patterns at lines 73, 108, 143 and 172) |
| SchedulerService.RegisteredPatternsUnaffected | backend/src/services/SchedulerService.ts:365-388 | for the four registered cron patterns the every-n-minutes overflow never arises: the written and the intended next run coincide (patterns at lines 73, 108, 143 and 172) |
| SchedulerService.NewJob | backend/src/services/SchedulerService.ts:82-89 | a fresh job has its id and pattern, is not running and has run 0 times |
| SchedulerService.AfterRun | backend/src/services/SchedulerService.ts:208-235 | success records the start time, the next run from the pattern, one more run and no error; failure records only the message; the rest of the job is kept |
| SchedulerService.RunCountCountsSuccesses | backend/src/services/SchedulerService.ts:220-229 | `runCount` counts exactly the successful runs, and the last error is clear iff the last run succeeded |
| SchedulerService.Successes | backend/src/services/SchedulerService.ts:222 | never more successes than runs |
| SchedulerService.StartedJobs | backend/src/services/SchedulerService.ts:71-203 | after start the four jobs are registered afresh with no runs; full sync and round status run always, live scores and tip correctness only in March–September; other entries are kept |
| SchedulerService.Scheduler.constructor | backend/src/services/SchedulerService.ts:22-29 | no jobs; enabled as configured |
| SchedulerService.Scheduler.CreateJob | backend/src/services/SchedulerService.ts:91-100 | the job is stored under its id, running iff started |
| SchedulerService.Scheduler.Start | backend/src/services/SchedulerService.ts:35-51 | disabled: nothing changes; enabled: the jobs become `StartedJobs` |
| SchedulerService.Scheduler.Stop | backend/src/services/SchedulerService.ts:56-66 | every job is removed |
| SchedulerService.Scheduler.ExecuteJob | backend/src/services/SchedulerService.ts:208-235 | an unknown id changes nothing; otherwise only that job's record changes, as `AfterRun`; the error is not rethrown |
| SchedulerService.Scheduler.TriggerJob | backend/src/services/SchedulerService.ts:292-336 | an unknown id is an error and changes nothing; a known one runs and the result is true |
| SchedulerService.Scheduler.SetEnabled | backend/src/services/SchedulerService.ts:428-435 | enabling starts the jobs, disabling removes them all |
| SchedulerService.Scheduler.GetStatus | backend/src/services/SchedulerService.ts:440-446 | reports the flag, the job count and whether the month is in season |
| SchedulerService.TriggerAfterStop | backend/src/services/SchedulerService.ts:292-296 | after stop every manual trigger fails and nothing changes (`stop` at lines 56-66 empties the job map) |
| SchedulerService.PendingGames | backend/src/services/SchedulerService.ts:241-248 | the query returns only finished games with a winner |
| SchedulerService.Corrected | backend/src/services/SchedulerService.ts:250-259 | scoring adds or removes no tip |
| SchedulerService.ScoreOneMore | backend/src/services/SchedulerService.ts:250-259 | scoring one more game extends the scored set by that game, whatever the order |
| SchedulerService.PendingIsAllFinished | backend/src/services/SchedulerService.ts:241-259 | the games the query leaves out have no unscored tips, so afterwards exactly the unscored tips of every finished game are scored, each with `selected_team == winner` |
| SchedulerService.TipCorrectnessRerun | backend/src/services/SchedulerService.ts:240-264 | a second run changes nothing |
| SchedulerService.CalculateTipCorrectness | backend/src/services/SchedulerService.ts:240-264 | only the tips change, to the scored set of the pending games, in any row order |
| SchedulerService.ScoreGames | backend/src/services/SchedulerService.ts:250-259 | the loop: one UPDATE per game, in any order, gives the scoring of the whole set |
| SchedulerService.ScoreNext | backend/src/services/SchedulerService.ts:251-258 | one turn scores one more game and moves it from the remaining set to the done set |
| SchedulerService.ScoreGame | backend/src/services/SchedulerService.ts:251-258 | the UPDATE scores that key's unscored tips against the winner and changes nothing else |
| Migrations.LineEnd | backend/src/db/migrations.ts:15 | where `.*$` stops under the `m` flag: no line terminator before it, and one at it unless the text ends |
| Migrations.StripLineComments | backend/src/db/migrations.ts:15 | `replace(/--.*$/gm, '')`: never longer, no `--` left, and text without `--` is unchanged |
| Migrations.CloseFrom | backend/src/db/migrations.ts:16 | the end of the lazy `[\s\S]*?`: the first star-slash at or after the position, or none |
| Migrations.StripBlockComments | backend/src/db/migrations.ts:16 | never longer, and text without an opening slash-star is unchanged |
| Migrations.TrimmedNonEmpty | backend/src/db/migrations.ts:18-19 | the filter keeps at most as many pieces as it is given |
| Migrations.TrimmedNonEmptyTrimmed | backend/src/db/migrations.ts:18-19 | every surviving piece is trimmed and non-empty |
| Migrations.TrimmedNonEmptyAvoids | backend/src/db/migrations.ts:17-19 | a character in no piece is in no statement |
| Migrations.StatementsAreClean | backend/src/db/migrations.ts:12-19 | every returned statement is non-empty, trimmed and free of `;` |
| Migrations.LineCommentRemoved | backend/src/db/migrations.ts:15 | a `--` comment goes up to the next line terminator, which is kept |
| Migrations.BlockCommentRemoved | backend/src/db/migrations.ts:16 | a block comment goes through the first star-slash after its opening, and the scan resumes behind it |
| Migrations.CommentFreeSplit | backend/src/db/migrations.ts:17-19 | text without comment markers is split on `;`, trimmed and filtered as it stands |
| Migrations.SingleStatement | backend/src/db/migrations.ts:12-19 | with no markers and no `;` the result is the trimmed text, or nothing when it is blank |
| Migrations.StatementsInOrder | backend/src/db/migrations.ts:17-19 | statements keep their order: those of `a;b` are those of `a` followed by those of `b` |
| Migrations.LiteralsNotRespected | backend/src/db/migrations.ts:15 | markers inside string literals are not recognised: `'--'` becomes `'` |
| Migrations.GenerateSquiggleGameKey | backend/src/db/migrations.ts:74-80 | the same key encoding as the service's, three digits for rounds 0..99 and games 1..9 |
| Helpers.GameResult | frontend/src/utils/helpers.ts:48-58 | empty exactly for an unfinished game |
| Helpers.GameWinner | frontend/src/utils/helpers.ts:60-69 | nobody iff unfinished or a draw; otherwise the side with more points |
| Helpers.ResultNamesWinner | frontend/src/utils/helpers.ts:48-69 | the result line begins with the winner's name and "won", and begins with "Draw" exactly for a finished game without a winner |
| Helpers.GetTipStatus | frontend/src/utils/helpers.ts:72-75 | pending iff `is_correct` is null, correct iff true, incorrect iff false |
| Helpers.ScoredTipNotPending | frontend/src/utils/helpers.ts:72-75 | a tip the server's scoring reached is no longer pending and shows its verdict |
| Helpers.FinalsRoundName | frontend/src/utils/helpers.ts:89-97 | a non-empty name exactly for rounds 25 to 28 (`isFinalsRound`, lines 104-106) |
| Helpers.FinalsNamesDistinct | frontend/src/utils/helpers.ts:89-97 | no two finals rounds share a name |
| Helpers.RoundDisplayName | frontend/src/utils/helpers.ts:99-102 | the finals name for a finals round, else "Round n" |
| Helpers.MarginPredictionLabel | frontend/src/utils/helpers.ts:275-278 | "<finals name> Margin" for a finals round, else "Margin Prediction" |
| Helpers.LastGameOfRound | frontend/src/utils/helpers.ts:108-117 | null iff there are no games; otherwise one of them that no game starts after, and, as the sort is stable, the last listed of those starting latest (every later-listed game starts strictly earlier) |
| Sorting.SortWithLast | frontend/src/utils/helpers.ts:112-116 | the stable sort by start time ends with the last-listed of the games with the greatest start time |
| Helpers.IsMarginGame | frontend/src/utils/helpers.ts:119-125 | false outside the finals or without games; true only for a game whose id is that of a latest-starting game |
| Helpers.LatestGameIsMarginGame | frontend/src/utils/helpers.ts:119-125 | in a finals round, a game starting strictly after every game with another id is the margin game |
| Helpers.RoundLockStaysLocked | frontend/src/utils/helpers.ts:127-133 | `isRoundLocked` is false without a lockout time and stays true once true; with a lockout time the round is locked or counting down at every instant except the lockout itself |
| Helpers.GetRoundStatus | frontend/src/utils/helpers.ts:154-170 | a stored completed or active status stands; an upcoming round shows active iff its lockout has passed, never completed |
| Helpers.UpcomingMeansOpen | frontend/src/utils/helpers.ts:154-170 | for a round stored as upcoming, the client shows "upcoming" exactly while the server's `isRoundOpen` (TipsService.ts:151-159) accepts tips |
| Helpers.CountdownMeaning | frontend/src/utils/helpers.ts:139-151 | days-and-hours iff more than 24 whole hours remain, hours-and-minutes iff 1 to 24, minutes only iff under an hour; each part is the floor of the remaining time in its unit |
| Helpers.RoundLockoutCountdown | frontend/src/utils/helpers.ts:132-152 | a countdown iff a lockout is set and still ahead, and then the text of the time left |
| Helpers.JsRem | frontend/src/utils/helpers.ts:199 | JavaScript's `%`: equal to the mathematical remainder for a non-negative dividend, and always less than the divisor in size |
| Helpers.RankSuffix | frontend/src/utils/helpers.ts:196-206 | 11 to 13 take "th"; the suffix is one of st, nd, rd, th |
| Helpers.RankSuffixPositive | frontend/src/utils/helpers.ts:196-206 | for a positive rank, "st", "nd", "rd" exactly for last digit 1, 2, 3 other than 11, 12, 13 |
| Helpers.RankSuffixEdges | frontend/src/utils/helpers.ts:196-206 | only 11 to 13 are exempt: 111 is "st"; a negative rank keeps a negative last digit and takes "th" |
| Helpers.RankDisplay | frontend/src/utils/helpers.ts:191-194 | the number followed by its suffix |
| Helpers.ErrorsForCount | frontend/src/utils/helpers.ts:217-225 | one error per missing field of a tip |
| Helpers.MissingCount | frontend/src/utils/helpers.ts:217-225 | a tip has at most three errors |
| Helpers.TipErrorsCount | frontend/src/utils/helpers.ts:216-226 | the first k tips yield one error per missing field |
| Helpers.NoneMissing | frontend/src/utils/helpers.ts:216-226 | no field is missing from the first k tips iff every one is complete |
| Helpers.ValidateTipSubmission | frontend/src/utils/helpers.ts:209-232 | the empty-list error, then each tip's errors in order; valid iff no errors iff the list is non-empty and every tip complete; the error count is that of the missing fields, plus one for an empty list |
| Helpers.CheckTips | frontend/src/utils/helpers.ts:216-226 | the `forEach` appends every tip's errors in order |
| Helpers.CheckTip | frontend/src/utils/helpers.ts:217-225 | one callback appends that tip's errors, numbered from 1 |
| Helpers.ValidateMarginPrediction | frontend/src/utils/helpers.ts:254-268 | valid iff present, numeric and from 0 to 200; otherwise the first failing rule's message |
| HistoryPage.BucketOf | frontend/src/pages/HistoryPage.tsx:37-48 | completed iff stored completed; upcoming iff stored upcoming with a lockout still ahead; everything else active |
| HistoryPage.Bucketed | frontend/src/pages/HistoryPage.tsx:36-50 | a group never holds more rounds than were scanned |
| HistoryPage.OrganizeRoundsByStatus | frontend/src/pages/HistoryPage.tsx:29-51 | no rounds loaded: three empty groups; otherwise the rounds with games, each pushed in order onto the group `BucketOf` chooses |
| HistoryPage.BucketedMembers | frontend/src/pages/HistoryPage.tsx:36-50 | a round lands in a group iff it was scanned and belongs to that group |
| HistoryPage.BucketsPartition | frontend/src/pages/HistoryPage.tsx:36-50 | the three groups together hold each scanned round exactly once |
| Sorting.FilterMembers | frontend/src/pages/HistoryPage.tsx:33 | `filter` keeps exactly the elements satisfying the test |
| HistoryPage.RoundsOrganized | frontend/src/pages/HistoryPage.tsx:29-53 | a round is offered in a group iff it has games and its status and lockout choose that group; the groups' sizes add up to the rounds with games |
| HistoryPage.FamilyGroupOf | frontend/src/pages/HistoryPage.tsx:63 | `family_group_name \|\| family_group?.name`: an empty flat name falls through to the nested one |
| HistoryPage.BlankRowCells | frontend/src/pages/HistoryPage.tsx:77-79 | the blank row has a cell, holding no tip, for each game and no other |
| HistoryPage.BlankMatrixRows | frontend/src/pages/HistoryPage.tsx:75-80 | the blank matrix gives each listed user that row and has no other row |
| HistoryPage.LastTipMeaning | frontend/src/pages/HistoryPage.tsx:84-88 | no last tip iff none of the tips is for that user and game; otherwise it is one of them and no later one is |
| HistoryPage.CreateTipsMatrix | frontend/src/pages/HistoryPage.tsx:56-92 | without games or users, all empty; otherwise one header per user in order, the games sorted by start, and the blank matrix filled with the tips when loaded |
| HistoryPage.InitializeMatrix | frontend/src/pages/HistoryPage.tsx:75-80 | the nested `forEach` builds the blank matrix |
| HistoryPage.FillTips | frontend/src/pages/HistoryPage.tsx:83-89 | the `forEach` writes each tip into its user's row when that row exists |
| HistoryPage.FilledCells | frontend/src/pages/HistoryPage.tsx:84-88 | filling adds no row; a cell holds the last tip written to it, or what it held before |
| HistoryPage.TipsMatrixCells | frontend/src/pages/HistoryPage.tsx:56-92 | one row per listed user and no other; a cell for every game of the round and every game the user tipped; each holds the user's last tip on that game, null when none |
| HistoryPage.SortByStart | frontend/src/pages/HistoryPage.tsx:104-121 | the in-place `sort` reorders the array by start time (stable) |
| HistoryPage.EarliestStart | frontend/src/pages/HistoryPage.tsx:104-106 | the first game once sorted starts no later than any other |
| HistoryPage.FindRound | frontend/src/pages/HistoryPage.tsx:100 | `find`: none iff no round has the id; otherwise the first one that does |
| HistoryPage.IsRoundInLockout | frontend/src/pages/HistoryPage.tsx:97-114 | the result is `InLockout`; the games array is sorted in place exactly when the guards let the check reach the sort |
| HistoryPage.GetLockoutTime | frontend/src/pages/HistoryPage.tsx:116-124 | null without loaded games or with none; otherwise two hours before the first game after sorting the array in place |
| HistoryPage.LockoutBeforeEveryGame | frontend/src/pages/HistoryPage.tsx:116-124 | the lockout is two hours before the earliest game: every game starts at least two hours after it, one exactly |
| HistoryPage.InLockoutMeaning | frontend/src/pages/HistoryPage.tsx:97-114 | in lockout iff the picked round is found upcoming and now is before the reported lockout, i.e. more than two hours before every game |
| SqlGenerator.TotalBatchesMeaning | backend/scripts/sql-generator.js:17-76 | `Math.ceil(n / 500)`: no batch iff no record, enough batches for every record, and no superfluous one |
| SqlGenerator.BatchInfoMeaning | backend/scripts/sql-generator.js:79-91 | batch i starts at i·500, holds 1..500 records, ends inside the data and is numbered i + 1; its rounds are ascending and exactly the batch's rounds; its users exactly the batch's users |
| SqlGenerator.DataUpToPrefix | backend/scripts/sql-generator.js:78-81 | the first k batches hold exactly the first min(k·500, n) records, in order |
| SqlGenerator.BatchesCoverAll | backend/scripts/sql-generator.js:76-81 | all batches together hold every record once, in order |
| SqlGenerator.Escape | backend/scripts/sql-generator.js:123-127 | `replace(/'/g, "''")` never shortens a name |
| SqlGenerator.ReadEscaped | backend/scripts/sql-generator.js:123-127 | round trip: reading an escaped name back from a quoted SQL literal gives the name and the rest of the text |
| SqlGenerator.ReadDoubledQuote | backend/scripts/sql-generator.js:123-127 | a doubled quote reads back as one quote |
| SqlGenerator.ReadPlainChar | backend/scripts/sql-generator.js:123-127 | any other character reads back as itself |
| SqlGenerator.RowEnding | backend/scripts/sql-generator.js:121-135 | one VALUES row per record; the last row ends in `;` and every other in `,` |
| SqlGenerator.RowNameReadsBack | backend/scripts/sql-generator.js:121-134 | a row's first literal reads back as the record's user name, whatever quotes it holds |
| SqlGenerator.Blocks | backend/scripts/sql-generator.js:78-160 | one block of script parts per batch |
| SqlGenerator.MorePartsUpTo | backend/scripts/sql-generator.js:95-159 | one turn of the batch loop appends that batch's parts |
| SqlGenerator.MoreInfos | backend/scripts/sql-generator.js:93 | one turn appends that batch's info |
| SqlGenerator.GenerateSqlScript | backend/scripts/sql-generator.js:22-217 | the loop's components are the prelude, every batch's parts in order and the final summary; the batch infos are one per batch in order |
| SqlGenerator.AddBatch | backend/scripts/sql-generator.js:78-160 | one turn of the loop extends both outputs by one batch |
| SqlGenerator.BatchStep | backend/scripts/sql-generator.js:79-159 | the parts and info of one batch |
| SqlGenerator.OpenAfterAppend | backend/scripts/sql-generator.js:104-159 | tracking the open transaction over a concatenation composes |
| SqlGenerator.BatchBalanced | backend/scripts/sql-generator.js:104-159 | a batch's parts open one transaction and close it |
| SqlGenerator.BalancedConcat | backend/scripts/sql-generator.js:78-160 | two balanced parts in a row are balanced |
| SqlGenerator.BatchPartsBalanced | backend/scripts/sql-generator.js:95-159 | every batch is balanced |
| SqlGenerator.PreludeBalanced | backend/scripts/sql-generator.js:38-217 | the header, pragma, backup and final summary open no transaction |
| SqlGenerator.FlattenBalanced | backend/scripts/sql-generator.js:78-160 | a sequence of balanced blocks is balanced |
| SqlGenerator.PartsBalanced | backend/scripts/sql-generator.js:78-160 | any number of batches is balanced |
| SqlGenerator.TransactionsWrapBatches | backend/scripts/sql-generator.js:36-220 | the whole script never nests a BEGIN and ends with no transaction open |
| TeamNameMapper.LinesTeams | backend/scripts/team-name-mapper.js:32-43 | one group of extracted names per data line |
| TeamNameMapper.LinesTeamsAt | backend/scripts/team-name-mapper.js:33-42 | the group for line i holds that line's columns 4 to 7, trimmed, when it has at least 8 columns |
| TeamNameMapper.AddAllMembers | backend/scripts/team-name-mapper.js:38-41 | adding to an insertion-ordered `Set` keeps it duplicate-free and adds exactly the new names |
| TeamNameMapper.SeenMembers | backend/scripts/team-name-mapper.js:30-43 | after k lines the set holds, once each, exactly the names extracted so far |
| TeamNameMapper.DeleteMembers | backend/scripts/team-name-mapper.js:46 | `delete` removes exactly that name |
| TeamNameMapper.CsvTeamsMeaning | backend/scripts/team-name-mapper.js:27-49 | the unique CSV teams are exactly the non-empty extracted names, once each, in ascending code-point order |
| TeamNameMapper.CollectCsvTeams | backend/scripts/team-name-mapper.js:27-49 | the loop computes `CsvTeams` of the file |
| TeamNameMapper.AddFour | backend/scripts/team-name-mapper.js:38-41 | the four `add` calls in order |
| TeamNameMapper.AddLine | backend/scripts/team-name-mapper.js:32-43 | one turn of the loop adds that line's names |
| TeamNameMapper.AddLineTeams | backend/scripts/team-name-mapper.js:33-42 | the body of one turn |
| TeamNameMapper.FindCaseMatch | backend/scripts/team-name-mapper.js:96-98 | `find`: found iff some standard name equals it ignoring ASCII case, and then the first such |
| TeamNameMapper.FindPartial | backend/scripts/team-name-mapper.js:127-130 | found iff a standard name contains it or is contained in it, ignoring ASCII case, and then the first such |
| TeamNameMapper.Suggestions | backend/scripts/team-name-mapper.js:141-143 | a standard name is suggested iff it contains the first three characters of the CSV name, both lower-cased on ASCII letters |
| TeamNameMapper.SuggestionsAreFilter | backend/scripts/team-name-mapper.js:141-143 | the suggestions are `std.filter(...)` (`Sorting.Filter`): every standard name passing the test, in the order of the standard list |
| TeamNameMapper.DecisionChain | backend/scripts/team-name-mapper.js:87-131 | the order of the checks: an exact name is a perfect match onto itself; else the first ASCII case-insensitive match when it is non-empty; else a hard-coded variation; else the first standard name overlapping it, as a fuzzy match; else no mapping, with the suggestions |
| TeamNameMapper.CaseMatchSecond | backend/scripts/team-name-mapper.js:96-102 | the second rule (ASCII case-insensitive match), on its own |
| TeamNameMapper.HardCodedThird | backend/scripts/team-name-mapper.js:109-124 | the third rule, on its own |
| TeamNameMapper.HardCodedTargetNotStandard | backend/scripts/team-name-mapper.js:111-112 | a hard-coded target is used even when it is not a standard name |
| TeamNameMapper.MapOne | backend/scripts/team-name-mapper.js:88-145 | the method computes `Decide` |
| TeamNameMapper.RecordFacts | backend/scripts/team-name-mapper.js:90-144 | recording a decision sets the mapping entry, adds an issue only for no match and a perfect match only for an exact one |
| TeamNameMapper.Decisions | backend/scripts/team-name-mapper.js:87 | one decision per unique team |
| TeamNameMapper.DecisionsAt | backend/scripts/team-name-mapper.js:87-146 | decision j is that of team j |
| TeamNameMapper.CreateMapping | backend/scripts/team-name-mapper.js:83-146 | the loop's mapping, issues and perfect matches are those of recording every decision in order |
| TeamNameMapper.MapStep | backend/scripts/team-name-mapper.js:88-145 | one turn of the loop records one more decision |
| TeamNameMapper.MappedKeys | backend/scripts/team-name-mapper.js:87-146 | the mapping's keys are exactly the teams processed |
| TeamNameMapper.MappedKeyCount | backend/scripts/team-name-mapper.js:154 | with distinct teams there are as many keys as teams |
| TeamNameMapper.MappedTargets | backend/scripts/team-name-mapper.js:90-137 | each team is mapped to its decision's target |
| TeamNameMapper.IssuesForAppend | backend/scripts/team-name-mapper.js:138 | appending an issue counts it for its name |
| TeamNameMapper.MappedIssues | backend/scripts/team-name-mapper.js:138-144 | the issues for a name are the no-match decisions for it |
| TeamNameMapper.CountIssuesAbsent | backend/scripts/team-name-mapper.js:138 | a name never processed has no issue |
| TeamNameMapper.CountIssuesDistinct | backend/scripts/team-name-mapper.js:138 | with distinct teams a team has one issue iff it had no match |
| TeamNameMapper.CountIssuesWitness | backend/scripts/team-name-mapper.js:138 | an issue for a name comes from a no-match decision for it |
| TeamNameMapper.MappedCounts | backend/scripts/team-name-mapper.js:153-155 | the perfect matches and the issues count the decisions of each kind |
| TeamNameMapper.NullIffOneIssue | backend/scripts/team-name-mapper.js:133-145 | a team maps to null iff it has exactly one issue, and to a name iff it has none |
| TeamNameMapper.KindsAddUp | backend/scripts/team-name-mapper.js:153-155 | every decision is perfect, fuzzy or an issue |
| TeamNameMapper.SummaryMeaning | backend/scripts/team-name-mapper.js:150-157 | `fuzzyMatches` counts the decisions that are neither perfect nor issues, and `mappingComplete` holds iff every team maps to a name |
| TeamNameMapper.SummaryOver | backend/scripts/team-name-mapper.js:150-157 | the same over any decisions |
| TeamNameMapper.IssueCounted | backend/scripts/team-name-mapper.js:138 | the last issue is counted for its name |
| ImportTemplate.ProcessFields | backend/scripts/import-template-generator.js:62-120 | a line with its columns read becomes a record or a skipped row, never a blank line |
| ImportTemplate.BlankLineRule | backend/scripts/import-template-generator.js:44-47 | a line is skipped as blank iff it is blank after trimming |
| ImportTemplate.ColumnsRule | backend/scripts/import-template-generator.js:50-60 | a non-blank line with fewer than ten columns is skipped with 'Insufficient columns' and its first 100 characters; otherwise its columns decide |
| ImportTemplate.FieldRules | backend/scripts/import-template-generator.js:63-117 | a line lacking a required field is skipped with 'Missing required fields', and only such a line; a record has the line's week, game, name and key, the 2025 season, the original team kept, and its mapping flag true iff the team changed |
| ImportTemplate.MappingApplied | backend/scripts/import-template-generator.js:86-98 | a team mapped to another name is replaced; a team mapped to null is skipped as unmapped; otherwise the team is kept unchanged |
| ImportTemplate.Outcomes | backend/scripts/import-template-generator.js:41 | one outcome per CSV line |
| ImportTemplate.OutcomesUpTo | backend/scripts/import-template-generator.js:41 | one outcome per line read so far |
| ImportTemplate.OutcomeIndex | backend/scripts/import-template-generator.js:41-130 | the outcome at index i is that of line i + 1 |
| ImportTemplate.ProcessCsv | backend/scripts/import-template-generator.js:29-130 | the loop's records and counters are those of processing every line's outcome in order |
| ImportTemplate.HandleLine | backend/scripts/import-template-generator.js:41-129 | one turn counts the line and tallies its outcome |
| ImportTemplate.ReadLine | backend/scripts/import-template-generator.js:44-117 | processing the line numbered `row` gives its outcome |
| ImportTemplate.TallyLine | backend/scripts/import-template-generator.js:45-120 | the branches after the row count push the record or count the skip with its error |
| ImportTemplate.RowsAccounted | backend/scripts/import-template-generator.js:33-130 | every line is counted once and ends valid or skipped; the valid ones are the records; the mapping counter counts the records whose team was replaced; the error log holds exactly the errors of the non-blank skipped lines, in line order, so there are at most as many errors as skipped rows |
| ImportTemplate.LineWellFormed | backend/scripts/import-template-generator.js:101-117 | any record a line yields is for 2025, with a name and key, and its mapping flag right |
| ImportTemplate.OutcomeWellFormed | backend/scripts/import-template-generator.js:101-117 | the same, for each line of the file |
| ImportTemplate.RecordsWellFormed | backend/scripts/import-template-generator.js:41-130 | every record of the template is well formed |
| ImportTemplate.StepWellFormed | backend/scripts/import-template-generator.js:119 | pushing a well-formed record keeps the records well formed |
| ImportTemplate.ComputeStatistics | backend/scripts/import-template-generator.js:135-159 | every record's user, round and team has an entry; a user's entry holds their record count and truthy-correct count, a round's `tips` its record count, and a team's value the number of records selecting it |
| ImportTemplate.CountUser | backend/scripts/import-template-generator.js:141-145 | one record counted into its user's statistics |
| ImportTemplate.CountRound | backend/scripts/import-template-generator.js:148-152 | one record counted into its round's statistics |
| ImportTemplate.CountTeam | backend/scripts/import-template-generator.js:155-158 | one record counted into its team's selections |
| ImportTemplate.UserStatsMeaning | backend/scripts/import-template-generator.js:139-145 | an entry exists exactly for each user with a record, holding how many records they have and how many of those are truthy-correct |
| ImportTemplate.SumTipsUnchanged | backend/scripts/import-template-generator.js:144 | changing an unlisted user's entry leaves the sum alone |
| ImportTemplate.SumTipsBump | backend/scripts/import-template-generator.js:144 | one more tip for a listed user raises the sum by one |
| ImportTemplate.SumTipsCovers | backend/scripts/import-template-generator.js:139-189 | over distinct users covering every record, the tips add up to the records |
| ImportTemplate.SumTipsEmpty | backend/scripts/import-template-generator.js:135 | no statistics sum to zero |
| ImportTemplate.UserNames | backend/scripts/import-template-generator.js:188 | one user name per record, in order |
| ImportTemplate.UserTipsTotal | backend/scripts/import-template-generator.js:188-200 | the per-user tip counts add up to the number of records |
| ImportTemplate.RoundStatsMeaning | backend/scripts/import-template-generator.js:148-168 | an entry exists exactly for each round with a record; its `tips` is the number of that round's records and its games are exactly their game numbers |
| ImportTemplate.TeamStatsMeaning | backend/scripts/import-template-generator.js:154-158 | an entry exists exactly for each team some record selects, and its value is the number of records selecting it |
| DataValidator.UserNames | backend/scripts/data-validator.js:60 | one user name per record, in order |
| DataValidator.GameKeys | backend/scripts/data-validator.js:72 | one game key per record, in order |
| DataValidator.UsersMeaning | backend/scripts/data-validator.js:60-189 | valid + missing = distinct import users; the missing list is exactly the import users not in the users table; the check passes iff every record's user exists |
| DataValidator.GameKeysMeaning | backend/scripts/data-validator.js:72-196 | valid + missing = distinct import keys; the missing list is exactly the import keys not in `squiggle_games`; the check passes iff every record's key exists |
| DataValidator.FindDuplicates | backend/scripts/data-validator.js:107-117 | the loop collects the records whose user and key already have a historical tip, in order |
| DataValidator.DuplicatesMeaning | backend/scripts/data-validator.js:111-117 | a record appears among the duplicates exactly as often as in the import when its user:key is already present, and never otherwise |
| DataValidator.Samples | backend/scripts/data-validator.js:201-206 | at most five samples, the first duplicates in order with their user, key, round and game |
| DataValidator.CheckIntegrity | backend/scripts/data-validator.js:125-167 | the loop's counters are those of checking every record in order; `invalidTeamNames` stays 0 |
| DataValidator.CheckRecord | backend/scripts/data-validator.js:138-166 | one turn checks one more record |
| DataValidator.TeamNamesNeverCounted | backend/scripts/data-validator.js:130 | no check ever raises `invalidTeamNames` |
| DataValidator.CountBreakingMeaning | backend/scripts/data-validator.js:137-167 | each counter is the number of records that break its rule |
| DataValidator.BreakFlags | backend/scripts/data-validator.js:137 | one flag per record |
| DataValidator.BreakFlagsAt | backend/scripts/data-validator.js:139-166 | flag j says whether record j breaks the rule |
| DataValidator.CountBreakingFlags | backend/scripts/data-validator.js:137-167 | a counter counts the raised flags |
| DataValidator.CountTrueMeaning | backend/scripts/data-validator.js:137-167 | the number of raised flags among the first k |
| DataValidator.CountBreakingZero | backend/scripts/data-validator.js:137-167 | a counter is 0 iff no record breaks its rule |
| DataValidator.IntegrityMeaning | backend/scripts/data-validator.js:169-212 | integrity passes iff no record breaks any rule |
| DataValidator.IntegrityPasses | backend/scripts/data-validator.js:169 | with no broken rule the total is 0 |
| DataValidator.IntegrityFails | backend/scripts/data-validator.js:169 | any broken rule makes the total positive |
| DataValidator.AnalyzeResults | backend/scripts/data-validator.js:223-279 | the recommendations and blocking issues in the order the checks are analysed; all passed iff users, keys and integrity pass; proceed iff all passed; user action iff something blocks |
| DataValidator.BlockingMeaning | backend/scripts/data-validator.js:226-279 | something blocks iff not all checks pass, and each blocking issue is present iff its check failed |
| DataValidator.RecommendationsMeaning | backend/scripts/data-validator.js:226-267 | a recommendation blocks iff it is an error; there is one per blocking issue, plus one for duplicates |
| DataValidator.DuplicatesOnlyWarn | backend/scripts/data-validator.js:248-256 | duplicates never block: they add only a warning |
| DataValidator.ValidateImportData | backend/scripts/data-validator.js:16-302 | an error, and no report, exactly when `historical_tips` is missing (the duplicate query fails and the error is rethrown); otherwise the report: metadata, the user, key, duplicate and integrity sections as the functions above, then the recommendations and the import readiness |
| KeyValidator.ExpectedKeyIsGameKey | backend/scripts/squiggle-key-validator.js:49 | for a week 0..99 and game 1..9 the expected key is the service's game key, three digits |
| KeyValidator.ExpectedKeyDetermines | backend/scripts/squiggle-key-validator.js:49 | in that range the expected key determines week and game |
| KeyValidator.ExpectedKeyNaN | backend/scripts/squiggle-key-validator.js:33-49 | an unparsable week or game gives a key containing `NaN`, never all digits |
| KeyValidator.LineEntry | backend/scripts/squiggle-key-validator.js:29-39 | a line contributes an entry only with a non-empty key |
| KeyValidator.Entries | backend/scripts/squiggle-key-validator.js:28 | one entry per line |
| KeyValidator.EntriesAt | backend/scripts/squiggle-key-validator.js:28-53 | entry i is line i's |
| KeyValidator.KeysMeaning | backend/scripts/squiggle-key-validator.js:25-54 | the key set and the details map have the same keys, exactly those of the lines read, each once |
| KeyValidator.FirstOccurrence | backend/scripts/squiggle-key-validator.js:42-51 | a key's details are those of its first line |
| KeyValidator.ExtractLine | backend/scripts/squiggle-key-validator.js:29-53 | one turn of the loop extends both by one line |
| KeyValidator.ExtractLines | backend/scripts/squiggle-key-validator.js:28-54 | the loop over the lines |
| KeyValidator.ExtractKeys | backend/scripts/squiggle-key-validator.js:22-54 | the keys and details of the whole file |
| KeyValidator.UniqueCsvKeysMeaning | backend/scripts/squiggle-key-validator.js:56 | the sorted keys are distinct, ascending in code-point order, and exactly the keys of the file |
| KeyValidator.DbKeys | backend/scripts/squiggle-key-validator.js:81 | one key per database row |
| KeyValidator.Find | backend/scripts/squiggle-key-validator.js:96-128 | `find` returns a row with that key |
| KeyValidator.FindMeaning | backend/scripts/squiggle-key-validator.js:96-128 | found iff the key is among the database keys, and then the first row with it |
| KeyValidator.KeysOf | backend/scripts/squiggle-key-validator.js:99-136 | the `squiggleGameKey` of each entry of `matches`, `missingInDb` or `extraInDb`, position by position |
| KeyValidator.MatchKeysArePresent | backend/scripts/squiggle-key-validator.js:94-123 | the matched keys are the CSV keys the database has, the missing keys those it lacks, in order |
| KeyValidator.CompareMeaning | backend/scripts/squiggle-key-validator.js:94-123 | a key is matched iff present in both, missing iff only in the CSV; together they cover the CSV keys |
| KeyValidator.MatchesContent | backend/scripts/squiggle-key-validator.js:99-111 | each match carries the CSV details and the first database row for its key; `teamMatch` iff both teams are present and equal; `keyGenerationCorrect` iff the key is the expected one |
| KeyValidator.MissingContent | backend/scripts/squiggle-key-validator.js:113-121 | each missing entry is a CSV key absent from the database, with its CSV details |
| KeyValidator.CompareKeys | backend/scripts/squiggle-key-validator.js:89-123 | the loop builds exactly those two lists |
| KeyValidator.ExtrasMeaning | backend/scripts/squiggle-key-validator.js:125-138 | the extras are the database keys the CSV lacks, in order (one per row, duplicates included), each with its first row |
| KeyValidator.FindExtras | backend/scripts/squiggle-key-validator.js:125-138 | the loop builds exactly that list |
| KeyValidator.ValidateSquiggleGameKeys | backend/scripts/squiggle-key-validator.js:16-170 | the method computes `Validation` of the file and the rows |
| KeyValidator.ReportOfMeaning | backend/scripts/squiggle-key-validator.js:141-155 | the mismatch lists are exactly the matches failing each test; import-ready iff nothing is missing; passed iff nothing is missing and every match's teams agree |
| KeyValidator.ImportReadyMeaning | backend/scripts/squiggle-key-validator.js:144-155 | matches + missing = CSV keys; import-ready iff every key of the file is in the database |
| KeyValidator.ExtraKeysMeaning | backend/scripts/squiggle-key-validator.js:125-138 | a key is reported extra iff it is in the database and on no line of the file |
| CsvTransformer.Slice | backend/scripts/csv-transformer.js:73-97 | `row.slice(from, to)` has at most `to - from` cells |
| CsvTransformer.FindLabelled | backend/scripts/csv-transformer.js:63-81 | the index found is that of the first row whose second cell is the label, and there is none exactly when no row has it |
| CsvTransformer.NonBlank | backend/scripts/csv-transformer.js:73-75 | the filtered team list is no longer than its cells and holds no blank name |
| CsvTransformer.NonBlankMeaning | backend/scripts/csv-transformer.js:73-75 | a name is kept exactly when it is a present cell that is not blank after trimming |
| CsvTransformer.Min3 | backend/scripts/csv-transformer.js:77 | the game count is one of the three lengths and no larger than any |
| CsvTransformer.RoundLayout | backend/scripts/csv-transformer.js:57-82 | a layout, when found, has a game count no larger than any team list (at most 9), no blank team, and its winner row inside the sheet |
| CsvTransformer.RoundLayoutMeaning | backend/scripts/csv-transformer.js:57-77 | a round is skipped exactly when it has fewer than 12 rows or lacks a Home Team, Away Team or Winner row; otherwise the three lists are the non-blank cells 3..11 of the first labelled rows and the game count is one of their lengths |
| CsvTransformer.UserName | backend/scripts/csv-transformer.js:87-94 | a row counts only under a family member's name |
| CsvTransformer.GameTip | backend/scripts/csv-transformer.js:100-103 | a game gives a row exactly when the user's tip cell for it is not empty |
| CsvTransformer.UserBlocks | backend/scripts/csv-transformer.js:86 | one block per user row, holding that row's rows |
| CsvTransformer.Rounds | backend/scripts/csv-transformer.js:42 | one block per round 0..23, holding that round's rows |
| CsvTransformer.CsvLines | backend/scripts/csv-transformer.js:117-130 | one CSV line per flat row |
| CsvTransformer.CsvLinesAppend | backend/scripts/csv-transformer.js:130 | the lines of two runs of rows are the lines of the first followed by those of the second |
| CsvTransformer.CsvLinesAt | backend/scripts/csv-transformer.js:117-128 | line `i` is the comma-joined row `i` |
| CsvTransformer.CsvLinesPush | backend/scripts/csv-transformer.js:130 | pushing a row adds its line at the end |
| CsvTransformer.GameTipTrimmed | backend/scripts/csv-transformer.js:105-108 | the selected and the winning team are trimmed |
| CsvTransformer.GameTipWellFormed | backend/scripts/csv-transformer.js:105-127 | a family member's game row is well formed: its round, game 1..9, the generated key, the `Round n` tab, and correct exactly when selection and winner agree ignoring ASCII case |
| CsvTransformer.UserTipsWellFormed | backend/scripts/csv-transformer.js:100-131 | every row of a user's games is well formed |
| CsvTransformer.UserTipsMembers | backend/scripts/csv-transformer.js:100-131 | a user's rows are exactly the rows of their games with a tip |
| CsvTransformer.RowTipsWellFormed | backend/scripts/csv-transformer.js:86-131 | every row a sheet row contributes is well formed |
| CsvTransformer.UserRowsTipsWellFormed | backend/scripts/csv-transformer.js:86-134 | every row of the user rows is well formed |
| CsvTransformer.UserRowsTipsMembers | backend/scripts/csv-transformer.js:86-134 | the rows of the user rows are exactly those contributed by one of them |
| CsvTransformer.RoundTipsOf | backend/scripts/csv-transformer.js:80-86 | a round with a layout contributes the rows of its rows after the winner row |
| CsvTransformer.RoundTipsWellFormed | backend/scripts/csv-transformer.js:42-134 | every row a round contributes is well formed for that round |
| CsvTransformer.RowTipsMembers | backend/scripts/csv-transformer.js:86-131 | a sheet row's rows are exactly those of a family member's non-empty tip cells |
| CsvTransformer.UserRowsTipsFind | backend/scripts/csv-transformer.js:86 | a row of the user rows comes from one of them |
| CsvTransformer.UserRowsTipsHas | backend/scripts/csv-transformer.js:86 | every user row's rows are among the user rows' rows |
| CsvTransformer.SheetRowSound | backend/scripts/csv-transformer.js:81-86 | a sheet's row comes from a row after the winner row |
| CsvTransformer.RoundTipsSound | backend/scripts/csv-transformer.js:80-131 | every row of a round comes from a family member's row after the winner row and a game with a tip |
| CsvTransformer.RowTipsComplete | backend/scripts/csv-transformer.js:86-131 | every non-empty tip cell of a family member's row gives a row |
| CsvTransformer.SheetRowComplete | backend/scripts/csv-transformer.js:81-86 | every row after the winner row contributes its rows |
| CsvTransformer.RoundTipsComplete | backend/scripts/csv-transformer.js:80-131 | every family member's tip after the winner row gives a row of the round |
| CsvTransformer.RoundTipsMembers | backend/scripts/csv-transformer.js:80-131 | the rows of a round are exactly the tips of family members' rows after the winner row |
| CsvTransformer.FlattenWellFormed | backend/scripts/csv-transformer.js:42-141 | concatenated blocks of well-formed rounds give well-formed rows |
| CsvTransformer.FlattenWeeks | backend/scripts/csv-transformer.js:42 | concatenated blocks of rounds `0..j` hold weeks below `j` only |
| CsvTransformer.FlattenInRoundOrder | backend/scripts/csv-transformer.js:42 | concatenated blocks of rounds in order keep round order |
| CsvTransformer.RoundsWellFormed | backend/scripts/csv-transformer.js:42-141 | every round's block holds well-formed rows of that round |
| CsvTransformer.RoundsOfRounds | backend/scripts/csv-transformer.js:42-119 | every round's block holds rows of that round only |
| CsvTransformer.TipsUpToWellFormed | backend/scripts/csv-transformer.js:42-141 | every row written is well formed for its own week |
| CsvTransformer.RoundTipsWeek | backend/scripts/csv-transformer.js:119 | a round's rows carry its number as week |
| CsvTransformer.TipsUpToWeeks | backend/scripts/csv-transformer.js:42-119 | the rows of rounds before `r` have weeks below `r` |
| CsvTransformer.InRoundOrderAppend | backend/scripts/csv-transformer.js:42-130 | appending a later round's rows keeps round order |
| CsvTransformer.TipsInRoundOrder | backend/scripts/csv-transformer.js:42 | the rows come out in non-decreasing week order |
| CsvTransformer.SkippedRoundsContribute | backend/scripts/csv-transformer.js:46-70 | a round with no file or a skipped sheet adds no rows |
| CsvTransformer.CountUsers | backend/scripts/csv-transformer.js:133 | no more users are processed than rows read |
| CsvTransformer.ProcessUser | backend/scripts/csv-transformer.js:100-131 | the game loop appends exactly the lines of the user's games with a tip, in game order |
| CsvTransformer.ProcessUserRow | backend/scripts/csv-transformer.js:87-133 | one user row appends its rows' lines, and counts exactly when it is a family member's |
| CsvTransformer.UserRowStep | backend/scripts/csv-transformer.js:86-134 | one turn of the user-row loop keeps the lines and the count equal to those of the rows read |
| CsvTransformer.AppendRows | backend/scripts/csv-transformer.js:130 | appending the lines of more rows keeps the lines equal to those of all rows so far |
| CsvTransformer.ProcessUserRows | backend/scripts/csv-transformer.js:84-134 | the user-row loop appends the lines of all user rows in order and counts the family members' rows |
| CsvTransformer.ProcessRound | backend/scripts/csv-transformer.js:57-134 | a round appends exactly its rows' lines, none when skipped |
| CsvTransformer.ProcessRoundFile | backend/scripts/csv-transformer.js:43-49 | a round without a file appends nothing |
| CsvTransformer.CollectRows | backend/scripts/csv-transformer.js:35-141 | the CSV is the header followed by the lines of rounds 0..23 in order |
| CsvTransformer.TransformToFlatCsv | backend/scripts/csv-transformer.js:32-170 | the file is the header and all rows joined by newlines; the summary counts the rows below the header, names 24 rounds, the output file and the header, and quotes the first row when there is one |
| CsvTransformer.SampleKeysAgree | backend/scripts/csv-transformer.js:153-157 | the summary's sample keys 001, 126 and 239 are those key generation gives |

## Left out

- Network, file and database I/O are left out. Fetch outcomes, file contents and query results are parameters. `now`, the day of the week, the month, the current year and job-body outcomes are parameters too.
- The SQLite engine is left out. Tables are maps keyed by their UNIQUE constraints. Queries are the functions that compute their result sets.
- Floating point is left out, including the rounding of `ROUND(…, 2)`. Percentages are exact `real` quotients of the integer counts (`Store.Percentage`), and the ladder compares those exact values.
- Date parsing, time zones and locale formatting are left out. Times are integer milliseconds of local time with no daylight-saving shifts.
- The rules below are described for the system but are not in its code, which the model follows:
  - a per-game lockout on start time or progress;
  - a lockout for a user who already tipped in the round;
  - margin predictions and finals tie-breaks in the tips table;
  - a two-day grace window when choosing the current round.

  Only the round's `lockout_time` gates submission.
- HTTP routing, status codes and request parsing are left out. The exception is the `tip_for_user` permission gate of `POST /api/tips`, modelled as `TipsRoute`.
- The read-only listing queries are not modelled, because they select rows without any rule of their own:
  - `getTipsForRound`, `getUserTipsForRound`, `getAllUserTips`, `getGamesForTipping` and `getRoundTipStats`;
  - `getAllUsers`, `getUserById`, `getAllFamilyGroups` and `getFamilyGroupById`;
  - `getUserRoundByRoundPerformance` and `getRoundTipPopularity`.
- `createUser` is not modelled. It is a plain insert.
- `updateTeams`, `saveTeamsToDatabase` and `updateGamesForYear` are not modelled: they only chain fetches and saves that are modelled, and write `import_logs` rows.
- The `import_logs` writes, `logJobError` and `logJobSummary` are left out. The console output is left out too.
- The scheduler's job bodies call `tipsService.updateAllRoundStatuses` and `updateMarginPredictions` (the latter also uses columns the tips table does not have). Neither exists in the services shown. A job body's result is therefore a parameter of `SchedulerService.Scheduler.ExecuteJob`.
- node-cron's timers are left out. So are the `start`/`stop` of each cron task and `getJobsStatus`, which only lists the job table the model holds.
- `runMigrations`, `runSeedData` and `verifySetup` are left out; they only execute statements.
- These client helpers are left out:
  - the formatting helpers `formatDate`, `formatDateTime`, `formatTime`, `getTeamAbbreviation`, `getTeamColors`, `formatPercentage`, `getTipDisplayText`, `getRoundStatusDisplay` and `formatMarginPrediction`;
  - `isGameComplete`, which only reads `is_complete`, and `isGameStarted`, which only compares the clock with the start time;
  - `saveToLocalStorage` and `loadFromLocalStorage`, which are browser storage I/O;
  - `getErrorMessage`.
- The countdown hook's React state and its one-second interval timer are left out. The arithmetic of `updateTimer` is modelled.
- Streaks: rows of the streak query that tie on `start_time` come in an order SQL leaves open. `LadderService.StreakKeys` fixes it as ascending game id; this is a modelling choice.
- FindCaseMatch: `toLowerCase` is modelled on the ASCII letters A-Z only (`Text.LowerChar`). Non-ASCII letters are compared unfolded, so a name that matches only under JavaScript's full Unicode case mapping (such as one spelled with U+212A KELVIN SIGN for `k`) finds no case-insensitive match in `TeamNameMapper.FindCaseMatch`.
- FindPartial: the containment test of `TeamNameMapper.FindPartial` compares names lower-cased on ASCII letters only, for the same reason; non-ASCII letters are not folded.
- Suggestions: the three-character prefix and the names of `TeamNameMapper.Suggestions` are lower-cased on ASCII letters only; non-ASCII letters are not folded.
- DecisionChain: the case-insensitive step and the hard-coded and partial steps of `TeamNameMapper.DecisionChain` use the ASCII-only case mapping, so a name that needs a non-ASCII fold to match falls through to a later step or to no match.
- CaseMatchSecond: the comparison in `TeamNameMapper.CaseMatchSecond` uses the ASCII-only case mapping; non-ASCII letters are not folded.
- GameTipWellFormed: `is_correct` in `CsvTransformer.GameTipWellFormed` compares the selection and the winner lower-cased on ASCII letters only. A selection that equals the winner only under JavaScript's full Unicode case mapping gets 0 in the model where the script gives 1.
- The `squiggle_games` upsert also writes `tz`, `hgoals`, `agoals`, `hbehinds`, `abehinds`, `localtime`, `hmargin`, `is_final`, `is_grand_final` and `raw_json`. These columns are not modelled (`Store.MirrorGame` leaves them out), because no modelled rule reads them.
- `average_correct_per_member` of the family-group standings (`ROUND(CAST(SUM(...) AS FLOAT) / COUNT(DISTINCT u.id), 2)`) is not modelled: it is a floating-point quotient that no other rule reads. `LadderService.FamilyStandings` carries the correct tips and the member count it is computed from.
- The order of `getUsersCanTipFor`'s rows is left out: `UserService.UsersCanTipFor` returns a set, so neither `ORDER BY u.name` nor the admin branch's `ORDER BY fg.name, u.name` is modelled.
- Every game is assumed to have a start time: `Store.Game.startTime` is an integer, although the `start_time` column may be NULL. The NULL-first order of `LadderService.ByStartTime` therefore applies only to rows whose game is missing.
- Time stamps are left out: `createdAt`, `generatedAt`, `transformedAt` and the like.
- JavaScript sorts strings by UTF-16 code units. Dafny characters are compared by code point, and the two orders differ only between characters above U+FFFF and those from U+E000 to U+FFFF.
- CSV and spreadsheet input is modelled with these limits:
  - every cell is a string or empty; numbers and other cell types are not modelled;
  - a round file that cannot be parsed, or has no `rawData`, is the same as a missing file;
  - the per-round `try`/`catch` is left out;
  - `processedUsers` is computed but feeds only a log line.
- `KeyValidator` leaves out the `Math.min`/`Math.max` over key strings in the summary (backend/scripts/squiggle-key-validator.js:161-168).
- `SqlGenerator` leaves out the fixed text of the script: comments, PRAGMAs, the backup and the verification queries. These are named components. The VALUES rows are modelled character by character.

## Findings

| source | as written | input that shows it | evidently intended | confidence | as-written member | corrected member |
|---|---|---|---|---|---|---|
| backend/src/services/SchedulerService.ts:365-372 | for an every-n-minutes pattern, `setMinutes(60, 0, 0)` already rolls into the next hour, and the code then adds one more hour | pattern `*/5 * * * *` at 00:59 gives 02:00 | 01:00, the first multiple of 5 minutes from the current minute on | not executed | SchedulerService.NextRunSkipsAnHour | SchedulerService.RoundUpIntendedMeaning |

The job table keeps the as-written `calculateNextRun`. `SchedulerService.RegisteredPatternsUnaffected` proves that none of the four registered patterns (`*/30 * * * *`, `0 6,18 * * *`, `0 */2 * * *` and `15 * * * *`) reaches the overflowing branch. For those patterns the written and the intended next run are the same.
