/**
 * The SQLite tables the services read and write, each a map keyed by the table's
 * UNIQUE constraint: users by id, rounds by (round_number, year), the Squiggle mirror
 * (`squiggle_games`) and `games` by squiggle_game_key, and tips by (user_id, game_id).
 * `INSERT OR REPLACE` deletes the clashing row and inserts a fresh one, so each
 * AUTOINCREMENT table carries the next id it will hand out.
 */
module Store {
  import opened Wrappers

  datatype RoundStatus = Upcoming | Active | Completed

  datatype User = User(id: int, name: string, email: Option<string>, familyGroupId: Option<int>, role: string)

  datatype FamilyGroup = FamilyGroup(id: int, name: string)

  datatype Round = Round(id: int, roundNumber: int, year: int, status: RoundStatus, lockoutTime: Option<int>)

  datatype Game = Game(
    id: int, key: string, roundId: int, homeTeam: string, awayTeam: string,
    homeScore: int, awayScore: int, startTime: int, venue: string, isComplete: bool)

  /** A row of `squiggle_games`, the local copy of what the Squiggle API last reported. */
  datatype MirrorGame = MirrorGame(
    key: string, roundNumber: int, gameNumber: int, year: int, complete: int, date: int,
    homeTeam: string, awayTeam: string, homeScore: int, awayScore: int, venue: string,
    winner: Option<string>)

  datatype Tip = Tip(
    id: int, userId: int, gameId: int, key: string, roundId: int, selectedTeam: string,
    isCorrect: Option<bool>)

  predicate UsersKeyed(users: map<int, User>)
  {
    forall k :: k in users ==> users[k].id == k
  }

  /** `users.name` is UNIQUE. */
  predicate UserNamesUnique(users: map<int, User>)
  {
    forall k1, k2 :: k1 in users && k2 in users && users[k1].name == users[k2].name ==> k1 == k2
  }

  /** `family_groups.name` is UNIQUE. */
  predicate GroupNamesUnique(groups: map<int, FamilyGroup>)
  {
    forall k1, k2 :: k1 in groups && k2 in groups && groups[k1].name == groups[k2].name ==> k1 == k2
  }

  predicate RoundsKeyed(rounds: map<(int, int), Round>)
  {
    forall k :: k in rounds ==> rounds[k].roundNumber == k.0 && rounds[k].year == k.1
  }

  predicate RoundIdsUnique(rounds: map<(int, int), Round>)
  {
    forall k1, k2 :: k1 in rounds && k2 in rounds && rounds[k1].id == rounds[k2].id ==> k1 == k2
  }

  predicate RoundIdsBelow(rounds: map<(int, int), Round>, next: int)
  {
    forall k :: k in rounds ==> rounds[k].id < next
  }

  predicate GamesKeyed(games: map<string, Game>)
  {
    forall k :: k in games ==> games[k].key == k
  }

  predicate GameIdsUnique(games: map<string, Game>)
  {
    forall k1, k2 :: k1 in games && k2 in games && games[k1].id == games[k2].id ==> k1 == k2
  }

  predicate GameIdsBelow(games: map<string, Game>, next: int)
  {
    forall k :: k in games ==> games[k].id < next
  }

  predicate MirrorKeyed(mirror: map<string, MirrorGame>)
  {
    forall k :: k in mirror ==> mirror[k].key == k
  }

  predicate TipsKeyed(tips: map<(int, int), Tip>)
  {
    forall k :: k in tips ==> tips[k].userId == k.0 && tips[k].gameId == k.1
  }

  predicate TipIdsUnique(tips: map<(int, int), Tip>)
  {
    forall k1, k2 :: k1 in tips && k2 in tips && tips[k1].id == tips[k2].id ==> k1 == k2
  }

  predicate TipIdsBelow(tips: map<(int, int), Tip>, next: int)
  {
    forall k :: k in tips ==> tips[k].id < next
  }

  /** Rewriting a round's row in place, keeping its id and its key, keeps the rounds table valid. */
  lemma RewriteRound(rounds: map<(int, int), Round>, next: int, k: (int, int), row: Round)
    requires RoundsKeyed(rounds) && RoundIdsUnique(rounds) && RoundIdsBelow(rounds, next)
    requires k in rounds && row.id == rounds[k].id && row.roundNumber == k.0 && row.year == k.1
    ensures var r := rounds[k := row]; RoundsKeyed(r) && RoundIdsUnique(r) && RoundIdsBelow(r, next)
  {
  }

  /** `INSERT OR REPLACE` of a tip with the next id keeps the tips table valid. */
  lemma ReplaceTip(tips: map<(int, int), Tip>, next: int, tip: Tip)
    requires TipsKeyed(tips) && TipIdsUnique(tips) && TipIdsBelow(tips, next) && tip.id == next
    ensures var r := tips[(tip.userId, tip.gameId) := tip]; TipsKeyed(r) && TipIdsUnique(r) && TipIdsBelow(r, next + 1)
  {
  }

  /** The round with row id `id`, if any (`SELECT ... FROM rounds WHERE id = ?`). */
  function RoundById(rounds: map<(int, int), Round>, id: int): (r: Option<Round>)
    requires RoundIdsUnique(rounds)
    ensures r.Some? ==> r.value.id == id && exists k :: k in rounds && rounds[k] == r.value
    ensures r.None? ==> forall k :: k in rounds ==> rounds[k].id != id
  {
    if exists k :: k in rounds && rounds[k].id == id then
      var k :| k in rounds && rounds[k].id == id; Some(rounds[k])
    else None
  }

  /** The game with row id `id`, if any. */
  function GameById(games: map<string, Game>, id: int): (r: Option<Game>)
    requires GameIdsUnique(games)
    ensures r.Some? ==> r.value.id == id && exists k :: k in games && games[k] == r.value
    ensures r.None? ==> forall k :: k in games ==> games[k].id != id
  {
    if exists k :: k in games && games[k].id == id then
      var k :| k in games && games[k].id == id; Some(games[k])
    else None
  }

  /** The key of the tip with row id `id` owned by `userId`, if any. */
  function OwnedTipKey(tips: map<(int, int), Tip>, id: int, userId: int): (r: Option<(int, int)>)
    requires TipIdsUnique(tips)
    ensures r.Some? ==> r.value in tips && tips[r.value].id == id && r.value.0 == userId
    ensures r.None? ==> forall k :: k in tips && k.0 == userId ==> tips[k].id != id
  {
    if exists k :: k in tips && k.0 == userId && tips[k].id == id then
      var k :| k in tips && k.0 == userId && tips[k].id == id; Some(k)
    else None
  }

  /** The lockout of the round with row id `roundId` (a LEFT JOIN: `None` when the round is missing). */
  function LockoutOf(rounds: map<(int, int), Round>, roundId: int): (r: Option<int>)
    requires RoundIdsUnique(rounds)
    ensures r.Some? ==> exists k :: k in rounds && rounds[k].id == roundId && rounds[k].lockoutTime == r
  {
    match RoundById(rounds, roundId)
    case None => None
    case Some(round) => round.lockoutTime
  }

  /** `COUNT(t.id)`, `COUNT(CASE WHEN is_correct = 1 ...)` and `COUNT(CASE WHEN is_correct IS NOT NULL ...)`. */
  datatype Tally = Tally(total: nat, correct: nat, completed: nat)

  /** The three counts over the tips whose keys are in `ks`. */
  function TallyOf(tips: map<(int, int), Tip>, ks: set<(int, int)>): (r: Tally)
    requires ks <= tips.Keys
    ensures r.correct <= r.completed <= r.total
    ensures r.total == 0 ==> r.completed == 0
  {
    var correct := set k | k in ks && tips[k].isCorrect == Some(true);
    var completed := set k | k in ks && tips[k].isCorrect.Some?;
    assert correct <= completed <= ks;
    SubsetCardinality(correct, completed);
    SubsetCardinality(completed, ks);
    Tally(|ks|, |correct|, |completed|)
  }

  /**
   * `CAST(correct AS FLOAT) / completed * 100`, or 0 without decided tips; kept as an
   * exact ratio (the `ROUND(..., 2)` is not modelled).
   */
  function Percentage(t: Tally): (p: real)
    ensures t.completed == 0 ==> p == 0.0
  {
    if t.completed > 0 then (t.correct as real) / (t.completed as real) * 100.0 else 0.0
  }

  /** With decided tips the percentage is the share of correct ones, times 100, at most 100. */
  lemma PercentageMeaning(t: Tally)
    requires t.correct <= t.completed
    ensures t.completed > 0 ==> Percentage(t) * (t.completed as real) == (t.correct as real) * 100.0
    ensures Percentage(t) <= 100.0
  {
  }

  lemma {:induction false} SubsetCardinality<T>(a: set<T>, b: set<T>)
    requires a <= b
    ensures |a| <= |b|
  {
    assert b == a + (b - a);
  }

  class Database {
    var users: map<int, User>
    var groups: map<int, FamilyGroup>
    var rounds: map<(int, int), Round>
    var mirror: map<string, MirrorGame>
    var games: map<string, Game>
    var tips: map<(int, int), Tip>
    var nextRoundId: int
    var nextGameId: int
    var nextTipId: int

    /** The schema's keys and the AUTOINCREMENT counters agree with the rows. */
    ghost predicate Valid()
      reads this
    {
      UsersKeyed(users) && UserNamesUnique(users)
      && RoundsKeyed(rounds) && RoundIdsUnique(rounds) && RoundIdsBelow(rounds, nextRoundId)
      && GamesKeyed(games) && GameIdsUnique(games) && GameIdsBelow(games, nextGameId)
      && MirrorKeyed(mirror)
      && TipsKeyed(tips) && TipIdsUnique(tips) && TipIdsBelow(tips, nextTipId)
    }

    constructor ()
      ensures Valid()
      ensures users == map[] && groups == map[] && rounds == map[] && mirror == map[]
      ensures games == map[] && tips == map[]
    {
      users, groups, rounds, mirror, games, tips := map[], map[], map[], map[], map[], map[];
      nextRoundId, nextGameId, nextTipId := 1, 1, 1;
    }
  }
}
