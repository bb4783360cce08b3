/**
 * TipsService: batch tip submission, the round lifecycle (open/locked, derived status,
 * the current round), scoring tips against a winner, and guarded deletion.
 */
module TipsService {
  import opened Wrappers
  import opened Store
  import opened Sorting

  /** One tip as the client submits it. */
  datatype TipSubmission = TipSubmission(gameId: int, key: string, selectedTeam: string)

  /** Why a submitted tip is skipped, checked in this order, or the game it is saved against. */
  datatype Verdict = GameMissing | RoundLocked | InvalidTeam | Accepted(game: Game)

  /** A round accepts tips unless it is known, has a lockout, and `now` is past it. */
  function IsRoundOpen(rounds: map<(int, int), Round>, roundId: int, now: int): (open: bool)
    requires RoundIdsUnique(rounds)
    ensures open <==> (LockoutOf(rounds, roundId).None? || now <= LockoutOf(rounds, roundId).value)
  {
    match RoundById(rounds, roundId)
    case None => true
    case Some(round) => round.lockoutTime.None? || now <= round.lockoutTime.value
  }

  /** The checks `submitTips` makes on one tip before saving it. */
  function Judge(games: map<string, Game>, rounds: map<(int, int), Round>, sub: TipSubmission, now: int): (v: Verdict)
    requires GameIdsUnique(games) && RoundIdsUnique(rounds)
  {
    match GameById(games, sub.gameId)
    case None => GameMissing
    case Some(game) =>
      var lockout := LockoutOf(rounds, game.roundId);
      if lockout.Some? && now > lockout.value then RoundLocked
      else if sub.selectedTeam != game.homeTeam && sub.selectedTeam != game.awayTeam then InvalidTeam
      else Accepted(game)
  }

  /** The verdicts in the order the source checks them, and agreement with `isRoundOpen`. */
  lemma JudgeCases(games: map<string, Game>, rounds: map<(int, int), Round>, sub: TipSubmission, now: int)
    requires GameIdsUnique(games) && RoundIdsUnique(rounds)
    ensures Judge(games, rounds, sub, now) == GameMissing <==> (forall k :: k in games ==> games[k].id != sub.gameId)
    ensures Judge(games, rounds, sub, now) == RoundLocked <==>
              (GameById(games, sub.gameId).Some? && !IsRoundOpen(rounds, GameById(games, sub.gameId).value.roundId, now))
    ensures Judge(games, rounds, sub, now) == InvalidTeam <==>
              (GameById(games, sub.gameId).Some?
               && IsRoundOpen(rounds, GameById(games, sub.gameId).value.roundId, now)
               && sub.selectedTeam != GameById(games, sub.gameId).value.homeTeam
               && sub.selectedTeam != GameById(games, sub.gameId).value.awayTeam)
    ensures Judge(games, rounds, sub, now).Accepted? ==>
              var g := Judge(games, rounds, sub, now).game;
              g.id == sub.gameId && (exists k :: k in games && games[k] == g)
              && IsRoundOpen(rounds, g.roundId, now)
              && (sub.selectedTeam == g.homeTeam || sub.selectedTeam == g.awayTeam)
  {
    if GameById(games, sub.gameId).None? {
    } else {
      var g := GameById(games, sub.gameId).value;
      assert exists k :: k in games && games[k] == g;
    }
  }

  /** At `now == lockout_time` a tip for a playing team is still accepted. */
  lemma AcceptedAtLockout(games: map<string, Game>, rounds: map<(int, int), Round>, sub: TipSubmission, k: string, rk: (int, int))
    requires GameIdsUnique(games) && RoundIdsUnique(rounds)
    requires k in games && games[k].id == sub.gameId
    requires sub.selectedTeam == games[k].homeTeam
    requires rk in rounds && rounds[rk].id == games[k].roundId && rounds[rk].lockoutTime.Some?
    ensures Judge(games, rounds, sub, rounds[rk].lockoutTime.value) == Accepted(games[k])
  {
    assert GameById(games, sub.gameId) == Some(games[k]);
    assert RoundById(rounds, games[k].roundId) == Some(rounds[rk]);
  }

  /** `targetUserId || userId`: a missing or zero target falls back to the caller. */
  function ActualUser(userId: int, targetUserId: Option<int>): (u: int)
  {
    if targetUserId.Some? && targetUserId.value != 0 then targetUserId.value else userId
  }

  /** The tips table and the next AUTOINCREMENT id. */
  datatype TipTable = TipTable(tips: map<(int, int), Tip>, nextId: int)

  /** `INSERT OR REPLACE INTO tips`: the row for (user, game) is replaced by a fresh, unscored one. */
  function Upsert(t: TipTable, user: int, sub: TipSubmission, game: Game): (r: TipTable)
  {
    TipTable(t.tips[(user, sub.gameId) := Tip(t.nextId, user, sub.gameId, sub.key, game.roundId, sub.selectedTeam, None)],
             t.nextId + 1)
  }

  /** What submitting `subs` in order does to the tips table, and how many tips it saved. */
  function SubmitAll(t: TipTable, games: map<string, Game>, rounds: map<(int, int), Round>,
                     user: int, subs: seq<TipSubmission>, now: int): (r: (TipTable, nat))
    requires GameIdsUnique(games) && RoundIdsUnique(rounds)
    ensures r.1 <= |subs|
    ensures r.0.nextId == t.nextId + r.1
  {
    if subs == [] then (t, 0)
    else SubmitStep(SubmitAll(t, games, rounds, user, subs[..|subs| - 1], now), games, rounds, user, subs[|subs| - 1], now)
  }

  /** One tip of the batch: saved and counted when it passes every check, else skipped. */
  function SubmitStep(r: (TipTable, nat), games: map<string, Game>, rounds: map<(int, int), Round>,
                      user: int, sub: TipSubmission, now: int): (r': (TipTable, nat))
    requires GameIdsUnique(games) && RoundIdsUnique(rounds)
    ensures Judge(games, rounds, sub, now).Accepted? ==>
              r' == (Upsert(r.0, user, sub, Judge(games, rounds, sub, now).game), r.1 + 1)
    ensures !Judge(games, rounds, sub, now).Accepted? ==> r' == r
  {
    match Judge(games, rounds, sub, now)
    case Accepted(g) => (Upsert(r.0, user, sub, g), r.1 + 1)
    case _ => r
  }

  /** The batch up to tip `i + 1` is the batch up to tip `i` followed by one step. */
  lemma SubmitAllPrefix(t: TipTable, games: map<string, Game>, rounds: map<(int, int), Round>,
                        user: int, subs: seq<TipSubmission>, now: int, i: nat)
    requires GameIdsUnique(games) && RoundIdsUnique(rounds) && i < |subs|
    ensures SubmitAll(t, games, rounds, user, subs[..i + 1], now)
            == SubmitStep(SubmitAll(t, games, rounds, user, subs[..i], now), games, rounds, user, subs[i], now)
  {
    assert subs[..i + 1][..i] == subs[..i];
  }

  /** A rejected tip leaves no trace: the batch behaves as if it had not been there. */
  lemma {:induction false} RejectedTipIsSkipped(t: TipTable, games: map<string, Game>, rounds: map<(int, int), Round>,
                                                user: int, before: seq<TipSubmission>, bad: TipSubmission,
                                                after: seq<TipSubmission>, now: int)
    requires GameIdsUnique(games) && RoundIdsUnique(rounds)
    requires !Judge(games, rounds, bad, now).Accepted?
    ensures SubmitAll(t, games, rounds, user, before + [bad] + after, now)
            == SubmitAll(t, games, rounds, user, before + after, now)
    decreases |after|
  {
    if after == [] {
      assert before + [bad] + after == before + [bad];
      assert (before + [bad])[..|before|] == before;
      assert before + after == before;
    } else {
      var last := after[|after| - 1];
      var front := after[..|after| - 1];
      RejectedTipIsSkipped(t, games, rounds, user, before, bad, front, now);
      var with, without := before + [bad] + after, before + after;
      assert with[..|with| - 1] == before + [bad] + front && with[|with| - 1] == last;
      assert without[..|without| - 1] == before + front && without[|without| - 1] == last;
      assert SubmitAll(t, games, rounds, user, with, now)
             == SubmitStep(SubmitAll(t, games, rounds, user, before + [bad] + front, now), games, rounds, user, last, now);
      assert SubmitAll(t, games, rounds, user, without, now)
             == SubmitStep(SubmitAll(t, games, rounds, user, before + front, now), games, rounds, user, last, now);
    }
  }

  /** The last tip in `subs` for game `gameId` that passes every check, if any. */
  function LastAccepted(games: map<string, Game>, rounds: map<(int, int), Round>, subs: seq<TipSubmission>,
                        gameId: int, now: int): (r: Option<TipSubmission>)
    requires GameIdsUnique(games) && RoundIdsUnique(rounds)
    ensures r.Some? ==> r.value in subs && r.value.gameId == gameId && Judge(games, rounds, r.value, now).Accepted?
  {
    if subs == [] then None
    else
      var last := subs[|subs| - 1];
      if last.gameId == gameId && Judge(games, rounds, last, now).Accepted? then Some(last)
      else LastAccepted(games, rounds, subs[..|subs| - 1], gameId, now)
  }

  /**
   * After a batch, the row of (user, game) reflects the last accepted tip for that game,
   * unscored and with the caller's key; a row no accepted tip touched is as it was.
   */
  lemma {:induction false} SubmitAllFinalRows(t: TipTable, games: map<string, Game>, rounds: map<(int, int), Round>,
                                              user: int, subs: seq<TipSubmission>, now: int, k: (int, int))
    requires GameIdsUnique(games) && RoundIdsUnique(rounds)
    ensures var r := SubmitAll(t, games, rounds, user, subs, now).0;
            var last := LastAccepted(games, rounds, subs, k.1, now);
            if k.0 == user && last.Some? then
              k in r.tips && r.tips[k].selectedTeam == last.value.selectedTeam
              && r.tips[k].key == last.value.key && r.tips[k].isCorrect.None?
              && r.tips[k].userId == user && r.tips[k].gameId == k.1
            else
              (k in r.tips <==> k in t.tips) && (k in t.tips ==> r.tips[k] == t.tips[k])
  {
    if subs != [] {
      var init, sub := subs[..|subs| - 1], subs[|subs| - 1];
      SubmitAllFinalRows(t, games, rounds, user, init, now, k);
      var prev := SubmitAll(t, games, rounds, user, init, now);
      assert SubmitAll(t, games, rounds, user, subs, now) == SubmitStep(prev, games, rounds, user, sub, now);
      assert LastAccepted(games, rounds, subs, k.1, now)
             == if sub.gameId == k.1 && Judge(games, rounds, sub, now).Accepted? then Some(sub)
                else LastAccepted(games, rounds, init, k.1, now);
    }
  }

  /** Every row a batch leaves keeps the table's keys, and new rows get fresh ids. */
  lemma {:induction false} SubmitAllKeepsKeys(t: TipTable, games: map<string, Game>, rounds: map<(int, int), Round>,
                                              user: int, subs: seq<TipSubmission>, now: int)
    requires GameIdsUnique(games) && RoundIdsUnique(rounds)
    requires TipsKeyed(t.tips) && TipIdsUnique(t.tips) && TipIdsBelow(t.tips, t.nextId)
    ensures var r := SubmitAll(t, games, rounds, user, subs, now).0;
            TipsKeyed(r.tips) && TipIdsUnique(r.tips) && TipIdsBelow(r.tips, r.nextId)
  {
    if subs != [] {
      var init, sub := subs[..|subs| - 1], subs[|subs| - 1];
      SubmitAllKeepsKeys(t, games, rounds, user, init, now);
      var prev := SubmitAll(t, games, rounds, user, init, now);
      assert SubmitAll(t, games, rounds, user, subs, now) == SubmitStep(prev, games, rounds, user, sub, now);
      StepKeepsKeys(prev.0, games, rounds, user, sub, now);
    }
  }

  /** One step keeps the table's keys and gives a new row a fresh id. */
  lemma StepKeepsKeys(t: TipTable, games: map<string, Game>, rounds: map<(int, int), Round>,
                      user: int, sub: TipSubmission, now: int)
    requires GameIdsUnique(games) && RoundIdsUnique(rounds)
    requires TipsKeyed(t.tips) && TipIdsUnique(t.tips) && TipIdsBelow(t.tips, t.nextId)
    ensures forall n :: var r := SubmitStep((t, n), games, rounds, user, sub, now).0;
              TipsKeyed(r.tips) && TipIdsUnique(r.tips) && TipIdsBelow(r.tips, r.nextId)
  {
  }

  /**
   * `submitTips`: tries every tip in order, skipping the ones that fail a check, and
   * returns how many it saved; the batch is saved for `targetUserId || userId`.
   */
  method SubmitTips(db: Database, userId: int, subs: seq<TipSubmission>, targetUserId: Option<int>, now: int)
    returns (count: nat)
    requires db.Valid()
    modifies db
    ensures db.Valid()
    ensures (TipTable(db.tips, db.nextTipId), count)
            == SubmitAll(TipTable(old(db.tips), old(db.nextTipId)), db.games, db.rounds,
                         ActualUser(userId, targetUserId), subs, now)
    ensures count <= |subs|
    ensures db.users == old(db.users) && db.groups == old(db.groups) && db.rounds == old(db.rounds)
    ensures db.mirror == old(db.mirror) && db.games == old(db.games)
    ensures db.nextRoundId == old(db.nextRoundId) && db.nextGameId == old(db.nextGameId)
  {
    var actual := ActualUser(userId, targetUserId);
    ghost var start := TipTable(db.tips, db.nextTipId);
    count := 0;
    var i := 0;
    while i < |subs|
      invariant 0 <= i <= |subs|
      invariant db.Valid()
      invariant (TipTable(db.tips, db.nextTipId), count) == SubmitAll(start, db.games, db.rounds, actual, subs[..i], now)
      invariant db.users == old(db.users) && db.groups == old(db.groups) && db.rounds == old(db.rounds)
      invariant db.mirror == old(db.mirror) && db.games == old(db.games)
      invariant db.nextRoundId == old(db.nextRoundId) && db.nextGameId == old(db.nextGameId)
    {
      SubmitAllPrefix(start, db.games, db.rounds, actual, subs, now, i);
      count := SubmitOne(db, actual, subs[i], count, now);
      i := i + 1;
    }
    assert subs[..i] == subs;
  }

  /** The body of `submitTips`' loop for one tip. */
  method SubmitOne(db: Database, actual: int, sub: TipSubmission, count: nat, now: int) returns (count': nat)
    requires db.Valid()
    modifies db
    ensures db.Valid()
    ensures (TipTable(db.tips, db.nextTipId), count')
            == SubmitStep((TipTable(old(db.tips), old(db.nextTipId)), count), db.games, db.rounds, actual, sub, now)
    ensures db.users == old(db.users) && db.groups == old(db.groups) && db.rounds == old(db.rounds)
    ensures db.mirror == old(db.mirror) && db.games == old(db.games)
    ensures db.nextRoundId == old(db.nextRoundId) && db.nextGameId == old(db.nextGameId)
  {
    count' := count;
    var verdict := Judge(db.games, db.rounds, sub, now);
    if verdict.Accepted? {
      var t := Upsert(TipTable(db.tips, db.nextTipId), actual, sub, verdict.game);
      ReplaceTip(db.tips, db.nextTipId, t.tips[(actual, sub.gameId)]);
      db.tips, db.nextTipId := t.tips, t.nextId;
      count' := count + 1;
    }
  }

  /**
   * `getCurrentRound(year)`: the lowest-numbered active round of the year, else the
   * lowest-numbered upcoming one, else the highest-numbered one, else none; stored status only.
   */
  function CurrentRound(rounds: map<(int, int), Round>, year: int): (r: Option<Round>)
    requires RoundsKeyed(rounds)
    ensures r.Some? ==> r.value.year == year && (r.value.roundNumber, year) in rounds
                        && rounds[(r.value.roundNumber, year)] == r.value
    ensures r.None? <==> forall k :: k in rounds ==> k.1 != year
    ensures (exists k :: k in rounds && k.1 == year && rounds[k].status == Active) ==>
              r.Some? && r.value.status == Active
              && forall k :: k in rounds && k.1 == year && rounds[k].status == Active ==> r.value.roundNumber <= k.0
    ensures (forall k :: k in rounds && k.1 == year ==> rounds[k].status != Active)
            && (exists k :: k in rounds && k.1 == year && rounds[k].status == Upcoming) ==>
              r.Some? && r.value.status == Upcoming
              && forall k :: k in rounds && k.1 == year && rounds[k].status == Upcoming ==> r.value.roundNumber <= k.0
    ensures (forall k :: k in rounds && k.1 == year ==> rounds[k].status == Completed) && r.Some? ==>
              forall k :: k in rounds && k.1 == year ==> k.0 <= r.value.roundNumber
  {
    var active := LowestWith(rounds, year, Active);
    var upcoming := LowestWith(rounds, year, Upcoming);
    if active.Some? then active
    else if upcoming.Some? then upcoming
    else
      var last := Highest(rounds, year);
      assert last.None? ==> forall k :: k in rounds ==> k.1 != year;
      last
  }

  /** The lowest-numbered round of the year with status `st`, if any. */
  function LowestWith(rounds: map<(int, int), Round>, year: int, st: RoundStatus): (r: Option<Round>)
    requires RoundsKeyed(rounds)
    ensures r.Some? ==> r.value.year == year && r.value.status == st && (r.value.roundNumber, year) in rounds
                        && rounds[(r.value.roundNumber, year)] == r.value
                        && forall k :: k in rounds && k.1 == year && rounds[k].status == st ==> r.value.roundNumber <= k.0
    ensures r.None? <==> forall k :: k in rounds && k.1 == year ==> rounds[k].status != st
  {
    var numbers := set k | k in rounds && k.1 == year && rounds[k].status == st :: k.0;
    assert forall k :: k in rounds && k.1 == year && rounds[k].status == st ==> k.0 in numbers;
    if numbers == {} then None
    else
      var m := SetMin(numbers);
      assert (m, year) in rounds && rounds[(m, year)].status == st by {
        var k :| k in rounds && k.1 == year && rounds[k].status == st && k.0 == m;
        assert k == (m, year);
      }
      Some(rounds[(m, year)])
  }

  /** The highest-numbered round of the year, if any. */
  function Highest(rounds: map<(int, int), Round>, year: int): (r: Option<Round>)
    requires RoundsKeyed(rounds)
    ensures r.Some? ==> r.value.year == year && (r.value.roundNumber, year) in rounds
                        && rounds[(r.value.roundNumber, year)] == r.value
                        && forall k :: k in rounds && k.1 == year ==> k.0 <= r.value.roundNumber
    ensures r.None? <==> forall k :: k in rounds ==> k.1 != year
  {
    var numbers := set k | k in rounds && k.1 == year :: k.0;
    assert forall k :: k in rounds && k.1 == year ==> k.0 in numbers;
    if numbers == {} then None
    else
      var m := SetMax(numbers);
      assert (m, year) in rounds by {
        var k :| k in rounds && k.1 == year && k.0 == m;
        assert k == (m, year);
      }
      Some(rounds[(m, year)])
  }

  /** The keys of the games of round `roundId` (the `LEFT JOIN games` of `updateRoundStatus`). */
  function RoundGames(games: map<string, Game>, roundId: int): (ks: set<string>)
  {
    set k | k in games && games[k].roundId == roundId
  }

  /** `COUNT(CASE WHEN g.is_complete = 1 THEN 1 END)`. */
  function CompletedGames(games: map<string, Game>, roundId: int): (ks: set<string>)
  {
    set k | k in games && games[k].roundId == roundId && games[k].isComplete
  }

  /** `MIN(g.start_time)` over the round's games. */
  function FirstGameTime(games: map<string, Game>, roundId: int): (first: Option<int>)
    ensures first.None? <==> RoundGames(games, roundId) == {}
    ensures first.Some? ==> (exists k :: k in RoundGames(games, roundId) && games[k].startTime == first.value)
                            && forall k :: k in RoundGames(games, roundId) ==> first.value <= games[k].startTime
  {
    var starts := set k | k in games && games[k].roundId == roundId :: games[k].startTime;
    assert forall k :: k in RoundGames(games, roundId) ==> games[k].startTime in starts;
    if starts == {} then
      None
    else
      var m := SetMin(starts);
      assert RoundGames(games, roundId) != {} by {
        var k :| k in games && games[k].roundId == roundId && games[k].startTime == m;
        assert k in RoundGames(games, roundId);
      }
      Some(m)
  }

  /** The status `updateRoundStatus` computes from the counts and the first start time. */
  function DerivedStatus(games: map<string, Game>, roundId: int, now: int): (s: RoundStatus)
  {
    var total := |RoundGames(games, roundId)|;
    var completed := |CompletedGames(games, roundId)|;
    var first := FirstGameTime(games, roundId);
    if completed == total && total > 0 then Completed
    else if first.Some? && now >= first.value then Active
    else Upcoming
  }

  lemma {:induction false} SubsetSameSize(a: set<string>, b: set<string>)
    requires a <= b && |a| == |b|
    ensures a == b
  {
    assert |b - a| == |b| - |a|;
  }

  /**
   * The derived status read off the games alone: completed exactly when the round has
   * games and all are complete, else active exactly when some game has started.
   */
  lemma {:induction false} DerivedStatusMeaning(games: map<string, Game>, roundId: int, now: int)
    ensures DerivedStatus(games, roundId, now) == Completed <==>
              RoundGames(games, roundId) != {} && forall k :: k in RoundGames(games, roundId) ==> games[k].isComplete
    ensures DerivedStatus(games, roundId, now) == Active <==>
              !(RoundGames(games, roundId) != {} && forall k :: k in RoundGames(games, roundId) ==> games[k].isComplete)
              && exists k :: k in RoundGames(games, roundId) && games[k].startTime <= now
  {
    var all := RoundGames(games, roundId);
    var done := CompletedGames(games, roundId);
    assert done <= all;
    if |done| == |all| {
      SubsetSameSize(done, all);
    }
    if all != {} && forall k :: k in all ==> games[k].isComplete {
      assert all <= done;
      assert done == all;
    }
    if (exists k :: k in all && games[k].startTime <= now) {
      var k :| k in all && games[k].startTime <= now;
      assert FirstGameTime(games, roundId).Some?;
    }
  }

  /** A round with no games that is stored as active drops back to upcoming. */
  lemma StatusCanRegress()
    ensures DerivedStatus(map[], 1, 0) == Upcoming
  {
    assert RoundGames(map[], 1) == {};
  }

  /** The row `updateRoundStatus` leaves: the derived status, and the first start as lockout while unset. */
  function RoundStep(round: Round, games: map<string, Game>, now: int): (r: Round)
  {
    round.(status := DerivedStatus(games, round.id, now),
           lockoutTime := if round.lockoutTime.None? then FirstGameTime(games, round.id) else round.lockoutTime)
  }

  /** A second run on unchanged data writes nothing and leaves the row as it is. */
  lemma {:induction false} RoundStepIdempotent(round: Round, games: map<string, Game>, now: int)
    ensures var once := RoundStep(round, games, now);
            RoundStep(once, games, now) == once
            && DerivedStatus(games, once.id, now) == once.status
            && !(once.lockoutTime.None? && FirstGameTime(games, once.id).Some?)
  {
  }

  /**
   * `updateRoundStatus(roundId)`: nothing for an unknown round; otherwise it writes the
   * derived status when it differs from the stored one and sets the lockout once.
   */
  method UpdateRoundStatus(db: Database, roundId: int, now: int) returns (statusWritten: bool, lockoutWritten: bool)
    requires db.Valid()
    modifies db
    ensures db.Valid()
    ensures old(RoundById(db.rounds, roundId)).None? ==> db.rounds == old(db.rounds) && !statusWritten && !lockoutWritten
    ensures old(RoundById(db.rounds, roundId)).Some? ==>
              var r := old(RoundById(db.rounds, roundId)).value;
              db.rounds == old(db.rounds)[(r.roundNumber, r.year) := RoundStep(r, db.games, now)]
              && statusWritten == (DerivedStatus(db.games, roundId, now) != r.status)
              && lockoutWritten == (r.lockoutTime.None? && FirstGameTime(db.games, roundId).Some?)
    ensures db.users == old(db.users) && db.groups == old(db.groups) && db.tips == old(db.tips)
    ensures db.mirror == old(db.mirror) && db.games == old(db.games)
    ensures db.nextRoundId == old(db.nextRoundId) && db.nextGameId == old(db.nextGameId) && db.nextTipId == old(db.nextTipId)
  {
    statusWritten, lockoutWritten := false, false;
    var found := RoundById(db.rounds, roundId);
    if found.None? {
      return;
    }
    var round := found.value;
    var k := (round.roundNumber, round.year);
    assert k in db.rounds && db.rounds[k] == round;
    // The status UPDATE and the lockout UPDATE touch the same row one after the other;
    // the row they leave is written once.
    var row := RoundStep(round, db.games, now);
    statusWritten := row.status != round.status;
    lockoutWritten := round.lockoutTime.None? && row.lockoutTime.Some?;
    RewriteRound(db.rounds, db.nextRoundId, k, row);
    db.rounds := db.rounds[k := row];
  }

  /** A tip scored against `winner` if `hit` selects it and it is still unscored. */
  function Scored(t: Tip, hit: Tip -> bool, winner: string): (r: Tip)
  {
    if hit(t) && t.isCorrect.None? then t.(isCorrect := Some(t.selectedTeam == winner)) else t
  }

  /** `UPDATE tips SET is_correct = (selected_team = winner) WHERE <hit> AND is_correct IS NULL`. */
  function ScoreTips(tips: map<(int, int), Tip>, hit: Tip -> bool, winner: string): (r: map<(int, int), Tip>)
    ensures r.Keys == tips.Keys
    ensures forall k :: k in tips ==> r[k] == Scored(tips[k], hit, winner)
  {
    map k | k in tips :: Scored(tips[k], hit, winner)
  }

  /**
   * Scoring changes only unscored tips that `hit` selects, gives each the verdict
   * `selected_team == winner`, keeps the table's keys, and a second run changes nothing.
   */
  lemma {:induction false} ScoreTipsMeaning(tips: map<(int, int), Tip>, hit: Tip -> bool, winner: string)
    requires TipsKeyed(tips) && TipIdsUnique(tips)
    ensures var r := ScoreTips(tips, hit, winner);
            TipsKeyed(r) && TipIdsUnique(r)
            && ScoreTips(r, hit, winner) == r
            && (forall k :: k in tips && (tips[k].isCorrect.Some? || !hit(tips[k])) ==> r[k] == tips[k])
            && (forall k :: k in tips && tips[k].isCorrect.None? && hit(tips[k]) ==>
                  r[k] == tips[k].(isCorrect := Some(tips[k].selectedTeam == winner)))
  {
    var r := ScoreTips(tips, hit, winner);
    forall k | k in r ensures Scored(r[k], hit, winner) == r[k] {
      assert r[k] == Scored(tips[k], hit, winner);
    }
    assert ScoreTips(r, hit, winner) == r;
  }

  /** The winner `updateTipCorrectness` scores against: the game must exist, be complete and have one. */
  function CompletedGameWinner(games: map<string, Game>, mirror: map<string, MirrorGame>, gameId: int): (w: Option<string>)
    requires GameIdsUnique(games)
    ensures w.Some? ==> (w.value != "" && GameById(games, gameId).Some? && GameById(games, gameId).value.isComplete
                         && GameById(games, gameId).value.key in mirror
                         && mirror[GameById(games, gameId).value.key].winner == w)
  {
    match GameById(games, gameId)
    case None => None
    case Some(g) =>
      if g.isComplete && g.key in mirror && mirror[g.key].winner.Some? && mirror[g.key].winner.value != "" then
        mirror[g.key].winner
      else None
  }

  /**
   * `updateTipCorrectness(gameId)`: with a complete game and a winner, scores that game's
   * unscored tips; otherwise changes nothing.
   */
  method UpdateTipCorrectness(db: Database, gameId: int)
    requires db.Valid()
    modifies db
    ensures db.Valid()
    ensures match CompletedGameWinner(db.games, db.mirror, gameId)
            case None => db.tips == old(db.tips)
            case Some(w) => db.tips == ScoreTips(old(db.tips), (t: Tip) => t.gameId == gameId, w)
    ensures db.users == old(db.users) && db.groups == old(db.groups) && db.rounds == old(db.rounds)
    ensures db.mirror == old(db.mirror) && db.games == old(db.games)
    ensures db.nextRoundId == old(db.nextRoundId) && db.nextGameId == old(db.nextGameId) && db.nextTipId == old(db.nextTipId)
  {
    var winner := CompletedGameWinner(db.games, db.mirror, gameId);
    if winner.None? {
      return;
    }
    ScoreTipsMeaning(db.tips, (t: Tip) => t.gameId == gameId, winner.value);
    db.tips := ScoreTips(db.tips, (t: Tip) => t.gameId == gameId, winner.value);
  }

  datatype DeleteError = LockedOut

  /**
   * `deleteTip(tipId, userId)`: false when the user owns no tip with that id, an error
   * once the tip's round is locked, and otherwise that one tip is deleted.
   */
  method DeleteTip(db: Database, tipId: int, userId: int, now: int) returns (r: Result<bool, DeleteError>)
    requires db.Valid()
    modifies db
    ensures db.Valid()
    ensures old(OwnedTipKey(db.tips, tipId, userId)).None? ==> r == Ok(false) && db.tips == old(db.tips)
    ensures old(OwnedTipKey(db.tips, tipId, userId)).Some? ==>
              var k := old(OwnedTipKey(db.tips, tipId, userId)).value;
              var lockout := LockoutOf(db.rounds, old(db.tips)[k].roundId);
              if lockout.Some? && now > lockout.value then r == Err(LockedOut) && db.tips == old(db.tips)
              else r == Ok(true) && db.tips == old(db.tips) - {k}
    ensures db.users == old(db.users) && db.groups == old(db.groups) && db.rounds == old(db.rounds)
    ensures db.mirror == old(db.mirror) && db.games == old(db.games)
    ensures db.nextRoundId == old(db.nextRoundId) && db.nextGameId == old(db.nextGameId) && db.nextTipId == old(db.nextTipId)
  {
    var owned := OwnedTipKey(db.tips, tipId, userId);
    if owned.None? {
      return Ok(false);
    }
    var k := owned.value;
    var lockout := LockoutOf(db.rounds, db.tips[k].roundId);
    if lockout.Some? && now > lockout.value {
      return Err(LockedOut);
    }
    db.tips := db.tips - {k};
    r := Ok(true);
  }
}
