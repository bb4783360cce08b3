/**
 * The client's rule helpers: deriving a game's winner and result line, a tip's
 * status, finals rounds and the margin game, the round status and lockout
 * countdown shown to the user, rank suffixes, and the two input validators.
 * "Now" is a parameter.
 */
module Helpers {
  import opened Wrappers
  import opened Text
  import opened Sorting
  import opened Store
  import opened Clock
  import TipsService

  // ---- games ----

  /** `getGameResult(game)`: empty for an unfinished game, else who won and the score, or a draw. */
  function GameResult(g: Game): (r: string)
    ensures r == "" <==> !g.isComplete
  {
    if !g.isComplete then ""
    else if g.homeScore > g.awayScore then
      g.homeTeam + " won " + IntToString(g.homeScore) + "-" + IntToString(g.awayScore)
    else if g.awayScore > g.homeScore then
      g.awayTeam + " won " + IntToString(g.awayScore) + "-" + IntToString(g.homeScore)
    else
      "Draw " + IntToString(g.homeScore) + "-" + IntToString(g.awayScore)
  }

  /** `getGameWinner(game)`: nobody for an unfinished game or a draw, else the team with more points. */
  function GameWinner(g: Game): (w: Option<string>)
    ensures w.None? <==> !g.isComplete || g.homeScore == g.awayScore
    ensures w.Some? && g.homeScore > g.awayScore ==> w.value == g.homeTeam
    ensures w.Some? && g.awayScore > g.homeScore ==> w.value == g.awayTeam
  {
    if !g.isComplete then None
    else if g.homeScore > g.awayScore then Some(g.homeTeam)
    else if g.awayScore > g.homeScore then Some(g.awayTeam)
    else None
  }

  /** The result line names the winner, and it announces a draw exactly for a finished game without one. */
  lemma {:induction false} ResultNamesWinner(g: Game)
    ensures GameWinner(g).Some? ==> StartsWith(GameResult(g), GameWinner(g).value + " won ")
    ensures g.isComplete && GameWinner(g).None? ==> StartsWith(GameResult(g), "Draw ")
  {
    var r := GameResult(g);
    if g.isComplete && g.homeScore > g.awayScore {
      var p := g.homeTeam + " won ";
      assert r == p + (IntToString(g.homeScore) + "-" + IntToString(g.awayScore));
      assert r[..|p|] == p;
    } else if g.isComplete && g.awayScore > g.homeScore {
      var p := g.awayTeam + " won ";
      assert r == p + (IntToString(g.awayScore) + "-" + IntToString(g.homeScore));
      assert r[..|p|] == p;
    } else if g.isComplete {
      assert r == "Draw " + (IntToString(g.homeScore) + "-" + IntToString(g.awayScore));
      assert r[..5] == "Draw ";
    }
  }

  // ---- tips ----

  datatype TipStatus = Correct | Incorrect | Pending

  /** `getTipStatus(tip)`: pending while `is_correct` is null or undefined, else by its truth value. */
  function GetTipStatus(t: Tip): (s: TipStatus)
    ensures s == Pending <==> t.isCorrect.None?
    ensures s == Correct <==> t.isCorrect == Some(true)
    ensures s == Incorrect <==> t.isCorrect == Some(false)
  {
    match t.isCorrect
    case None => Pending
    case Some(b) => if b then Correct else Incorrect
  }

  /** A tip the scoring pass reached is no longer pending, and its status is its verdict. */
  lemma {:induction false} ScoredTipNotPending(t: Tip, hit: Tip -> bool, winner: string)
    requires hit(t) && t.isCorrect.None?
    ensures GetTipStatus(TipsService.Scored(t, hit, winner)) == (if t.selectedTeam == winner then Correct else Incorrect)
  {
    assert TipsService.Scored(t, hit, winner).isCorrect == Some(t.selectedTeam == winner);
  }

  // ---- rounds ----

  /** `isFinalsRound(n)`: rounds 25 to 28. */
  predicate IsFinalsRound(n: int)
  {
    25 <= n <= 28
  }

  /** `getFinalsRoundName(n)`: a name for each of the four finals rounds and none otherwise. */
  function FinalsRoundName(n: int): (r: Option<string>)
    ensures r.Some? <==> IsFinalsRound(n)
    ensures r.Some? ==> r.value != ""
  {
    if n == 25 then Some("Finals Week 1")
    else if n == 26 then Some("Semi Finals")
    else if n == 27 then Some("Preliminary Finals")
    else if n == 28 then Some("Grand Final")
    else None
  }

  /** No two finals rounds share a name. */
  lemma FinalsNamesDistinct(m: int, n: int)
    requires IsFinalsRound(m) && IsFinalsRound(n) && m != n
    ensures FinalsRoundName(m) != FinalsRoundName(n)
  {
  }

  /** `getRoundDisplayName(round)`: the finals name, else "Round n". */
  function RoundDisplayName(n: int): (r: string)
    ensures IsFinalsRound(n) ==> Some(r) == FinalsRoundName(n)
    ensures !IsFinalsRound(n) ==> r == "Round " + IntToString(n)
  {
    match FinalsRoundName(n)
    case Some(name) => name
    case None => "Round " + IntToString(n)
  }

  /** `getMarginPredictionLabel(n)`. */
  function MarginPredictionLabel(n: int): (r: string)
    ensures IsFinalsRound(n) ==> r == FinalsRoundName(n).value + " Margin"
    ensures !IsFinalsRound(n) ==> r == "Margin Prediction"
  {
    match FinalsRoundName(n)
    case Some(name) => name + " Margin"
    case None => "Margin Prediction"
  }

  /**
   * `getLastGameOfRound(games)`: the last game of a copy sorted by start time (a
   * stable sort, so among games starting together the last listed wins).
   */
  function LastGameOfRound(games: seq<Game>): (r: Option<Game>)
    ensures r.None? <==> games == []
    ensures r.Some? ==> r.value in games && forall g :: g in games ==> g.startTime <= r.value.startTime
    ensures r.Some? ==> exists m :: 0 <= m < |games| && games[m] == r.value &&
                          forall j :: m < j < |games| ==> games[j].startTime < r.value.startTime
  {
    if games == [] then None
    else
      var le := (a: Game, b: Game) => a.startTime <= b.startTime;
      var sorted := SortWith(games, le);
      SortWithLast(games, le, (g: Game) => g.startTime);
      var last := sorted[|sorted| - 1];
      Some(last)
  }

  /** `isMarginGame(game, games, n)`: in a finals round, the game whose id is that of the last game. */
  function IsMarginGame(game: Game, games: seq<Game>, n: int): (b: bool)
    ensures !IsFinalsRound(n) || games == [] ==> !b
    ensures b ==> exists g :: g in games && g.id == game.id && forall h :: h in games ==> h.startTime <= g.startTime
  {
    IsFinalsRound(n) && match LastGameOfRound(games)
    case None => false
    case Some(last) => last.id == game.id
  }

  /** In a finals round, a game that starts strictly after every game with another id is the margin game. */
  lemma {:induction false} LatestGameIsMarginGame(game: Game, games: seq<Game>, n: int)
    requires IsFinalsRound(n) && game in games
    requires forall h :: h in games && h.id != game.id ==> h.startTime < game.startTime
    ensures IsMarginGame(game, games, n)
  {
    var last := LastGameOfRound(games).value;
    assert game.startTime <= last.startTime;
  }

  /** `isRoundLocked(round)`: a lockout is set and now is after it. */
  predicate IsRoundLocked(lockout: Option<int>, now: int)
  {
    lockout.Some? && now > lockout.value
  }

  /** `getRoundStatus(round)`: a stored completed or active status stands; otherwise active once the lockout has passed. */
  function GetRoundStatus(status: RoundStatus, lockout: Option<int>, now: int): (r: RoundStatus)
    ensures status != Upcoming ==> r == status
    ensures status == Upcoming ==> (r == Active <==> IsRoundLocked(lockout, now)) && r != Completed
  {
    match status
    case Completed => Completed
    case Active => Active
    case Upcoming => if lockout.Some? && now > lockout.value then Active else Upcoming
  }

  /** For a round stored as upcoming, the client shows "upcoming" exactly while the server still accepts tips for it. */
  lemma {:induction false} UpcomingMeansOpen(rounds: map<(int, int), Round>, k: (int, int), now: int)
    requires RoundIdsUnique(rounds) && k in rounds && rounds[k].status == Upcoming
    ensures var r := rounds[k];
            GetRoundStatus(r.status, r.lockoutTime, now) == Upcoming <==> TipsService.IsRoundOpen(rounds, r.id, now)
  {
    var r := rounds[k];
    var found := RoundById(rounds, r.id);
    var k2 :| k2 in rounds && rounds[k2] == found.value;
    assert k2 == k;
  }

  /** `getRoundLockoutCountdown`: days and hours beyond 24 hours, else hours and minutes, else minutes. */
  datatype Countdown = DaysHours(days: int, hours: int) | HoursMinutes(h: int, minutes: int) | MinutesOnly(m: int)

  function CountdownOf(diff: int): (c: Countdown)
    requires diff > 0
  {
    var hours := diff / MsPerHour;
    var minutes := (diff % MsPerHour) / MsPerMinute;
    if hours > 24 then DaysHours(hours / 24, hours % 24)
    else if hours > 0 then HoursMinutes(hours, minutes)
    else MinutesOnly(minutes)
  }

  function CountdownText(c: Countdown): (s: string)
  {
    match c
    case DaysHours(d, h) => IntToString(d) + "d " + IntToString(h) + "h"
    case HoursMinutes(h, m) => IntToString(h) + "h " + IntToString(m) + "m"
    case MinutesOnly(m) => IntToString(m) + "m"
  }

  /** The countdown's parts, and the form chosen, for `diff` milliseconds left. */
  lemma {:induction false} CountdownMeaning(diff: int)
    requires diff > 0
    ensures CountdownOf(diff).DaysHours? <==> diff >= 25 * MsPerHour
    ensures CountdownOf(diff).HoursMinutes? <==> MsPerHour <= diff < 25 * MsPerHour
    ensures CountdownOf(diff).MinutesOnly? <==> diff < MsPerHour
    ensures var c := CountdownOf(diff);
            c.DaysHours? ==> 0 <= c.hours < 24 && (c.days * 24 + c.hours) * MsPerHour <= diff < (c.days * 24 + c.hours + 1) * MsPerHour
    ensures var c := CountdownOf(diff);
            c.HoursMinutes? ==> 0 <= c.minutes < 60 && c.h * MsPerHour + c.minutes * MsPerMinute <= diff < c.h * MsPerHour + (c.minutes + 1) * MsPerMinute
    ensures var c := CountdownOf(diff);
            c.MinutesOnly? ==> 0 <= c.m < 60 && c.m * MsPerMinute <= diff < (c.m + 1) * MsPerMinute
  {
    var hours := diff / MsPerHour;
    var rest := diff % MsPerHour;
    var minutes := rest / MsPerMinute;
    assert diff == hours * MsPerHour + rest;
    assert rest == minutes * MsPerMinute + rest % MsPerMinute;
    assert hours > 24 <==> diff >= 25 * MsPerHour by {
      if hours > 24 {
        MulAtLeast(hours - 24, MsPerHour);
        assert hours * MsPerHour == (hours - 24) * MsPerHour + 24 * MsPerHour;
      }
    }
    assert hours > 0 <==> diff >= MsPerHour by {
      if hours > 0 { MulAtLeast(hours, MsPerHour); }
    }
    assert hours >= 0;
    assert hours == (hours / 24) * 24 + hours % 24;
  }

  /** `getRoundLockoutCountdown(round)`: nothing once locked or without a lockout time, else the countdown text. */
  function RoundLockoutCountdown(lockout: Option<int>, now: int): (r: Option<string>)
    ensures r.Some? <==> lockout.Some? && now < lockout.value
    ensures r.Some? ==> r.value == CountdownText(CountdownOf(lockout.value - now))
  {
    if lockout.None? || IsRoundLocked(lockout, now) then None
    else
      var diff := lockout.value - now;
      if diff <= 0 then None else Some(CountdownText(CountdownOf(diff)))
  }

  /**
   * A round without a lockout time never locks; once locked it stays locked; and with a
   * lockout time it is either locked or counting down except at the lockout instant itself.
   */
  lemma RoundLockStaysLocked(lockout: Option<int>, now: int, later: int)
    requires now <= later
    ensures lockout.None? ==> !IsRoundLocked(lockout, now)
    ensures IsRoundLocked(lockout, now) ==> IsRoundLocked(lockout, later)
    ensures lockout.Some? ==> (IsRoundLocked(lockout, now) || RoundLockoutCountdown(lockout, now).Some? <==> now != lockout.value)
  {
  }

  // ---- ranks ----

  /** JavaScript's `%`: the remainder takes the sign of the dividend. */
  function JsRem(a: int, m: int): (r: int)
    requires m > 0
    ensures a >= 0 ==> r == a % m
    ensures -m < r < m
  {
    if a >= 0 then a % m else -((-a) % m)
  }

  /** `getRankSuffix(rank)`. */
  function RankSuffix(rank: int): (s: string)
    ensures 11 <= rank <= 13 ==> s == "th"
    ensures s in {"st", "nd", "rd", "th"}
  {
    if 11 <= rank <= 13 then "th"
    else
      var lastDigit := JsRem(rank, 10);
      if lastDigit == 1 then "st"
      else if lastDigit == 2 then "nd"
      else if lastDigit == 3 then "rd"
      else "th"
  }

  /** For a positive rank the suffix follows the last digit, except that 11, 12 and 13 take "th". */
  lemma {:induction false} RankSuffixPositive(rank: int)
    requires rank >= 1
    ensures RankSuffix(rank) == "st" <==> rank % 10 == 1 && rank != 11
    ensures RankSuffix(rank) == "nd" <==> rank % 10 == 2 && rank != 12
    ensures RankSuffix(rank) == "rd" <==> rank % 10 == 3 && rank != 13
  {
  }

  /** Only 11 to 13 are exempt: 111 is "111st", and a negative rank keeps a negative last digit and takes "th". */
  lemma RankSuffixEdges()
    ensures RankSuffix(111) == "st" && RankSuffix(112) == "nd"
    ensures RankSuffix(-1) == "th" && RankSuffix(-21) == "th"
  {
    assert JsRem(-1, 10) == -1;
    assert JsRem(-21, 10) == -1;
  }

  /** `getRankDisplay(rank)`: the number followed by its suffix. */
  function RankDisplay(rank: int): (s: string)
    ensures s == IntToString(rank) + RankSuffix(rank)
    ensures rank >= 0 ==> s[..|NatToString(rank)|] == NatToString(rank)
  {
    var n := IntToString(rank);
    assert (n + RankSuffix(rank))[..|n|] == n;
    n + RankSuffix(rank)
  }

  // ---- validators ----

  /** One element of the `tips` array: a field that is absent, `null` or otherwise missing is `None`. */
  datatype TipInput = TipInput(gameId: Option<int>, selectedTeam: Option<string>, gameKey: Option<string>)

  /** `!tip.game_id`: absent or zero. */
  predicate MissingId(t: TipInput)
  {
    t.gameId.None? || t.gameId.value == 0
  }

  predicate MissingText(s: Option<string>)
  {
    s.None? || s.value == ""
  }

  predicate CompleteTip(t: TipInput)
  {
    !MissingId(t) && !MissingText(t.selectedTeam) && !MissingText(t.gameKey)
  }

  /** The errors for the tip at 1-based position `n`, in the order the checks run. */
  function ErrorsFor(t: TipInput, n: int): (es: seq<string>)
  {
    var prefix := "Tip " + IntToString(n);
    (if MissingId(t) then [prefix + ": Missing game ID"] else [])
    + (if MissingText(t.selectedTeam) then [prefix + ": Missing selected team"] else [])
    + (if MissingText(t.gameKey) then [prefix + ": Missing game key"] else [])
  }

  /** One error per missing field. */
  lemma ErrorsForCount(t: TipInput, n: int)
    ensures |ErrorsFor(t, n)| == MissingCount(t)
  {
  }

  function MissingCount(t: TipInput): (n: nat)
    ensures n <= 3
  {
    (if MissingId(t) then 1 else 0) + (if MissingText(t.selectedTeam) then 1 else 0)
    + (if MissingText(t.gameKey) then 1 else 0)
  }

  /** The errors of the first `k` tips. */
  function TipErrors(tips: seq<TipInput>, k: nat): (es: seq<string>)
    requires k <= |tips|
  {
    if k == 0 then [] else TipErrors(tips, k - 1) + ErrorsFor(tips[k - 1], k)
  }

  lemma MoreTipErrors(head: seq<string>, tips: seq<TipInput>, k: nat)
    requires k < |tips|
    ensures head + TipErrors(tips, k + 1) == head + TipErrors(tips, k) + ErrorsFor(tips[k], k + 1)
  {
  }

  /** The first `k` tips yield one error per missing field. */
  lemma {:induction false} TipErrorsCount(tips: seq<TipInput>, k: nat)
    requires k <= |tips|
    ensures |TipErrors(tips, k)| == TotalMissing(tips, k)
  {
    if k > 0 {
      TipErrorsCount(tips, k - 1);
      ErrorsForCount(tips[k - 1], k);
    }
  }

  /** No field is missing from the first `k` tips exactly when every one of them is complete. */
  lemma {:induction false} NoneMissing(tips: seq<TipInput>, k: nat)
    requires k <= |tips|
    ensures TotalMissing(tips, k) == 0 <==> forall i :: 0 <= i < k ==> CompleteTip(tips[i])
  {
    if k > 0 {
      NoneMissing(tips, k - 1);
    }
  }

  function TotalMissing(tips: seq<TipInput>, k: nat): (n: nat)
    requires k <= |tips|
  {
    if k == 0 then 0 else TotalMissing(tips, k - 1) + MissingCount(tips[k - 1])
  }

  const NoTipsError := "At least one tip is required"

  /** `validateTipSubmission(tips)`: the empty-list error, then each tip's errors in turn; valid iff there are none. */
  method ValidateTipSubmission(tips: seq<TipInput>) returns (isValid: bool, errors: seq<string>)
    ensures errors == (if tips == [] then [NoTipsError] else []) + TipErrors(tips, |tips|)
    ensures isValid <==> errors == []
    ensures isValid <==> tips != [] && forall i :: 0 <= i < |tips| ==> CompleteTip(tips[i])
    ensures |errors| == (if tips == [] then 1 else 0) + TotalMissing(tips, |tips|)
  {
    errors := [];
    if |tips| == 0 {
      errors := errors + [NoTipsError];
    }
    errors := CheckTips(errors, tips);
    TipErrorsCount(tips, |tips|);
    NoneMissing(tips, |tips|);
    isValid := |errors| == 0;
  }

  /** The `forEach` over the tips: each one's errors after those already found. */
  method CheckTips(errors: seq<string>, tips: seq<TipInput>) returns (errors': seq<string>)
    ensures errors' == errors + TipErrors(tips, |tips|)
  {
    errors' := errors;
    var index := 0;
    while index < |tips|
      invariant 0 <= index <= |tips|
      invariant errors' == errors + TipErrors(tips, index)
    {
      errors' := CheckTip(errors', tips[index], index);
      MoreTipErrors(errors, tips, index);
      index := index + 1;
    }
  }

  /** The `forEach` callback for the tip at 0-based `index`: one error per missing field. */
  method CheckTip(errors: seq<string>, tip: TipInput, index: int) returns (errors': seq<string>)
    ensures errors' == errors + ErrorsFor(tip, index + 1)
  {
    errors' := errors;
    var position := "Tip " + IntToString(index + 1);
    if MissingId(tip) {
      errors' := errors' + [position + ": Missing game ID"];
    }
    if MissingText(tip.selectedTeam) {
      errors' := errors' + [position + ": Missing selected team"];
    }
    if MissingText(tip.gameKey) {
      errors' := errors' + [position + ": Missing game key"];
    }
  }

  /** A margin as the form hands it over: missing, not a number, or a value. */
  datatype MarginInput = NoMargin | NotANumber | MarginValue(v: real)

  datatype MarginCheck = MarginCheck(isValid: bool, error: Option<string>)

  /** `validateMarginPrediction(margin)`: valid iff present, numeric and from 0 to 200; otherwise the first failing rule's message. */
  function ValidateMarginPrediction(m: MarginInput): (r: MarginCheck)
    ensures r.isValid <==> m.MarginValue? && 0.0 <= m.v <= 200.0
    ensures r.isValid <==> r.error.None?
    ensures m.NoMargin? ==> r.error == Some("Margin prediction is required for this game")
    ensures m.NotANumber? || (m.MarginValue? && m.v < 0.0) ==> r.error == Some("Margin must be a positive number")
    ensures m.MarginValue? && m.v > 200.0 ==> r.error == Some("Margin seems too high (max 200 points)")
  {
    match m
    case NoMargin => MarginCheck(false, Some("Margin prediction is required for this game"))
    case NotANumber => MarginCheck(false, Some("Margin must be a positive number"))
    case MarginValue(v) =>
      if v < 0.0 then MarginCheck(false, Some("Margin must be a positive number"))
      else if v > 200.0 then MarginCheck(false, Some("Margin seems too high (max 200 points)"))
      else MarginCheck(true, None)
  }
}
