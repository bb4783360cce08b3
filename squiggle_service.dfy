/**
 * Ingesting results from the Squiggle API: the three-character game key, numbering
 * the games of each round by date, saving them into the mirror and the application
 * tables, applying live scores, and the response cache with its stale fallback.
 * The network, the clock and the day of the week are parameters.
 */
module SquiggleService {
  import opened Wrappers
  import opened Text
  import opened Sorting
  import opened Store
  import TipsService

  /** `generateSquiggleGameKey(round, game)`: the round padded to two digits, then the game number. */
  function GameKey(roundNumber: int, gameNumber: int): (key: string)
  {
    PadStart2(IntToString(roundNumber)) + IntToString(gameNumber)
  }

  /** A round from 0 to 99, padded, is two digits whose value is the round. */
  lemma {:induction false} PaddedRound(r: int)
    requires 0 <= r <= 99
    ensures var p := PadStart2(IntToString(r)); |p| == 2 && AllDigits(p) && DigitsValue(p) == r
  {
    var d := NatToString(r);
    var p := PadStart2(IntToString(r));
    NatToStringValue(r);
    if r < 10 {
      assert p == ['0'] + d;
      assert p[..1] == ['0'];
      assert DigitsValue(p) == DigitsValue(['0']) * 10 + (d[0] as int - '0' as int);
      assert DigitsValue(d) == DigitsValue(d[..0]) * 10 + (d[0] as int - '0' as int);
    } else {
      assert p == d;
    }
  }

  /**
   * For rounds 0..99 and games 1..9 the key is three digits, and it determines both
   * numbers: no two such games share a key.
   */
  lemma {:induction false} GameKeyInjective(r1: int, g1: int, r2: int, g2: int)
    requires 0 <= r1 <= 99 && 1 <= g1 <= 9 && 0 <= r2 <= 99 && 1 <= g2 <= 9
    requires GameKey(r1, g1) == GameKey(r2, g2)
    ensures r1 == r2 && g1 == g2
  {
    var k := GameKey(r1, g1);
    PaddedRound(r1);
    PaddedRound(r2);
    assert k[..2] == PadStart2(IntToString(r1)) && k[..2] == PadStart2(IntToString(r2));
    assert k[2..] == NatToString(g1) && k[2..] == NatToString(g2);
    NatToStringInjective(g1, g2);
  }

  lemma {:induction false} GameKeyShape(r: int, g: int)
    requires 0 <= r <= 99 && 1 <= g <= 9
    ensures |GameKey(r, g)| == 3 && AllDigits(GameKey(r, g))
  {
    PaddedRound(r);
  }

  /** Outside those bounds keys collide: round 10, game 10 and round 101, game 0 are both "1010". */
  lemma GameKeyCollision()
    ensures GameKey(10, 10) == GameKey(101, 0)
  {
    assert DigitChar(0) == '0' && DigitChar(1) == '1';
    assert NatToString(0) == "0" && NatToString(1) == "1";
    assert NatToString(10) == NatToString(1) + [DigitChar(0)] == "10";
    assert NatToString(101) == NatToString(10) + [DigitChar(1)] == "101";
    assert GameKey(10, 10) == "10" + "10";
    assert GameKey(101, 0) == "101" + "0";
  }

  /** A game as the API reports it; an absent field is `None`. */
  datatype SquiggleGame = SquiggleGame(
    round: int, hteam: Option<string>, ateam: Option<string>, date: int, venue: Option<string>,
    complete: int, hscore: Option<int>, ascore: Option<int>, winner: Option<string>)

  /** `ProcessedGame`; `raw` is the API game that `rawJson` serialises. */
  datatype ProcessedGame = ProcessedGame(
    key: string, roundNumber: int, gameNumber: int, year: int, complete: bool, date: int,
    homeTeam: Option<string>, awayTeam: Option<string>, homeScore: int, awayScore: int,
    venue: Option<string>, winner: Option<string>, raw: SquiggleGame)

  /** JavaScript's `x || 0` on an optional number. */
  function OrZero(x: Option<int>): (n: int)
    ensures x.None? ==> n == 0
    ensures x.Some? ==> n == x.value
  {
    if x.Some? then x.value else 0
  }

  /** JavaScript's `s || null` on an optional string: the empty string is falsy. */
  function NonEmpty(s: Option<string>): (r: Option<string>)
    ensures r.Some? <==> s.Some? && s.value != ""
    ensures r.Some? ==> r == s
  {
    if s.Some? && s.value != "" then s else None
  }

  /** One processed game: complete means exactly 100, missing scores are 0, an empty winner is none. */
  function Process(g: SquiggleGame, roundNumber: int, gameNumber: int, year: int): (p: ProcessedGame)
    ensures p.complete <==> g.complete == 100
    ensures p.key == GameKey(roundNumber, gameNumber) && p.raw == g && p.date == g.date
    ensures p.homeScore == OrZero(g.hscore) && p.awayScore == OrZero(g.ascore)
    ensures p.winner.Some? ==> p.winner.value != ""
  {
    ProcessedGame(GameKey(roundNumber, gameNumber), roundNumber, gameNumber, year, g.complete == 100, g.date,
                  g.hteam, g.ateam, OrZero(g.hscore), OrZero(g.ascore), g.venue, NonEmpty(g.winner), g)
  }

  /** The games of round `r` among the first `k`, in input order (`gamesByRound[r]` after `k` pushes). */
  function InRound(games: seq<SquiggleGame>, r: int, k: nat): (s: seq<SquiggleGame>)
    requires k <= |games|
    ensures |s| <= k
    ensures forall i :: 0 <= i < |s| ==> s[i].round == r
    ensures (forall j :: 0 <= j < k ==> games[j].round != r) ==> s == []
  {
    if k == 0 then []
    else if games[k - 1].round == r then InRound(games, r, k - 1) + [games[k - 1]]
    else InRound(games, r, k - 1)
  }

  /** The rounds of the first `k` games (the keys of `gamesByRound`). */
  function RoundsUpTo(games: seq<SquiggleGame>, k: nat): (rs: set<int>)
    requires k <= |games|
    ensures forall j :: 0 <= j < k ==> games[j].round in rs
  {
    set j | 0 <= j < k :: games[j].round
  }

  /** A round's games sorted by date; the sort is stable, so same-time games keep input order. */
  function ByDate(s: seq<SquiggleGame>): (r: seq<SquiggleGame>)
    ensures multiset(r) == multiset(s) && |r| == |s|
    ensures forall i, j :: 0 <= i < j < |r| ==> r[i].date <= r[j].date
  {
    SortByKey(s, (g: SquiggleGame) => g.date)
  }

  /** The API games the processed games were made from. */
  function Raws(ps: seq<ProcessedGame>): (gs: seq<SquiggleGame>)
    ensures |gs| == |ps| && forall i :: 0 <= i < |ps| ==> gs[i] == ps[i].raw
  {
    seq(|ps|, i requires 0 <= i < |ps| => ps[i].raw)
  }

  /** The first `k` games of the sorted round `s`, numbered 1..k. */
  function NumberedUpTo(s: seq<SquiggleGame>, r: int, year: int, k: nat): (ps: seq<ProcessedGame>)
    requires k <= |s|
    ensures |ps| == k
    ensures forall i :: 0 <= i < k ==> ps[i] == Process(s[i], r, i + 1, year)
  {
    if k == 0 then [] else NumberedUpTo(s, r, year, k - 1) + [Process(s[k - 1], r, k, year)]
  }

  /** All of round `r`'s games, sorted by date and numbered. */
  function RoundBlock(games: seq<SquiggleGame>, r: int, year: int): (ps: seq<ProcessedGame>)
  {
    var s := ByDate(InRound(games, r, |games|));
    NumberedUpTo(s, r, year, |s|)
  }

  /**
   * A round's block holds exactly that round's games, in date order, numbered 1..k,
   * keyed by round and number and stamped with the year.
   */
  lemma RoundBlockShape(games: seq<SquiggleGame>, r: int, year: int)
    ensures var ps := RoundBlock(games, r, year);
            |ps| == |InRound(games, r, |games|)|
            && (forall i :: 0 <= i < |ps| ==>
                  ps[i].roundNumber == r && ps[i].gameNumber == i + 1 && ps[i].key == GameKey(r, i + 1) && ps[i].year == year)
            && (forall i, j :: 0 <= i < j < |ps| ==> ps[i].date <= ps[j].date)
            && multiset(Raws(ps)) == multiset(InRound(games, r, |games|))
  {
    var s := ByDate(InRound(games, r, |games|));
    var ps := NumberedUpTo(s, r, year, |s|);
    assert Raws(ps) == s;
  }

  /** The blocks of the rounds `rs`, in that order. */
  function Blocks(games: seq<SquiggleGame>, rs: seq<int>, year: int): (bs: seq<seq<ProcessedGame>>)
    ensures |bs| == |rs|
  {
    seq(|rs|, t requires 0 <= t < |rs| => RoundBlock(games, rs[t], year))
  }

  lemma BlocksAt(games: seq<SquiggleGame>, rs: seq<int>, year: int, t: nat)
    requires t < |rs|
    ensures Blocks(games, rs, year)[t] == RoundBlock(games, rs[t], year)
  {
  }

  /** The rounds in the order `Object.keys` lists them. It lists array-index keys ascending
      (a negative key would follow them in insertion order); Squiggle round numbers are never
      negative, so the order here is ascending. */
  function RoundOrder(games: seq<SquiggleGame>): (rs: seq<int>)
    ensures StrictlyIncreasing(rs)
    ensures forall x :: x in rs <==> x in RoundsUpTo(games, |games|)
  {
    SortedInts(RoundsUpTo(games, |games|))
  }

  /** What `processGames(games, year)` returns. */
  function ProcessedOf(games: seq<SquiggleGame>, year: int): (ps: seq<ProcessedGame>)
  {
    var rs := RoundOrder(games);
    FlattenUpTo(Blocks(games, rs, year), |rs|)
  }

  /** The first loop of `processGames`: `gamesByRound[r]` holds round `r`'s games in input order. */
  method GroupByRound(games: seq<SquiggleGame>) returns (byRound: map<int, seq<SquiggleGame>>)
    ensures byRound.Keys == RoundsUpTo(games, |games|)
    ensures forall r :: r in byRound ==> byRound[r] == InRound(games, r, |games|)
  {
    byRound := map[];
    var i := 0;
    while i < |games|
      invariant 0 <= i <= |games|
      invariant byRound.Keys == RoundsUpTo(games, i)
      invariant forall r :: r in byRound ==> byRound[r] == InRound(games, r, i)
    {
      var r := games[i].round;
      if r !in byRound {
        byRound := byRound[r := []];
      }
      byRound := byRound[r := byRound[r] + [games[i]]];
      assert RoundsUpTo(games, i + 1) == RoundsUpTo(games, i) + {r};
      i := i + 1;
    }
  }

  /** The inner `forEach` of `processGames`: pushes round `r`'s sorted games, numbered from 1. */
  method PushNumbered(out: seq<ProcessedGame>, roundGames: seq<SquiggleGame>, r: int, year: int)
    returns (res: seq<ProcessedGame>)
    ensures res == out + NumberedUpTo(roundGames, r, year, |roundGames|)
  {
    res := out;
    var n := 0;
    ghost var block: seq<ProcessedGame> := [];
    while n < |roundGames|
      invariant 0 <= n <= |roundGames|
      invariant block == NumberedUpTo(roundGames, r, year, n)
      invariant res == out + block
    {
      var p := Process(roundGames[n], r, n + 1, year);
      AppendAssoc(out, block, p);
      res := res + [p];
      block := block + [p];
      n := n + 1;
    }
  }

  /**
   * `processGames`: groups the games by round in a dictionary, then for each round in
   * key order sorts its games by date and numbers them from 1.
   */
  method ProcessGames(games: seq<SquiggleGame>, year: int) returns (out: seq<ProcessedGame>)
    ensures out == ProcessedOf(games, year)
  {
    var byRound := GroupByRound(games);
    var rs := SortedInts(byRound.Keys);
    assert rs == RoundOrder(games);
    out := [];
    var j := 0;
    while j < |rs|
      invariant 0 <= j <= |rs|
      invariant out == FlattenUpTo(Blocks(games, rs, year), j)
    {
      var r := rs[j];
      SortedIntsAt(byRound.Keys, j);
      BlocksStep(games, rs, year, j, out);
      out := PushRound(out, byRound[r], games, r, year);
      j := j + 1;
    }
  }

  /** Appending round `rs[j]`'s block extends the first `j` blocks to `j + 1`. */
  lemma BlocksStep(games: seq<SquiggleGame>, rs: seq<int>, year: int, j: nat, out: seq<ProcessedGame>)
    requires j < |rs| && out == FlattenUpTo(Blocks(games, rs, year), j)
    ensures out + RoundBlock(games, rs[j], year) == FlattenUpTo(Blocks(games, rs, year), j + 1)
  {
    BlocksAt(games, rs, year, j);
  }

  /** One round of `processGames`: sorts the round's games by date and pushes them numbered from 1. */
  method PushRound(out: seq<ProcessedGame>, roundGames: seq<SquiggleGame>, games: seq<SquiggleGame>, r: int, year: int)
    returns (res: seq<ProcessedGame>)
    requires roundGames == InRound(games, r, |games|)
    ensures res == out + RoundBlock(games, r, year)
  {
    var sorted := ByDate(roundGames);
    res := PushNumbered(out, sorted, r, year);
  }

  /** The games among the first `k` whose round is in `rounds`, in input order. */
  function Select(games: seq<SquiggleGame>, rounds: set<int>, k: nat): (s: seq<SquiggleGame>)
    requires k <= |games|
  {
    if k == 0 then []
    else if games[k - 1].round in rounds then Select(games, rounds, k - 1) + [games[k - 1]]
    else Select(games, rounds, k - 1)
  }

  lemma {:induction false} SelectNone(games: seq<SquiggleGame>, k: nat)
    requires k <= |games|
    ensures Select(games, {}, k) == []
  {
    if k > 0 {
      SelectNone(games, k - 1);
    }
  }

  /** Adding a round to the selection adds exactly that round's games, counted per game. */
  lemma {:induction false} SelectAddCount(games: seq<SquiggleGame>, rounds: set<int>, r: int, k: nat, x: SquiggleGame)
    requires k <= |games| && r !in rounds
    ensures multiset(Select(games, rounds + {r}, k))[x]
            == multiset(Select(games, rounds, k))[x] + multiset(InRound(games, r, k))[x]
  {
    if k > 0 {
      SelectAddCount(games, rounds, r, k - 1, x);
      SelectStep(games, rounds + {r}, k);
      SelectStep(games, rounds, k);
      InRoundStep(games, r, k);
      var g := games[k - 1];
      if g.round == r {
        assert g.round in rounds + {r} && g.round !in rounds;
      } else if g.round in rounds {
        assert g.round in rounds + {r};
      } else {
        assert g.round !in rounds + {r};
      }
    }
  }

  /** Adding a round to the selection adds exactly that round's games. */
  lemma SelectAdd(games: seq<SquiggleGame>, rounds: set<int>, r: int, k: nat)
    requires k <= |games| && r !in rounds
    ensures multiset(Select(games, rounds + {r}, k)) == multiset(Select(games, rounds, k)) + multiset(InRound(games, r, k))
  {
    forall x {
      SelectAddCount(games, rounds, r, k, x);
    }
  }

  /** The multiset form of one step of `Select`. */
  lemma SelectStep(games: seq<SquiggleGame>, rounds: set<int>, k: nat)
    requires 0 < k <= |games|
    ensures games[k - 1].round in rounds ==>
              multiset(Select(games, rounds, k)) == multiset(Select(games, rounds, k - 1)) + multiset{games[k - 1]}
    ensures games[k - 1].round !in rounds ==> multiset(Select(games, rounds, k)) == multiset(Select(games, rounds, k - 1))
  {
  }

  /** The multiset form of one step of `InRound`. */
  lemma InRoundStep(games: seq<SquiggleGame>, r: int, k: nat)
    requires 0 < k <= |games|
    ensures games[k - 1].round == r ==>
              multiset(InRound(games, r, k)) == multiset(InRound(games, r, k - 1)) + multiset{games[k - 1]}
    ensures games[k - 1].round != r ==> multiset(InRound(games, r, k)) == multiset(InRound(games, r, k - 1))
  {
  }

  /** Selecting every round present keeps every game. */
  lemma {:induction false} SelectAll(games: seq<SquiggleGame>, rounds: set<int>, k: nat)
    requires k <= |games|
    requires forall j :: 0 <= j < k ==> games[j].round in rounds
    ensures Select(games, rounds, k) == games[..k]
  {
    if k > 0 {
      SelectAll(games, rounds, k - 1);
      assert games[..k] == games[..k - 1] + [games[k - 1]];
    }
  }

  lemma RawsAppend(a: seq<ProcessedGame>, b: seq<ProcessedGame>)
    ensures Raws(a + b) == Raws(a) + Raws(b)
  {
    assert forall i :: 0 <= i < |a + b| ==> Raws(a + b)[i] == (Raws(a) + Raws(b))[i];
  }

  /** The rounds `rs[..j]` as a set. */
  function FirstRounds(rs: seq<int>, j: nat): (s: set<int>)
    requires j <= |rs|
    ensures forall t :: 0 <= t < j ==> rs[t] in s
    ensures forall x :: x in s ==> exists t :: 0 <= t < j && rs[t] == x
  {
    if j == 0 then {} else FirstRounds(rs, j - 1) + {rs[j - 1]}
  }

  /** The first `j` blocks hold exactly the games of the rounds `rs[..j]`. */
  lemma {:induction false} BlocksRaws(games: seq<SquiggleGame>, rs: seq<int>, year: int, j: nat)
    requires j <= |rs| && StrictlyIncreasing(rs)
    ensures multiset(Raws(FlattenUpTo(Blocks(games, rs, year), j))) == multiset(Select(games, FirstRounds(rs, j), |games|))
  {
    if j == 0 {
      SelectNone(games, |games|);
    } else {
      var r := rs[j - 1];
      var bs := Blocks(games, rs, year);
      var before := FirstRounds(rs, j - 1);
      var a := FlattenUpTo(bs, j - 1);
      var b := bs[j - 1];
      BlocksAt(games, rs, year, j - 1);
      BlocksRaws(games, rs, year, j - 1);
      RawsAppend(a, b);
      RoundBlockShape(games, r, year);
      assert r !in before;
      SelectAdd(games, before, r, |games|);
      assert FirstRounds(rs, j) == before + {r};
      assert Raws(FlattenUpTo(bs, j)) == Raws(a) + Raws(b);
      ConcatMultiset(Raws(a), Raws(b));
    }
  }

  lemma ConcatMultiset<T>(a: seq<T>, b: seq<T>)
    ensures multiset(a + b) == multiset(a) + multiset(b)
  {
  }

  /** `processGames` emits exactly one processed game per input game. */
  lemma {:induction false} ProcessedIsPermutation(games: seq<SquiggleGame>, year: int)
    ensures multiset(Raws(ProcessedOf(games, year))) == multiset(games)
    ensures |ProcessedOf(games, year)| == |games|
  {
    var rs := RoundOrder(games);
    var all := FirstRounds(rs, |rs|);
    BlocksRaws(games, rs, year, |rs|);
    forall j | 0 <= j < |games| ensures games[j].round in all {
      var t := IndexOf(rs, games[j].round);
    }
    SelectAll(games, all, |games|);
    assert games[..|games|] == games;
    assert |Raws(ProcessedOf(games, year))| == |multiset(games)|;
  }

  /** Where round `r`'s block begins in the output: after the blocks of the lower rounds. */
  function BlockOffset(games: seq<SquiggleGame>, year: int, r: int): (off: nat)
    requires r in RoundsUpTo(games, |games|)
  {
    var rs := RoundOrder(games);
    |FlattenUpTo(Blocks(games, rs, year), IndexOf(rs, r))|
  }

  /** `b` occurs in `out` starting at position `off`. */
  predicate OccursAt(out: seq<ProcessedGame>, off: nat, b: seq<ProcessedGame>)
  {
    off + |b| <= |out| && out[off..off + |b|] == b
  }

  /**
   * Each round's games appear together in the output, from `BlockOffset` on, numbered
   * 1..k in date order (the properties of `RoundBlockShape`).
   */
  lemma RoundBlockInOutput(games: seq<SquiggleGame>, year: int, r: int)
    requires r in RoundsUpTo(games, |games|)
    ensures OccursAt(ProcessedOf(games, year), BlockOffset(games, year, r), RoundBlock(games, r, year))
  {
    var rs := RoundOrder(games);
    var bs := Blocks(games, rs, year);
    var t := IndexOf(rs, r);
    var b := RoundBlock(games, r, year);
    var out := ProcessedOf(games, year);
    var off := BlockOffset(games, year, r);
    BlocksAt(games, rs, year, t);
    FlattenBlockAt(bs, t, off, b, out);
    assert OccursAt(out, off, b);
  }

  // ---- saveGamesToDatabase ----

  /** The three tables ingestion writes, with the AUTOINCREMENT counters of two of them. */
  datatype Tables = Tables(
    rounds: map<(int, int), Round>, mirror: map<string, MirrorGame>, games: map<string, Game>,
    nextRoundId: int, nextGameId: int)

  predicate TablesValid(t: Tables)
  {
    RoundsKeyed(t.rounds) && RoundIdsUnique(t.rounds) && RoundIdsBelow(t.rounds, t.nextRoundId)
    && GamesKeyed(t.games) && GameIdsUnique(t.games) && GameIdsBelow(t.games, t.nextGameId)
    && MirrorKeyed(t.mirror)
  }

  function TablesOf(db: Database): (t: Tables)
    reads db
    ensures db.Valid() ==> TablesValid(t)
  {
    Tables(db.rounds, db.mirror, db.games, db.nextRoundId, db.nextGameId)
  }

  /** `!game.homeTeam || !game.awayTeam || !game.venue`: a missing or empty name skips the game. */
  predicate Skipped(p: ProcessedGame)
  {
    NonEmpty(p.homeTeam).None? || NonEmpty(p.awayTeam).None? || NonEmpty(p.venue).None?
  }

  /** The `squiggle_games` row of a processed game; `rawGame.complete || 0` is the raw 0..100 value. */
  function MirrorRow(p: ProcessedGame): (m: MirrorGame)
    requires !Skipped(p)
    ensures m.key == p.key && m.year == p.year && m.complete == p.raw.complete
  {
    MirrorGame(p.key, p.roundNumber, p.gameNumber, p.year, p.raw.complete, p.date,
               p.homeTeam.value, p.awayTeam.value, p.homeScore, p.awayScore, p.venue.value, p.winner)
  }

  /** The row `INSERT OR IGNORE INTO rounds` adds for a game: completed or upcoming, no lockout yet. */
  function NewRound(t: Tables, p: ProcessedGame): (r: Round)
  {
    Round(t.nextRoundId, p.roundNumber, p.year, if p.complete then Completed else Upcoming, None)
  }

  /**
   * One iteration of `saveGamesToDatabase`: a skipped game writes nothing; otherwise the
   * mirror row is replaced by key, the round is inserted if absent, and the game is
   * replaced by key under a fresh id, pointing at the round's id.
   */
  function SaveStep(t: Tables, p: ProcessedGame): (r: Tables)
  {
    if Skipped(p) then t
    else
      var rk := (p.roundNumber, p.year);
      var rounds := if rk in t.rounds then t.rounds else t.rounds[rk := NewRound(t, p)];
      var nextRound := if rk in t.rounds then t.nextRoundId else t.nextRoundId + 1;
      var game := Game(t.nextGameId, p.key, rounds[rk].id, p.homeTeam.value, p.awayTeam.value,
                       p.homeScore, p.awayScore, p.date, p.venue.value, p.complete);
      Tables(rounds, t.mirror[p.key := MirrorRow(p)], t.games[p.key := game], nextRound, t.nextGameId + 1)
  }

  /** The tables after the first `k` games have been saved. */
  function SaveAll(t: Tables, ps: seq<ProcessedGame>, k: nat): (r: Tables)
    requires k <= |ps|
  {
    if k == 0 then t else SaveStep(SaveAll(t, ps, k - 1), ps[k - 1])
  }

  /** Saving a game keeps every key, id and counter constraint of the three tables. */
  lemma SaveStepValid(t: Tables, p: ProcessedGame)
    requires TablesValid(t)
    ensures TablesValid(SaveStep(t, p))
  {
    if !Skipped(p) {
      var rk := (p.roundNumber, p.year);
      if rk !in t.rounds {
        RewriteRoundsInsert(t.rounds, t.nextRoundId, NewRound(t, p));
      }
    }
  }

  /** Inserting a round under a fresh key with the next id keeps the rounds table valid. */
  lemma RewriteRoundsInsert(rounds: map<(int, int), Round>, next: int, row: Round)
    requires RoundsKeyed(rounds) && RoundIdsUnique(rounds) && RoundIdsBelow(rounds, next)
    requires (row.roundNumber, row.year) !in rounds && row.id == next
    ensures var r := rounds[(row.roundNumber, row.year) := row];
            RoundsKeyed(r) && RoundIdsUnique(r) && RoundIdsBelow(r, next + 1)
  {
  }

  /**
   * What saving one game does: a skipped game changes nothing; otherwise its mirror row
   * and its game row (under key `p.key`, with the next game id and the id of its round)
   * replace whatever had that key, whatever its year, and no other key is touched;
   * the round is created only when (round, year) is absent.
   */
  lemma {:induction false} SaveStepMeaning(t: Tables, p: ProcessedGame)
    ensures Skipped(p) ==> SaveStep(t, p) == t
    ensures !Skipped(p) ==>
              var r := SaveStep(t, p);
              var rk := (p.roundNumber, p.year);
              rk in r.rounds
              && r.mirror == t.mirror[p.key := MirrorRow(p)]
              && r.games.Keys == t.games.Keys + {p.key}
              && (forall k :: k in t.games && k != p.key ==> r.games[k] == t.games[k])
              && r.games[p.key].id == t.nextGameId && r.games[p.key].roundId == r.rounds[rk].id
              && r.games[p.key].isComplete == p.complete
              && (rk in t.rounds ==> r.rounds == t.rounds && r.nextRoundId == t.nextRoundId)
              && (rk !in t.rounds ==>
                    r.rounds == t.rounds[rk := NewRound(t, p)] && r.nextRoundId == t.nextRoundId + 1)
  {
    if !Skipped(p) {
      var r := SaveStep(t, p);
      assert r.games == t.games[p.key := r.games[p.key]];
    }
  }

  lemma {:induction false} SaveAllValid(t: Tables, ps: seq<ProcessedGame>, k: nat)
    requires k <= |ps| && TablesValid(t)
    ensures TablesValid(SaveAll(t, ps, k))
  {
    if k > 0 {
      SaveAllValid(t, ps, k - 1);
      SaveStepValid(SaveAll(t, ps, k - 1), ps[k - 1]);
    }
  }

  /** Ingestion never overwrites a round: every existing round keeps its row, status and lockout included. */
  lemma {:induction false} SaveAllKeepsRounds(t: Tables, ps: seq<ProcessedGame>, k: nat)
    requires k <= |ps|
    ensures t.rounds.Keys <= SaveAll(t, ps, k).rounds.Keys
    ensures forall rk :: rk in t.rounds ==> SaveAll(t, ps, k).rounds[rk] == t.rounds[rk]
  {
    if k > 0 {
      SaveAllKeepsRounds(t, ps, k - 1);
    }
  }

  /** The last game among the first `k` that is saved with key `key`. */
  function LastSaved(ps: seq<ProcessedGame>, k: nat, key: string): (r: Option<ProcessedGame>)
    requires k <= |ps|
    ensures r.Some? ==> !Skipped(r.value) && r.value.key == key
  {
    if k == 0 then None
    else if !Skipped(ps[k - 1]) && ps[k - 1].key == key then Some(ps[k - 1])
    else LastSaved(ps, k - 1, key)
  }

  /**
   * The mirror is keyed by the game key alone: after saving, the row under `key` is the
   * last saved game with that key, whatever its year, or the old row when none had it.
   */
  lemma {:induction false} SaveAllMirror(t: Tables, ps: seq<ProcessedGame>, k: nat, key: string)
    requires k <= |ps|
    ensures var m := SaveAll(t, ps, k).mirror;
            match LastSaved(ps, k, key)
            case Some(p) => key in m && m[key] == MirrorRow(p)
            case None => (key in m <==> key in t.mirror) && (key in t.mirror ==> m[key] == t.mirror[key])
  {
    if k > 0 {
      SaveAllMirror(t, ps, k - 1, key);
    }
  }

  /** One iteration of the `saveGamesToDatabase` loop, writing the tables in the source's order. */
  method SaveOne(db: Database, p: ProcessedGame)
    requires db.Valid()
    modifies db
    ensures db.Valid()
    ensures TablesOf(db) == SaveStep(old(TablesOf(db)), p)
    ensures db.users == old(db.users) && db.groups == old(db.groups) && db.tips == old(db.tips)
    ensures db.nextTipId == old(db.nextTipId)
  {
    if Skipped(p) {
      return;
    }
    ghost var r := SaveStep(TablesOf(db), p);
    SaveStepValid(TablesOf(db), p);
    db.mirror := db.mirror[p.key := MirrorRow(p)];
    var roundId := EnsureRound(db, p);
    db.games := db.games[p.key := Game(db.nextGameId, p.key, roundId, p.homeTeam.value, p.awayTeam.value,
                                       p.homeScore, p.awayScore, p.date, p.venue.value, p.complete)];
    db.nextGameId := db.nextGameId + 1;
    assert db.rounds == r.rounds && db.nextRoundId == r.nextRoundId;
    assert db.mirror == r.mirror && db.games == r.games && db.nextGameId == r.nextGameId;
  }

  /** `INSERT OR IGNORE INTO rounds` then `SELECT id FROM rounds WHERE round_number = ? AND year = ?`. */
  method EnsureRound(db: Database, p: ProcessedGame) returns (roundId: int)
    modifies db
    ensures var rk := (p.roundNumber, p.year);
            var t := old(TablesOf(db));
            db.rounds == (if rk in t.rounds then t.rounds else t.rounds[rk := NewRound(t, p)])
            && db.nextRoundId == (if rk in t.rounds then t.nextRoundId else t.nextRoundId + 1)
            && roundId == db.rounds[rk].id
    ensures db.users == old(db.users) && db.groups == old(db.groups) && db.tips == old(db.tips)
    ensures db.mirror == old(db.mirror) && db.games == old(db.games)
    ensures db.nextTipId == old(db.nextTipId) && db.nextGameId == old(db.nextGameId)
  {
    var rk := (p.roundNumber, p.year);
    if rk !in db.rounds {
      db.rounds := db.rounds[rk := Round(db.nextRoundId, p.roundNumber, p.year, if p.complete then Completed else Upcoming, None)];
      db.nextRoundId := db.nextRoundId + 1;
    }
    roundId := db.rounds[rk].id;
  }

  /** `saveGamesToDatabase(games)`: saves the games one by one, in order. */
  method SaveGamesToDatabase(db: Database, ps: seq<ProcessedGame>)
    requires db.Valid()
    modifies db
    ensures db.Valid()
    ensures TablesOf(db) == SaveAll(old(TablesOf(db)), ps, |ps|)
    ensures db.users == old(db.users) && db.groups == old(db.groups) && db.tips == old(db.tips)
    ensures db.nextTipId == old(db.nextTipId)
  {
    ghost var t0 := TablesOf(db);
    var i := 0;
    while i < |ps|
      invariant 0 <= i <= |ps|
      invariant db.Valid()
      invariant TablesOf(db) == SaveAll(t0, ps, i)
      invariant db.users == old(db.users) && db.groups == old(db.groups) && db.tips == old(db.tips)
      invariant db.nextTipId == old(db.nextTipId)
    {
      SaveOne(db, ps[i]);
      i := i + 1;
    }
  }

  // ---- updateLiveScores ----

  /** The tables `updateLiveScores` writes. */
  datatype Scores = Scores(mirror: map<string, MirrorGame>, games: map<string, Game>, tips: map<(int, int), Tip>)

  function ScoresOf(db: Database): (s: Scores)
    reads db
  {
    Scores(db.mirror, db.games, db.tips)
  }

  predicate ScoresValid(s: Scores)
  {
    MirrorKeyed(s.mirror) && GamesKeyed(s.games) && GameIdsUnique(s.games) && TipsKeyed(s.tips) && TipIdsUnique(s.tips)
  }

  /** The filter of `updateLiveScores`: a game under way or finished, or with a score. */
  predicate Active(p: ProcessedGame)
  {
    p.raw.complete > 0 || p.homeScore > 0 || p.awayScore > 0
  }

  function ActiveGames(ps: seq<ProcessedGame>): (r: seq<ProcessedGame>)
    ensures |r| <= |ps|
    ensures forall i :: 0 <= i < |r| ==> Active(r[i])
    ensures multiset(r) <= multiset(ps)
  {
    Filter(ps, Active)
  }

  /** The tips `UPDATE tips ... WHERE squiggle_game_key = ?` selects. */
  function KeyHit(key: string): Tip -> bool
  {
    (t: Tip) => t.key == key
  }

  /** `rawGame.complete === 100 && game.winner`: the tips of the game are scored against this winner. */
  function ScoringWinner(p: ProcessedGame): (w: Option<string>)
    ensures w.Some? <==> p.raw.complete == 100 && NonEmpty(p.winner).Some?
    ensures w.Some? ==> w == p.winner && w.value != ""
  {
    if p.raw.complete == 100 && NonEmpty(p.winner).Some? then p.winner else None
  }

  /** `UPDATE squiggle_games SET hscore, ascore, complete, winner ... WHERE squiggle_game_key = ?`. */
  function MirrorScored(mirror: map<string, MirrorGame>, p: ProcessedGame): (m: map<string, MirrorGame>)
  {
    if p.key in mirror
    then mirror[p.key := mirror[p.key].(homeScore := p.homeScore, awayScore := p.awayScore,
                                         complete := p.raw.complete, winner := p.winner)]
    else mirror
  }

  /** `UPDATE games SET home_score, away_score, is_complete ... WHERE squiggle_game_key = ?`. */
  function GamesScored(games: map<string, Game>, p: ProcessedGame): (g: map<string, Game>)
  {
    if p.key in games
    then games[p.key := games[p.key].(homeScore := p.homeScore, awayScore := p.awayScore,
                                       isComplete := p.raw.complete == 100)]
    else games
  }

  /** The tip scoring of a finished game with a winner; otherwise no tip changes. */
  function TipsScored(tips: map<(int, int), Tip>, p: ProcessedGame): (t: map<(int, int), Tip>)
  {
    match ScoringWinner(p)
    case Some(w) => TipsService.ScoreTips(tips, KeyHit(p.key), w)
    case None => tips
  }

  /**
   * One iteration of the `updateLiveScores` loop: the mirror row's scores, completion
   * and winner, then the game's scores and completion, are updated where a row with
   * the key exists; then, for a finished game with a winner, the key's unscored tips.
   */
  function LiveStep(s: Scores, p: ProcessedGame): (r: Scores)
  {
    Scores(MirrorScored(s.mirror, p), GamesScored(s.games, p), TipsScored(s.tips, p))
  }

  function LiveAll(s: Scores, ps: seq<ProcessedGame>, k: nat): (r: Scores)
    requires k <= |ps|
  {
    if k == 0 then s else LiveStep(LiveAll(s, ps, k - 1), ps[k - 1])
  }

  /**
   * What one live update does: no row is added or removed; the game's row gets its
   * scores and `is_complete` iff `complete == 100`; other rows keep their values; a tip
   * already scored keeps its verdict; and the key constraints still hold.
   */
  lemma {:induction false} LiveStepMeaning(s: Scores, p: ProcessedGame)
    requires ScoresValid(s)
    ensures var r := LiveStep(s, p);
            ScoresValid(r)
            && r.mirror.Keys == s.mirror.Keys && r.games.Keys == s.games.Keys && r.tips.Keys == s.tips.Keys
            && (p.key in r.games ==>
                  r.games[p.key].homeScore == p.homeScore && r.games[p.key].awayScore == p.awayScore
                  && (r.games[p.key].isComplete <==> p.raw.complete == 100) && r.games[p.key].id == s.games[p.key].id)
            && (forall k :: k in s.games && k != p.key ==> r.games[k] == s.games[k])
            && (forall k :: k in s.mirror && k != p.key ==> r.mirror[k] == s.mirror[k])
            && (forall k :: k in s.tips && (s.tips[k].isCorrect.Some? || s.tips[k].key != p.key) ==> r.tips[k] == s.tips[k])
            && (forall k :: k in s.tips ==> r.tips[k].id == s.tips[k].id)
  {
    var r := LiveStep(s, p);
    match ScoringWinner(p)
    case Some(w) => TipsService.ScoreTipsMeaning(s.tips, KeyHit(p.key), w);
    case None =>
    assert GameIdsUnique(r.games) by {
      forall k | k in r.games ensures r.games[k].id == s.games[k].id { }
    }
  }

  /** A tip scored on its game's completion gets the verdict `selected_team == winner`. */
  lemma {:induction false} LiveStepScores(s: Scores, p: ProcessedGame, k: (int, int))
    requires ScoresValid(s)
    requires k in s.tips && s.tips[k].isCorrect.None? && s.tips[k].key == p.key
    ensures var r := LiveStep(s, p);
            k in r.tips
            && (ScoringWinner(p).Some? ==> r.tips[k].isCorrect == Some(s.tips[k].selectedTeam == p.winner.value))
            && (ScoringWinner(p).None? ==> r.tips[k] == s.tips[k])
  {
    match ScoringWinner(p)
    case Some(w) => TipsService.ScoreTipsMeaning(s.tips, KeyHit(p.key), w);
    case None =>
  }

  /** Applying the same live update twice is the same as applying it once. */
  lemma {:induction false} LiveStepIdempotent(s: Scores, p: ProcessedGame)
    requires ScoresValid(s)
    ensures LiveStep(LiveStep(s, p), p) == LiveStep(s, p)
  {
    var r := LiveStep(s, p);
    match ScoringWinner(p)
    case Some(w) => TipsService.ScoreTipsMeaning(s.tips, KeyHit(p.key), w);
    case None =>
    assert LiveStep(r, p).mirror == r.mirror;
    assert LiveStep(r, p).games == r.games;
  }

  /** Over a whole run the constraints hold and an already scored tip keeps its verdict. */
  lemma {:induction false} LiveAllKeepsVerdicts(s: Scores, ps: seq<ProcessedGame>, k: nat)
    requires k <= |ps| && ScoresValid(s)
    ensures ScoresValid(LiveAll(s, ps, k)) && LiveAll(s, ps, k).tips.Keys == s.tips.Keys
    ensures forall t :: t in s.tips && s.tips[t].isCorrect.Some? ==> LiveAll(s, ps, k).tips[t] == s.tips[t]
  {
    if k > 0 {
      LiveAllKeepsVerdicts(s, ps, k - 1);
      LiveStepMeaning(LiveAll(s, ps, k - 1), ps[k - 1]);
    }
  }

  /** One iteration of the loop, written as the source's three UPDATEs. */
  method LiveOne(db: Database, p: ProcessedGame)
    requires db.Valid()
    modifies db
    ensures db.Valid()
    ensures ScoresOf(db) == LiveStep(old(ScoresOf(db)), p)
    ensures db.users == old(db.users) && db.groups == old(db.groups) && db.rounds == old(db.rounds)
    ensures db.nextRoundId == old(db.nextRoundId) && db.nextGameId == old(db.nextGameId) && db.nextTipId == old(db.nextTipId)
  {
    LiveStepKeepsIds(ScoresOf(db), p, db.nextGameId, db.nextTipId);
    db.mirror := MirrorScored(db.mirror, p);
    db.games := GamesScored(db.games, p);
    ScoreLiveTips(db, p);
  }

  /** The third UPDATE: a finished game with a winner scores its key's unscored tips. */
  method ScoreLiveTips(db: Database, p: ProcessedGame)
    modifies db
    ensures db.tips == TipsScored(old(db.tips), p)
    ensures db.users == old(db.users) && db.groups == old(db.groups) && db.rounds == old(db.rounds)
    ensures db.mirror == old(db.mirror) && db.games == old(db.games)
    ensures db.nextRoundId == old(db.nextRoundId) && db.nextGameId == old(db.nextGameId) && db.nextTipId == old(db.nextTipId)
  {
    var winner := ScoringWinner(p);
    if winner.Some? {
      db.tips := TipsService.ScoreTips(db.tips, KeyHit(p.key), winner.value);
    }
  }

  /** A live update keeps the key constraints and the AUTOINCREMENT bounds. */
  lemma LiveStepKeepsIds(s: Scores, p: ProcessedGame, nextGame: int, nextTip: int)
    requires ScoresValid(s) && GameIdsBelow(s.games, nextGame) && TipIdsBelow(s.tips, nextTip)
    ensures MirrorKeyed(MirrorScored(s.mirror, p))
    ensures GamesKeyed(GamesScored(s.games, p)) && GameIdsUnique(GamesScored(s.games, p))
    ensures GameIdsBelow(GamesScored(s.games, p), nextGame)
    ensures var t := TipsScored(s.tips, p); TipsKeyed(t) && TipIdsUnique(t) && TipIdsBelow(t, nextTip)
  {
    LiveStepMeaning(s, p);
  }

  /**
   * `updateLiveScores(year)`: `response` is what `fetchGames` gave (`None` when it threw,
   * which the source logs and swallows); the active processed games are applied in order.
   */
  method UpdateLiveScores(db: Database, year: int, response: Option<seq<SquiggleGame>>)
    requires db.Valid()
    modifies db
    ensures db.Valid()
    ensures response.None? ==> ScoresOf(db) == old(ScoresOf(db))
    ensures response.Some? ==>
              var active := ActiveGames(ProcessedOf(response.value, year));
              ScoresOf(db) == LiveAll(old(ScoresOf(db)), active, |active|)
    ensures db.users == old(db.users) && db.groups == old(db.groups) && db.rounds == old(db.rounds)
    ensures db.nextRoundId == old(db.nextRoundId) && db.nextGameId == old(db.nextGameId) && db.nextTipId == old(db.nextTipId)
  {
    if response.None? {
      return;
    }
    var processed := ProcessGames(response.value, year);
    var active := ActiveGames(processed);
    ghost var s0 := ScoresOf(db);
    var i := 0;
    while i < |active|
      invariant 0 <= i <= |active|
      invariant db.Valid()
      invariant ScoresOf(db) == LiveAll(s0, active, i)
      invariant db.users == old(db.users) && db.groups == old(db.groups) && db.rounds == old(db.rounds)
      invariant db.nextRoundId == old(db.nextRoundId) && db.nextGameId == old(db.nextGameId)
      invariant db.nextTipId == old(db.nextTipId)
    {
      LiveOne(db, active[i]);
      i := i + 1;
    }
  }

  // ---- the response caches of fetchGames and fetchTeams ----

  /** `defaultTTL`, `offSeasonTTL` and the teams TTL, in milliseconds. */
  const DefaultTtl: int := 5 * 60 * 1000
  const OffSeasonTtl: int := 60 * 60 * 1000
  const TeamsTtl: int := 24 * 60 * 60 * 1000

  /** `isGameDay()`: `day` is `getDay()` of the current date, 0 = Sunday, 6 = Saturday. */
  predicate IsGameDay(day: int)
  {
    day == 0 || day == 6
  }

  /** The TTL `fetchGames` gives a fresh response. */
  function GamesTtl(day: int): (ttl: int)
    ensures IsGameDay(day) ==> ttl == 300000
    ensures !IsGameDay(day) ==> ttl == 3600000
  {
    if IsGameDay(day) then DefaultTtl else OffSeasonTtl
  }

  datatype SquiggleTeam = SquiggleTeam(id: int, name: string, abbrev: string)

  datatype Cached<T> = Cached(timestamp: int, data: T, ttl: int)

  datatype FetchError = GamesRequestFailed | TeamsRequestFailed

  /** The answer of a fetch, and the entry it stores in the cache, if any. */
  datatype Outcome<T> = Outcome(result: Result<T, FetchError>, stored: Option<Cached<T>>)

  /** `games_${year}_${round || 'all'}`: round 0, like no round, is `all`. */
  function CacheKey(year: int, round: Option<int>): (key: string)
    ensures |key| >= 6 && key[..6] == "games_"
  {
    "games_" + IntToString(year) + "_" + (if round.Some? && round.value != 0 then IntToString(round.value) else "all")
  }

  lemma RoundZeroIsAll(year: int)
    ensures CacheKey(year, Some(0)) == CacheKey(year, None)
  {
  }

  /**
   * The decision both fetches make: a fresh entry is answered from the cache; otherwise
   * a response is stored (stamped `now`, with `ttl`) and returned; a failed request falls
   * back to the entry however old it is, and fails only when there is none.
   */
  function Lookup<T>(cached: Option<Cached<T>>, isFresh: bool, now: int, response: Option<T>, ttl: int, err: FetchError)
    : (o: Outcome<T>)
    requires isFresh ==> cached.Some?
    ensures o.result.Err? <==> !isFresh && response.None? && cached.None?
    ensures o.result.Err? ==> o.result.error == err
    ensures o.stored.Some? <==> !isFresh && response.Some?
    ensures o.stored.Some? ==> o.stored == Some(Cached(now, response.value, ttl)) && o.result == Ok(response.value)
    ensures o.result.Ok? && o.stored.None? ==> o.result == Ok(cached.value.data)
  {
    if isFresh then Outcome(Ok(cached.value.data), None)
    else if response.Some? then Outcome(Ok(response.value), Some(Cached(now, response.value, ttl)))
    else if cached.Some? then Outcome(Ok(cached.value.data), None)
    else Outcome(Err(err), None)
  }

  /** `cached && Date.now() - cached.timestamp < maxAge`. */
  predicate FreshFor<T>(cached: Option<Cached<T>>, now: int, maxAge: int)
  {
    cached.Some? && now - cached.value.timestamp < maxAge
  }

  function Get<T>(m: map<string, Cached<T>>, key: string): (c: Option<Cached<T>>)
    ensures c.Some? <==> key in m
    ensures c.Some? ==> c.value == m[key]
  {
    if key in m then Some(m[key]) else None
  }

  /**
   * Once a response is stored, every fetch of the same key before its TTL runs out is
   * answered with that response and stores nothing, whatever the network does.
   */
  lemma {:induction false} StoredIsServed<T>(o: Outcome<T>, later: int, response: Option<T>, ttl: int, err: FetchError)
    requires o.stored.Some? && o.stored.value.timestamp <= later < o.stored.value.timestamp + o.stored.value.ttl
    ensures var c := o.stored;
            var again := Lookup(c, FreshFor(c, later, c.value.ttl), later, response, ttl, err);
            again.result == Ok(c.value.data) && again.stored.None?
  {
    var c := o.stored;
    assert FreshFor(c, later, c.value.ttl);
  }

  class SquiggleCache {
    var gamesCache: map<string, Cached<seq<SquiggleGame>>>
    var teamsCache: map<string, Cached<seq<SquiggleTeam>>>

    /** Games entries are keyed `games_...`; the one teams entry is keyed `teams`, with the teams TTL. */
    ghost predicate Valid()
      reads this
    {
      (forall k :: k in gamesCache ==> |k| >= 6 && k[..6] == "games_")
      && (forall k :: k in teamsCache ==> k == "teams" && teamsCache[k].ttl == TeamsTtl)
    }

    constructor ()
      ensures Valid() && gamesCache == map[] && teamsCache == map[]
    {
      gamesCache, teamsCache := map[], map[];
    }

    /**
     * `fetchGames(year, round)`: `now` is `Date.now()`, `day` the weekday, and `response`
     * what the API returned (`None` when the request failed).
     */
    method FetchGames(year: int, round: Option<int>, now: int, day: int, response: Option<seq<SquiggleGame>>)
      returns (r: Result<seq<SquiggleGame>, FetchError>)
      requires Valid()
      modifies this
      ensures Valid()
      ensures var key := CacheKey(year, round);
              var c := Get(old(gamesCache), key);
              var o := Lookup(c, FreshFor(c, now, if c.Some? then c.value.ttl else 0), now, response, GamesTtl(day), GamesRequestFailed);
              r == o.result
              && gamesCache == (if o.stored.Some? then old(gamesCache)[key := o.stored.value] else old(gamesCache))
      ensures teamsCache == old(teamsCache)
    {
      var key := CacheKey(year, round);
      if key in gamesCache && now - gamesCache[key].timestamp < gamesCache[key].ttl {
        return Ok(gamesCache[key].data);
      }
      if response.Some? {
        gamesCache := gamesCache[key := Cached(now, response.value, GamesTtl(day))];
        return Ok(response.value);
      }
      if key in gamesCache {
        return Ok(gamesCache[key].data);
      }
      return Err(GamesRequestFailed);
    }

    /** `fetchTeams()`: as `FetchGames`, under the one key `teams`, with a fixed 24-hour TTL. */
    method FetchTeams(now: int, response: Option<seq<SquiggleTeam>>) returns (r: Result<seq<SquiggleTeam>, FetchError>)
      requires Valid()
      modifies this
      ensures Valid()
      ensures var c := Get(old(teamsCache), "teams");
              var o := Lookup(c, FreshFor(c, now, TeamsTtl), now, response, TeamsTtl, TeamsRequestFailed);
              r == o.result
              && teamsCache == (if o.stored.Some? then old(teamsCache)["teams" := o.stored.value] else old(teamsCache))
      ensures gamesCache == old(gamesCache)
    {
      var key := "teams";
      if key in teamsCache && now - teamsCache[key].timestamp < TeamsTtl {
        return Ok(teamsCache[key].data);
      }
      if response.Some? {
        teamsCache := teamsCache[key := Cached(now, response.value, TeamsTtl)];
        return Ok(response.value);
      }
      if key in teamsCache {
        return Ok(teamsCache[key].data);
      }
      return Err(TeamsRequestFailed);
    }

    /** `clearCache()`. */
    method ClearCache()
      modifies this
      ensures Valid() && gamesCache == map[] && teamsCache == map[]
    {
      gamesCache := map[];
      teamsCache := map[];
    }

    /** `getCacheStats()`: the two caches' keys never clash, so the size counts each listed key once. */
    method CacheStats() returns (size: nat, keys: set<string>)
      requires Valid()
      ensures keys == gamesCache.Keys + teamsCache.Keys
      ensures size == |gamesCache| + |teamsCache| == |keys|
    {
      assert gamesCache.Keys !! teamsCache.Keys by {
        forall k | k in teamsCache ensures k !in gamesCache {
          assert |k| == 5;
        }
      }
      keys := gamesCache.Keys + teamsCache.Keys;
      size := |gamesCache| + |teamsCache|;
    }
  }
}
