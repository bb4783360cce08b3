/**
 * The history page's logic: sorting the year's rounds into the three groups of the
 * round picker, building the user-by-game tips matrix, and deciding whether the
 * selected round is still before its lockout. "Now" is a parameter; the data the
 * page fetches (`rounds`, `roundGames`, `allTips`, `allUsers`) arrive as `Option`s,
 * `None` standing for data not loaded yet.
 */
module HistoryPage {
  import opened Wrappers
  import opened Sorting
  import opened Store
  import opened Countdown

  /** A row of the rounds list: a round together with its `game_count`. */
  datatype RoundRow = RoundRow(id: int, roundNumber: int, status: RoundStatus, lockoutTime: Option<int>, gameCount: Option<int>)

  // ---------------------------------------------------------------------------
  // organizeRoundsByStatus
  // ---------------------------------------------------------------------------

  datatype Bucket = CompletedBucket | ActiveBucket | UpcomingBucket

  /** `round.game_count && round.game_count > 0`: a missing or zero count drops the round. */
  predicate HasGames(r: RoundRow)
  {
    r.gameCount.Some? && r.gameCount.value > 0
  }

  /**
   * The group a round is listed in: completed and active rounds by their status, an
   * upcoming round among the upcoming ones only while its lockout is still ahead,
   * and among the active ones otherwise.
   */
  function BucketOf(r: RoundRow, now: int): (b: Bucket)
    ensures b == CompletedBucket <==> r.status == Completed
    ensures b == UpcomingBucket <==> r.status == Upcoming && r.lockoutTime.Some? && r.lockoutTime.value > now
  {
    match r.status
    case Completed => CompletedBucket
    case Active => ActiveBucket
    case Upcoming => if r.lockoutTime.Some? && r.lockoutTime.value > now then UpcomingBucket else ActiveBucket
  }

  /** The rounds among the first `k` of `rs` that go to group `b`, in order. */
  function Bucketed(rs: seq<RoundRow>, k: nat, b: Bucket, now: int): (r: seq<RoundRow>)
    requires k <= |rs|
    ensures |r| <= k
  {
    if k == 0 then []
    else if BucketOf(rs[k - 1], now) == b then Bucketed(rs, k - 1, b, now) + [rs[k - 1]]
    else Bucketed(rs, k - 1, b, now)
  }

  /**
   * `organizeRoundsByStatus()`: without rounds, three empty groups; otherwise the
   * rounds that have games, pushed one by one onto the group each belongs to.
   */
  method OrganizeRoundsByStatus(rounds: Option<seq<RoundRow>>, now: int)
    returns (completed: seq<RoundRow>, active: seq<RoundRow>, upcoming: seq<RoundRow>)
    ensures rounds.None? ==> completed == [] && active == [] && upcoming == []
    ensures rounds.Some? ==>
      var withGames := Filter(rounds.value, HasGames);
      completed == Bucketed(withGames, |withGames|, CompletedBucket, now)
      && active == Bucketed(withGames, |withGames|, ActiveBucket, now)
      && upcoming == Bucketed(withGames, |withGames|, UpcomingBucket, now)
  {
    completed, active, upcoming := [], [], [];
    if rounds.None? {
      return;
    }
    var withGames := Filter(rounds.value, HasGames);
    var i := 0;
    while i < |withGames|
      invariant 0 <= i <= |withGames|
      invariant completed == Bucketed(withGames, i, CompletedBucket, now)
      invariant active == Bucketed(withGames, i, ActiveBucket, now)
      invariant upcoming == Bucketed(withGames, i, UpcomingBucket, now)
    {
      var round := withGames[i];
      if round.status == Completed {
        completed := completed + [round];
      } else if round.status == Active {
        active := active + [round];
      } else {
        if round.lockoutTime.Some? && round.lockoutTime.value > now {
          upcoming := upcoming + [round];
        } else {
          active := active + [round];
        }
      }
      i := i + 1;
    }
  }

  /** A round lands in group `b` exactly when it is among the first `k` and belongs to `b`. */
  lemma {:induction false} BucketedMembers(rs: seq<RoundRow>, k: nat, b: Bucket, now: int, x: RoundRow)
    requires k <= |rs|
    ensures x in Bucketed(rs, k, b, now) <==> x in rs[..k] && BucketOf(x, now) == b
  {
    if k > 0 {
      BucketedMembers(rs, k - 1, b, now, x);
      assert rs[..k] == rs[..k - 1] + [rs[k - 1]];
    }
  }

  /** The three groups share out the first `k` rounds: together they hold each of them once. */
  lemma {:induction false} BucketsPartition(rs: seq<RoundRow>, k: nat, now: int)
    requires k <= |rs|
    ensures multiset(Bucketed(rs, k, CompletedBucket, now)) + multiset(Bucketed(rs, k, ActiveBucket, now))
            + multiset(Bucketed(rs, k, UpcomingBucket, now)) == multiset(rs[..k])
  {
    if k > 0 {
      BucketsPartition(rs, k - 1, now);
      assert rs[..k] == rs[..k - 1] + [rs[k - 1]];
    }
  }

  /**
   * Each round of the list shows in the picker exactly when it has games, and then in
   * the one group its status and lockout choose; the groups hold as many rounds as
   * have games.
   */
  lemma {:induction false} RoundsOrganized(rounds: seq<RoundRow>, now: int, x: RoundRow, b: Bucket)
    ensures var withGames := Filter(rounds, HasGames);
            x in Bucketed(withGames, |withGames|, b, now) <==> x in rounds && HasGames(x) && BucketOf(x, now) == b
    ensures var withGames := Filter(rounds, HasGames);
            |Bucketed(withGames, |withGames|, CompletedBucket, now)| + |Bucketed(withGames, |withGames|, ActiveBucket, now)|
            + |Bucketed(withGames, |withGames|, UpcomingBucket, now)| == |withGames|
  {
    var withGames := Filter(rounds, HasGames);
    BucketedMembers(withGames, |withGames|, b, now, x);
    assert withGames[..|withGames|] == withGames;
    FilterMembers(rounds, HasGames);
    BucketsPartition(withGames, |withGames|, now);
    var c := Bucketed(withGames, |withGames|, CompletedBucket, now);
    var a := Bucketed(withGames, |withGames|, ActiveBucket, now);
    var u := Bucketed(withGames, |withGames|, UpcomingBucket, now);
    assert |multiset(c) + multiset(a) + multiset(u)| == |multiset(withGames)|;
  }

  // ---------------------------------------------------------------------------
  // createTipsMatrix
  // ---------------------------------------------------------------------------

  /** A user as the users list returns it: the group name may come flat or nested. */
  datatype Member = Member(id: int, name: string, familyGroupName: Option<string>, familyGroup: Option<string>)

  /** A row header of the matrix. */
  datatype MatrixUser = MatrixUser(id: int, name: string, familyGroup: Option<string>)

  /** The matrix: user id to game id to the tip, `None` where the user has not tipped. */
  type Matrix = map<int, map<int, Option<Tip>>>

  /** `user.family_group_name || user.family_group?.name`: an empty flat name falls through to the nested one. */
  function FamilyGroupOf(m: Member): (g: Option<string>)
    ensures m.familyGroupName.Some? && m.familyGroupName.value != "" ==> g == m.familyGroupName
    ensures m.familyGroupName.None? || m.familyGroupName.value == "" ==> g == m.familyGroup
  {
    if m.familyGroupName.Some? && m.familyGroupName.value != "" then m.familyGroupName else m.familyGroup
  }

  function HeaderOf(m: Member): MatrixUser
  {
    MatrixUser(m.id, m.name, FamilyGroupOf(m))
  }

  function StartOf(g: Game): int
  {
    g.startTime
  }

  /** The row every user starts with: each of the first `j` games, untipped. */
  function BlankRow(games: seq<Game>, j: nat): map<int, Option<Tip>>
    requires j <= |games|
  {
    if j == 0 then map[] else BlankRow(games, j - 1)[games[j - 1].id := None]
  }

  /** The blank row has a cell, holding no tip, for each of the first `j` games and no other. */
  lemma {:induction false} BlankRowCells(games: seq<Game>, j: nat, g: int)
    requires j <= |games|
    ensures g in BlankRow(games, j) <==> exists i :: 0 <= i < j && games[i].id == g
    ensures g in BlankRow(games, j) ==> BlankRow(games, j)[g] == None
  {
    if j > 0 {
      BlankRowCells(games, j - 1, g);
    }
  }

  /** The matrix once the first `k` users have each been given `row`. */
  function BlankMatrix(users: seq<MatrixUser>, k: nat, row: map<int, Option<Tip>>): Matrix
    requires k <= |users|
  {
    if k == 0 then map[] else BlankMatrix(users, k - 1, row)[users[k - 1].id := row]
  }

  /** The blank matrix gives `row` to each of the first `k` users and has no other row. */
  lemma {:induction false} BlankMatrixRows(users: seq<MatrixUser>, k: nat, row: map<int, Option<Tip>>, u: int)
    requires k <= |users|
    ensures u in BlankMatrix(users, k, row) <==> exists i :: 0 <= i < k && users[i].id == u
    ensures u in BlankMatrix(users, k, row) ==> BlankMatrix(users, k, row)[u] == row
  {
    if k > 0 {
      BlankMatrixRows(users, k - 1, row, u);
    }
  }

  /** The matrix after the first `k` tips: a tip is written only into the row of a listed user. */
  function Filled(m: Matrix, tips: seq<Tip>, k: nat): Matrix
    requires k <= |tips|
  {
    if k == 0 then m
    else
      var before := Filled(m, tips, k - 1);
      var t := tips[k - 1];
      if t.userId in before then before[t.userId := before[t.userId][t.gameId := Some(t)]] else before
  }

  /** The last of the first `k` tips that user `u` made on game `g`. */
  function LastTip(tips: seq<Tip>, k: nat, u: int, g: int): Option<Tip>
    requires k <= |tips|
  {
    if k == 0 then None
    else if tips[k - 1].userId == u && tips[k - 1].gameId == g then Some(tips[k - 1])
    else LastTip(tips, k - 1, u, g)
  }

  /** Whether tip `t` was made by user `u` on game `g`. */
  predicate TipFor(t: Tip, u: int, g: int)
  {
    t.userId == u && t.gameId == g
  }

  /**
   * There is no last tip exactly when none of the first `k` is for that user and
   * game; otherwise it is one of them, for that user and game, and no later one is.
   */
  lemma {:induction false} LastTipMeaning(tips: seq<Tip>, k: nat, u: int, g: int)
    requires k <= |tips|
    ensures LastTip(tips, k, u, g).None? <==> forall i :: 0 <= i < k ==> !TipFor(tips[i], u, g)
    ensures LastTip(tips, k, u, g).Some? ==>
              exists i :: 0 <= i < k && tips[i] == LastTip(tips, k, u, g).value && TipFor(tips[i], u, g)
                          && forall j :: i < j < k ==> !TipFor(tips[j], u, g)
  {
    if k > 0 && !TipFor(tips[k - 1], u, g) {
      LastTipMeaning(tips, k - 1, u, g);
      if LastTip(tips, k, u, g).Some? {
        var i :| 0 <= i < k - 1 && tips[i] == LastTip(tips, k, u, g).value && TipFor(tips[i], u, g)
                 && forall j :: i < j < k - 1 ==> !TipFor(tips[j], u, g);
        assert forall j :: i < j < k ==> !TipFor(tips[j], u, g);
      }
    }
  }

  /**
   * `createTipsMatrix()`: without games or users, all empty. Otherwise the users'
   * headers, the games in a copy sorted by start time, and the matrix that gives
   * every user a row with every game untipped and then writes each tip, in order,
   * into the row of its user when that user is listed.
   */
  method CreateTipsMatrix(allUsers: Option<seq<Member>>, roundGames: Option<seq<Game>>, allTips: Option<seq<Tip>>)
    returns (users: seq<MatrixUser>, games: seq<Game>, matrix: Matrix)
    ensures roundGames.None? || allUsers.None? ==> users == [] && games == [] && matrix == map[]
    ensures roundGames.Some? && allUsers.Some? ==>
      && |users| == |allUsers.value|
      && (forall i :: 0 <= i < |users| ==> users[i] == HeaderOf(allUsers.value[i]))
      && games == SortByKey(roundGames.value, StartOf)
      && var blank := BlankMatrix(users, |users|, BlankRow(games, |games|));
         matrix == if allTips.None? then blank else Filled(blank, allTips.value, |allTips.value|)
  {
    if roundGames.None? || allUsers.None? {
      return [], [], map[];
    }
    users := seq(|allUsers.value|, i requires 0 <= i < |allUsers.value| => HeaderOf(allUsers.value[i]));
    games := SortByKey(roundGames.value, StartOf);
    matrix := InitializeMatrix(users, games);
    if allTips.Some? {
      matrix := FillTips(matrix, allTips.value);
    }
  }

  /** The `users.forEach` that gives each user a row with every game set to no tip. */
  method InitializeMatrix(users: seq<MatrixUser>, games: seq<Game>) returns (matrix: Matrix)
    ensures matrix == BlankMatrix(users, |users|, BlankRow(games, |games|))
  {
    ghost var row := BlankRow(games, |games|);
    matrix := map[];
    var i := 0;
    while i < |users|
      invariant 0 <= i <= |users|
      invariant matrix == BlankMatrix(users, i, row)
    {
      var id := users[i].id;
      matrix := matrix[id := map[]];
      var j := 0;
      while j < |games|
        invariant 0 <= j <= |games|
        invariant matrix == BlankMatrix(users, i, row)[id := BlankRow(games, j)]
      {
        matrix := matrix[id := matrix[id][games[j].id := None]];
        j := j + 1;
      }
      i := i + 1;
    }
  }

  /** The `allTips.forEach` that writes each tip into the row of its user, when there is one. */
  method FillTips(blank: Matrix, tips: seq<Tip>) returns (matrix: Matrix)
    ensures matrix == Filled(blank, tips, |tips|)
  {
    matrix := blank;
    var k := 0;
    while k < |tips|
      invariant 0 <= k <= |tips|
      invariant matrix == Filled(blank, tips, k)
    {
      var tip := tips[k];
      if tip.userId in matrix {
        matrix := matrix[tip.userId := matrix[tip.userId][tip.gameId := Some(tip)]];
      }
      k := k + 1;
    }
  }

  /**
   * Writing tips leaves the set of rows alone; a cell holds the last tip written to
   * it, or what it held before when there was none, and a row gains the cells of the
   * games its user tipped.
   */
  lemma {:induction false} FilledCells(m: Matrix, tips: seq<Tip>, k: nat, u: int, g: int)
    requires k <= |tips|
    ensures u in Filled(m, tips, k) <==> u in m
    ensures u in m ==> (g in Filled(m, tips, k)[u] <==> g in m[u] || LastTip(tips, k, u, g).Some?)
    ensures u in m && g in Filled(m, tips, k)[u] ==>
              Filled(m, tips, k)[u][g] == if LastTip(tips, k, u, g).Some? then LastTip(tips, k, u, g) else m[u][g]
  {
    if k > 0 {
      FilledCells(m, tips, k - 1, u, g);
    }
  }

  /**
   * The matrix's meaning: it has a row for each listed user and no other; in that
   * row a cell for every game of the round and for every game the user tipped; and
   * each cell holds the user's last tip on that game, `None` when there is none.
   */
  lemma {:induction false} TipsMatrixCells(users: seq<MatrixUser>, games: seq<Game>, tips: seq<Tip>, u: int, g: int)
    ensures var m := Filled(BlankMatrix(users, |users|, BlankRow(games, |games|)), tips, |tips|);
            (u in m <==> exists i :: 0 <= i < |users| && users[i].id == u)
            && (u in m ==> (g in m[u] <==> (exists i :: 0 <= i < |games| && games[i].id == g) || LastTip(tips, |tips|, u, g).Some?))
            && (u in m && g in m[u] ==> m[u][g] == LastTip(tips, |tips|, u, g))
  {
    var row := BlankRow(games, |games|);
    var blank := BlankMatrix(users, |users|, row);
    FilledCells(blank, tips, |tips|, u, g);
    BlankMatrixRows(users, |users|, row, u);
    BlankRowCells(games, |games|, g);
  }

  // ---------------------------------------------------------------------------
  // isRoundInLockout and getLockoutTime
  // ---------------------------------------------------------------------------

  /** `roundGames.sort(byStartTime)`: the array's own elements are reordered by start time. */
  method SortByStart(a: array<Game>)
    modifies a
    ensures a[..] == SortByKey(old(a[..]), StartOf)
  {
    var sorted := SortByKey(a[..], StartOf);
    forall i | 0 <= i < a.Length {
      a[i] := sorted[i];
    }
    assert a[..] == sorted;
  }

  /** The start time of the first game once sorted: the earliest start time. */
  function EarliestStart(games: seq<Game>): (t: int)
    requires games != []
    ensures exists g :: g in games && g.startTime == t
    ensures forall g :: g in games ==> t <= g.startTime
  {
    var sorted := SortByKey(games, StartOf);
    assert sorted[0] in multiset(sorted);
    forall g | g in games ensures sorted[0].startTime <= g.startTime {
      assert g in multiset(games);
      var j := IndexOf(sorted, g);
      assert 0 < j ==> StartOf(sorted[0]) <= StartOf(sorted[j]);
    }
    sorted[0].startTime
  }

  /** `rounds?.find(r => r.id === id)`: the first round with that id. */
  function FindRound(rounds: seq<RoundRow>, id: int): (r: Option<RoundRow>)
    ensures r.None? <==> forall i :: 0 <= i < |rounds| ==> rounds[i].id != id
    ensures r.Some? ==> exists i :: 0 <= i < |rounds| && rounds[i] == r.value && r.value.id == id
                          && forall j :: 0 <= j < i ==> rounds[j].id != id
  {
    if rounds == [] then None
    else if rounds[0].id == id then Some(rounds[0])
    else
      var r := FindRound(rounds[1..], id);
      assert forall i :: 1 <= i < |rounds| ==> rounds[i] == rounds[1..][i - 1];
      r
  }

  /** `!selectedRound`: no round picked yet, or the falsy id 0. */
  predicate Picked(selected: Option<int>)
  {
    selected.Some? && selected.value != 0
  }

  /** The round picked, when it is among the loaded rounds. */
  function PickedRound(selected: Option<int>, rounds: Option<seq<RoundRow>>): Option<RoundRow>
  {
    if !Picked(selected) || rounds.None? then None else FindRound(rounds.value, selected.value)
  }

  /** `getLockoutTime()` on the games' contents: two hours before the earliest game. */
  function LockoutFromGames(games: Option<seq<Game>>): Option<int>
  {
    if games.None? || games.value == [] then None else Some(CalculateLockoutTime(EarliestStart(games.value)))
  }

  /** `isRoundInLockout()` on the games' contents. */
  predicate InLockout(selected: Option<int>, rounds: Option<seq<RoundRow>>, games: Option<seq<Game>>, now: int)
  {
    Picked(selected) && games.Some? && games.value != []
    && PickedRound(selected, rounds).Some? && PickedRound(selected, rounds).value.status == Upcoming
    && now < CalculateLockoutTime(EarliestStart(games.value))
  }

  /** The contents of a fetched array, `None` while it is not loaded. */
  function Contents(a: Option<array<Game>>): Option<seq<Game>>
    reads if a.Some? then {a.value} else {}
  {
    if a.None? then None else Some(a.value[..])
  }

  /**
   * `isRoundInLockout()`: false unless a round is picked, its games are loaded and
   * not empty, and the picked round is found with status upcoming; only then are the
   * games sorted in place by start time, and the answer is whether now is before the
   * lockout two hours ahead of the first of them.
   */
  method IsRoundInLockout(selected: Option<int>, rounds: Option<seq<RoundRow>>, roundGames: Option<array<Game>>, now: int)
    returns (locked: bool)
    modifies if roundGames.Some? then {roundGames.value} else {}
    ensures locked == InLockout(selected, rounds, old(Contents(roundGames)), now)
    ensures roundGames.Some? ==>
      roundGames.value[..] == if Picked(selected) && old(roundGames.value[..]) != [] && PickedRound(selected, rounds).Some?
                                 && PickedRound(selected, rounds).value.status == Upcoming
                              then SortByKey(old(roundGames.value[..]), StartOf) else old(roundGames.value[..])
  {
    if !Picked(selected) || roundGames.None? || roundGames.value.Length == 0 {
      return false;
    }
    var found := PickedRound(selected, rounds);
    if found.None? || found.value.status != Upcoming {
      return false;
    }
    var a := roundGames.value;
    SortByStart(a);
    var firstGame := a[0];
    assert EarliestStart(old(a[..])) == firstGame.startTime by {
      assert forall g :: g in old(a[..]) ==> g in multiset(a[..]);
      assert firstGame in multiset(old(a[..]));
    }
    var lockoutTime := CalculateLockoutTime(firstGame.startTime);
    return now < lockoutTime;
  }

  /**
   * `getLockoutTime()`: nothing without loaded games or with none; otherwise the
   * games are sorted in place by start time and the lockout is two hours before the
   * first of them.
   */
  method GetLockoutTime(roundGames: Option<array<Game>>) returns (lockout: Option<int>)
    modifies if roundGames.Some? then {roundGames.value} else {}
    ensures lockout == LockoutFromGames(old(Contents(roundGames)))
    ensures roundGames.Some? ==> roundGames.value[..] == SortByKey(old(roundGames.value[..]), StartOf)
  {
    if roundGames.None? || roundGames.value.Length == 0 {
      if roundGames.Some? {
        assert roundGames.value[..] == [];
        assert SortByKey(roundGames.value[..], StartOf) == [];
      }
      return None;
    }
    var a := roundGames.value;
    SortByStart(a);
    var firstGame := a[0];
    assert EarliestStart(old(a[..])) == firstGame.startTime by {
      assert forall g :: g in old(a[..]) ==> g in multiset(a[..]);
      assert firstGame in multiset(old(a[..]));
    }
    return Some(CalculateLockoutTime(firstGame.startTime));
  }

  /**
   * The lockout shown is two hours before the earliest game: no game of the round
   * starts less than two hours after it, and one starts exactly two hours after it.
   */
  lemma {:induction false} LockoutBeforeEveryGame(games: seq<Game>)
    requires games != []
    ensures LockoutFromGames(Some(games)).Some?
    ensures forall g :: g in games ==> LockoutFromGames(Some(games)).value + LockoutLead <= g.startTime
    ensures exists g :: g in games && LockoutFromGames(Some(games)).value + LockoutLead == g.startTime
  {
    var t := EarliestStart(games);
    assert LockoutFromGames(Some(games)).value + LockoutLead == t;
  }

  /**
   * The picked round is in its lockout period exactly when it is found upcoming and
   * now is before the lockout `getLockoutTime()` reports, that is, more than two hours
   * before every one of its games.
   */
  lemma {:induction false} InLockoutMeaning(selected: Option<int>, rounds: Option<seq<RoundRow>>, games: Option<seq<Game>>, now: int)
    ensures InLockout(selected, rounds, games, now) <==>
              PickedRound(selected, rounds).Some? && PickedRound(selected, rounds).value.status == Upcoming
              && LockoutFromGames(games).Some? && now < LockoutFromGames(games).value
    ensures InLockout(selected, rounds, games, now) <==>
              PickedRound(selected, rounds).Some? && PickedRound(selected, rounds).value.status == Upcoming
              && games.Some? && games.value != [] && forall g :: g in games.value ==> now + LockoutLead < g.startTime
  {
    if games.Some? && games.value != [] {
      var t := EarliestStart(games.value);
      var g0 :| g0 in games.value && g0.startTime == t;
    }
  }
}
