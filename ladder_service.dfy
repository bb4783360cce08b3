/**
 * LadderService: the season ladder, one user's rank, head-to-head tallies, family
 * group standings and streaks, all computed from the users, rounds, games and tips.
 */
module LadderService {
  import opened Wrappers
  import opened Store
  import opened Sorting

  /** The keys of every tip `u` has made, in any year. */
  function UserTips(tips: map<(int, int), Tip>, u: int): (ks: set<(int, int)>)
    ensures ks <= tips.Keys
    ensures forall k :: k in ks ==> k.0 == u
  {
    set k | k in tips && k.0 == u
  }

  /** The tip's round exists and is of `year` (`LEFT JOIN rounds r2 ... WHERE r2.year = ?`). */
  predicate InYear(rounds: map<(int, int), Round>, t: Tip, year: int)
    requires RoundIdsUnique(rounds)
  {
    RoundById(rounds, t.roundId).Some? && RoundById(rounds, t.roundId).value.year == year
  }

  /** The keys of `u`'s tips in rounds of `year`. */
  function YearTips(tips: map<(int, int), Tip>, rounds: map<(int, int), Round>, u: int, year: int): (ks: set<(int, int)>)
    requires RoundIdsUnique(rounds)
    ensures ks <= UserTips(tips, u)
    ensures forall k :: k in ks <==> k in tips && k.0 == u && InYear(rounds, tips[k], year)
  {
    set k | k in tips && k.0 == u && InYear(rounds, tips[k], year)
  }

  predicate HasYearTip(tips: map<(int, int), Tip>, rounds: map<(int, int), Round>, u: int, year: int)
    requires RoundIdsUnique(rounds)
  {
    exists k :: k in tips && k.0 == u && InYear(rounds, tips[k], year)
  }

  /** The users listed on the ladder: existing users with a tip in a round of the year. */
  function Eligible(users: map<int, User>, tips: map<(int, int), Tip>, rounds: map<(int, int), Round>, year: int): (e: set<int>)
    requires RoundIdsUnique(rounds)
    ensures e <= users.Keys
    ensures forall u :: u in e <==> u in users && HasYearTip(tips, rounds, u, year)
  {
    set u | u in users && HasYearTip(tips, rounds, u, year)
  }

  /** A competitor's counts; `id` and `name` are a user's or a family group's. */
  datatype Standing = Standing(id: int, name: string, tally: Tally)

  /** A user's counts cover all their tips, whatever the year (the year test sits in a LEFT JOIN). */
  function StandingOf(users: map<int, User>, tips: map<(int, int), Tip>, u: int): (s: Standing)
    requires u in users
    ensures s.id == u && s.name == users[u].name
    ensures s.tally.total == |UserTips(tips, u)|
  {
    Standing(u, users[u].name, TallyOf(tips, UserTips(tips, u)))
  }

  /** `ORDER BY correct_tips DESC, percentage DESC, name ASC`: `a` is listed before `b`. */
  predicate Outranks(a: Standing, b: Standing)
  {
    a.tally.correct > b.tally.correct
    || (a.tally.correct == b.tally.correct && Percentage(a.tally) > Percentage(b.tally))
    || (a.tally.correct == b.tally.correct && Percentage(a.tally) == Percentage(b.tally) && StrLess(a.name, b.name))
  }

  predicate ListedNoLater(a: Standing, b: Standing)
  {
    !Outranks(b, a)
  }

  lemma {:induction false} OutranksAsymmetric(a: Standing, b: Standing)
    ensures !(Outranks(a, b) && Outranks(b, a))
  {
    if StrLess(a.name, b.name) && StrLess(b.name, a.name) {
      StrLessTransitive(a.name, b.name, a.name);
      StrLessIrreflexive(a.name);
    }
  }

  /** Two standings with different names are ordered one way or the other. */
  lemma {:induction false} OutranksTotal(a: Standing, b: Standing)
    requires a.name != b.name
    ensures Outranks(a, b) || Outranks(b, a)
  {
    StrLessTotal(a.name, b.name);
  }

  lemma {:induction false} OutranksNegativelyTransitive(a: Standing, b: Standing, c: Standing)
    requires Outranks(c, a)
    ensures Outranks(c, b) || Outranks(b, a)
  {
    if c.tally.correct == a.tally.correct && Percentage(c.tally) == Percentage(a.tally)
       && b.tally.correct == a.tally.correct && Percentage(b.tally) == Percentage(a.tally)
       && b.name != c.name && b.name != a.name {
      StrLessTotal(b.name, c.name);
      if StrLess(b.name, c.name) {
        StrLessTransitive(b.name, c.name, a.name);
      }
    }
  }

  /** The ladder order is a total preorder, so the stable sort orders by it. */
  lemma LadderOrderIsPreorder()
    ensures TotalPreorder((a: Standing, b: Standing) => ListedNoLater(a, b))
  {
    forall a: Standing, b: Standing ensures ListedNoLater(a, b) || ListedNoLater(b, a) {
      OutranksAsymmetric(a, b);
    }
    forall a: Standing, b: Standing, c: Standing | ListedNoLater(a, b) && ListedNoLater(b, c)
      ensures ListedNoLater(a, c)
    {
      if Outranks(c, a) {
        OutranksNegativelyTransitive(a, b, c);
      }
    }
  }

  /** The standings of the users `ids`, in that order. */
  function StandingsOfUsers(users: map<int, User>, tips: map<(int, int), Tip>, ids: seq<int>): (s: seq<Standing>)
    requires forall i :: 0 <= i < |ids| ==> ids[i] in users
    ensures |s| == |ids|
    ensures forall i :: 0 <= i < |s| ==> s[i] == StandingOf(users, tips, ids[i])
  {
    if ids == [] then [] else [StandingOf(users, tips, ids[0])] + StandingsOfUsers(users, tips, ids[1..])
  }

  /** The eligible users in ascending id order, with their standings. */
  function EligibleStandings(users: map<int, User>, tips: map<(int, int), Tip>, rounds: map<(int, int), Round>, year: int)
    : (s: seq<Standing>)
    requires RoundIdsUnique(rounds)
    ensures |s| == |Eligible(users, tips, rounds, year)|
    ensures forall i :: 0 <= i < |s| ==>
              s[i].id in Eligible(users, tips, rounds, year) && s[i] == StandingOf(users, tips, s[i].id)
    ensures forall u :: u in Eligible(users, tips, rounds, year) ==> exists i :: 0 <= i < |s| && s[i].id == u
    ensures Distinct(s)
  {
    var e := Eligible(users, tips, rounds, year);
    var ids := SortedInts(e);
    SortedIntsMembers(e);
    var s := StandingsOfUsers(users, tips, ids);
    StandingsOfUsersDistinct(users, tips, ids);
    forall u | u in e ensures exists i :: 0 <= i < |s| && s[i].id == u {
      var i := SortedIndex(e, u);
      assert s[i].id == u;
    }
    s
  }

  /** Standings of users in ascending id order are distinct, each carrying its user's id. */
  lemma StandingsOfUsersDistinct(users: map<int, User>, tips: map<(int, int), Tip>, ids: seq<int>)
    requires forall i :: 0 <= i < |ids| ==> ids[i] in users
    requires StrictlyIncreasing(ids)
    ensures forall i :: 0 <= i < |ids| ==> StandingsOfUsers(users, tips, ids)[i].id == ids[i]
    ensures Distinct(StandingsOfUsers(users, tips, ids))
  {
    var s := StandingsOfUsers(users, tips, ids);
    forall i, j | 0 <= i < j < |s| ensures s[i] != s[j] {
      assert s[i].id == ids[i] < ids[j] == s[j].id;
    }
  }

  predicate LadderSorted(r: seq<Standing>)
  {
    forall i, j :: 0 <= i < j < |r| ==> ListedNoLater(r[i], r[j])
  }

  /** Every row is the standing of a distinct user, so (names being UNIQUE) the names differ. */
  lemma {:induction false} RowNamesDiffer(users: map<int, User>, tips: map<(int, int), Tip>, r: seq<Standing>)
    requires UsersKeyed(users) && UserNamesUnique(users)
    requires forall i :: 0 <= i < |r| ==> r[i].id in users && r[i] == StandingOf(users, tips, r[i].id)
    requires Distinct(r)
    ensures forall i, j :: 0 <= i < j < |r| ==> r[i].name != r[j].name
  {
    forall i, j | 0 <= i < j < |r| ensures r[i].name != r[j].name {
      assert r[i] != r[j];
    }
  }

  /** Rows in ladder order with distinct names are in strict order. */
  lemma {:induction false} LadderSortedStrictly(r: seq<Standing>)
    requires LadderSorted(r)
    requires forall i, j :: 0 <= i < j < |r| ==> r[i].name != r[j].name
    ensures forall i, j :: 0 <= i < j < |r| ==> Outranks(r[i], r[j])
  {
    forall i, j | 0 <= i < j < |r| ensures Outranks(r[i], r[j]) {
      assert ListedNoLater(r[i], r[j]);
      OutranksTotal(r[i], r[j]);
    }
  }

  /** Sorting the standings by the ladder order. */
  function SortStandings(s: seq<Standing>): (r: seq<Standing>)
    ensures multiset(r) == multiset(s) && |r| == |s|
    ensures LadderSorted(r)
  {
    var le := (a: Standing, b: Standing) => ListedNoLater(a, b);
    LadderOrderIsPreorder();
    var r := SortWith(s, le);
    assert forall i, j :: 0 <= i < j < |r| ==> le(r[i], r[j]);
    r
  }

  /** A reordering of the eligible users' standings still lists each of them once with their own counts. */
  lemma ReorderedStandings(users: map<int, User>, tips: map<(int, int), Tip>, rounds: map<(int, int), Round>, year: int,
                           s: seq<Standing>, r: seq<Standing>)
    requires RoundIdsUnique(rounds) && s == EligibleStandings(users, tips, rounds, year)
    requires multiset(r) == multiset(s) && |r| == |s|
    ensures forall i :: 0 <= i < |r| ==>
              r[i].id in Eligible(users, tips, rounds, year) && r[i] == StandingOf(users, tips, r[i].id)
    ensures forall u :: u in Eligible(users, tips, rounds, year) ==> exists i :: 0 <= i < |r| && r[i].id == u
    ensures Distinct(r)
  {
    PermutationMembers(s, r);
    PermutationDistinct(s, r);
    forall i | 0 <= i < |r|
      ensures r[i].id in Eligible(users, tips, rounds, year) && r[i] == StandingOf(users, tips, r[i].id)
    {
      var j := IndexOf(s, r[i]);
    }
    forall u | u in Eligible(users, tips, rounds, year) ensures exists i :: 0 <= i < |r| && r[i].id == u {
      var i :| 0 <= i < |s| && s[i].id == u;
      assert s[i] in r;
    }
  }

  /** The ladder's rows in order: exactly the eligible users, each once with their own counts. */
  function SortedStandings(users: map<int, User>, tips: map<(int, int), Tip>, rounds: map<(int, int), Round>, year: int)
    : (r: seq<Standing>)
    requires RoundIdsUnique(rounds)
    ensures |r| == |Eligible(users, tips, rounds, year)|
    ensures forall i :: 0 <= i < |r| ==>
              r[i].id in Eligible(users, tips, rounds, year) && r[i] == StandingOf(users, tips, r[i].id)
    ensures forall u :: u in Eligible(users, tips, rounds, year) ==> exists i :: 0 <= i < |r| && r[i].id == u
    ensures Distinct(r)
  {
    var s := EligibleStandings(users, tips, rounds, year);
    var r := SortStandings(s);
    ReorderedStandings(users, tips, rounds, year, s, r);
    r
  }

  /** Each row of the ladder is strictly ahead of every later one (names are UNIQUE, so no two rows tie). */
  lemma {:induction false} SortedStandingsStrict(users: map<int, User>, tips: map<(int, int), Tip>,
                                                 rounds: map<(int, int), Round>, year: int)
    requires UsersKeyed(users) && UserNamesUnique(users) && RoundIdsUnique(rounds)
    ensures var r := SortedStandings(users, tips, rounds, year);
            forall i, j :: 0 <= i < j < |r| ==> Outranks(r[i], r[j]) && r[i].id != r[j].id
  {
    var r := SortedStandings(users, tips, rounds, year);
    assert r == SortStandings(EligibleStandings(users, tips, rounds, year));
    RowNamesDiffer(users, tips, r);
    LadderSortedStrictly(r);
    forall i, j | 0 <= i < j < |r| ensures r[i].id != r[j].id {
      OutranksAsymmetric(r[i], r[j]);
    }
  }

  /** `LEFT JOIN family_groups fg ON u.family_group_id = fg.id`. */
  function GroupName(users: map<int, User>, groups: map<int, FamilyGroup>, u: int): (r: Option<string>)
    requires u in users
  {
    match users[u].familyGroupId
    case Some(g) => if g in groups then Some(groups[g].name) else None
    case None => None
  }

  /** The round number of a tip whose round is of the year. */
  function RoundNumberOf(rounds: map<(int, int), Round>, t: Tip, year: int): int
    requires RoundIdsUnique(rounds) && InYear(rounds, t, year)
  {
    RoundById(rounds, t.roundId).value.roundNumber
  }

  /** `MAX(r.round_number)` over the user's tips in rounds of the year; NULL without such tips. */
  function LatestRound(tips: map<(int, int), Tip>, rounds: map<(int, int), Round>, u: int, year: int): (r: Option<int>)
    requires RoundIdsUnique(rounds)
    ensures r.None? <==> YearTips(tips, rounds, u, year) == {}
    ensures r.Some? ==> exists k :: k in YearTips(tips, rounds, u, year) && RoundNumberOf(rounds, tips[k], year) == r.value
    ensures r.Some? ==> forall k :: k in YearTips(tips, rounds, u, year) ==> RoundNumberOf(rounds, tips[k], year) <= r.value
  {
    var ys := YearTips(tips, rounds, u, year);
    var numbers := set k | k in ys :: RoundNumberOf(rounds, tips[k], year);
    assert forall k :: k in ys ==> RoundNumberOf(rounds, tips[k], year) in numbers;
    if numbers == {} then
      assert forall k :: k !in ys;
      None
    else Some(SetMax(numbers))
  }

  datatype LadderEntry = LadderEntry(standing: Standing, familyGroupName: Option<string>, latestRound: Option<int>, rank: nat)

  /** Numbers the rows `first`, `first + 1`, ... in order, with each user's group name and latest round. */
  function RankRows(users: map<int, User>, groups: map<int, FamilyGroup>, tips: map<(int, int), Tip>,
                    rounds: map<(int, int), Round>, year: int, s: seq<Standing>, first: nat): (r: seq<LadderEntry>)
    requires RoundIdsUnique(rounds)
    requires forall i :: 0 <= i < |s| ==> s[i].id in users
    ensures |r| == |s|
    ensures forall i :: 0 <= i < |r| ==> r[i].rank == first + i && r[i].standing == s[i]
  {
    if s == [] then []
    else
      [LadderEntry(s[0], GroupName(users, groups, s[0].id), LatestRound(tips, rounds, s[0].id, year), first)]
      + RankRows(users, groups, tips, rounds, year, s[1..], first + 1)
  }

  /**
   * `getLadder(year).ladder`: the rows of `SortedStandings` (the eligible users, each
   * once, in strict ladder order), ranked 1..n in that order.
   */
  function Ladder(users: map<int, User>, groups: map<int, FamilyGroup>, tips: map<(int, int), Tip>,
                  rounds: map<(int, int), Round>, year: int): (r: seq<LadderEntry>)
    requires RoundIdsUnique(rounds)
    ensures |r| == |SortedStandings(users, tips, rounds, year)|
    ensures forall i :: 0 <= i < |r| ==>
              r[i].rank == i + 1 && r[i].standing == SortedStandings(users, tips, rounds, year)[i]
  {
    RankRows(users, groups, tips, rounds, year, SortedStandings(users, tips, rounds, year), 1)
  }

  /**
   * Every ladder row's counts are consistent, and they cover all the user's tips, of
   * which at least one is in a round of the year.
   */
  lemma {:induction false} LadderRowCounts(users: map<int, User>, tips: map<(int, int), Tip>,
                                           rounds: map<(int, int), Round>, year: int, i: int)
    requires RoundIdsUnique(rounds)
    requires 0 <= i < |SortedStandings(users, tips, rounds, year)|
    ensures var e := SortedStandings(users, tips, rounds, year)[i];
            e.tally.correct <= e.tally.completed <= e.tally.total
            && e.tally.total == |UserTips(tips, e.id)| >= |YearTips(tips, rounds, e.id, year)| > 0
  {
    var e := SortedStandings(users, tips, rounds, year)[i];
    assert e.id in Eligible(users, tips, rounds, year);
    var k :| k in tips && k.0 == e.id && InYear(rounds, tips[k], year);
    assert k in YearTips(tips, rounds, e.id, year);
    SubsetCardinality(YearTips(tips, rounds, e.id, year), UserTips(tips, e.id));
  }

  datatype LadderSummary = LadderSummary(totalRounds: nat, completedRounds: nat)

  /** The summary beside the ladder: the year's rounds, and how many are completed. */
  function Summary(rounds: map<(int, int), Round>, year: int): (r: LadderSummary)
    ensures r.completedRounds <= r.totalRounds
    ensures r.totalRounds == |set k | k in rounds && rounds[k].year == year|
  {
    var all := set k | k in rounds && rounds[k].year == year;
    var done := set k | k in all && rounds[k].status == Completed;
    SubsetCardinality(done, all);
    LadderSummary(|all|, |done|)
  }

  /** The rank query's condition: `a` counts as better than `x`; ties fall to the smaller id. */
  predicate Beats(a: Standing, x: Standing)
  {
    a.tally.correct > x.tally.correct
    || (a.tally.correct == x.tally.correct && Percentage(a.tally) > Percentage(x.tally))
    || (a.tally.correct == x.tally.correct && Percentage(a.tally) == Percentage(x.tally) && a.id < x.id)
  }

  /** The eligible users that beat `u`. */
  function BetterPerformers(users: map<int, User>, tips: map<(int, int), Tip>, rounds: map<(int, int), Round>, u: int, year: int)
    : (b: set<int>)
    requires RoundIdsUnique(rounds)
    requires u in users
    ensures b <= Eligible(users, tips, rounds, year)
    ensures u !in b
  {
    set v | v in Eligible(users, tips, rounds, year) && Beats(StandingOf(users, tips, v), StandingOf(users, tips, u))
  }

  /**
   * `getUserLadderPosition(u, year)`: null only for an unknown user; otherwise the user's
   * counts (over all their tips, listed or not) and 1 + the number of eligible users that beat them.
   */
  function LadderPosition(users: map<int, User>, groups: map<int, FamilyGroup>, tips: map<(int, int), Tip>,
                          rounds: map<(int, int), Round>, u: int, year: int): (r: Option<LadderEntry>)
    requires RoundIdsUnique(rounds)
    ensures r.None? <==> u !in users
    ensures r.Some? ==> r.value.standing == StandingOf(users, tips, u)
    ensures r.Some? ==> 1 <= r.value.rank <= |Eligible(users, tips, rounds, year)| + 1
  {
    if u !in users then None
    else
      var better := BetterPerformers(users, tips, rounds, u, year);
      SubsetCardinality(better, Eligible(users, tips, rounds, year));
      Some(LadderEntry(StandingOf(users, tips, u), GroupName(users, groups, u), LatestRound(tips, rounds, u, year), |better| + 1))
  }

  predicate SameScore(a: Standing, b: Standing)
  {
    a.tally.correct == b.tally.correct && Percentage(a.tally) == Percentage(b.tally)
  }

  /** No two eligible users are level on both correct tips and percentage. */
  predicate NoScoreTies(users: map<int, User>, tips: map<(int, int), Tip>, rounds: map<(int, int), Round>, year: int)
    requires RoundIdsUnique(rounds)
  {
    forall v, w :: v in Eligible(users, tips, rounds, year) && w in Eligible(users, tips, rounds, year) && v != w ==>
      !SameScore(StandingOf(users, tips, v), StandingOf(users, tips, w))
  }

  /** The ids of the first `i` rows. */
  function IdsBefore(r: seq<Standing>, i: nat): (ids: set<int>)
    requires i <= |r|
    ensures forall v :: v in ids <==> exists j :: 0 <= j < i && r[j].id == v
  {
    if i == 0 then {} else IdsBefore(r, i - 1) + {r[i - 1].id}
  }

  lemma {:induction false} IdsBeforeSize(r: seq<Standing>, i: nat)
    requires i <= |r|
    requires forall j, k :: 0 <= j < k < |r| ==> r[j].id != r[k].id
    ensures |IdsBefore(r, i)| == i
  {
    if i > 0 {
      IdsBeforeSize(r, i - 1);
      assert r[i - 1].id !in IdsBefore(r, i - 1);
    }
  }

  /** In rows in strict order with no two level on score, the rows beating row `i` are exactly those before it. */
  lemma {:induction false} RowsBeatingRow(r: seq<Standing>, i: int)
    requires forall j, k :: 0 <= j < k < |r| ==> Outranks(r[j], r[k]) && !SameScore(r[j], r[k])
    requires 0 <= i < |r|
    ensures forall j :: 0 <= j < |r| ==> (Beats(r[j], r[i]) <==> j < i)
  {
    forall j | 0 <= j < |r| ensures Beats(r[j], r[i]) <==> j < i {
      if j > i {
        assert Outranks(r[i], r[j]) && !SameScore(r[i], r[j]);
      }
    }
  }

  /** In rows without score ties that list the eligible users in strict order, those beating row `i` are the rows before it. */
  lemma {:induction false} BetterAreEarlier(users: map<int, User>, tips: map<(int, int), Tip>, rounds: map<(int, int), Round>,
                                            year: int, r: seq<Standing>, i: int)
    requires RoundIdsUnique(rounds)
    requires NoScoreTies(users, tips, rounds, year)
    requires forall j :: 0 <= j < |r| ==>
               r[j].id in Eligible(users, tips, rounds, year) && r[j] == StandingOf(users, tips, r[j].id)
    requires forall u :: u in Eligible(users, tips, rounds, year) ==> exists j :: 0 <= j < |r| && r[j].id == u
    requires forall j, k :: 0 <= j < k < |r| ==> Outranks(r[j], r[k])
    requires 0 <= i < |r|
    ensures BetterPerformers(users, tips, rounds, r[i].id, year) == IdsBefore(r, i)
  {
    var e := Eligible(users, tips, rounds, year);
    forall j, k | 0 <= j < k < |r| ensures !SameScore(r[j], r[k]) {
      OutranksAsymmetric(r[j], r[k]);
      assert r[j].id != r[k].id;
    }
    RowsBeatingRow(r, i);
    var x := r[i].id;
    var better := BetterPerformers(users, tips, rounds, x, year);
    forall v | v in IdsBefore(r, i) ensures v in better {
      var j :| 0 <= j < i && r[j].id == v;
    }
    forall v | v in better ensures v in IdsBefore(r, i) {
      var j :| 0 <= j < |r| && r[j].id == v;
    }
  }

  /**
   * The single-user rank agrees with the ladder position whenever no two eligible users
   * are level on correct tips and percentage (otherwise one breaks ties by name, the other by id).
   */
  lemma {:induction false} PositionMatchesLadder(users: map<int, User>, groups: map<int, FamilyGroup>, tips: map<(int, int), Tip>,
                                                 rounds: map<(int, int), Round>, year: int, i: int)
    requires UsersKeyed(users) && UserNamesUnique(users) && RoundIdsUnique(rounds)
    requires NoScoreTies(users, tips, rounds, year)
    requires 0 <= i < |Ladder(users, groups, tips, rounds, year)|
    ensures var e := Ladder(users, groups, tips, rounds, year)[i];
            LadderPosition(users, groups, tips, rounds, e.standing.id, year).Some?
            && LadderPosition(users, groups, tips, rounds, e.standing.id, year).value.rank == e.rank
  {
    var r := SortedStandings(users, tips, rounds, year);
    assert Ladder(users, groups, tips, rounds, year)[i].standing == r[i];
    SortedRowPosition(users, groups, tips, rounds, year, i);
  }

  /** The single-user rank of the user in row `i` of the sorted standings is `i + 1` when no two are level on score. */
  lemma {:induction false} SortedRowPosition(users: map<int, User>, groups: map<int, FamilyGroup>, tips: map<(int, int), Tip>,
                                             rounds: map<(int, int), Round>, year: int, i: int)
    requires UsersKeyed(users) && UserNamesUnique(users) && RoundIdsUnique(rounds)
    requires NoScoreTies(users, tips, rounds, year)
    requires 0 <= i < |SortedStandings(users, tips, rounds, year)|
    ensures var id := SortedStandings(users, tips, rounds, year)[i].id;
            LadderPosition(users, groups, tips, rounds, id, year).Some?
            && LadderPosition(users, groups, tips, rounds, id, year).value.rank == i + 1
  {
    var r := SortedStandings(users, tips, rounds, year);
    SortedStandingsStrict(users, tips, rounds, year);
    BetterAreEarlier(users, tips, rounds, year, r, i);
    IdsBeforeSize(r, i);
  }

  datatype HeadToHead = HeadToHead(
    user1Name: Option<string>, user2Name: Option<string>,
    user1Wins: nat, user2Wins: nat, draws: nat, totalCompared: nat)

  /** `u2`'s tip on the game of tip `k`, through the UNIQUE (user_id, game_id) key. */
  function Partner(tips: map<(int, int), Tip>, k: (int, int), u2: int): (r: Option<Tip>)
    requires k in tips
    ensures r.Some? ==> (u2, tips[k].gameId) in tips && r.value == tips[(u2, tips[k].gameId)]
  {
    if (u2, tips[k].gameId) in tips then Some(tips[(u2, tips[k].gameId)]) else None
  }

  /** u1's decided tips whose game u2 has also tipped and had decided (`total_compared`). */
  function Compared(tips: map<(int, int), Tip>, u1: int, u2: int): (ks: set<(int, int)>)
    ensures ks <= UserTips(tips, u1)
  {
    set k | k in tips && k.0 == u1 && tips[k].isCorrect.Some? && Partner(tips, k, u2).Some?
                      && Partner(tips, k, u2).value.isCorrect.Some?
  }

  /** The compared games that u1 got `first` and u2 got `second`. */
  function Outcome(tips: map<(int, int), Tip>, u1: int, u2: int, first: bool, second: bool): (ks: set<(int, int)>)
    ensures ks <= Compared(tips, u1, u2)
    ensures forall k :: k in ks <==>
              k in tips && k.0 == u1 && tips[k].isCorrect == Some(first)
              && Partner(tips, k, u2).Some? && Partner(tips, k, u2).value.isCorrect == Some(second)
  {
    set k | k in Compared(tips, u1, u2) && tips[k].isCorrect == Some(first) && Partner(tips, k, u2).value.isCorrect == Some(second)
  }

  /** `t1.is_correct = t2.is_correct AND t1.is_correct IS NOT NULL`. */
  function Draws(tips: map<(int, int), Tip>, u1: int, u2: int): (ks: set<(int, int)>)
  {
    set k | k in tips && k.0 == u1 && tips[k].isCorrect.Some? && Partner(tips, k, u2).Some?
                      && Partner(tips, k, u2).value.isCorrect == tips[k].isCorrect
  }

  /** Every compared game is exactly one of a win for u1, a win for u2, or a draw. */
  lemma {:induction false} HeadToHeadPartition(tips: map<(int, int), Tip>, u1: int, u2: int)
    ensures |Outcome(tips, u1, u2, true, false)| + |Outcome(tips, u1, u2, false, true)| + |Draws(tips, u1, u2)|
            == |Compared(tips, u1, u2)|
  {
    var c := Compared(tips, u1, u2);
    var w1 := Outcome(tips, u1, u2, true, false);
    var w2 := Outcome(tips, u1, u2, false, true);
    var d := Draws(tips, u1, u2);
    forall k | k in c ensures k in w1 || k in w2 || k in d {
      var a := tips[k].isCorrect.value;
      var b := Partner(tips, k, u2).value.isCorrect.value;
      if a == b {
        assert k in d;
      } else if a {
        assert k in w1;
      } else {
        assert k in w2;
      }
    }
    assert d <= c;
    assert c == w1 + w2 + d;
    assert w1 !! w2 && w1 !! d && w2 !! d;
  }

  /**
   * `getHeadToHeadComparison(u1, u2, year)`: over all of u1's tips (the year join
   * filters nothing) paired with u2's tip on the same game; no pair of users, no counts.
   */
  function HeadToHeadOf(users: map<int, User>, tips: map<(int, int), Tip>, u1: int, u2: int): (r: HeadToHead)
    ensures r.user1Wins + r.user2Wins + r.draws == r.totalCompared
    ensures (u1 !in users || u2 !in users) ==> r == HeadToHead(None, None, 0, 0, 0, 0)
    ensures u1 in users && u2 in users ==>
              r.user1Name == Some(users[u1].name) && r.user2Name == Some(users[u2].name)
              && r.totalCompared == |Compared(tips, u1, u2)| && r.draws == |Draws(tips, u1, u2)|
              && r.user1Wins == |Outcome(tips, u1, u2, true, false)| && r.user2Wins == |Outcome(tips, u1, u2, false, true)|
    ensures r.totalCompared <= |UserTips(tips, u1)|
  {
    if u1 !in users || u2 !in users then HeadToHead(None, None, 0, 0, 0, 0)
    else
      HeadToHeadPartition(tips, u1, u2);
      SubsetCardinality(Compared(tips, u1, u2), UserTips(tips, u1));
      HeadToHead(Some(users[u1].name), Some(users[u2].name),
                 |Outcome(tips, u1, u2, true, false)|, |Outcome(tips, u1, u2, false, true)|,
                 |Draws(tips, u1, u2)|, |Compared(tips, u1, u2)|)
  }

  /** A family group's members, and their tips of every year. */
  function Members(users: map<int, User>, g: int): (m: set<int>)
    ensures m <= users.Keys
  {
    set u | u in users && users[u].familyGroupId == Some(g)
  }

  function GroupTips(users: map<int, User>, tips: map<(int, int), Tip>, g: int): (ks: set<(int, int)>)
    ensures ks <= tips.Keys
    ensures forall k :: k in ks <==> k in tips && k.0 in Members(users, g)
  {
    set k | k in tips && k.0 in Members(users, g)
  }

  datatype GroupStanding = GroupStanding(standing: Standing, memberCount: nat, rank: nat)

  function GroupStandingOf(users: map<int, User>, groups: map<int, FamilyGroup>, tips: map<(int, int), Tip>, g: int)
    : (s: Standing)
    requires g in groups
    ensures s.id == g && s.name == groups[g].name && s.tally.total == |GroupTips(users, tips, g)|
  {
    Standing(g, groups[g].name, TallyOf(tips, GroupTips(users, tips, g)))
  }

  /** The groups whose members have made at least one tip (`HAVING COUNT(t.id) > 0`). */
  function TippingGroups(users: map<int, User>, groups: map<int, FamilyGroup>, tips: map<(int, int), Tip>)
    : (gs: set<int>)
    ensures forall g :: g in gs <==> g in groups && GroupTips(users, tips, g) != {}
  {
    set g | g in groups && GroupTips(users, tips, g) != {}
  }

  /** The standings of the groups `ids`, in that order. */
  function StandingsOfGroups(users: map<int, User>, groups: map<int, FamilyGroup>, tips: map<(int, int), Tip>, ids: seq<int>)
    : (s: seq<Standing>)
    requires forall i :: 0 <= i < |ids| ==> ids[i] in groups
    ensures |s| == |ids|
    ensures forall i :: 0 <= i < |s| ==> s[i] == GroupStandingOf(users, groups, tips, ids[i])
  {
    if ids == [] then []
    else [GroupStandingOf(users, groups, tips, ids[0])] + StandingsOfGroups(users, groups, tips, ids[1..])
  }

  /** Standings of groups in ascending id order carry those ids, so no group is listed twice. */
  lemma {:induction false} StandingsOfGroupsAscending(users: map<int, User>, groups: map<int, FamilyGroup>,
                                                     tips: map<(int, int), Tip>, ids: seq<int>)
    requires forall i :: 0 <= i < |ids| ==> ids[i] in groups
    requires StrictlyIncreasing(ids)
    ensures var s := StandingsOfGroups(users, groups, tips, ids);
            forall i, j :: 0 <= i < j < |s| ==> s[i].id < s[j].id
  {
    var s := StandingsOfGroups(users, groups, tips, ids);
    forall i, j | 0 <= i < j < |s| ensures s[i].id < s[j].id {
      assert s[i].id == ids[i] < ids[j] == s[j].id;
    }
  }

  /** The standings of the tipping groups, one row per group (`GROUP BY fg.id`), in ascending id order. */
  function GroupStandings(users: map<int, User>, groups: map<int, FamilyGroup>, tips: map<(int, int), Tip>)
    : (s: seq<Standing>)
    ensures |s| == |TippingGroups(users, groups, tips)|
    ensures forall i :: 0 <= i < |s| ==>
              s[i].id in TippingGroups(users, groups, tips) && s[i] == GroupStandingOf(users, groups, tips, s[i].id)
    ensures forall g :: g in TippingGroups(users, groups, tips) ==> exists i :: 0 <= i < |s| && s[i].id == g
    ensures forall i, j :: 0 <= i < j < |s| ==> s[i].id < s[j].id
  {
    var e := TippingGroups(users, groups, tips);
    var ids := SortedInts(e);
    SortedIntsMembers(e);
    var s := StandingsOfGroups(users, groups, tips, ids);
    StandingsOfGroupsAscending(users, groups, tips, ids);
    forall g | g in e ensures exists i :: 0 <= i < |s| && s[i].id == g {
      var i := SortedIndex(e, g);
      assert s[i].id == g;
    }
    s
  }

  /** The group standings in ladder order: a reordering of `GroupStandings`, so exactly the tipping groups, each once. */
  function SortedGroupStandings(users: map<int, User>, groups: map<int, FamilyGroup>, tips: map<(int, int), Tip>)
    : (r: seq<Standing>)
    ensures multiset(r) == multiset(GroupStandings(users, groups, tips)) && |r| == |TippingGroups(users, groups, tips)|
    ensures forall i :: 0 <= i < |r| ==>
              r[i].id in TippingGroups(users, groups, tips) && r[i] == GroupStandingOf(users, groups, tips, r[i].id)
    ensures forall g :: g in TippingGroups(users, groups, tips) ==> exists i :: 0 <= i < |r| && r[i].id == g
    ensures LadderSorted(r)
    ensures forall i, j :: 0 <= i < j < |r| ==> r[i].id != r[j].id
  {
    var s := GroupStandings(users, groups, tips);
    var r := SortStandings(s);
    assert Distinct(s) by {
      forall i, j | 0 <= i < j < |s| ensures s[i] != s[j] {
        assert s[i].id < s[j].id;
      }
    }
    PermutationDistinct(s, r);
    PermutationMembers(s, r);
    forall i | 0 <= i < |r|
      ensures r[i].id in TippingGroups(users, groups, tips) && r[i] == GroupStandingOf(users, groups, tips, r[i].id)
    {
      var j := IndexOf(s, r[i]);
    }
    forall g | g in TippingGroups(users, groups, tips) ensures exists i :: 0 <= i < |r| && r[i].id == g {
      var j :| 0 <= j < |s| && s[j].id == g;
      var i := IndexOf(r, s[j]);
    }
    r
  }

  /** Group names are UNIQUE, so no two family rows tie: each is strictly ahead of every later one. */
  lemma {:induction false} SortedGroupStandingsStrict(users: map<int, User>, groups: map<int, FamilyGroup>,
                                                      tips: map<(int, int), Tip>)
    requires GroupNamesUnique(groups)
    ensures var r := SortedGroupStandings(users, groups, tips);
            forall i, j :: 0 <= i < j < |r| ==> Outranks(r[i], r[j])
  {
    var r := SortedGroupStandings(users, groups, tips);
    forall i, j | 0 <= i < j < |r| ensures r[i].name != r[j].name {
      assert r[i].id != r[j].id;
      assert r[i].name == groups[r[i].id].name && r[j].name == groups[r[j].id].name;
    }
    LadderSortedStrictly(r);
  }

  /** Numbers the group rows `first`, `first + 1`, ... in order, with each group's member count. */
  function RankGroups(users: map<int, User>, s: seq<Standing>, first: nat): (r: seq<GroupStanding>)
    ensures |r| == |s|
    ensures forall i :: 0 <= i < |r| ==>
              r[i].rank == first + i && r[i].standing == s[i] && r[i].memberCount == |Members(users, s[i].id)|
  {
    if s == [] then []
    else [GroupStanding(s[0], |Members(users, s[0].id)|, first)] + RankGroups(users, s[1..], first + 1)
  }

  /**
   * `getFamilyGroupStandings(year)`: the groups with at least one tip, counted over all
   * their members' tips (the year join filters nothing), in ladder order with ranks
   * 1..n; equal groups keep ascending id order.
   */
  function FamilyStandings(users: map<int, User>, groups: map<int, FamilyGroup>, tips: map<(int, int), Tip>)
    : (r: seq<GroupStanding>)
    ensures |r| == |SortedGroupStandings(users, groups, tips)|
    ensures forall i :: 0 <= i < |r| ==>
              r[i].rank == i + 1 && r[i].standing == SortedGroupStandings(users, groups, tips)[i]
              && r[i].memberCount == |Members(users, r[i].standing.id)|
  {
    RankGroups(users, SortedGroupStandings(users, groups, tips), 1)
  }

  /** Every family row belongs to a group with at least one tip, which its count includes. */
  lemma {:induction false} FamilyRowCounts(users: map<int, User>, groups: map<int, FamilyGroup>,
                                           tips: map<(int, int), Tip>, i: int)
    requires 0 <= i < |SortedGroupStandings(users, groups, tips)|
    ensures var e := SortedGroupStandings(users, groups, tips)[i];
            e.id in groups && e.tally.correct <= e.tally.completed <= e.tally.total
            && e.tally.total == |GroupTips(users, tips, e.id)| > 0
  {
    var e := SortedGroupStandings(users, groups, tips)[i];
    assert e.id in TippingGroups(users, groups, tips);
    var k :| k in GroupTips(users, tips, e.id);
  }

  /** `getUserStreakInfo`'s result. */
  datatype StreakInfo = StreakInfo(
    currentStreak: nat, currentStreakType: Option<bool>,
    longestCorrectStreak: nat, longestIncorrectStreak: nat, totalDecidedTips: nat)

  /** The length of the run of `v` that ends just before position `k` of `s`. */
  function FinalRun(s: seq<bool>, v: bool, k: nat): (n: nat)
    requires k <= |s|
    ensures n <= k
  {
    if k == 0 || s[k - 1] != v then 0 else FinalRun(s, v, k - 1) + 1
  }

  /** The length of the longest run of `v` among the first `k` elements of `s`. */
  function LongestRun(s: seq<bool>, v: bool, k: nat): (n: nat)
    requires k <= |s|
    ensures FinalRun(s, v, k) <= n <= k
  {
    if k == 0 then 0
    else
      var before := LongestRun(s, v, k - 1);
      var here := FinalRun(s, v, k);
      if here > before then here else before
  }

  /** `s[start..start + len]` is a run of `v`. */
  predicate RunAt(s: seq<bool>, v: bool, start: int, len: int)
  {
    0 <= start && 0 <= len && start + len <= |s| && forall i :: start <= i < start + len ==> s[i] == v
  }

  /** The final run is a run of `v` that cannot be extended to the left. */
  lemma {:induction false} FinalRunMeaning(s: seq<bool>, v: bool, k: nat)
    requires k <= |s|
    ensures RunAt(s, v, k - FinalRun(s, v, k), FinalRun(s, v, k))
    ensures FinalRun(s, v, k) < k ==> s[k - FinalRun(s, v, k) - 1] != v
  {
    if k > 0 && s[k - 1] == v {
      FinalRunMeaning(s, v, k - 1);
    }
  }

  /** `LongestRun` is the length of a run of `v` that occurs in the first `k` elements ... */
  lemma {:induction false} LongestRunOccurs(s: seq<bool>, v: bool, k: nat)
    requires k <= |s|
    ensures exists start :: RunAt(s, v, start, LongestRun(s, v, k)) && start + LongestRun(s, v, k) <= k
  {
    if k == 0 {
      assert LongestRun(s, v, k) == 0 && RunAt(s, v, 0, 0);
    } else {
      var here := FinalRun(s, v, k);
      var before := LongestRun(s, v, k - 1);
      if here > before {
        FinalRunMeaning(s, v, k);
        assert RunAt(s, v, k - here, LongestRun(s, v, k));
      } else {
        LongestRunOccurs(s, v, k - 1);
        var start :| RunAt(s, v, start, before) && start + before <= k - 1;
        assert RunAt(s, v, start, LongestRun(s, v, k));
      }
    }
  }

  /** ... and no run of `v` within them is longer. */
  lemma {:induction false} LongestRunBounds(s: seq<bool>, v: bool, k: nat, start: int, len: int)
    requires k <= |s| && RunAt(s, v, start, len) && start + len <= k
    ensures len <= LongestRun(s, v, k)
  {
    if start + len == k {
      RunEndingAt(s, v, k, start, len);
    } else {
      LongestRunBounds(s, v, k - 1, start, len);
    }
  }

  /** A run that ends just before position `k` is no longer than the final run there. */
  lemma {:induction false} RunEndingAt(s: seq<bool>, v: bool, k: nat, start: int, len: int)
    requires k <= |s| && RunAt(s, v, start, len) && start + len == k
    ensures len <= FinalRun(s, v, k)
  {
    if len > 0 {
      assert s[k - 1] == v;
      assert RunAt(s, v, start, len - 1);
      RunEndingAt(s, v, k - 1, start, len - 1);
    }
  }

  /** The start time of the game with row id `gameId`; `None` (SQL NULL) when it is missing. */
  function StartTime(games: map<string, Game>, gameId: int): (t: Option<int>)
    requires GameIdsUnique(games)
  {
    match GameById(games, gameId)
    case None => None
    case Some(g) => Some(g.startTime)
  }

  /** The games on which `u` has a decided tip in a round of the year (one tip per user and game). */
  function DecidedGames(tips: map<(int, int), Tip>, rounds: map<(int, int), Round>, u: int, year: int): (gs: set<int>)
    requires RoundIdsUnique(rounds)
    ensures forall g :: g in gs <==> (u, g) in YearTips(tips, rounds, u, year) && tips[(u, g)].isCorrect.Some?
  {
    var decided := set k | k in YearTips(tips, rounds, u, year) && tips[k].isCorrect.Some?;
    assert forall k :: k in decided ==> k == (u, k.1);
    set k | k in decided :: k.1
  }

  /** The keys `(u, g)` for the games `ids`, in that order. */
  function KeysFor(u: int, ids: seq<int>): (ks: seq<(int, int)>)
    ensures |ks| == |ids|
    ensures forall i :: 0 <= i < |ks| ==> ks[i] == (u, ids[i])
  {
    if ids == [] then [] else [(u, ids[0])] + KeysFor(u, ids[1..])
  }

  /** `ORDER BY start_time` on the rows `ks`: NULL times first, then ascending times, each part stable. */
  function ByStartTime(games: map<string, Game>, ks: seq<(int, int)>): (r: seq<(int, int)>)
    requires GameIdsUnique(games)
    ensures multiset(r) == multiset(ks) && |r| == |ks|
    ensures forall i, j :: 0 <= i < j < |r| && StartTime(games, r[j].1).None? ==> StartTime(games, r[i].1).None?
    ensures forall i, j :: 0 <= i < j < |r| && StartTime(games, r[i].1).Some? ==>
              StartTime(games, r[j].1).Some? && StartTime(games, r[i].1).value <= StartTime(games, r[j].1).value
  {
    var untimed := (k: (int, int)) => StartTime(games, k.1).None?;
    var timed := (k: (int, int)) => StartTime(games, k.1).Some?;
    var missing := Filter(ks, untimed);
    var present := Filter(ks, timed);
    FilterSplit(ks, untimed, timed);
    var sorted := SortByKey(present, (k: (int, int)) => if StartTime(games, k.1).Some? then StartTime(games, k.1).value else 0);
    PermutationKeeps(present, sorted, timed);
    NullsFirstConcat(games, missing, sorted);
    missing + sorted
  }

  /** Untimed rows followed by timed rows in ascending time are in `ORDER BY start_time` order. */
  lemma NullsFirstConcat(games: map<string, Game>, missing: seq<(int, int)>, sorted: seq<(int, int)>)
    requires GameIdsUnique(games)
    requires forall i :: 0 <= i < |missing| ==> StartTime(games, missing[i].1).None?
    requires forall i :: 0 <= i < |sorted| ==> StartTime(games, sorted[i].1).Some?
    requires forall i, j :: 0 <= i < j < |sorted| ==>
               StartTime(games, sorted[i].1).value <= StartTime(games, sorted[j].1).value
    ensures var r := missing + sorted;
            (forall i, j :: 0 <= i < j < |r| && StartTime(games, r[j].1).None? ==> StartTime(games, r[i].1).None?)
            && (forall i, j :: 0 <= i < j < |r| && StartTime(games, r[i].1).Some? ==>
                  StartTime(games, r[j].1).Some? && StartTime(games, r[i].1).value <= StartTime(games, r[j].1).value)
  {
    var r := missing + sorted;
    var n := |missing|;
    forall i, j | 0 <= i < j < |r| && StartTime(games, r[i].1).Some?
      ensures StartTime(games, r[j].1).Some? && StartTime(games, r[i].1).value <= StartTime(games, r[j].1).value
    {
      assert r[i] == sorted[i - n] && r[j] == sorted[j - n];
    }
  }

  /**
   * The rows of the streak query: `u`'s decided tips in rounds of the year, then
   * `ORDER BY g.start_time`. Rows tied on start time are taken in ascending game id
   * order; SQL leaves that order open, and this model fixes it.
   */
  function StreakKeys(tips: map<(int, int), Tip>, games: map<string, Game>, rounds: map<(int, int), Round>, u: int, year: int)
    : (keys: seq<(int, int)>)
    requires RoundIdsUnique(rounds) && GameIdsUnique(games)
    ensures |keys| == |DecidedGames(tips, rounds, u, year)|
    ensures forall i :: 0 <= i < |keys| ==>
              keys[i].0 == u && keys[i].1 in DecidedGames(tips, rounds, u, year) && keys[i] in tips && tips[keys[i]].isCorrect.Some?
    ensures forall g :: g in DecidedGames(tips, rounds, u, year) ==> (u, g) in keys
    ensures forall i, j :: 0 <= i < j < |keys| && StartTime(games, keys[j].1).None? ==> StartTime(games, keys[i].1).None?
    ensures forall i, j :: 0 <= i < j < |keys| && StartTime(games, keys[i].1).Some? ==>
              StartTime(games, keys[j].1).Some? && StartTime(games, keys[i].1).value <= StartTime(games, keys[j].1).value
  {
    var gs := DecidedGames(tips, rounds, u, year);
    var ids := SortedInts(gs);
    var all := KeysFor(u, ids);
    var keys := ByStartTime(games, all);
    PermutedKeys(u, ids, keys);
    keys
  }

  /** A reordering of `KeysFor(u, ids)` holds exactly the keys `(u, g)` for `g` in `ids`. */
  lemma {:induction false} PermutedKeys(u: int, ids: seq<int>, keys: seq<(int, int)>)
    requires multiset(keys) == multiset(KeysFor(u, ids))
    ensures forall i :: 0 <= i < |keys| ==> keys[i].0 == u && keys[i].1 in ids
    ensures forall g :: g in ids ==> (u, g) in keys
  {
    var all := KeysFor(u, ids);
    PermutationMembers(all, keys);
    forall i | 0 <= i < |keys| ensures keys[i].0 == u && keys[i].1 in ids {
      var j := IndexOf(all, keys[i]);
      assert keys[i] == (u, ids[j]);
    }
    forall g | g in ids ensures (u, g) in keys {
      var i := IndexOf(ids, g);
      assert all[i] == (u, g);
    }
  }

  /** The outcomes of the rows, in order. */
  function Outcomes(tips: map<(int, int), Tip>, keys: seq<(int, int)>): (outs: seq<bool>)
    requires forall i :: 0 <= i < |keys| ==> keys[i] in tips && tips[keys[i]].isCorrect.Some?
    ensures |outs| == |keys|
    ensures forall i :: 0 <= i < |keys| ==> (outs[i] <==> tips[keys[i]].isCorrect == Some(true))
  {
    seq(|keys|, i requires 0 <= i < |keys| => tips[keys[i]].isCorrect == Some(true))
  }

  /**
   * The loop of `getUserStreakInfo` over the rows' outcomes: it keeps the current run
   * and the longest run of each outcome, so that afterwards the current streak is the
   * final run of equal outcomes and the longest ones are the longest runs anywhere.
   */
  method Streaks(outs: seq<bool>) returns (info: StreakInfo)
    ensures info.totalDecidedTips == |outs|
    ensures outs == [] ==> info == StreakInfo(0, None, 0, 0, 0)
    ensures outs != [] ==> info.currentStreakType == Some(outs[|outs| - 1])
                           && info.currentStreak == FinalRun(outs, outs[|outs| - 1], |outs|) >= 1
    ensures info.longestCorrectStreak == LongestRun(outs, true, |outs|)
    ensures info.longestIncorrectStreak == LongestRun(outs, false, |outs|)
    ensures info.currentStreakType == Some(true) ==> info.currentStreak <= info.longestCorrectStreak
    ensures info.currentStreakType == Some(false) ==> info.currentStreak <= info.longestIncorrectStreak
  {
    var current: nat := 0;
    var currentType: Option<bool> := None;
    var longestCorrect: nat := 0;
    var longestIncorrect: nat := 0;
    var i := 0;
    while i < |outs|
      invariant 0 <= i <= |outs|
      invariant currentType == (if i == 0 then None else Some(outs[i - 1]))
      invariant currentType.None? ==> current == 0
      invariant currentType.Some? ==> current == FinalRun(outs, currentType.value, i) >= 1
      invariant longestCorrect == LongestRun(outs, true, i)
      invariant longestIncorrect == LongestRun(outs, false, i)
    {
      if outs[i] {
        if currentType == Some(true) {
          current := current + 1;
        } else {
          current := 1;
          currentType := Some(true);
        }
        longestCorrect := if longestCorrect > current then longestCorrect else current;
      } else {
        if currentType == Some(false) {
          current := current + 1;
        } else {
          current := 1;
          currentType := Some(false);
        }
        longestIncorrect := if longestIncorrect > current then longestIncorrect else current;
      }
      i := i + 1;
    }
    info := StreakInfo(current, currentType, longestCorrect, longestIncorrect, |outs|);
  }

  /** The outcomes of the streak query's rows: one per decided game of the user in the year. */
  function StreakOutcomes(tips: map<(int, int), Tip>, games: map<string, Game>, rounds: map<(int, int), Round>, u: int, year: int)
    : (outs: seq<bool>)
    requires RoundIdsUnique(rounds) && GameIdsUnique(games)
    ensures |outs| == |DecidedGames(tips, rounds, u, year)|
  {
    Outcomes(tips, StreakKeys(tips, games, rounds, u, year))
  }

  /** `getUserStreakInfo(u, year)`: the streaks over the outcomes of the streak query's rows. */
  method UserStreakInfo(tips: map<(int, int), Tip>, games: map<string, Game>, rounds: map<(int, int), Round>, u: int, year: int)
    returns (info: StreakInfo)
    requires RoundIdsUnique(rounds) && GameIdsUnique(games)
    ensures info.totalDecidedTips == |DecidedGames(tips, rounds, u, year)|
    ensures info.totalDecidedTips == 0 ==> info == StreakInfo(0, None, 0, 0, 0)
    ensures info.totalDecidedTips > 0 ==>
              var outs := StreakOutcomes(tips, games, rounds, u, year);
              info.currentStreakType == Some(outs[|outs| - 1]) && info.currentStreak == FinalRun(outs, outs[|outs| - 1], |outs|) >= 1
    ensures info.longestCorrectStreak == LongestRun(StreakOutcomes(tips, games, rounds, u, year), true, info.totalDecidedTips)
    ensures info.longestIncorrectStreak == LongestRun(StreakOutcomes(tips, games, rounds, u, year), false, info.totalDecidedTips)
  {
    var outs := StreakOutcomes(tips, games, rounds, u, year);
    info := Streaks(outs);
  }
}
