/**
 * The transformation of the historical spreadsheet into the flat tips CSV: for each
 * round sheet from 0 to 23, the labelled home, away and winner rows give the games,
 * and every family member's row after the winner row gives one CSV row per game they
 * tipped, with the squiggle game key and whether the tip was correct. The round files
 * are an input: a map from round number to the sheet's rows.
 */
module CsvTransformer {
  import opened Wrappers
  import opened Text
  import opened Sorting
  import SquiggleService

  /** A sheet row; `None` is an empty (`null` or `undefined`) cell. */
  type Row = seq<Option<string>>

  const FamilyMembers: seq<string> := [
    "David", "Chris", "Jamie", "Emma", "Zoe", "Pop", "Katie",
    "Phil", "Tracy", "Ryan",
    "Shannan", "Tom", "Billy",
    "Alex", "Ruby",
    "Mark", "Henry",
    "Paulie", "Jenni", "Charlee",
    "Anne", "Stephen",
    "Jayne", "Ant"]

  const Header := "user_name,week_number,game_number,squiggle_game_key,home_team,away_team,winning_team,selected_team,is_correct,source_tab"

  const OutputFile := "../export/phase2-csv/tips-flat.csv"

  const RoundPrefix := "Round "

  const HomeLabel := "Home Team"
  const AwayLabel := "Away Team"
  const WinnerLabel := "Winner"

  // ---------------------------------------------------------------------------
  // Cells and rows
  // ---------------------------------------------------------------------------

  /** `row[i]`: past the end of the row it is `undefined`. */
  function CellAt(row: Row, i: nat): Option<string>
  {
    if i < |row| then row[i] else None
  }

  /** `row.slice(from, to)`. */
  function Slice(row: Row, from: nat, to: nat): (r: Row)
    requires from <= to
    ensures |r| <= to - from
  {
    var lo := if from < |row| then from else |row|;
    var hi := if to < |row| then to else |row|;
    row[lo..hi]
  }

  /** A cell JavaScript treats as true: present and not the empty string. */
  predicate Truthy(c: Option<string>)
  {
    c.Some? && c.value != ""
  }

  /** `row[1] === title`. */
  predicate Labelled(row: Row, title: string)
  {
    CellAt(row, 1) == Some(title)
  }

  /** `rawData.findIndex(row => row[1] === title)`, `None` for -1; `find` gives the row at that index. */
  function FindLabelled(rawData: seq<Row>, title: string): (i: Option<nat>)
    ensures i.Some? ==> i.value < |rawData| && Labelled(rawData[i.value], title)
    ensures i.Some? ==> forall j :: 0 <= j < i.value ==> !Labelled(rawData[j], title)
    ensures i.None? <==> forall j :: 0 <= j < |rawData| ==> !Labelled(rawData[j], title)
  {
    if rawData == [] then None
    else if Labelled(rawData[0], title) then Some(0)
    else
      match FindLabelled(rawData[1..], title)
      case None =>
        assert forall j :: 1 <= j < |rawData| ==> rawData[j] == rawData[1..][j - 1];
        None
      case Some(i) =>
        assert forall j :: 1 <= j <= i ==> rawData[j] == rawData[1..][j - 1];
        Some(i + 1)
  }

  /** `cells.filter(team => team && team.trim())`: the cells that are not blank, untrimmed. */
  function NonBlank(cells: Row): (r: seq<string>)
    ensures |r| <= |cells|
    ensures forall i :: 0 <= i < |r| ==> Trim(r[i]) != ""
  {
    if cells == [] then []
    else
      var rest := NonBlank(cells[..|cells| - 1]);
      var c := cells[|cells| - 1];
      if c.Some? && c.value != "" && Trim(c.value) != "" then rest + [c.value] else rest
  }

  /** The team lists are exactly the cells that are not blank. */
  lemma {:induction false} NonBlankMeaning(cells: Row)
    ensures forall x :: x in NonBlank(cells) <==> Some(x) in cells && Trim(x) != ""
  {
    if cells != [] {
      var init := cells[..|cells| - 1];
      assert cells == init + [cells[|cells| - 1]];
      NonBlankMeaning(init);
      assert Trim("") == "";
    }
  }

  // ---------------------------------------------------------------------------
  // The games of a round
  // ---------------------------------------------------------------------------

  /** The games of a round sheet: the three team lists, their common length, and where the user rows start. */
  datatype Layout = Layout(homeTeams: seq<string>, awayTeams: seq<string>, winners: seq<string>, gameCount: nat, winnerRowIndex: nat)

  /** The game count is no larger than any of the lists, and their cells are not blank. */
  predicate LayoutValid(l: Layout)
  {
    l.gameCount <= |l.homeTeams| && l.gameCount <= |l.awayTeams| && l.gameCount <= |l.winners| &&
    (forall i :: 0 <= i < |l.homeTeams| ==> l.homeTeams[i] != "") &&
    (forall i :: 0 <= i < |l.awayTeams| ==> l.awayTeams[i] != "") &&
    (forall i :: 0 <= i < |l.winners| ==> l.winners[i] != "")
  }

  /** `Math.min(a, b, c)`. */
  function Min3(a: nat, b: nat, c: nat): (m: nat)
    ensures m <= a && m <= b && m <= c
    ensures m == a || m == b || m == c
  {
    if a <= b && a <= c then a else if b <= c then b else c
  }

  /**
   * The layout of a round sheet, or `None` when the round is skipped: fewer than 12
   * rows, or no row labelled "Home Team", "Away Team" or "Winner" in its second cell.
   * The team lists are the non-blank cells at indices 3 to 11 of the first row with
   * each label.
   */
  function RoundLayout(rawData: seq<Row>): (l: Option<Layout>)
    ensures l.Some? ==> LayoutValid(l.value) && l.value.gameCount <= 9 && l.value.winnerRowIndex < |rawData|
  {
    if |rawData| < 12 then None
    else
      var h := FindLabelled(rawData, HomeLabel);
      var a := FindLabelled(rawData, AwayLabel);
      var w := FindLabelled(rawData, WinnerLabel);
      if h.None? || a.None? || w.None? then None
      else
        var homeTeams := NonBlank(Slice(rawData[h.value], 3, 12));
        var awayTeams := NonBlank(Slice(rawData[a.value], 3, 12));
        var winners := NonBlank(Slice(rawData[w.value], 3, 12));
        assert Trim("") == "";
        Some(Layout(homeTeams, awayTeams, winners, Min3(|homeTeams|, |awayTeams|, |winners|), w.value))
  }

  /**
   * A round is skipped exactly when its sheet has fewer than 12 rows or lacks one of
   * the three labelled rows; otherwise the lists are the non-blank cells 3..11 of the
   * labelled rows, and the game count is the shortest list's length.
   */
  lemma {:induction false} RoundLayoutMeaning(rawData: seq<Row>)
    ensures RoundLayout(rawData).None? <==>
      |rawData| < 12 ||
      (forall j :: 0 <= j < |rawData| ==> !Labelled(rawData[j], HomeLabel)) ||
      (forall j :: 0 <= j < |rawData| ==> !Labelled(rawData[j], AwayLabel)) ||
      (forall j :: 0 <= j < |rawData| ==> !Labelled(rawData[j], WinnerLabel))
    ensures RoundLayout(rawData).Some? ==>
      var l := RoundLayout(rawData).value;
      (forall x :: x in l.homeTeams <==> Some(x) in Slice(rawData[FindLabelled(rawData, HomeLabel).value], 3, 12) && Trim(x) != "") &&
      (forall x :: x in l.awayTeams <==> Some(x) in Slice(rawData[FindLabelled(rawData, AwayLabel).value], 3, 12) && Trim(x) != "") &&
      (forall x :: x in l.winners <==> Some(x) in Slice(rawData[FindLabelled(rawData, WinnerLabel).value], 3, 12) && Trim(x) != "") &&
      (l.gameCount == |l.homeTeams| || l.gameCount == |l.awayTeams| || l.gameCount == |l.winners|)
  {
    if RoundLayout(rawData).Some? {
      NonBlankMeaning(Slice(rawData[FindLabelled(rawData, HomeLabel).value], 3, 12));
      NonBlankMeaning(Slice(rawData[FindLabelled(rawData, AwayLabel).value], 3, 12));
      NonBlankMeaning(Slice(rawData[FindLabelled(rawData, WinnerLabel).value], 3, 12));
    }
  }

  // ---------------------------------------------------------------------------
  // The flat rows
  // ---------------------------------------------------------------------------

  /** One row of the flat CSV. */
  datatype FlatTip = FlatTip(
    userName: string, weekNumber: int, gameNumber: int, squiggleGameKey: string,
    homeTeam: string, awayTeam: string, winningTeam: string, selectedTeam: string,
    isCorrect: int, sourceTab: string)

  /** `xs.includes(x)`. */
  function Includes(xs: seq<string>, x: string): bool
  {
    xs != [] && (xs[0] == x || Includes(xs[1..], x))
  }

  /** The user of a row that counts: at least three cells and a family member's name in the second. */
  function UserName(row: Row): (n: Option<string>)
    ensures n.Some? ==> Includes(FamilyMembers, n.value)
  {
    if |row| < 3 || !Truthy(row[1]) || !Includes(FamilyMembers, row[1].value) then None else row[1]
  }

  /** `String(roundNum)`, the source tab's name. */
  function SourceTab(roundNum: int): string
  {
    RoundPrefix + IntToString(roundNum)
  }

  /**
   * The row for game `g` of a user's tips, or `None` when the user's tip cell for it
   * is empty. The selection and the winner are compared trimmed and lower-cased.
   */
  function GameTip(roundNum: int, l: Layout, userName: string, userTips: Row, g: nat): (t: Option<FlatTip>)
    requires LayoutValid(l) && g < l.gameCount
    ensures t.Some? <==> Truthy(CellAt(userTips, g))
  {
    if !Truthy(CellAt(userTips, g)) || l.homeTeams[g] == "" || l.awayTeams[g] == "" || l.winners[g] == "" then None
    else
      var selectedTeam := Trim(CellAt(userTips, g).value);
      var winningTeam := Trim(l.winners[g]);
      Some(FlatTip(userName, roundNum, g + 1, SquiggleService.GameKey(roundNum, g + 1),
        Trim(l.homeTeams[g]), Trim(l.awayTeams[g]), winningTeam, selectedTeam,
        if Lower(selectedTeam) == Lower(winningTeam) then 1 else 0, SourceTab(roundNum)))
  }

  /** The rows for a user's games `0..k`. */
  function UserTips(roundNum: int, l: Layout, userName: string, userTips: Row, k: nat): seq<FlatTip>
    requires LayoutValid(l) && k <= l.gameCount
  {
    if k == 0 then []
    else
      var rest := UserTips(roundNum, l, userName, userTips, k - 1);
      match GameTip(roundNum, l, userName, userTips, k - 1)
      case None => rest
      case Some(t) => rest + [t]
  }

  /** The rows for one sheet row: the user's tips in cells 3..11, or none when the row is not a family member's. */
  function RowTips(roundNum: int, l: Layout, row: Row): seq<FlatTip>
    requires LayoutValid(l)
  {
    match UserName(row)
    case None => []
    case Some(n) => UserTips(roundNum, l, n, Slice(row, 3, 12), l.gameCount)
  }

  /** The blocks of rows of the user rows, one block per user row. */
  function UserBlocks(roundNum: int, l: Layout, userRows: seq<Row>): (bs: seq<seq<FlatTip>>)
    requires LayoutValid(l)
    ensures |bs| == |userRows|
    ensures forall u :: 0 <= u < |userRows| ==> bs[u] == RowTips(roundNum, l, userRows[u])
  {
    seq(|userRows|, u requires 0 <= u < |userRows| => RowTips(roundNum, l, userRows[u]))
  }

  /** The rows for the first `k` user rows. */
  function UserRowsTips(roundNum: int, l: Layout, userRows: seq<Row>, k: nat): seq<FlatTip>
    requires LayoutValid(l) && k <= |userRows|
  {
    FlattenUpTo(UserBlocks(roundNum, l, userRows), k)
  }

  /** The rows of a sheet with layout `l`: those of the user rows after its winner row. */
  function SheetTips(roundNum: int, l: Layout, rawData: seq<Row>): seq<FlatTip>
    requires LayoutValid(l) && l.winnerRowIndex < |rawData|
  {
    var userRows := rawData[l.winnerRowIndex + 1..];
    UserRowsTips(roundNum, l, userRows, |userRows|)
  }

  /** The rows a round sheet contributes: none when it is skipped. */
  function RoundTips(roundNum: int, rawData: seq<Row>): seq<FlatTip>
  {
    var layout := RoundLayout(rawData);
    if layout.None? then [] else SheetTips(roundNum, layout.value, rawData)
  }

  /** The rows round `r` contributes: none when it has no file. */
  function RoundFileTips(files: map<int, seq<Row>>, r: int): seq<FlatTip>
  {
    if r in files then RoundTips(r, files[r]) else []
  }

  /** The blocks of rows of rounds 0 to 23, one block per round. */
  function Rounds(files: map<int, seq<Row>>): (bs: seq<seq<FlatTip>>)
    ensures |bs| == 24
    ensures forall r :: 0 <= r < 24 ==> bs[r] == RoundFileTips(files, r)
  {
    seq(24, r => RoundFileTips(files, r))
  }

  /** The rows of rounds `0..r`, in round order. */
  function TipsUpTo(files: map<int, seq<Row>>, r: nat): seq<FlatTip>
    requires r <= 24
  {
    FlattenUpTo(Rounds(files), r)
  }

  /** All the flat rows: rounds 0 to 23. */
  function AllTips(files: map<int, seq<Row>>): seq<FlatTip>
  {
    TipsUpTo(files, 24)
  }

  /** `csvRow.join(',')`. */
  function CsvLine(t: FlatTip): string
  {
    Join([t.userName, IntToString(t.weekNumber), IntToString(t.gameNumber), t.squiggleGameKey,
      t.homeTeam, t.awayTeam, t.winningTeam, t.selectedTeam, IntToString(t.isCorrect), t.sourceTab], ",")
  }

  function CsvLines(ts: seq<FlatTip>): (ls: seq<string>)
    ensures |ls| == |ts|
  {
    if ts == [] then [] else CsvLines(ts[..|ts| - 1]) + [CsvLine(ts[|ts| - 1])]
  }

  lemma {:induction false} CsvLinesAppend(a: seq<FlatTip>, b: seq<FlatTip>)
    ensures CsvLines(a + b) == CsvLines(a) + CsvLines(b)
  {
    if b != [] {
      var init := b[..|b| - 1];
      var x := b[|b| - 1];
      assert b == init + [x];
      assert a + b == (a + init) + [x];
      CsvLinesAppend(a, init);
      CsvLinesPush(a + init, x);
      CsvLinesPush(init, x);
    } else {
      assert a + b == a;
    }
  }

  lemma {:induction false} CsvLinesAt(ts: seq<FlatTip>, i: nat)
    requires i < |ts|
    ensures CsvLines(ts)[i] == CsvLine(ts[i])
  {
    var init := ts[..|ts| - 1];
    if i < |init| {
      CsvLinesAt(init, i);
      assert init[i] == ts[i];
    }
  }

  lemma {:induction false} CsvLinesPush(ts: seq<FlatTip>, t: FlatTip)
    ensures CsvLines(ts + [t]) == CsvLines(ts) + [CsvLine(t)]
  {
    assert (ts + [t])[..|ts|] == ts;
  }

  // ---------------------------------------------------------------------------
  // What the rows say
  // ---------------------------------------------------------------------------

  /**
   * What every flat row promises: its round is one of 0..23 and its source tab names
   * it, its user is a family member, its game number is 1..9 and its key is the
   * generated key of that round and game, and it is correct (1) iff the trimmed
   * selection equals the trimmed winner up to case, else 0.
   */
  predicate TipWellFormed(t: FlatTip, roundNum: int)
  {
    t.weekNumber == roundNum && t.sourceTab == SourceTab(roundNum) &&
    Includes(FamilyMembers, t.userName) &&
    1 <= t.gameNumber <= 9 && t.squiggleGameKey == SquiggleService.GameKey(t.weekNumber, t.gameNumber) &&
    t.selectedTeam == Trim(t.selectedTeam) && t.winningTeam == Trim(t.winningTeam) &&
    (t.isCorrect == 1 <==> Lower(t.selectedTeam) == Lower(t.winningTeam)) &&
    (t.isCorrect == 0 || t.isCorrect == 1)
  }

  /** The selection and the winner of a game's row are trimmed. */
  lemma GameTipTrimmed(roundNum: int, l: Layout, userName: string, userTips: Row, g: nat)
    requires LayoutValid(l) && g < l.gameCount
    ensures var t := GameTip(roundNum, l, userName, userTips, g);
      t.Some? ==> t.value.selectedTeam == Trim(t.value.selectedTeam) && t.value.winningTeam == Trim(t.value.winningTeam)
  {
    if GameTip(roundNum, l, userName, userTips, g).Some? {
      TrimIdempotent(CellAt(userTips, g).value);
      TrimIdempotent(l.winners[g]);
    }
  }

  /** The row of one game of a family member is well formed. */
  lemma GameTipWellFormed(roundNum: int, l: Layout, userName: string, userTips: Row, g: nat)
    requires LayoutValid(l) && g < l.gameCount <= 9 && Includes(FamilyMembers, userName)
    ensures GameTip(roundNum, l, userName, userTips, g).Some? ==> TipWellFormed(GameTip(roundNum, l, userName, userTips, g).value, roundNum)
  {
    GameTipTrimmed(roundNum, l, userName, userTips, g);
  }

  lemma {:induction false} UserTipsWellFormed(roundNum: int, l: Layout, userName: string, userTips: Row, k: nat)
    requires LayoutValid(l) && k <= l.gameCount <= 9 && Includes(FamilyMembers, userName)
    ensures forall t :: t in UserTips(roundNum, l, userName, userTips, k) ==> TipWellFormed(t, roundNum)
  {
    UserTipsMembers(roundNum, l, userName, userTips, k);
    forall t | t in UserTips(roundNum, l, userName, userTips, k) ensures TipWellFormed(t, roundNum) {
      var g :| 0 <= g < k && GameTip(roundNum, l, userName, userTips, g) == Some(t);
      GameTipWellFormed(roundNum, l, userName, userTips, g);
    }
  }

  /** A user's rows are the rows of the games whose tip cell is not empty. */
  lemma {:induction false} UserTipsMembers(roundNum: int, l: Layout, userName: string, userTips: Row, k: nat)
    requires LayoutValid(l) && k <= l.gameCount
    ensures forall t :: t in UserTips(roundNum, l, userName, userTips, k) <==>
      exists g :: 0 <= g < k && GameTip(roundNum, l, userName, userTips, g) == Some(t)
  {
    if k > 0 {
      UserTipsMembers(roundNum, l, userName, userTips, k - 1);
      var rest := UserTips(roundNum, l, userName, userTips, k - 1);
      forall t | t in UserTips(roundNum, l, userName, userTips, k)
        ensures exists g :: 0 <= g < k && GameTip(roundNum, l, userName, userTips, g) == Some(t)
      {
        if t !in rest {
          assert GameTip(roundNum, l, userName, userTips, k - 1) == Some(t);
        }
      }
      forall t, g | 0 <= g < k && GameTip(roundNum, l, userName, userTips, g) == Some(t)
        ensures t in UserTips(roundNum, l, userName, userTips, k)
      {
        if g < k - 1 {
          assert t in rest;
        }
      }
    }
  }

  lemma {:induction false} RowTipsWellFormed(roundNum: int, l: Layout, row: Row)
    requires LayoutValid(l) && l.gameCount <= 9
    ensures forall t :: t in RowTips(roundNum, l, row) ==> TipWellFormed(t, roundNum)
  {
    match UserName(row)
    case None =>
    case Some(n) => UserTipsWellFormed(roundNum, l, n, Slice(row, 3, 12), l.gameCount);
  }

  lemma {:induction false} UserRowsTipsWellFormed(roundNum: int, l: Layout, userRows: seq<Row>, k: nat)
    requires LayoutValid(l) && l.gameCount <= 9 && k <= |userRows|
    ensures forall t :: t in UserRowsTips(roundNum, l, userRows, k) ==> TipWellFormed(t, roundNum)
  {
    var bs := UserBlocks(roundNum, l, userRows);
    FlattenMembers(bs, k);
    forall t | t in FlattenUpTo(bs, k) ensures TipWellFormed(t, roundNum) {
      var u :| 0 <= u < k && t in bs[u];
      RowTipsWellFormed(roundNum, l, userRows[u]);
    }
  }

  /** The rows of the first `k` user rows are those of each user row in turn. */
  lemma {:induction false} UserRowsTipsMembers(roundNum: int, l: Layout, userRows: seq<Row>, k: nat)
    requires LayoutValid(l) && k <= |userRows|
    ensures forall t :: t in UserRowsTips(roundNum, l, userRows, k) <==>
      exists u :: 0 <= u < k && t in RowTips(roundNum, l, userRows[u])
  {
    var bs := UserBlocks(roundNum, l, userRows);
    FlattenMembers(bs, k);
    forall t | t in FlattenUpTo(bs, k) ensures exists u :: 0 <= u < k && t in RowTips(roundNum, l, userRows[u]) {
      var u :| 0 <= u < k && t in bs[u];
      assert t in RowTips(roundNum, l, userRows[u]);
    }
    forall t, u | 0 <= u < k && t in RowTips(roundNum, l, userRows[u]) ensures t in FlattenUpTo(bs, k) {
      assert t in bs[u];
    }
  }

  /** A round with a layout contributes the rows of its user rows, those after the winner row. */
  lemma {:induction false} RoundTipsOf(roundNum: int, rawData: seq<Row>, l: Layout)
    requires RoundLayout(rawData) == Some(l)
    ensures RoundTips(roundNum, rawData) == SheetTips(roundNum, l, rawData)
  {
  }

  /** The rows of a round are well formed. */
  lemma {:induction false} RoundTipsWellFormed(roundNum: int, rawData: seq<Row>)
    ensures forall t :: t in RoundTips(roundNum, rawData) ==> TipWellFormed(t, roundNum)
  {
    if RoundLayout(rawData).Some? {
      var l := RoundLayout(rawData).value;
      var userRows := rawData[l.winnerRowIndex + 1..];
      RoundTipsOf(roundNum, rawData, l);
      UserRowsTipsWellFormed(roundNum, l, userRows, |userRows|);
    }
  }

  /** The row is a family member's, and their tip for game `g` gives `t`. */
  predicate RowEmits(roundNum: int, l: Layout, row: Row, g: int, t: FlatTip)
    requires LayoutValid(l)
  {
    UserName(row).Some? && 0 <= g < l.gameCount &&
    GameTip(roundNum, l, UserName(row).value, Slice(row, 3, 12), g) == Some(t)
  }

  /** Row `u` of the sheet is a family member's row after the winner row, and their tip for game `g` gives `t`. */
  predicate Emits(roundNum: int, l: Layout, rawData: seq<Row>, u: int, g: int, t: FlatTip)
    requires LayoutValid(l)
  {
    l.winnerRowIndex < u < |rawData| && RowEmits(roundNum, l, rawData[u], g, t)
  }

  /** The rows of one user row are its tips for the games whose tip cell is not empty. */
  lemma {:induction false} RowTipsMembers(roundNum: int, l: Layout, row: Row)
    requires LayoutValid(l)
    ensures forall t :: t in RowTips(roundNum, l, row) <==> exists g :: RowEmits(roundNum, l, row, g, t)
  {
    if UserName(row).Some? {
      var n := UserName(row).value;
      var userTips := Slice(row, 3, 12);
      assert RowTips(roundNum, l, row) == UserTips(roundNum, l, n, userTips, l.gameCount);
      UserTipsMembers(roundNum, l, n, userTips, l.gameCount);
      forall t | t in RowTips(roundNum, l, row) ensures exists g :: RowEmits(roundNum, l, row, g, t) {
        var g :| 0 <= g < l.gameCount && GameTip(roundNum, l, n, userTips, g) == Some(t);
        assert RowEmits(roundNum, l, row, g, t);
      }
    } else {
      assert RowTips(roundNum, l, row) == [];
    }
  }

  /** A row of the user rows comes from one of them. */
  lemma {:induction false} UserRowsTipsFind(roundNum: int, l: Layout, userRows: seq<Row>, t: FlatTip) returns (v: int)
    requires LayoutValid(l) && t in UserRowsTips(roundNum, l, userRows, |userRows|)
    ensures 0 <= v < |userRows| && t in RowTips(roundNum, l, userRows[v])
  {
    UserRowsTipsMembers(roundNum, l, userRows, |userRows|);
    v :| 0 <= v < |userRows| && t in RowTips(roundNum, l, userRows[v]);
  }

  /** A row of one of the user rows is a row of them all. */
  lemma {:induction false} UserRowsTipsHas(roundNum: int, l: Layout, userRows: seq<Row>, v: int, t: FlatTip)
    requires LayoutValid(l) && 0 <= v < |userRows| && t in RowTips(roundNum, l, userRows[v])
    ensures t in UserRowsTips(roundNum, l, userRows, |userRows|)
  {
    UserRowsTipsMembers(roundNum, l, userRows, |userRows|);
  }

  /** A row of a sheet comes from one of its user rows after the winner row. */
  lemma {:induction false} SheetRowSound(roundNum: int, l: Layout, rawData: seq<Row>, t: FlatTip) returns (u: int)
    requires LayoutValid(l) && l.winnerRowIndex < |rawData| && t in SheetTips(roundNum, l, rawData)
    ensures l.winnerRowIndex < u < |rawData| && t in RowTips(roundNum, l, rawData[u])
  {
    var userRows := rawData[l.winnerRowIndex + 1..];
    var v := UserRowsTipsFind(roundNum, l, userRows, t);
    u := l.winnerRowIndex + 1 + v;
    assert userRows[v] == rawData[u];
  }

  lemma {:induction false} RoundTipsSound(roundNum: int, rawData: seq<Row>, l: Layout, t: FlatTip) returns (u: int, g: int)
    requires RoundLayout(rawData) == Some(l) && t in RoundTips(roundNum, rawData)
    ensures Emits(roundNum, l, rawData, u, g, t)
  {
    RoundTipsOf(roundNum, rawData, l);
    u := SheetRowSound(roundNum, l, rawData, t);
    RowTipsMembers(roundNum, l, rawData[u]);
    g :| RowEmits(roundNum, l, rawData[u], g, t);
  }

  lemma {:induction false} RowTipsComplete(roundNum: int, l: Layout, row: Row, g: int, t: FlatTip)
    requires LayoutValid(l) && RowEmits(roundNum, l, row, g, t)
    ensures t in RowTips(roundNum, l, row)
  {
    UserTipsMembers(roundNum, l, UserName(row).value, Slice(row, 3, 12), l.gameCount);
  }

  /** A row of a family member after the winner row contributes its rows to the sheet. */
  lemma {:induction false} SheetRowComplete(roundNum: int, l: Layout, rawData: seq<Row>, u: int, t: FlatTip)
    requires LayoutValid(l) && l.winnerRowIndex < u < |rawData| && t in RowTips(roundNum, l, rawData[u])
    ensures t in SheetTips(roundNum, l, rawData)
  {
    var userRows := rawData[l.winnerRowIndex + 1..];
    var v := u - l.winnerRowIndex - 1;
    assert userRows[v] == rawData[u];
    UserRowsTipsHas(roundNum, l, userRows, v, t);
  }

  lemma {:induction false} RoundTipsComplete(roundNum: int, rawData: seq<Row>, l: Layout, u: int, t: FlatTip)
    requires RoundLayout(rawData) == Some(l)
    requires l.winnerRowIndex < u < |rawData| && t in RowTips(roundNum, l, rawData[u])
    ensures t in RoundTips(roundNum, rawData)
  {
    RoundTipsOf(roundNum, rawData, l);
    SheetRowComplete(roundNum, l, rawData, u, t);
  }

  /**
   * The rows of a round are exactly, for each family member's row after the winner
   * row and each game below the game count, the row for that game when the user's
   * tip cell is not empty.
   */
  lemma {:induction false} RoundTipsMembers(roundNum: int, rawData: seq<Row>)
    ensures RoundLayout(rawData).Some? ==> forall t :: t in RoundTips(roundNum, rawData) <==>
      exists u, g :: Emits(roundNum, RoundLayout(rawData).value, rawData, u, g, t)
  {
    if RoundLayout(rawData).Some? {
      var l := RoundLayout(rawData).value;
      forall t | t in RoundTips(roundNum, rawData) ensures exists u, g :: Emits(roundNum, l, rawData, u, g, t) {
        var u, g := RoundTipsSound(roundNum, rawData, l, t);
      }
      forall t, u, g | Emits(roundNum, l, rawData, u, g, t) ensures t in RoundTips(roundNum, rawData) {
        RowTipsComplete(roundNum, l, rawData[u], g, t);
        RoundTipsComplete(roundNum, rawData, l, u, t);
      }
    }
  }

  /** Block `i` of `bs` holds well-formed rows of round `i`, for every `i < j`. */
  predicate BlocksWellFormed(bs: seq<seq<FlatTip>>, j: nat)
    requires j <= |bs|
  {
    forall i, t :: 0 <= i < j && t in bs[i] ==> TipWellFormed(t, i)
  }

  /** Block `i` of `bs` holds rows of round `i` only, for every `i < j`. */
  predicate BlocksOfRounds(bs: seq<seq<FlatTip>>, j: nat)
    requires j <= |bs|
  {
    forall i, t :: 0 <= i < j && t in bs[i] ==> t.weekNumber == i
  }

  lemma {:induction false} FlattenWellFormed(bs: seq<seq<FlatTip>>, j: nat)
    requires j <= |bs| && BlocksWellFormed(bs, j)
    ensures forall t :: t in FlattenUpTo(bs, j) ==> TipWellFormed(t, t.weekNumber)
  {
    if j > 0 {
      FlattenWellFormed(bs, j - 1);
      forall t | t in bs[j - 1] ensures TipWellFormed(t, t.weekNumber) {
        assert TipWellFormed(t, j - 1);
      }
    }
  }

  lemma {:induction false} FlattenWeeks(bs: seq<seq<FlatTip>>, j: nat)
    requires j <= |bs| && BlocksOfRounds(bs, j)
    ensures forall t :: t in FlattenUpTo(bs, j) ==> 0 <= t.weekNumber < j
  {
    if j > 0 {
      FlattenWeeks(bs, j - 1);
      assert forall t: FlatTip :: t in bs[j - 1] ==> t.weekNumber == j - 1;
    }
  }

  lemma {:induction false} FlattenInRoundOrder(bs: seq<seq<FlatTip>>, j: nat)
    requires j <= |bs| && BlocksOfRounds(bs, j)
    ensures InRoundOrder(FlattenUpTo(bs, j))
  {
    if j > 0 {
      FlattenInRoundOrder(bs, j - 1);
      FlattenWeeks(bs, j - 1);
      assert forall t: FlatTip :: t in bs[j - 1] ==> t.weekNumber == j - 1;
      InRoundOrderAppend(FlattenUpTo(bs, j - 1), bs[j - 1], j - 1);
    }
  }

  /** Every round's block holds well-formed rows of that round. */
  lemma {:induction false} RoundsWellFormed(files: map<int, seq<Row>>)
    ensures BlocksWellFormed(Rounds(files), 24)
  {
    var bs := Rounds(files);
    forall i: int, t: FlatTip | 0 <= i < 24 && t in bs[i] ensures TipWellFormed(t, i) {
      RoundTipsWellFormed(i, files[i]);
    }
  }

  lemma {:induction false} RoundsOfRounds(files: map<int, seq<Row>>)
    ensures BlocksOfRounds(Rounds(files), 24)
  {
    var bs := Rounds(files);
    forall i: int, t: FlatTip | 0 <= i < 24 && t in bs[i] ensures t.weekNumber == i {
      RoundTipsWeek(i, files[i]);
    }
  }

  /** The rows of rounds `0..r` are well formed. */
  lemma {:induction false} TipsUpToWellFormed(files: map<int, seq<Row>>, r: nat)
    requires r <= 24
    ensures forall t :: t in TipsUpTo(files, r) ==> TipWellFormed(t, t.weekNumber)
  {
    RoundsWellFormed(files);
    FlattenWellFormed(Rounds(files), r);
  }

  lemma {:induction false} RoundTipsWeek(roundNum: int, rawData: seq<Row>)
    ensures forall t :: t in RoundTips(roundNum, rawData) ==> t.weekNumber == roundNum
  {
    RoundTipsWellFormed(roundNum, rawData);
  }

  /** The rows of rounds `0..r` belong to those rounds. */
  lemma {:induction false} TipsUpToWeeks(files: map<int, seq<Row>>, r: nat)
    requires r <= 24
    ensures forall t :: t in TipsUpTo(files, r) ==> 0 <= t.weekNumber < r
  {
    RoundsOfRounds(files);
    FlattenWeeks(Rounds(files), r);
  }

  /** The rows come in non-decreasing round order. */
  predicate InRoundOrder(ts: seq<FlatTip>)
  {
    forall i, j :: 0 <= i < j < |ts| ==> ts[i].weekNumber <= ts[j].weekNumber
  }

  /** Rows of one round after rows of earlier rounds keep the order. */
  lemma {:induction false} InRoundOrderAppend(prev: seq<FlatTip>, cur: seq<FlatTip>, w: int)
    requires InRoundOrder(prev)
    requires forall t :: t in prev ==> t.weekNumber < w
    requires forall t :: t in cur ==> t.weekNumber == w
    ensures InRoundOrder(prev + cur)
  {
    var all := prev + cur;
    forall i, j | 0 <= i < j < |all| ensures all[i].weekNumber <= all[j].weekNumber {
      if j < |prev| {
        assert all[i] == prev[i] && all[j] == prev[j];
      } else if i < |prev| {
        assert all[i] == prev[i] && prev[i] in prev;
        assert all[j] == cur[j - |prev|] && cur[j - |prev|] in cur;
      } else {
        assert all[i] == cur[i - |prev|] && cur[i - |prev|] in cur;
        assert all[j] == cur[j - |prev|] && cur[j - |prev|] in cur;
      }
    }
  }

  /** Rounds are taken in increasing order: the rows of rounds `0..r` come in non-decreasing round order. */
  lemma {:induction false} TipsInRoundOrder(files: map<int, seq<Row>>, r: nat)
    requires r <= 24
    ensures InRoundOrder(TipsUpTo(files, r))
  {
    RoundsOfRounds(files);
    FlattenInRoundOrder(Rounds(files), r);
  }

  /** A round with no file, or whose sheet is skipped, contributes no rows. */
  lemma {:induction false} SkippedRoundsContribute(files: map<int, seq<Row>>, r: nat)
    requires r < 24
    requires r !in files || RoundLayout(files[r]).None?
    ensures TipsUpTo(files, r + 1) == TipsUpTo(files, r)
  {
    assert Rounds(files)[r] == [];
    assert TipsUpTo(files, r + 1) == TipsUpTo(files, r) + [];
  }

  // ---------------------------------------------------------------------------
  // The transformation loops
  // ---------------------------------------------------------------------------

  /** The user rows of `userRows[..k]` that count, `processedUsers`. */
  function CountUsers(userRows: seq<Row>, k: nat): (n: nat)
    requires k <= |userRows|
    ensures n <= k
  {
    if k == 0 then 0 else CountUsers(userRows, k - 1) + (if UserName(userRows[k - 1]).Some? then 1 else 0)
  }

  /** The game loop for one user: push a CSV row for each game with a tip. */
  method ProcessUser(roundNum: int, l: Layout, userName: string, userTips: Row, csvRows: seq<string>)
    returns (csvRows': seq<string>)
    requires LayoutValid(l)
    ensures csvRows' == csvRows + CsvLines(UserTips(roundNum, l, userName, userTips, l.gameCount))
  {
    csvRows' := csvRows;
    var gameIndex := 0;
    while gameIndex < l.gameCount
      invariant gameIndex <= l.gameCount
      invariant csvRows' == csvRows + CsvLines(UserTips(roundNum, l, userName, userTips, gameIndex))
    {
      var t := GameTip(roundNum, l, userName, userTips, gameIndex);
      if t.Some? {
        CsvLinesPush(UserTips(roundNum, l, userName, userTips, gameIndex), t.value);
        csvRows' := csvRows' + [CsvLine(t.value)];
      }
      gameIndex := gameIndex + 1;
    }
  }

  /** One user row: skipped unless it is a family member's, else the game loop over its cells 3..11. */
  method ProcessUserRow(roundNum: int, l: Layout, row: Row, csvRows: seq<string>)
    returns (csvRows': seq<string>, counted: bool)
    requires LayoutValid(l)
    ensures csvRows' == csvRows + CsvLines(RowTips(roundNum, l, row))
    ensures counted == UserName(row).Some?
  {
    var userName := UserName(row);
    if userName.None? {
      assert csvRows + CsvLines(RowTips(roundNum, l, row)) == csvRows;
      return csvRows, false;
    }
    var userTips := Slice(row, 3, 12);
    csvRows' := ProcessUser(roundNum, l, userName.value, userTips, csvRows);
    counted := true;
  }

  /** One pass of the user-row loop: user row `k` processed and counted. */
  method UserRowStep(roundNum: int, l: Layout, userRows: seq<Row>, k: nat, ghost prefix: seq<string>,
                     csvRows: seq<string>, processedUsers: nat)
    returns (csvRows': seq<string>, processedUsers': nat)
    requires LayoutValid(l) && k < |userRows|
    requires csvRows == prefix + CsvLines(UserRowsTips(roundNum, l, userRows, k))
    requires processedUsers == CountUsers(userRows, k)
    ensures csvRows' == prefix + CsvLines(UserRowsTips(roundNum, l, userRows, k + 1))
    ensures processedUsers' == CountUsers(userRows, k + 1)
  {
    var counted;
    csvRows', counted := ProcessUserRow(roundNum, l, userRows[k], csvRows);
    AppendRows(prefix, UserRowsTips(roundNum, l, userRows, k), RowTips(roundNum, l, userRows[k]), csvRows);
    processedUsers' := if counted then processedUsers + 1 else processedUsers;
  }

  /** Rows appended after the rows of `done` are the rows of `done + added`. */
  lemma {:induction false} AppendRows(prefix: seq<string>, done: seq<FlatTip>, added: seq<FlatTip>, acc: seq<string>)
    requires acc == prefix + CsvLines(done)
    ensures acc + CsvLines(added) == prefix + CsvLines(done + added)
  {
    CsvLinesAppend(done, added);
    ConcatAssoc(prefix, CsvLines(done), CsvLines(added));
  }

  /** The user-row loop of a round with a layout. */
  method ProcessUserRows(roundNum: int, l: Layout, userRows: seq<Row>, csvRows: seq<string>)
    returns (csvRows': seq<string>, processedUsers: nat)
    requires LayoutValid(l)
    ensures csvRows' == csvRows + CsvLines(UserRowsTips(roundNum, l, userRows, |userRows|))
    ensures processedUsers == CountUsers(userRows, |userRows|)
  {
    csvRows', processedUsers := csvRows, 0;
    var k := 0;
    while k < |userRows|
      invariant k <= |userRows|
      invariant csvRows' == csvRows + CsvLines(UserRowsTips(roundNum, l, userRows, k))
      invariant processedUsers == CountUsers(userRows, k)
    {
      csvRows', processedUsers := UserRowStep(roundNum, l, userRows, k, csvRows, csvRows', processedUsers);
      k := k + 1;
    }
  }

  /** One round: skipped without a layout, else its user rows after the winner row. */
  method ProcessRound(roundNum: int, rawData: seq<Row>, csvRows: seq<string>) returns (csvRows': seq<string>)
    ensures csvRows' == csvRows + CsvLines(RoundTips(roundNum, rawData))
  {
    var layout := RoundLayout(rawData);
    if layout.None? {
      csvRows' := csvRows;
    } else {
      var userRows := rawData[layout.value.winnerRowIndex + 1..];
      var processedUsers;
      csvRows', processedUsers := ProcessUserRows(roundNum, layout.value, userRows, csvRows);
    }
  }

  /** `transformation-summary.json`, without its creation time. */
  datatype TransformSummary = TransformSummary(
    totalRecords: int, rounds: int, outputFile: string, csvHeader: string, sampleRecord: Option<string>)

  /** Round `roundNum`'s file, when there is one, read and transformed. */
  method ProcessRoundFile(files: map<int, seq<Row>>, roundNum: int, csvRows: seq<string>) returns (csvRows': seq<string>)
    ensures csvRows' == csvRows + CsvLines(RoundFileTips(files, roundNum))
  {
    if roundNum in files {
      csvRows' := ProcessRound(roundNum, files[roundNum], csvRows);
    } else {
      csvRows' := csvRows;
      assert csvRows + CsvLines([]) == csvRows;
    }
  }

  /** The round loop: the header, then the rows of rounds 0 to 23 in order. */
  method CollectRows(files: map<int, seq<Row>>) returns (csvRows: seq<string>)
    ensures csvRows == [Header] + CsvLines(AllTips(files))
  {
    csvRows := [Header];
    var roundNum := 0;
    while roundNum <= 23
      invariant roundNum <= 24
      invariant csvRows == [Header] + CsvLines(TipsUpTo(files, roundNum))
    {
      ghost var done := TipsUpTo(files, roundNum);
      ghost var before := csvRows;
      csvRows := ProcessRoundFile(files, roundNum, csvRows);
      AppendRows([Header], done, RoundFileTips(files, roundNum), before);
      roundNum := roundNum + 1;
    }
    assert roundNum == 24;
  }

  /**
   * `transformToFlatCSV`, with the round files as an input: the file's text is the
   * header and the rows of rounds 0 to 23 joined by newlines, and the summary counts
   * the rows below the header and quotes the first of them.
   */
  method TransformToFlatCsv(files: map<int, seq<Row>>) returns (content: string, summary: TransformSummary)
    ensures content == Join([Header] + CsvLines(AllTips(files)), "\n")
    ensures summary.totalRecords == |AllTips(files)|
    ensures summary.rounds == 24 && summary.outputFile == OutputFile && summary.csvHeader == Header
    ensures summary.sampleRecord == if AllTips(files) == [] then None else Some(CsvLine(AllTips(files)[0]))
  {
    var csvRows := CollectRows(files);
    ghost var all := AllTips(files);
    content := Join(csvRows, "\n");
    var sample := if |csvRows| > 1 then Some(csvRows[1]) else None;
    if all != [] {
      CsvLinesAt(all, 0);
      assert csvRows[1] == CsvLines(all)[0];
    }
    summary := TransformSummary(|csvRows| - 1, 24, OutputFile, Header, sample);
  }

  /** The keys quoted as samples in the summary agree with key generation. */
  lemma {:induction false} SampleKeysAgree()
    ensures SquiggleService.GameKey(0, 1) == "001"
    ensures SquiggleService.GameKey(12, 6) == "126"
    ensures SquiggleService.GameKey(23, 9) == "239"
  {
    assert NatToString(0) == "0" && NatToString(1) == "1" && NatToString(6) == "6" && NatToString(9) == "9";
    assert NatToString(12) == NatToString(1) + [DigitChar(2)] == "12";
    assert NatToString(23) == NatToString(2) + [DigitChar(3)] == "23";
  }
}
