/**
 * The import-template step of the historical import: each line of the flat tips CSV
 * becomes a `historical_tips` record or is skipped with a reason, the selected team
 * is standardised through the team-name mapping, and per-user, per-round and per-team
 * statistics are gathered. The CSV text and the mapping are parameters; reading and
 * writing the files is not modelled.
 */
module ImportTemplate {
  import opened Wrappers
  import opened Text
  import opened Sorting

  /** Every historical record is for the 2025 season. */
  const HistoricalYear: int := 2025

  /** The team-name mapping: a CSV name to its standard name, `None` for a name left unmapped. */
  type TeamMapping = map<string, Option<string>>

  datatype SourceData = SourceData(
    originalSelectedTeam: string, homeTeam: string, awayTeam: string, winningTeam: string,
    sourceTab: string, teamMappingApplied: bool)

  /** A row for `historical_tips`; `isCorrect` is `None` where the CSV cell did not parse. */
  datatype ImportRecord = ImportRecord(
    userName: string, roundNumber: int, gameNumber: int, gameKey: string, selectedTeam: string,
    isCorrect: Option<int>, year: int, source: SourceData)

  datatype RowError =
    | InsufficientColumns(row: nat, data: string)
    | MissingRequiredFields(row: nat)
    | UnmappedTeamName(row: nat, selectedTeam: string)

  datatype LineOutcome = BlankLine | SkippedLine(error: RowError) | ValidLine(record: ImportRecord)

  /** The ten columns of a data line, trimmed or parsed as the script reads them. */
  datatype Fields = Fields(
    userName: string, week: Option<int>, game: Option<int>, gameKey: string, homeTeam: string,
    awayTeam: string, winningTeam: string, selectedTeam: string, isCorrect: Option<int>, sourceTab: string)

  /** `content.split('\n').slice(1)`: the lines after the header. */
  function CsvLines(content: string): seq<string>
  {
    Split(content, '\n')[1..]
  }

  /** `line.substring(0, 100)`. */
  function Prefix(line: string, n: nat): string
  {
    if |line| <= n then line else line[..n]
  }

  function FieldsOf(columns: seq<string>): Fields
    requires |columns| >= 10
  {
    Fields(Trim(columns[0]), ParseInt(columns[1]), ParseInt(columns[2]), Trim(columns[3]), Trim(columns[4]),
           Trim(columns[5]), Trim(columns[6]), Trim(columns[7]), ParseInt(columns[8]), Trim(columns[9]))
  }

  /** A name, key and selected team that are not empty, and a week and game number that parse. */
  predicate RequiredPresent(f: Fields)
  {
    f.userName != "" && f.week.Some? && f.game.Some? && f.gameKey != "" && f.selectedTeam != ""
  }

  /** `mapping[team] && mapping[team] !== team`: a non-empty standard name other than the team itself. */
  predicate Remapped(mapping: TeamMapping, team: string)
  {
    team in mapping && mapping[team].Some? && mapping[team].value != "" && mapping[team].value != team
  }

  function RecordOf(f: Fields, team: string): ImportRecord
    requires f.week.Some? && f.game.Some?
  {
    ImportRecord(f.userName, f.week.value, f.game.value, f.gameKey, team, f.isCorrect, HistoricalYear,
                 SourceData(f.selectedTeam, f.homeTeam, f.awayTeam, f.winningTeam, f.sourceTab, f.selectedTeam != team))
  }

  /** What a line with its ten columns read becomes: a record, or a skipped row. */
  function ProcessFields(f: Fields, row: nat, mapping: TeamMapping): (o: LineOutcome)
    ensures !o.BlankLine?
  {
    if !RequiredPresent(f) then SkippedLine(MissingRequiredFields(row))
    else if Remapped(mapping, f.selectedTeam) then ValidLine(RecordOf(f, mapping[f.selectedTeam].value))
    else if f.selectedTeam in mapping && mapping[f.selectedTeam].None? then SkippedLine(UnmappedTeamName(row, f.selectedTeam))
    else ValidLine(RecordOf(f, f.selectedTeam))
  }

  /** The fate of the CSV line numbered `row` (counting from 1 after the header). */
  function ProcessLine(line: string, row: nat, mapping: TeamMapping): LineOutcome
  {
    if IsBlank(line) then BlankLine
    else
      var columns := Split(line, ',');
      if |columns| < 10 then SkippedLine(InsufficientColumns(row, Prefix(line, 100)))
      else ProcessFields(FieldsOf(columns), row, mapping)
  }

  /** A line is skipped as blank exactly when it is blank. */
  lemma {:induction false} BlankLineRule(line: string, row: nat, mapping: TeamMapping)
    ensures ProcessLine(line, row, mapping).BlankLine? <==> IsBlank(line)
  {
  }

  /** A line that is not blank is skipped with 'Insufficient columns' below ten columns, else decided by them. */
  lemma {:induction false} ColumnsRule(line: string, row: nat, mapping: TeamMapping)
    ensures !IsBlank(line) && |Split(line, ',')| < 10 ==>
              ProcessLine(line, row, mapping) == SkippedLine(InsufficientColumns(row, Prefix(line, 100)))
    ensures !IsBlank(line) && |Split(line, ',')| >= 10 ==>
              ProcessLine(line, row, mapping) == ProcessFields(FieldsOf(Split(line, ',')), row, mapping)
  {
  }

  /**
   * A line missing a required field is skipped with 'Missing required fields'. A line
   * that becomes a record has the line's week as its round, the 2025 season, and its
   * mapping flag set exactly when the team was replaced.
   */
  lemma {:induction false} FieldRules(f: Fields, row: nat, mapping: TeamMapping)
    ensures !RequiredPresent(f) <==> ProcessFields(f, row, mapping) == SkippedLine(MissingRequiredFields(row))
    ensures ProcessFields(f, row, mapping).ValidLine? ==>
              var r := ProcessFields(f, row, mapping).record;
              r.roundNumber == f.week.value && r.gameNumber == f.game.value && r.year == HistoricalYear
              && r.userName == f.userName != "" && r.gameKey == f.gameKey != "" && r.selectedTeam != ""
              && r.source.originalSelectedTeam == f.selectedTeam
              && (r.source.teamMappingApplied <==> r.selectedTeam != r.source.originalSelectedTeam)
  {
  }

  /**
   * For a line with every required field: a team mapped to another name is replaced
   * by it, a team mapped to `None` is skipped as unmapped, and a team the mapping
   * does not know, or maps to itself or to '', is kept as it is.
   */
  lemma {:induction false} MappingApplied(f: Fields, row: nat, mapping: TeamMapping)
    requires RequiredPresent(f)
    ensures var t := f.selectedTeam;
            var o := ProcessFields(f, row, mapping);
            (Remapped(mapping, t) ==> o.ValidLine? && o.record.selectedTeam == mapping[t].value && o.record.source.teamMappingApplied)
            && (t in mapping && mapping[t].None? ==> o == SkippedLine(UnmappedTeamName(row, t)))
            && (!Remapped(mapping, t) && !(t in mapping && mapping[t].None?) ==>
                  o.ValidLine? && o.record.selectedTeam == t && !o.record.source.teamMappingApplied)
  {
  }

  // ---------------------------------------------------------------------------
  // The processing loop
  // ---------------------------------------------------------------------------

  datatype ProcessingStats = ProcessingStats(
    totalRows: nat, validRows: nat, skippedRows: nat, teamMappingApplied: nat, errors: seq<RowError>)

  datatype Progress = Progress(records: seq<ImportRecord>, stats: ProcessingStats)

  /** What the outcome of a line, once counted, does to the records and the other counters. */
  function Tally(p: Progress, o: LineOutcome): Progress
  {
    var s := p.stats;
    match o
    case BlankLine => Progress(p.records, s.(skippedRows := s.skippedRows + 1))
    case SkippedLine(e) => Progress(p.records, s.(skippedRows := s.skippedRows + 1, errors := s.errors + [e]))
    case ValidLine(r) =>
      Progress(p.records + [r], s.(validRows := s.validRows + 1,
                                   teamMappingApplied := if r.source.teamMappingApplied then s.teamMappingApplied + 1 else s.teamMappingApplied))
  }

  /** The row count bumped for the next line. */
  function Counted(p: Progress): Progress
  {
    Progress(p.records, p.stats.(totalRows := p.stats.totalRows + 1))
  }

  /** What one line does: it is counted, then its outcome is tallied. */
  function Step(p: Progress, o: LineOutcome): Progress
  {
    Tally(Counted(p), o)
  }

  /** The fate of each CSV line, the line numbered `i + 1` at index `i`. */
  function Outcomes(lines: seq<string>, mapping: TeamMapping): (os: seq<LineOutcome>)
    ensures |os| == |lines|
  {
    OutcomesUpTo(lines, mapping, |lines|)
  }

  /** The fates of the first `n` lines. */
  function OutcomesUpTo(lines: seq<string>, mapping: TeamMapping, n: nat): (os: seq<LineOutcome>)
    requires n <= |lines|
    ensures |os| == n
  {
    if n == 0 then [] else OutcomesUpTo(lines, mapping, n - 1) + [OutcomeAt(lines, mapping, n - 1)]
  }

  /** The outcome at index `i` is that of the line at index `i`. */
  lemma {:induction false} OutcomeIndex(lines: seq<string>, mapping: TeamMapping, n: nat, i: nat)
    requires i < n <= |lines|
    ensures OutcomesUpTo(lines, mapping, n)[i] == OutcomeAt(lines, mapping, i)
  {
    if i < n - 1 {
      OutcomeIndex(lines, mapping, n - 1, i);
    }
  }

  /** The fate of the line at index `i`, which the script numbers `i + 1`. */
  function OutcomeAt(lines: seq<string>, mapping: TeamMapping, i: nat): LineOutcome
    requires i < |lines|
  {
    ProcessLine(lines[i], i + 1, mapping)
  }

  /** The records and counters after the first `k` outcomes. */
  function ProcessUpTo(os: seq<LineOutcome>, k: nat): Progress
    requires k <= |os|
  {
    if k == 0 then Progress([], ProcessingStats(0, 0, 0, 0, []))
    else Step(ProcessUpTo(os, k - 1), os[k - 1])
  }

  /**
   * The loop of `generateImportTemplate` over the CSV lines: each line bumps the row
   * count and then ends as a record or as a skipped row.
   */
  method ProcessCsv(content: string, mapping: TeamMapping) returns (records: seq<ImportRecord>, stats: ProcessingStats)
    ensures var os := Outcomes(CsvLines(content), mapping);
            Progress(records, stats) == ProcessUpTo(os, |os|)
  {
    var lines := CsvLines(content);
    ghost var os := Outcomes(lines, mapping);
    records := [];
    stats := ProcessingStats(0, 0, 0, 0, []);
    var k := 0;
    while k < |lines|
      invariant 0 <= k <= |lines|
      invariant Progress(records, stats) == ProcessUpTo(os, k)
      invariant stats.totalRows == k
    {
      records, stats := HandleLine(records, stats, lines, mapping, os, k);
      k := k + 1;
    }
  }

  /** One turn of the loop: count the line, process it, and tally its outcome. */
  method HandleLine(records: seq<ImportRecord>, stats: ProcessingStats, lines: seq<string>, mapping: TeamMapping,
                    ghost os: seq<LineOutcome>, ghost k: nat)
    returns (records': seq<ImportRecord>, stats': ProcessingStats)
    requires os == Outcomes(lines, mapping) && k < |lines|
    requires Progress(records, stats) == ProcessUpTo(os, k) && stats.totalRows == k
    ensures Progress(records', stats') == ProcessUpTo(os, k + 1) && stats'.totalRows == k + 1
  {
    var counted := stats.(totalRows := stats.totalRows + 1);
    var outcome := ReadLine(lines, counted.totalRows, mapping, os);
    records', stats' := TallyLine(records, counted, outcome, os, k);
  }

  /** The line numbered `row` (its index plus one), processed. */
  method ReadLine(lines: seq<string>, row: nat, mapping: TeamMapping, ghost os: seq<LineOutcome>) returns (outcome: LineOutcome)
    requires 1 <= row <= |lines|
    requires os == Outcomes(lines, mapping)
    ensures outcome == os[row - 1]
  {
    outcome := ProcessLine(lines[row - 1], row, mapping);
    OutcomeIndex(lines, mapping, |lines|, row - 1);
  }

  /** The branches of the loop body that follow the row count: push the record or count the skip. */
  method TallyLine(records: seq<ImportRecord>, stats: ProcessingStats, outcome: LineOutcome,
                   ghost os: seq<LineOutcome>, ghost k: nat)
    returns (records': seq<ImportRecord>, stats': ProcessingStats)
    requires k < |os| && outcome == os[k]
    requires Progress(records, stats) == Counted(ProcessUpTo(os, k))
    ensures Progress(records', stats') == ProcessUpTo(os, k + 1)
    ensures stats'.totalRows == stats.totalRows
  {
    records', stats' := records, stats;
    match outcome {
      case BlankLine =>
        stats' := stats'.(skippedRows := stats'.skippedRows + 1);
      case SkippedLine(e) =>
        stats' := stats'.(errors := stats'.errors + [e]);
        stats' := stats'.(skippedRows := stats'.skippedRows + 1);
      case ValidLine(r) =>
        if r.source.teamMappingApplied {
          stats' := stats'.(teamMappingApplied := stats'.teamMappingApplied + 1);
        }
        records' := records' + [r];
        stats' := stats'.(validRows := stats'.validRows + 1);
    }
  }

  /** How many of `records` had their team replaced through the mapping. */
  function CountApplied(records: seq<ImportRecord>): nat
  {
    if records == [] then 0
    else CountApplied(records[..|records| - 1]) + (if records[|records| - 1].source.teamMappingApplied then 1 else 0)
  }

  /** The errors of the non-blank skipped lines among the first `k`, in line order. */
  function SkipErrors(os: seq<LineOutcome>, k: nat): seq<RowError>
    requires k <= |os|
  {
    if k == 0 then []
    else SkipErrors(os, k - 1) + (if os[k - 1].SkippedLine? then [os[k - 1].error] else [])
  }

  /**
   * Every line is counted once and ends either valid or skipped; the valid ones are
   * the records; the mapping counter counts the records whose team was replaced; and
   * the error log holds exactly one error for each skipped line that was not blank, in
   * line order.
   */
  lemma {:induction false} RowsAccounted(os: seq<LineOutcome>, k: nat)
    requires k <= |os|
    ensures var p := ProcessUpTo(os, k);
            p.stats.totalRows == k == p.stats.validRows + p.stats.skippedRows
            && p.stats.validRows == |p.records|
            && p.stats.teamMappingApplied == CountApplied(p.records)
            && p.stats.errors == SkipErrors(os, k) && |p.stats.errors| <= p.stats.skippedRows
  {
    if k > 0 {
      RowsAccounted(os, k - 1);
      var p := ProcessUpTo(os, k - 1);
      if os[k - 1].ValidLine? {
        var rs := p.records + [os[k - 1].record];
        assert rs[..|rs| - 1] == p.records;
      }
    }
  }

  /** A record for the 2025 season, with a name and a key, whose mapping flag tells whether its team changed. */
  predicate WellFormed(r: ImportRecord)
  {
    r.year == HistoricalYear && r.userName != "" && r.gameKey != ""
    && (r.source.teamMappingApplied <==> r.selectedTeam != r.source.originalSelectedTeam)
  }

  /** Whatever record a line yields is well formed. */
  lemma {:induction false} LineWellFormed(line: string, row: nat, mapping: TeamMapping)
    ensures ProcessLine(line, row, mapping).ValidLine? ==> WellFormed(ProcessLine(line, row, mapping).record)
  {
    if ProcessLine(line, row, mapping).ValidLine? {
      ColumnsRule(line, row, mapping);
      FieldRules(FieldsOf(Split(line, ',')), row, mapping);
    }
  }

  /** The record of a line, where it has one, is well formed. */
  lemma {:induction false} OutcomeWellFormed(lines: seq<string>, mapping: TeamMapping, i: nat)
    requires i < |lines|
    ensures Outcomes(lines, mapping)[i].ValidLine? ==> WellFormed(Outcomes(lines, mapping)[i].record)
  {
    OutcomeIndex(lines, mapping, |lines|, i);
    LineWellFormed(lines[i], i + 1, mapping);
  }

  /** Every record in `records` is well formed. */
  predicate AllWellFormed(records: seq<ImportRecord>)
  {
    forall i :: 0 <= i < |records| ==> WellFormed(records[i])
  }

  /** Every record of the first `k` lines is for the 2025 season, with its mapping flag right. */
  lemma {:induction false} RecordsWellFormed(lines: seq<string>, mapping: TeamMapping, k: nat)
    requires k <= |lines|
    ensures AllWellFormed(ProcessUpTo(Outcomes(lines, mapping), k).records)
  {
    if k > 0 {
      var os := Outcomes(lines, mapping);
      RecordsWellFormed(lines, mapping, k - 1);
      OutcomeWellFormed(lines, mapping, k - 1);
      StepWellFormed(ProcessUpTo(os, k - 1), os[k - 1]);
    }
  }

  /** A step keeps the records well formed when the outcome's record is. */
  lemma StepWellFormed(p: Progress, o: LineOutcome)
    requires AllWellFormed(p.records)
    requires o.ValidLine? ==> WellFormed(o.record)
    ensures AllWellFormed(Step(p, o).records)
  {
  }

  // ---------------------------------------------------------------------------
  // Statistics
  // ---------------------------------------------------------------------------

  datatype UserStat = UserStat(tips: nat, correct: nat)

  datatype RoundStat = RoundStat(tips: nat, games: set<int>)

  /** `if (record.is_correct)`: any value but 0 counts as correct; an unparsed cell does not. */
  predicate Truthy(c: Option<int>)
  {
    c.Some? && c.value != 0
  }

  /** One record counted into the per-user statistics. */
  function UserBump(m: map<string, UserStat>, r: ImportRecord): map<string, UserStat>
  {
    var before := if r.userName in m then m[r.userName] else UserStat(0, 0);
    m[r.userName := UserStat(before.tips + 1, if Truthy(r.isCorrect) then before.correct + 1 else before.correct)]
  }

  /** One record counted into the per-round statistics. */
  function RoundBump(m: map<int, RoundStat>, r: ImportRecord): map<int, RoundStat>
  {
    var before := if r.roundNumber in m then m[r.roundNumber] else RoundStat(0, {});
    m[r.roundNumber := RoundStat(before.tips + 1, before.games + {r.gameNumber})]
  }

  /** One record counted into the per-team selections. */
  function TeamBump(m: map<string, nat>, r: ImportRecord): map<string, nat>
  {
    m[r.selectedTeam := (if r.selectedTeam in m then m[r.selectedTeam] else 0) + 1]
  }

  function UserStatsUpTo(records: seq<ImportRecord>, k: nat): map<string, UserStat>
    requires k <= |records|
  {
    if k == 0 then map[] else UserBump(UserStatsUpTo(records, k - 1), records[k - 1])
  }

  function RoundStatsUpTo(records: seq<ImportRecord>, k: nat): map<int, RoundStat>
    requires k <= |records|
  {
    if k == 0 then map[] else RoundBump(RoundStatsUpTo(records, k - 1), records[k - 1])
  }

  function TeamStatsUpTo(records: seq<ImportRecord>, k: nat): map<string, nat>
    requires k <= |records|
  {
    if k == 0 then map[] else TeamBump(TeamStatsUpTo(records, k - 1), records[k - 1])
  }

  /** The statistics loop: per-user tips and correct tips, per-round tips and games, per-team selections. */
  method ComputeStatistics(records: seq<ImportRecord>)
    returns (userStats: map<string, UserStat>, roundStats: map<int, RoundStat>, teamStats: map<string, nat>)
    ensures userStats == UserStatsUpTo(records, |records|)
    ensures roundStats == RoundStatsUpTo(records, |records|)
    ensures teamStats == TeamStatsUpTo(records, |records|)
    ensures forall i :: 0 <= i < |records| ==>
              records[i].userName in userStats && records[i].roundNumber in roundStats && records[i].selectedTeam in teamStats
    ensures forall name :: name in userStats ==>
              userStats[name] == UserStat(TipsBy(records, |records|, name), CorrectBy(records, |records|, name))
    ensures forall round :: round in roundStats ==> roundStats[round].tips == TipsInRound(records, |records|, round)
    ensures forall team :: team in teamStats ==> teamStats[team] == SelectionsOf(records, |records|, team)
  {
    userStats, roundStats, teamStats := map[], map[], map[];
    var k := 0;
    while k < |records|
      invariant 0 <= k <= |records|
      invariant userStats == UserStatsUpTo(records, k)
      invariant roundStats == RoundStatsUpTo(records, k)
      invariant teamStats == TeamStatsUpTo(records, k)
    {
      var record := records[k];
      userStats := CountUser(userStats, record);
      roundStats := CountRound(roundStats, record);
      teamStats := CountTeam(teamStats, record);
      k := k + 1;
    }
    forall i | 0 <= i < |records|
      ensures records[i].userName in userStats && records[i].roundNumber in roundStats
              && records[i].selectedTeam in teamStats
    {
      UserStatsMeaning(records, |records|, records[i].userName);
      RoundStatsMeaning(records, |records|, records[i].roundNumber, 0);
      TeamStatsMeaning(records, |records|, records[i].selectedTeam);
    }
    forall name | name in userStats
      ensures userStats[name] == UserStat(TipsBy(records, |records|, name), CorrectBy(records, |records|, name))
    {
      UserStatsMeaning(records, |records|, name);
    }
    forall round | round in roundStats ensures roundStats[round].tips == TipsInRound(records, |records|, round) {
      RoundStatsMeaning(records, |records|, round, 0);
    }
    forall team | team in teamStats ensures teamStats[team] == SelectionsOf(records, |records|, team) {
      TeamStatsMeaning(records, |records|, team);
    }
  }

  method CountUser(userStats: map<string, UserStat>, record: ImportRecord) returns (m: map<string, UserStat>)
    ensures m == UserBump(userStats, record)
  {
    m := userStats;
    if record.userName !in m {
      m := m[record.userName := UserStat(0, 0)];
    }
    m := m[record.userName := m[record.userName].(tips := m[record.userName].tips + 1)];
    if Truthy(record.isCorrect) {
      m := m[record.userName := m[record.userName].(correct := m[record.userName].correct + 1)];
    }
  }

  method CountRound(roundStats: map<int, RoundStat>, record: ImportRecord) returns (m: map<int, RoundStat>)
    ensures m == RoundBump(roundStats, record)
  {
    m := roundStats;
    if record.roundNumber !in m {
      m := m[record.roundNumber := RoundStat(0, {})];
    }
    var rs := m[record.roundNumber];
    m := m[record.roundNumber := RoundStat(rs.tips + 1, rs.games + {record.gameNumber})];
  }

  method CountTeam(teamStats: map<string, nat>, record: ImportRecord) returns (m: map<string, nat>)
    ensures m == TeamBump(teamStats, record)
  {
    m := teamStats;
    if record.selectedTeam !in m {
      m := m[record.selectedTeam := 0];
    }
    m := m[record.selectedTeam := m[record.selectedTeam] + 1];
  }

  /** How many of the first `k` records are by `name`, and how many of those are truthy-correct. */
  function TipsBy(records: seq<ImportRecord>, k: nat, name: string): nat
    requires k <= |records|
  {
    if k == 0 then 0 else TipsBy(records, k - 1, name) + (if records[k - 1].userName == name then 1 else 0)
  }

  function CorrectBy(records: seq<ImportRecord>, k: nat, name: string): nat
    requires k <= |records|
  {
    if k == 0 then 0
    else CorrectBy(records, k - 1, name) + (if records[k - 1].userName == name && Truthy(records[k - 1].isCorrect) then 1 else 0)
  }

  /**
   * There is an entry for exactly the users with a record, holding how many records
   * they have and how many of those have a truthy `is_correct`.
   */
  lemma {:induction false} UserStatsMeaning(records: seq<ImportRecord>, k: nat, name: string)
    requires k <= |records|
    ensures name in UserStatsUpTo(records, k) <==> exists i :: 0 <= i < k && records[i].userName == name
    ensures name in UserStatsUpTo(records, k) ==>
              UserStatsUpTo(records, k)[name] == UserStat(TipsBy(records, k, name), CorrectBy(records, k, name))
    ensures name !in UserStatsUpTo(records, k) ==> TipsBy(records, k, name) == 0 && CorrectBy(records, k, name) == 0
  {
    if k > 0 {
      UserStatsMeaning(records, k - 1, name);
    }
  }

  /** The tips of the users listed in `names`, as `stats` records them. */
  function SumTips(names: seq<string>, stats: map<string, UserStat>): nat
  {
    if names == [] then 0
    else (if names[0] in stats then stats[names[0]].tips else 0) + SumTips(names[1..], stats)
  }

  lemma {:induction false} SumTipsUnchanged(names: seq<string>, stats: map<string, UserStat>, x: string, v: UserStat)
    requires x !in names
    ensures SumTips(names, stats[x := v]) == SumTips(names, stats)
  {
    if names != [] {
      SumTipsUnchanged(names[1..], stats, x, v);
    }
  }

  /** Raising one listed user's tips by one raises the sum by one. */
  lemma {:induction false} SumTipsBump(names: seq<string>, stats: map<string, UserStat>, x: string, v: UserStat)
    requires Distinct(names) && x in names
    requires v.tips == (if x in stats then stats[x].tips else 0) + 1
    ensures SumTips(names, stats[x := v]) == SumTips(names, stats) + 1
  {
    assert Distinct(names[1..]);
    if names[0] == x {
      assert x !in names[1..];
      SumTipsUnchanged(names[1..], stats, x, v);
    } else {
      assert x in names[1..];
      SumTipsBump(names[1..], stats, x, v);
    }
  }

  /** Over a list of distinct users that holds everybody with a record, the tips add up to the records. */
  lemma {:induction false} SumTipsCovers(records: seq<ImportRecord>, k: nat, names: seq<string>)
    requires k <= |records| && Distinct(names)
    requires forall i :: 0 <= i < k ==> records[i].userName in names
    ensures SumTips(names, UserStatsUpTo(records, k)) == k
  {
    if k == 0 {
      SumTipsEmpty(names);
    } else {
      SumTipsCovers(records, k - 1, names);
      var m := UserStatsUpTo(records, k - 1);
      var r := records[k - 1];
      var before := if r.userName in m then m[r.userName] else UserStat(0, 0);
      SumTipsBump(names, m, r.userName, UserStat(before.tips + 1, if Truthy(r.isCorrect) then before.correct + 1 else before.correct));
    }
  }

  lemma {:induction false} SumTipsEmpty(names: seq<string>)
    ensures SumTips(names, map[]) == 0
  {
    if names != [] {
      SumTipsEmpty(names[1..]);
    }
  }

  /** The user names of `records` in the order `Object.keys(userStats)` lists them. */
  function UserNames(records: seq<ImportRecord>): (names: seq<string>)
    ensures |names| == |records|
    ensures forall i :: 0 <= i < |records| ==> names[i] == records[i].userName
  {
    seq(|records|, i requires 0 <= i < |records| => records[i].userName)
  }

  /** The per-user tip counts add up to the number of records. */
  lemma {:induction false} UserTipsTotal(records: seq<ImportRecord>)
    ensures SumTips(Dedupe(UserNames(records)), UserStatsUpTo(records, |records|)) == |records|
  {
    var names := Dedupe(UserNames(records));
    SumTipsCovers(records, |records|, names);
  }

  /** How many of the first `k` records are in `round`. */
  function TipsInRound(records: seq<ImportRecord>, k: nat, round: int): nat
    requires k <= |records|
  {
    if k == 0 then 0 else TipsInRound(records, k - 1, round) + (if records[k - 1].roundNumber == round then 1 else 0)
  }

  /** How many of the first `k` records select `team`. */
  function SelectionsOf(records: seq<ImportRecord>, k: nat, team: string): nat
    requires k <= |records|
  {
    if k == 0 then 0 else SelectionsOf(records, k - 1, team) + (if records[k - 1].selectedTeam == team then 1 else 0)
  }

  /** A round's entry counts its records and collects their game numbers. */
  lemma {:induction false} RoundStatsMeaning(records: seq<ImportRecord>, k: nat, round: int, game: int)
    requires k <= |records|
    ensures round in RoundStatsUpTo(records, k) <==> exists i :: 0 <= i < k && records[i].roundNumber == round
    ensures round in RoundStatsUpTo(records, k) ==>
              (game in RoundStatsUpTo(records, k)[round].games <==>
                 exists i :: 0 <= i < k && records[i].roundNumber == round && records[i].gameNumber == game)
    ensures round in RoundStatsUpTo(records, k) ==> RoundStatsUpTo(records, k)[round].tips == TipsInRound(records, k, round)
    ensures round !in RoundStatsUpTo(records, k) ==> TipsInRound(records, k, round) == 0
  {
    if k > 0 {
      RoundStatsMeaning(records, k - 1, round, game);
    }
  }

  /** There is an entry for exactly the teams some record selects, holding how many records select it. */
  lemma {:induction false} TeamStatsMeaning(records: seq<ImportRecord>, k: nat, team: string)
    requires k <= |records|
    ensures team in TeamStatsUpTo(records, k) <==> exists i :: 0 <= i < k && records[i].selectedTeam == team
    ensures team in TeamStatsUpTo(records, k) ==> TeamStatsUpTo(records, k)[team] == SelectionsOf(records, k, team)
    ensures team !in TeamStatsUpTo(records, k) ==> SelectionsOf(records, k, team) == 0
  {
    if k > 0 {
      TeamStatsMeaning(records, k - 1, team);
    }
  }
}
