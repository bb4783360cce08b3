/**
 * Checking the squiggle game keys of the flat tips CSV against the games already in
 * the database, before the historical import: the distinct keys of the CSV and the
 * details of the line each first appears on, the CSV keys the database has and the
 * ones it lacks, the database keys the CSV does not mention, and the readiness flags
 * of the report. The CSV text and the rows of the `squiggle_games` query are inputs.
 */
module KeyValidator {
  import opened Wrappers
  import opened Text
  import opened Sorting
  import SquiggleService

  // ---------------------------------------------------------------------------
  // The expected key of a line
  // ---------------------------------------------------------------------------

  /** `String(n)` for a result of `parseInt`, where `None` is `NaN`. */
  function NumberString(n: Option<int>): string
  {
    match n
    case None => "NaN"
    case Some(i) => IntToString(i)
  }

  /** The key a line's week and game numbers should give: the week padded to two characters, then the game. */
  function ExpectedKey(week: Option<int>, game: Option<int>): string
  {
    PadStart2(NumberString(week)) + NumberString(game)
  }

  /**
   * For parsed numbers the expected key is the key the Squiggle ingestion generates;
   * for weeks 0..99 and games 1..9 it is three digits.
   */
  lemma {:induction false} ExpectedKeyIsGameKey(w: int, g: int)
    requires 0 <= w <= 99 && 1 <= g <= 9
    ensures ExpectedKey(Some(w), Some(g)) == SquiggleService.GameKey(w, g)
    ensures |ExpectedKey(Some(w), Some(g))| == 3 && AllDigits(ExpectedKey(Some(w), Some(g)))
  {
    SquiggleService.GameKeyShape(w, g);
  }

  /** Within those bounds the expected key determines the week and the game. */
  lemma {:induction false} ExpectedKeyDetermines(w1: int, g1: int, w2: int, g2: int)
    requires 0 <= w1 <= 99 && 1 <= g1 <= 9 && 0 <= w2 <= 99 && 1 <= g2 <= 9
    requires ExpectedKey(Some(w1), Some(g1)) == ExpectedKey(Some(w2), Some(g2))
    ensures w1 == w2 && g1 == g2
  {
    SquiggleService.GameKeyInjective(w1, g1, w2, g2);
  }

  /** A week or game that does not parse puts "NaN" into the expected key, so no digit key can equal it. */
  lemma {:induction false} ExpectedKeyNaN(week: Option<int>, game: Option<int>)
    requires week.None? || game.None?
    ensures !AllDigits(ExpectedKey(week, game))
  {
    var k := ExpectedKey(week, game);
    if week.None? {
      assert PadStart2("NaN") == "NaN";
      assert k[0] == 'N';
    } else {
      assert k[|k| - 3] == 'N';
    }
  }

  // ---------------------------------------------------------------------------
  // Extracting the keys of the CSV
  // ---------------------------------------------------------------------------

  /** What is kept for a key: the numbers and teams of its line and the key those numbers should give. */
  datatype Details = Details(
    weekNumber: Option<int>, gameNumber: Option<int>,
    homeTeam: Option<string>, awayTeam: Option<string>,
    expectedKey: string)

  /** A line's trimmed key with its details. */
  datatype Entry = Entry(key: string, details: Details)

  /** `columns[i]?.trim()`, where `None` is `undefined` for a line with fewer columns. */
  function Column(columns: seq<string>, i: nat): Option<string>
  {
    if i < |columns| then Some(Trim(columns[i])) else None
  }

  /**
   * What one line of the CSV contributes: nothing for a blank line, a line of fewer
   * than four columns or a blank key; otherwise its trimmed key (column 3), the week
   * and game parsed from columns 1 and 2, and the trimmed teams of columns 4 and 5.
   */
  function LineEntry(line: string): (e: Option<Entry>)
    ensures e.Some? ==> e.value.key != ""
  {
    if Trim(line) == "" then None
    else
      var columns := Split(line, ',');
      if |columns| < 4 || Trim(columns[3]) == "" then None
      else
        var week := ParseInt(columns[1]);
        var game := ParseInt(columns[2]);
        Some(Entry(Trim(columns[3]), Details(week, game, Column(columns, 4), Column(columns, 5), ExpectedKey(week, game))))
  }

  /** The lines after the header. */
  function CsvLines(csvContent: string): seq<string>
  {
    Split(csvContent, '\n')[1..]
  }

  function Entries(lines: seq<string>): (es: seq<Option<Entry>>)
    ensures |es| == |lines|
  {
    seq(|lines|, i requires 0 <= i < |lines| => LineEntry(lines[i]))
  }

  lemma EntriesAt(lines: seq<string>, i: nat)
    requires i < |lines|
    ensures Entries(lines)[i] == LineEntry(lines[i])
  {
  }

  /** Line `j` carries key `x`. */
  predicate HasKey(es: seq<Option<Entry>>, j: int, x: string)
  {
    0 <= j < |es| && es[j].Some? && es[j].value.key == x
  }

  /** The `csvGameKeys` set after `k` lines, in insertion order. */
  function KeysUpTo(es: seq<Option<Entry>>, k: nat): seq<string>
    requires k <= |es|
  {
    if k == 0 then []
    else
      match es[k - 1]
      case None => KeysUpTo(es, k - 1)
      case Some(e) => Add(KeysUpTo(es, k - 1), e.key)
  }

  /** The `gameKeyDetails` map after `k` lines: a key is set only when it is not there yet. */
  function DetailsUpTo(es: seq<Option<Entry>>, k: nat): map<string, Details>
    requires k <= |es|
  {
    if k == 0 then map[]
    else
      var d := DetailsUpTo(es, k - 1);
      match es[k - 1]
      case None => d
      case Some(e) => if e.key in d then d else d[e.key := e.details]
  }

  /**
   * After `k` lines the key set and the map hold the same keys, exactly those carried
   * by some line so far, each once.
   */
  lemma {:induction false} KeysMeaning(es: seq<Option<Entry>>, k: nat)
    requires k <= |es|
    ensures forall x :: x in KeysUpTo(es, k) <==> x in DetailsUpTo(es, k)
    ensures forall x :: x in KeysUpTo(es, k) <==> exists j :: 0 <= j < k && HasKey(es, j, x)
    ensures Distinct(KeysUpTo(es, k))
  {
    if k > 0 {
      KeysMeaning(es, k - 1);
      var prev := KeysUpTo(es, k - 1);
      forall x | exists j :: 0 <= j < k && HasKey(es, j, x)
        ensures x in KeysUpTo(es, k)
      {
        var j :| 0 <= j < k && HasKey(es, j, x);
        if j < k - 1 {
          assert x in prev;
        }
      }
      forall x | x in KeysUpTo(es, k)
        ensures exists j :: 0 <= j < k && HasKey(es, j, x)
      {
        if x !in prev {
          assert HasKey(es, k - 1, x);
        }
      }
    }
  }

  /**
   * A key's details are those of the first line that carries it: later lines with
   * the same key do not overwrite them.
   */
  lemma {:induction false} FirstOccurrence(es: seq<Option<Entry>>, k: nat, j: nat)
    requires j < k <= |es| && es[j].Some?
    requires forall i :: 0 <= i < j ==> !HasKey(es, i, es[j].value.key)
    ensures es[j].value.key in DetailsUpTo(es, k)
    ensures DetailsUpTo(es, k)[es[j].value.key] == es[j].value.details
  {
    var x := es[j].value.key;
    if k == j + 1 {
      KeysMeaning(es, j);
      assert x !in DetailsUpTo(es, j);
    } else {
      FirstOccurrence(es, k - 1, j);
    }
  }

  function CsvEntries(csvContent: string): seq<Option<Entry>>
  {
    Entries(CsvLines(csvContent))
  }

  /** `csvGameKeys` after the whole CSV. */
  function CsvKeys(csvContent: string): seq<string>
  {
    KeysUpTo(CsvEntries(csvContent), |CsvEntries(csvContent)|)
  }

  /** `gameKeyDetails` after the whole CSV. */
  function CsvDetails(csvContent: string): map<string, Details>
  {
    DetailsUpTo(CsvEntries(csvContent), |CsvEntries(csvContent)|)
  }

  /** One pass of the extraction loop: the line at `k`, handled as the loop body does. */
  method ExtractLine(csvLines: seq<string>, k: nat, keys: seq<string>, details: map<string, Details>)
    returns (keys': seq<string>, details': map<string, Details>)
    requires k < |csvLines|
    requires keys == KeysUpTo(Entries(csvLines), k) && details == DetailsUpTo(Entries(csvLines), k)
    ensures keys' == KeysUpTo(Entries(csvLines), k + 1) && details' == DetailsUpTo(Entries(csvLines), k + 1)
  {
    EntriesAt(csvLines, k);
    keys', details' := keys, details;
    var line := csvLines[k];
    if Trim(line) != "" {
      var columns := Split(line, ',');
      if |columns| >= 4 {
        var weekNumber := ParseInt(columns[1]);
        var gameNumber := ParseInt(columns[2]);
        var squiggleGameKey := Trim(columns[3]);
        var homeTeam := Column(columns, 4);
        var awayTeam := Column(columns, 5);
        if squiggleGameKey != "" {
          if squiggleGameKey !in keys' {
            keys' := keys' + [squiggleGameKey];
          }
          if squiggleGameKey !in details' {
            details' := details'[squiggleGameKey := Details(weekNumber, gameNumber, homeTeam, awayTeam, ExpectedKey(weekNumber, gameNumber))];
          }
        }
      }
    }
  }

  /** The extraction loop over the lines after the header. */
  method ExtractLines(csvLines: seq<string>) returns (csvGameKeys: seq<string>, gameKeyDetails: map<string, Details>)
    ensures csvGameKeys == KeysUpTo(Entries(csvLines), |csvLines|)
    ensures gameKeyDetails == DetailsUpTo(Entries(csvLines), |csvLines|)
  {
    csvGameKeys, gameKeyDetails := [], map[];
    var k := 0;
    while k < |csvLines|
      invariant k <= |csvLines|
      invariant csvGameKeys == KeysUpTo(Entries(csvLines), k)
      invariant gameKeyDetails == DetailsUpTo(Entries(csvLines), k)
    {
      csvGameKeys, gameKeyDetails := ExtractLine(csvLines, k, csvGameKeys, gameKeyDetails);
      k := k + 1;
    }
  }

  /** Step 1: the key set and the details map of the CSV's lines after the header. */
  method ExtractKeys(csvContent: string) returns (csvGameKeys: seq<string>, gameKeyDetails: map<string, Details>)
    ensures csvGameKeys == CsvKeys(csvContent)
    ensures gameKeyDetails == CsvDetails(csvContent)
  {
    csvGameKeys, gameKeyDetails := ExtractLines(CsvLines(csvContent));
  }

  /** `Array.from(csvGameKeys).sort()`. */
  function UniqueCsvKeys(csvContent: string): seq<string>
  {
    SortStrings(CsvKeys(csvContent))
  }

  /**
   * The sorted keys are distinct and in order, they are the keys of the details map,
   * and they are exactly the keys some line of the CSV carries.
   */
  lemma {:induction false} UniqueCsvKeysMeaning(csvContent: string)
    ensures Distinct(UniqueCsvKeys(csvContent))
    ensures forall i, j :: 0 <= i < j < |UniqueCsvKeys(csvContent)| ==> StrLess(UniqueCsvKeys(csvContent)[i], UniqueCsvKeys(csvContent)[j])
    ensures forall x :: x in UniqueCsvKeys(csvContent) <==> x in CsvDetails(csvContent)
    ensures forall x :: x in UniqueCsvKeys(csvContent) <==> exists j :: 0 <= j < |CsvLines(csvContent)| && HasKey(CsvEntries(csvContent), j, x)
  {
    var es := CsvEntries(csvContent);
    var keys := CsvKeys(csvContent);
    var u := UniqueCsvKeys(csvContent);
    KeysMeaning(es, |es|);
    PermutationDistinct(keys, u);
    forall x ensures x in u <==> x in keys {
      assert x in u <==> x in multiset(u);
      assert x in keys <==> x in multiset(keys);
    }
    forall i, j | 0 <= i < j < |u| ensures StrLess(u[i], u[j]) {
      assert StrLe(u[i], u[j]) && u[i] != u[j];
    }
  }

  // ---------------------------------------------------------------------------
  // The database side
  // ---------------------------------------------------------------------------

  /** A row of the `squiggle_games` query; `None` teams are SQL nulls. */
  datatype DbGame = DbGame(key: string, roundNumber: int, gameNumber: int, hteam: Option<string>, ateam: Option<string>, year: int)

  /** `dbGameKeys.map(row => row.squiggle_game_key)`. */
  function DbKeys(rows: seq<DbGame>): (ks: seq<string>)
    ensures |ks| == |rows|
  {
    seq(|rows|, i requires 0 <= i < |rows| => rows[i].key)
  }

  /** `dbGameKeys.find(row => row.squiggle_game_key === key)`. */
  function Find(rows: seq<DbGame>, key: string): (r: Option<DbGame>)
    ensures r.Some? ==> r.value.key == key
  {
    if rows == [] then None
    else if rows[0].key == key then Some(rows[0])
    else Find(rows[1..], key)
  }

  /** `find` succeeds exactly for the keys of the rows, and gives the first row with the key. */
  lemma {:induction false} FindMeaning(rows: seq<DbGame>, key: string)
    ensures Find(rows, key).Some? <==> key in DbKeys(rows)
    ensures key in DbKeys(rows) ==> Find(rows, key) == Some(rows[IndexOf(DbKeys(rows), key)])
  {
    if rows != [] {
      FindMeaning(rows[1..], key);
      assert DbKeys(rows) == [rows[0].key] + DbKeys(rows[1..]);
    }
  }

  // ---------------------------------------------------------------------------
  // Matching the keys
  // ---------------------------------------------------------------------------

  /** An entry of `matches`. */
  datatype Match = Match(
    squiggleGameKey: string,
    csvWeekNumber: Option<int>, csvGameNumber: Option<int>,
    dbRoundNumber: int, dbGameNumber: int,
    csvHomeTeam: Option<string>, csvAwayTeam: Option<string>,
    dbHomeTeam: Option<string>, dbAwayTeam: Option<string>,
    teamMatch: bool, keyGenerationCorrect: bool)

  /** `csvTeam === dbTeam`, where a CSV `None` is `undefined` and a database `None` is `null`: the two never compare equal. */
  predicate SameTeam(csvTeam: Option<string>, dbTeam: Option<string>)
  {
    csvTeam.Some? && dbTeam.Some? && csvTeam.value == dbTeam.value
  }

  function MatchOf(key: string, csvGame: Details, dbGame: DbGame): Match
  {
    Match(key, csvGame.weekNumber, csvGame.gameNumber, dbGame.roundNumber, dbGame.gameNumber,
      csvGame.homeTeam, csvGame.awayTeam, dbGame.hteam, dbGame.ateam,
      SameTeam(csvGame.homeTeam, dbGame.hteam) && SameTeam(csvGame.awayTeam, dbGame.ateam),
      key == csvGame.expectedKey)
  }

  const MissingReason := "CSV game not found in database"

  /** An entry of `missingInDb`. */
  datatype Missing = Missing(
    squiggleGameKey: string, weekNumber: Option<int>, gameNumber: Option<int>,
    homeTeam: Option<string>, awayTeam: Option<string>, reason: string)

  function MissingOf(key: string, csvGame: Details): Missing
  {
    Missing(key, csvGame.weekNumber, csvGame.gameNumber, csvGame.homeTeam, csvGame.awayTeam, MissingReason)
  }

  /** `matches` after the CSV keys `keys`: one entry, built from the first row, per key the database has. */
  function MatchesUpTo(keys: seq<string>, details: map<string, Details>, rows: seq<DbGame>): seq<Match>
    requires forall x :: x in keys ==> x in details
  {
    if keys == [] then []
    else
      var init := keys[..|keys| - 1];
      var key := keys[|keys| - 1];
      assert keys == init + [key];
      var rest := MatchesUpTo(init, details, rows);
      if key in DbKeys(rows) then
        FindMeaning(rows, key);
        rest + [MatchOf(key, details[key], Find(rows, key).value)]
      else rest
  }

  /** `missingInDb` after the CSV keys `keys`: one entry per key the database lacks. */
  function MissingUpTo(keys: seq<string>, details: map<string, Details>, rows: seq<DbGame>): seq<Missing>
    requires forall x :: x in keys ==> x in details
  {
    if keys == [] then []
    else
      var init := keys[..|keys| - 1];
      var key := keys[|keys| - 1];
      assert keys == init + [key];
      var rest := MissingUpTo(init, details, rows);
      if key in DbKeys(rows) then rest else rest + [MissingOf(key, details[key])]
  }

  /** The `squiggleGameKey` of each entry of a report list, in order. */
  function KeysOf<T>(xs: seq<T>, key: T -> string): (ks: seq<string>)
    ensures |ks| == |xs|
    ensures forall i :: 0 <= i < |xs| ==> ks[i] == key(xs[i])
  {
    if xs == [] then [] else KeysOf(xs[..|xs| - 1], key) + [key(xs[|xs| - 1])]
  }

  function MatchKey(m: Match): string { m.squiggleGameKey }

  function MissingKey(m: Missing): string { m.squiggleGameKey }

  /** The keys of `matches` are the CSV keys found in the database, and those of `missingInDb` the others, both in CSV order. */
  lemma {:induction false} MatchKeysArePresent(keys: seq<string>, details: map<string, Details>, rows: seq<DbGame>)
    requires forall x :: x in keys ==> x in details
    ensures KeysOf(MatchesUpTo(keys, details, rows), MatchKey) == Present(keys, DbKeys(rows), true)
    ensures KeysOf(MissingUpTo(keys, details, rows), MissingKey) == Present(keys, DbKeys(rows), false)
  {
    if keys != [] {
      var init := keys[..|keys| - 1];
      assert keys == init + [keys[|keys| - 1]];
      MatchKeysArePresent(init, details, rows);
      var ms := MatchesUpTo(init, details, rows);
      var mi := MissingUpTo(init, details, rows);
      forall m: Match ensures KeysOf(ms + [m], MatchKey) == KeysOf(ms, MatchKey) + [m.squiggleGameKey] {
        assert (ms + [m])[..|ms|] == ms;
      }
      forall m: Missing ensures KeysOf(mi + [m], MissingKey) == KeysOf(mi, MissingKey) + [m.squiggleGameKey] {
        assert (mi + [m])[..|mi|] == mi;
      }
    }
  }

  /**
   * `matches` and `missingInDb` split the CSV keys: a key is matched iff the database
   * has it, missing iff it does not, and the two counts add up to the number of keys.
   */
  lemma {:induction false} CompareMeaning(keys: seq<string>, details: map<string, Details>, rows: seq<DbGame>)
    requires forall x :: x in keys ==> x in details
    ensures forall x :: x in KeysOf(MatchesUpTo(keys, details, rows), MatchKey) <==> x in keys && x in DbKeys(rows)
    ensures forall x :: x in KeysOf(MissingUpTo(keys, details, rows), MissingKey) <==> x in keys && x !in DbKeys(rows)
    ensures |MatchesUpTo(keys, details, rows)| + |MissingUpTo(keys, details, rows)| == |keys|
  {
    MatchKeysArePresent(keys, details, rows);
    PresentPartition(keys, DbKeys(rows));
  }

  /**
   * Every match carries its key's CSV details and the fields of the key's first
   * database row; its teams match iff both CSV teams are present and equal the
   * database's, and its key is correct iff it equals the expected key.
   */
  lemma {:induction false} MatchesContent(keys: seq<string>, details: map<string, Details>, rows: seq<DbGame>)
    requires forall x :: x in keys ==> x in details
    ensures forall m :: m in MatchesUpTo(keys, details, rows) ==>
      m.squiggleGameKey in details && Find(rows, m.squiggleGameKey).Some? &&
      m.csvWeekNumber == details[m.squiggleGameKey].weekNumber &&
      m.csvGameNumber == details[m.squiggleGameKey].gameNumber &&
      m.csvHomeTeam == details[m.squiggleGameKey].homeTeam &&
      m.csvAwayTeam == details[m.squiggleGameKey].awayTeam &&
      m.dbRoundNumber == Find(rows, m.squiggleGameKey).value.roundNumber &&
      m.dbGameNumber == Find(rows, m.squiggleGameKey).value.gameNumber &&
      m.dbHomeTeam == Find(rows, m.squiggleGameKey).value.hteam &&
      m.dbAwayTeam == Find(rows, m.squiggleGameKey).value.ateam &&
      (m.teamMatch <==> m.csvHomeTeam.Some? && m.csvHomeTeam == m.dbHomeTeam && m.csvAwayTeam.Some? && m.csvAwayTeam == m.dbAwayTeam) &&
      (m.keyGenerationCorrect <==> m.squiggleGameKey == details[m.squiggleGameKey].expectedKey)
  {
    if keys != [] {
      var init := keys[..|keys| - 1];
      assert keys == init + [keys[|keys| - 1]];
      MatchesContent(init, details, rows);
      FindMeaning(rows, keys[|keys| - 1]);
    }
  }

  /** Every missing entry carries its key's CSV details. */
  lemma {:induction false} MissingContent(keys: seq<string>, details: map<string, Details>, rows: seq<DbGame>)
    requires forall x :: x in keys ==> x in details
    ensures forall m :: m in MissingUpTo(keys, details, rows) ==>
      m.squiggleGameKey in details && m.squiggleGameKey !in DbKeys(rows) &&
      m == MissingOf(m.squiggleGameKey, details[m.squiggleGameKey])
  {
    if keys != [] {
      var init := keys[..|keys| - 1];
      assert keys == init + [keys[|keys| - 1]];
      MissingContent(init, details, rows);
    }
  }

  /** The loop over the sorted CSV keys, pushing to `matches` or `missingInDb`. */
  method CompareKeys(uniqueCsvKeys: seq<string>, details: map<string, Details>, rows: seq<DbGame>)
    returns (matches: seq<Match>, missingInDb: seq<Missing>)
    requires forall x :: x in uniqueCsvKeys ==> x in details
    ensures matches == MatchesUpTo(uniqueCsvKeys, details, rows)
    ensures missingInDb == MissingUpTo(uniqueCsvKeys, details, rows)
  {
    var dbKeys := DbKeys(rows);
    matches, missingInDb := [], [];
    var k := 0;
    while k < |uniqueCsvKeys|
      invariant k <= |uniqueCsvKeys|
      invariant forall x :: x in uniqueCsvKeys[..k] ==> x in details
      invariant matches == MatchesUpTo(uniqueCsvKeys[..k], details, rows)
      invariant missingInDb == MissingUpTo(uniqueCsvKeys[..k], details, rows)
    {
      var csvKey := uniqueCsvKeys[k];
      assert uniqueCsvKeys[..k + 1][..k] == uniqueCsvKeys[..k];
      assert uniqueCsvKeys[..k + 1] == uniqueCsvKeys[..k] + [csvKey];
      if csvKey in dbKeys {
        FindMeaning(rows, csvKey);
        var dbGame := Find(rows, csvKey).value;
        var csvGame := details[csvKey];
        matches := matches + [MatchOf(csvKey, csvGame, dbGame)];
      } else {
        missingInDb := missingInDb + [MissingOf(csvKey, details[csvKey])];
      }
      k := k + 1;
    }
    assert uniqueCsvKeys[..k] == uniqueCsvKeys;
  }

  // ---------------------------------------------------------------------------
  // Database keys the CSV does not mention
  // ---------------------------------------------------------------------------

  const ExtraReason := "Database game not in CSV (may be future games)"

  /** An entry of `extraInDb`. */
  datatype Extra = Extra(
    squiggleGameKey: string, roundNumber: int, gameNumber: int,
    homeTeam: Option<string>, awayTeam: Option<string>, reason: string)

  function ExtraOf(key: string, dbGame: DbGame): Extra
  {
    Extra(key, dbGame.roundNumber, dbGame.gameNumber, dbGame.hteam, dbGame.ateam, ExtraReason)
  }

  /** `extraInDb` after the database keys `dbKeys`: one entry, from the key's first row, per key the CSV lacks. */
  function ExtrasUpTo(dbKeys: seq<string>, rows: seq<DbGame>, csvKeys: seq<string>): seq<Extra>
    requires forall x :: x in dbKeys ==> x in DbKeys(rows)
  {
    if dbKeys == [] then []
    else
      var init := dbKeys[..|dbKeys| - 1];
      var key := dbKeys[|dbKeys| - 1];
      assert dbKeys == init + [key];
      var rest := ExtrasUpTo(init, rows, csvKeys);
      if key !in csvKeys then
        FindMeaning(rows, key);
        rest + [ExtraOf(key, Find(rows, key).value)]
      else rest
  }

  function ExtraKey(e: Extra): string { e.squiggleGameKey }

  /**
   * The keys of `extraInDb` are the database keys absent from the CSV, in database
   * order (a repeated database key repeats), each with the fields of its first row.
   */
  lemma {:induction false} ExtrasMeaning(dbKeys: seq<string>, rows: seq<DbGame>, csvKeys: seq<string>)
    requires forall x :: x in dbKeys ==> x in DbKeys(rows)
    ensures KeysOf(ExtrasUpTo(dbKeys, rows, csvKeys), ExtraKey) == Present(dbKeys, csvKeys, false)
    ensures forall e :: e in ExtrasUpTo(dbKeys, rows, csvKeys) ==>
      e.squiggleGameKey !in csvKeys && Find(rows, e.squiggleGameKey).Some? &&
      e == ExtraOf(e.squiggleGameKey, Find(rows, e.squiggleGameKey).value)
  {
    if dbKeys != [] {
      var init := dbKeys[..|dbKeys| - 1];
      var key := dbKeys[|dbKeys| - 1];
      assert dbKeys == init + [key];
      ExtrasMeaning(init, rows, csvKeys);
      FindMeaning(rows, key);
      var es := ExtrasUpTo(init, rows, csvKeys);
      forall e: Extra ensures KeysOf(es + [e], ExtraKey) == KeysOf(es, ExtraKey) + [e.squiggleGameKey] {
        assert (es + [e])[..|es|] == es;
      }
    }
  }

  /** The loop over the database keys, pushing the ones the CSV key set lacks. */
  method FindExtras(rows: seq<DbGame>, csvGameKeys: seq<string>) returns (extraInDb: seq<Extra>)
    ensures extraInDb == ExtrasUpTo(DbKeys(rows), rows, csvGameKeys)
  {
    var dbKeys := DbKeys(rows);
    extraInDb := [];
    var k := 0;
    while k < |dbKeys|
      invariant k <= |dbKeys|
      invariant extraInDb == ExtrasUpTo(dbKeys[..k], rows, csvGameKeys)
    {
      var dbKey := dbKeys[k];
      assert dbKeys[..k + 1][..k] == dbKeys[..k];
      assert dbKeys[..k + 1] == dbKeys[..k] + [dbKey];
      if dbKey !in csvGameKeys {
        FindMeaning(rows, dbKey);
        var dbGame := Find(rows, dbKey).value;
        extraInDb := extraInDb + [ExtraOf(dbKey, dbGame)];
      }
      k := k + 1;
    }
    assert dbKeys[..k] == dbKeys;
  }

  // ---------------------------------------------------------------------------
  // The report
  // ---------------------------------------------------------------------------

  datatype Summary = Summary(
    totalCsvKeys: nat, totalDbKeys: nat, matches: nat, missingInDb: nat, extraInDb: nat,
    teamMismatches: nat, keyGenerationErrors: nat,
    validationPassed: bool, importReady: bool)

  datatype Report = Report(
    summary: Summary, matches: seq<Match>, missingInDb: seq<Missing>, extraInDb: seq<Extra>,
    teamMismatches: seq<Match>, keyGenerationErrors: seq<Match>)

  /** Step 4: the two filters over `matches` and the summary counts and flags. */
  function ReportOf(uniqueCsvKeys: seq<string>, rows: seq<DbGame>, matches: seq<Match>, missingInDb: seq<Missing>, extraInDb: seq<Extra>): Report
  {
    var teamMismatches := Filter(matches, (m: Match) => !m.teamMatch);
    var keyGenerationErrors := Filter(matches, (m: Match) => !m.keyGenerationCorrect);
    Report(
      Summary(|uniqueCsvKeys|, |rows|, |matches|, |missingInDb|, |extraInDb|,
        |teamMismatches|, |keyGenerationErrors|,
        |missingInDb| == 0 && |teamMismatches| == 0, |missingInDb| == 0),
      matches, missingInDb, extraInDb, teamMismatches, keyGenerationErrors)
  }

  /** The report the validation produces for a CSV and the database rows. */
  function Validation(csvContent: string, rows: seq<DbGame>): Report
  {
    var keys := UniqueCsvKeys(csvContent);
    var details := CsvDetails(csvContent);
    UniqueCsvKeysMeaning(csvContent);
    ReportOf(keys, rows, MatchesUpTo(keys, details, rows), MissingUpTo(keys, details, rows),
      ExtrasUpTo(DbKeys(rows), rows, CsvKeys(csvContent)))
  }

  /** `validateSquiggleGameKeys`, with the file and the database query as inputs. */
  method ValidateSquiggleGameKeys(csvContent: string, dbGameKeys: seq<DbGame>) returns (report: Report)
    ensures report == Validation(csvContent, dbGameKeys)
  {
    var csvGameKeys, gameKeyDetails := ExtractKeys(csvContent);
    UniqueCsvKeysMeaning(csvContent);
    var uniqueCsvKeys := SortStrings(csvGameKeys);
    var matches, missingInDb := CompareKeys(uniqueCsvKeys, gameKeyDetails, dbGameKeys);
    var extraInDb := FindExtras(dbGameKeys, csvGameKeys);
    report := ReportOf(uniqueCsvKeys, dbGameKeys, matches, missingInDb, extraInDb);
  }

  /**
   * What the report says about its own lists: the team mismatches and key errors are
   * exactly the matches with those flags false; the CSV is import-ready iff nothing
   * is missing, and the validation passes iff besides every match's teams agree.
   */
  lemma {:induction false} ReportOfMeaning(uniqueCsvKeys: seq<string>, rows: seq<DbGame>, matches: seq<Match>, missingInDb: seq<Missing>, extraInDb: seq<Extra>)
    ensures forall m :: m in ReportOf(uniqueCsvKeys, rows, matches, missingInDb, extraInDb).teamMismatches <==> m in matches && !m.teamMatch
    ensures forall m :: m in ReportOf(uniqueCsvKeys, rows, matches, missingInDb, extraInDb).keyGenerationErrors <==> m in matches && !m.keyGenerationCorrect
    ensures ReportOf(uniqueCsvKeys, rows, matches, missingInDb, extraInDb).summary.importReady <==> missingInDb == []
    ensures ReportOf(uniqueCsvKeys, rows, matches, missingInDb, extraInDb).summary.validationPassed <==>
      missingInDb == [] && forall m :: m in matches ==> m.teamMatch
  {
    var r := ReportOf(uniqueCsvKeys, rows, matches, missingInDb, extraInDb);
    FilterMembers(matches, (m: Match) => !m.teamMatch);
    FilterMembers(matches, (m: Match) => !m.keyGenerationCorrect);
    if missingInDb == [] && !r.summary.validationPassed {
      var m := r.teamMismatches[0];
      assert m in r.teamMismatches;
    }
  }

  /**
   * The matched and missing counts add up to the CSV keys, and the CSV is
   * import-ready iff the database has every key some CSV line carries.
   */
  lemma {:induction false} ImportReadyMeaning(csvContent: string, rows: seq<DbGame>)
    ensures Validation(csvContent, rows).summary.matches + Validation(csvContent, rows).summary.missingInDb
      == Validation(csvContent, rows).summary.totalCsvKeys
    ensures Validation(csvContent, rows).summary.importReady <==>
      forall j :: 0 <= j < |CsvLines(csvContent)| && CsvEntries(csvContent)[j].Some? ==>
        CsvEntries(csvContent)[j].value.key in DbKeys(rows)
  {
    var keys := UniqueCsvKeys(csvContent);
    var details := CsvDetails(csvContent);
    var es := CsvEntries(csvContent);
    UniqueCsvKeysMeaning(csvContent);
    CompareMeaning(keys, details, rows);
    var missing := MissingUpTo(keys, details, rows);
    var r := Validation(csvContent, rows);
    ReportOfMeaning(keys, rows, MatchesUpTo(keys, details, rows), missing, r.extraInDb);
    if missing == [] {
      forall j | 0 <= j < |CsvLines(csvContent)| && es[j].Some? ensures es[j].value.key in DbKeys(rows) {
        var x := es[j].value.key;
        assert HasKey(es, j, x);
        assert x in keys;
      }
    } else {
      var x := KeysOf(missing, MissingKey)[0];
      assert x in KeysOf(missing, MissingKey);
      var j :| 0 <= j < |es| && HasKey(es, j, x);
      assert es[j].value.key !in DbKeys(rows);
    }
  }

  /** The extra entries' keys are the database keys no CSV line carries. */
  lemma {:induction false} ExtraKeysMeaning(csvContent: string, rows: seq<DbGame>)
    ensures forall x :: x in KeysOf(Validation(csvContent, rows).extraInDb, ExtraKey) <==>
      x in DbKeys(rows) && !exists j :: 0 <= j < |CsvLines(csvContent)| && HasKey(CsvEntries(csvContent), j, x)
  {
    var es := CsvEntries(csvContent);
    KeysMeaning(es, |es|);
    ExtrasMeaning(DbKeys(rows), rows, CsvKeys(csvContent));
    PresentPartition(DbKeys(rows), CsvKeys(csvContent));
  }
}
