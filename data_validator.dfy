/**
 * The data-validation step of the historical import: the import records are checked
 * against the database (users, squiggle game keys, tips already imported) and against
 * per-record integrity rules, and a report says whether the import may proceed.
 * Reading the template, the database queries, the clock and writing the report are
 * left out: the records, the query results, the time stamp and the current year are
 * parameters.
 */
module DataValidator {
  import opened Wrappers
  import opened Text
  import opened Sorting
  import opened ImportTemplate

  // ---------------------------------------------------------------------------
  // Users and game keys against the database
  // ---------------------------------------------------------------------------

  function UserNames(records: seq<ImportRecord>): (r: seq<string>)
    ensures |r| == |records| && forall i :: 0 <= i < |r| ==> r[i] == records[i].userName
  {
    seq(|records|, i requires 0 <= i < |records| => records[i].userName)
  }

  function GameKeys(records: seq<ImportRecord>): (r: seq<string>)
    ensures |r| == |records| && forall i :: 0 <= i < |r| ==> r[i] == records[i].gameKey
  {
    seq(|records|, i requires 0 <= i < |records| => records[i].gameKey)
  }

  datatype UserValidation = UserValidation(
    totalImportUsers: nat, totalDbUsers: nat, validUsers: nat, missingUsers: nat,
    missingUsersList: seq<string>, userValidationPassed: bool)

  datatype GameKeyValidation = GameKeyValidation(
    totalImportKeys: nat, validKeys: nat, missingKeys: nat, missingKeysList: seq<string>,
    gameKeyValidationPassed: bool)

  /** `validation.users`, from the import's distinct sorted user names and the users table. */
  function UsersOf(importUsers: seq<string>, dbUsers: seq<string>): UserValidation
  {
    var missing := Present(importUsers, dbUsers, false);
    UserValidation(|importUsers|, |dbUsers|, |Present(importUsers, dbUsers, true)|, |missing|, missing, |missing| == 0)
  }

  /** `validation.gameKeys`, from the import's distinct sorted keys and the keys in `squiggle_games`. */
  function GameKeysOf(importGameKeys: seq<string>, dbGameKeys: seq<string>): GameKeyValidation
  {
    var missing := Present(importGameKeys, dbGameKeys, false);
    GameKeyValidation(|importGameKeys|, |Present(importGameKeys, dbGameKeys, true)|, |missing|, missing, |missing| == 0)
  }

  /**
   * The user check counts each distinct import user once, as valid or as missing;
   * the missing list holds exactly the import users absent from the users table, and
   * the check passes exactly when every import user is in that table.
   */
  lemma {:induction false} UsersMeaning(importData: seq<ImportRecord>, dbUsers: seq<string>)
    ensures var v := UsersOf(SortedDistinct(UserNames(importData)), dbUsers);
            v.validUsers + v.missingUsers == v.totalImportUsers
    ensures var v := UsersOf(SortedDistinct(UserNames(importData)), dbUsers);
            forall x :: x in v.missingUsersList <==> x !in dbUsers && exists i :: 0 <= i < |importData| && importData[i].userName == x
    ensures UsersOf(SortedDistinct(UserNames(importData)), dbUsers).userValidationPassed <==>
              forall i :: 0 <= i < |importData| ==> importData[i].userName in dbUsers
  {
    var names := UserNames(importData);
    SortedDistinctMeaning(names);
    PresentPartition(SortedDistinct(names), dbUsers);
    var missing := Present(SortedDistinct(names), dbUsers, false);
    if |missing| > 0 {
      assert missing[0] in missing;
    }
    forall i | 0 <= i < |importData| && importData[i].userName !in dbUsers
      ensures importData[i].userName in missing
    {
      assert names[i] in names;
    }
  }

  /**
   * The key check counts each distinct import key once, as valid or as missing; the
   * missing list holds exactly the import keys with no `squiggle_games` row, and the check
   * passes exactly when every record's key has one.
   */
  lemma {:induction false} GameKeysMeaning(importData: seq<ImportRecord>, dbGameKeys: seq<string>)
    ensures var v := GameKeysOf(SortedDistinct(GameKeys(importData)), dbGameKeys);
            v.validKeys + v.missingKeys == v.totalImportKeys
    ensures var v := GameKeysOf(SortedDistinct(GameKeys(importData)), dbGameKeys);
            forall x :: x in v.missingKeysList <==> x !in dbGameKeys && exists i :: 0 <= i < |importData| && importData[i].gameKey == x
    ensures GameKeysOf(SortedDistinct(GameKeys(importData)), dbGameKeys).gameKeyValidationPassed <==>
              forall i :: 0 <= i < |importData| ==> importData[i].gameKey in dbGameKeys
  {
    var keys := GameKeys(importData);
    SortedDistinctMeaning(keys);
    PresentPartition(SortedDistinct(keys), dbGameKeys);
    var missing := Present(SortedDistinct(keys), dbGameKeys, false);
    if |missing| > 0 {
      assert missing[0] in missing;
    }
    forall i | 0 <= i < |importData| && importData[i].gameKey !in dbGameKeys
      ensures importData[i].gameKey in missing
    {
      assert keys[i] in keys;
    }
  }

  // ---------------------------------------------------------------------------
  // Tips already imported
  // ---------------------------------------------------------------------------

  /** A row of `SELECT user_name, squiggle_game_key, COUNT(*) ... GROUP BY user_name, squiggle_game_key`. */
  datatype ExistingTip = ExistingTip(userName: string, gameKey: string, count: nat)

  /** The template string `${user}:${key}`. */
  function TipKey(userName: string, gameKey: string): string
  {
    userName + ":" + gameKey
  }

  function ExistingTipKeys(existingTips: seq<ExistingTip>): set<string>
  {
    set t | t in existingTips :: TipKey(t.userName, t.gameKey)
  }

  /** The records among the first `k` whose user and key already have a historical tip, in order. */
  function DuplicatesUpTo(importData: seq<ImportRecord>, existingTipKeys: set<string>, k: nat): seq<ImportRecord>
    requires k <= |importData|
  {
    if k == 0 then []
    else if TipKey(importData[k - 1].userName, importData[k - 1].gameKey) in existingTipKeys then
      DuplicatesUpTo(importData, existingTipKeys, k - 1) + [importData[k - 1]]
    else DuplicatesUpTo(importData, existingTipKeys, k - 1)
  }

  /** The loop that collects `potentialDuplicates`. */
  method FindDuplicates(importData: seq<ImportRecord>, existingTipKeys: set<string>)
    returns (potentialDuplicates: seq<ImportRecord>)
    ensures potentialDuplicates == DuplicatesUpTo(importData, existingTipKeys, |importData|)
  {
    potentialDuplicates := [];
    var k := 0;
    while k < |importData|
      invariant 0 <= k <= |importData|
      invariant potentialDuplicates == DuplicatesUpTo(importData, existingTipKeys, k)
    {
      var record := importData[k];
      var key := TipKey(record.userName, record.gameKey);
      if key in existingTipKeys {
        potentialDuplicates := potentialDuplicates + [record];
      }
      k := k + 1;
    }
  }

  /**
   * A record is a potential duplicate exactly as often as it occurs in the import, when
   * its user and key name a tip already imported, and otherwise never.
   */
  lemma {:induction false} DuplicatesMeaning(importData: seq<ImportRecord>, existingTipKeys: set<string>, k: nat, r: ImportRecord)
    requires k <= |importData|
    ensures multiset(DuplicatesUpTo(importData, existingTipKeys, k))[r]
            == if TipKey(r.userName, r.gameKey) in existingTipKeys then multiset(importData[..k])[r] else 0
  {
    if k > 0 {
      DuplicatesMeaning(importData, existingTipKeys, k - 1, r);
      assert importData[..k] == importData[..k - 1] + [importData[k - 1]];
    }
  }

  datatype SampleDuplicate = SampleDuplicate(user: string, gameKey: string, round: int, game: int)

  datatype DuplicateValidation = DuplicateValidation(
    existingHistoricalTips: nat, potentialDuplicates: nat, duplicateValidationPassed: bool,
    sampleDuplicates: seq<SampleDuplicate>)

  /** `potentialDuplicates.slice(0, 5).map(...)`. */
  function Samples(dups: seq<ImportRecord>): (r: seq<SampleDuplicate>)
    ensures |r| <= 5 && |r| <= |dups|
    ensures forall i :: 0 <= i < |r| ==>
              r[i] == SampleDuplicate(dups[i].userName, dups[i].gameKey, dups[i].roundNumber, dups[i].gameNumber)
  {
    var n := if |dups| < 5 then |dups| else 5;
    seq(n, i requires 0 <= i < n => SampleDuplicate(dups[i].userName, dups[i].gameKey, dups[i].roundNumber, dups[i].gameNumber))
  }

  // ---------------------------------------------------------------------------
  // Integrity checks
  // ---------------------------------------------------------------------------

  /** The rules of the integrity loop; `TeamNames` has a counter but no check. */
  datatype Rule = NullValues | RoundNumbers | GameNumbers | SquiggleKeys | TeamNames | Years | Correctness

  /** `/^\d{3}$/`: exactly three ASCII digits. */
  predicate ThreeDigits(s: string)
  {
    |s| == 3 && AllDigits(s)
  }

  /** Whether `r` breaks `rule`, with the current year as the clock gives it. */
  predicate Breaks(r: ImportRecord, currentYear: int, rule: Rule)
  {
    match rule
    case NullValues => r.userName == "" || r.gameKey == "" || r.selectedTeam == ""
    case RoundNumbers => r.roundNumber < 0 || r.roundNumber > 30
    case GameNumbers => r.gameNumber < 1 || r.gameNumber > 10
    case SquiggleKeys => !ThreeDigits(r.gameKey)
    case TeamNames => false
    case Years => r.year < 2020 || r.year > currentYear + 1
    case Correctness => r.isCorrect != Some(0) && r.isCorrect != Some(1)
  }

  datatype IntegrityChecks = IntegrityChecks(
    nullValues: nat, invalidRoundNumbers: nat, invalidGameNumbers: nat, invalidSquiggleKeys: nat,
    invalidTeamNames: nat, invalidYears: nat, invalidCorrectness: nat)

  /** How many of the first `k` records break `rule`. */
  function CountBreaking(importData: seq<ImportRecord>, currentYear: int, rule: Rule, k: nat): nat
    requires k <= |importData|
  {
    if k == 0 then 0
    else CountBreaking(importData, currentYear, rule, k - 1) + (if Breaks(importData[k - 1], currentYear, rule) then 1 else 0)
  }

  /** The counters after the first `k` records. */
  function ChecksUpTo(importData: seq<ImportRecord>, currentYear: int, k: nat): IntegrityChecks
    requires k <= |importData|
  {
    IntegrityChecks(
      CountBreaking(importData, currentYear, NullValues, k),
      CountBreaking(importData, currentYear, RoundNumbers, k),
      CountBreaking(importData, currentYear, GameNumbers, k),
      CountBreaking(importData, currentYear, SquiggleKeys, k),
      CountBreaking(importData, currentYear, TeamNames, k),
      CountBreaking(importData, currentYear, Years, k),
      CountBreaking(importData, currentYear, Correctness, k))
  }

  /** The integrity loop: each counter goes up once per record that breaks its rule. */
  method CheckIntegrity(importData: seq<ImportRecord>, currentYear: int) returns (checks: IntegrityChecks)
    ensures checks == ChecksUpTo(importData, currentYear, |importData|)
    ensures checks.invalidTeamNames == 0
  {
    checks := IntegrityChecks(0, 0, 0, 0, 0, 0, 0);
    var k := 0;
    while k < |importData|
      invariant 0 <= k <= |importData|
      invariant checks == ChecksUpTo(importData, currentYear, k)
    {
      checks := CheckRecord(checks, importData, currentYear, k);
      k := k + 1;
    }
    TeamNamesNeverCounted(importData, currentYear, |importData|);
  }

  /** One pass of the integrity loop, on record `k`. */
  method CheckRecord(checks: IntegrityChecks, importData: seq<ImportRecord>, currentYear: int, k: nat)
    returns (checks': IntegrityChecks)
    requires k < |importData| && checks == ChecksUpTo(importData, currentYear, k)
    ensures checks' == ChecksUpTo(importData, currentYear, k + 1)
  {
    var record := importData[k];
    ghost var next := ChecksUpTo(importData, currentYear, k + 1);
    checks' := checks;
    if record.userName == "" || record.gameKey == "" || record.selectedTeam == "" {
      checks' := checks'.(nullValues := checks'.nullValues + 1);
    }
    assert checks'.nullValues == next.nullValues;
    if record.roundNumber < 0 || record.roundNumber > 30 {
      checks' := checks'.(invalidRoundNumbers := checks'.invalidRoundNumbers + 1);
    }
    assert checks'.invalidRoundNumbers == next.invalidRoundNumbers;
    if record.gameNumber < 1 || record.gameNumber > 10 {
      checks' := checks'.(invalidGameNumbers := checks'.invalidGameNumbers + 1);
    }
    assert checks'.invalidGameNumbers == next.invalidGameNumbers;
    if !ThreeDigits(record.gameKey) {
      checks' := checks'.(invalidSquiggleKeys := checks'.invalidSquiggleKeys + 1);
    }
    assert checks'.invalidSquiggleKeys == next.invalidSquiggleKeys;
    if record.year < 2020 || record.year > currentYear + 1 {
      checks' := checks'.(invalidYears := checks'.invalidYears + 1);
    }
    assert checks'.invalidYears == next.invalidYears;
    if record.isCorrect != Some(0) && record.isCorrect != Some(1) {
      checks' := checks'.(invalidCorrectness := checks'.invalidCorrectness + 1);
    }
  }

  /** No rule makes the loop count an invalid team name. */
  lemma {:induction false} TeamNamesNeverCounted(importData: seq<ImportRecord>, currentYear: int, k: nat)
    requires k <= |importData|
    ensures CountBreaking(importData, currentYear, TeamNames, k) == 0
  {
    if k > 0 {
      TeamNamesNeverCounted(importData, currentYear, k - 1);
    }
  }

  /** A counter is the number of records that break its rule. */
  lemma CountBreakingMeaning(importData: seq<ImportRecord>, currentYear: int, rule: Rule, k: nat)
    requires k <= |importData|
    ensures CountBreaking(importData, currentYear, rule, k)
            == |set j | 0 <= j < k && Breaks(importData[j], currentYear, rule)|
  {
    var fs := BreakFlags(importData, currentYear, rule);
    CountBreakingFlags(importData, currentYear, rule, k);
    CountTrueMeaning(fs, k);
    forall j | 0 <= j < k ensures fs[j] == Breaks(importData[j], currentYear, rule) {
      BreakFlagsAt(importData, currentYear, rule, j);
    }
    assert (set j | 0 <= j < k && fs[j]) == (set j | 0 <= j < k && Breaks(importData[j], currentYear, rule));
  }

  /** For each record, whether it breaks `rule`. */
  function BreakFlags(importData: seq<ImportRecord>, currentYear: int, rule: Rule): (fs: seq<bool>)
    ensures |fs| == |importData|
  {
    seq(|importData|, j requires 0 <= j < |importData| => Breaks(importData[j], currentYear, rule))
  }

  lemma BreakFlagsAt(importData: seq<ImportRecord>, currentYear: int, rule: Rule, j: nat)
    requires j < |importData|
    ensures BreakFlags(importData, currentYear, rule)[j] == Breaks(importData[j], currentYear, rule)
  {
  }

  function CountTrue(fs: seq<bool>, k: nat): nat
    requires k <= |fs|
  {
    if k == 0 then 0 else CountTrue(fs, k - 1) + if fs[k - 1] then 1 else 0
  }

  lemma {:induction false} CountBreakingFlags(importData: seq<ImportRecord>, currentYear: int, rule: Rule, k: nat)
    requires k <= |importData|
    ensures CountBreaking(importData, currentYear, rule, k) == CountTrue(BreakFlags(importData, currentYear, rule), k)
  {
    if k > 0 {
      CountBreakingFlags(importData, currentYear, rule, k - 1);
      BreakFlagsAt(importData, currentYear, rule, k - 1);
    }
  }

  lemma {:induction false} CountTrueMeaning(fs: seq<bool>, k: nat)
    requires k <= |fs|
    ensures CountTrue(fs, k) == |set j | 0 <= j < k && fs[j]|
  {
    if k > 0 {
      CountTrueMeaning(fs, k - 1);
      var before := set j | 0 <= j < k - 1 && fs[j];
      if fs[k - 1] {
        assert (set j | 0 <= j < k && fs[j]) == before + {k - 1};
      } else {
        assert (set j | 0 <= j < k && fs[j]) == before;
      }
    }
  }

  /** A counter is zero exactly when no record breaks its rule. */
  lemma {:induction false} CountBreakingZero(importData: seq<ImportRecord>, currentYear: int, rule: Rule, k: nat)
    requires k <= |importData|
    ensures CountBreaking(importData, currentYear, rule, k) == 0 <==>
              forall j :: 0 <= j < k ==> !Breaks(importData[j], currentYear, rule)
  {
    if k > 0 {
      CountBreakingZero(importData, currentYear, rule, k - 1);
    }
  }

  datatype DataIntegrity = DataIntegrity(checks: IntegrityChecks, totalIssues: nat, integrityValidationPassed: bool)

  /** `Object.values(integrityChecks).reduce((sum, count) => sum + count, 0)`. */
  function TotalIssues(c: IntegrityChecks): nat
  {
    c.nullValues + c.invalidRoundNumbers + c.invalidGameNumbers + c.invalidSquiggleKeys
      + c.invalidTeamNames + c.invalidYears + c.invalidCorrectness
  }

  function DataIntegrityOf(c: IntegrityChecks): DataIntegrity
  {
    DataIntegrity(c, TotalIssues(c), TotalIssues(c) == 0)
  }

  /** The integrity check passes exactly when no record breaks any rule. */
  lemma IntegrityMeaning(importData: seq<ImportRecord>, currentYear: int)
    ensures DataIntegrityOf(ChecksUpTo(importData, currentYear, |importData|)).integrityValidationPassed <==>
              forall j, rule :: 0 <= j < |importData| ==> !Breaks(importData[j], currentYear, rule)
  {
    if forall j, rule :: 0 <= j < |importData| ==> !Breaks(importData[j], currentYear, rule) {
      IntegrityPasses(importData, currentYear);
    } else {
      var j, rule :| 0 <= j < |importData| && Breaks(importData[j], currentYear, rule);
      IntegrityFails(importData, currentYear, j, rule);
    }
  }

  lemma IntegrityPasses(importData: seq<ImportRecord>, currentYear: int)
    requires forall j, rule :: 0 <= j < |importData| ==> !Breaks(importData[j], currentYear, rule)
    ensures TotalIssues(ChecksUpTo(importData, currentYear, |importData|)) == 0
  {
    var n := |importData|;
    CountBreakingZero(importData, currentYear, NullValues, n);
    CountBreakingZero(importData, currentYear, RoundNumbers, n);
    CountBreakingZero(importData, currentYear, GameNumbers, n);
    CountBreakingZero(importData, currentYear, SquiggleKeys, n);
    CountBreakingZero(importData, currentYear, TeamNames, n);
    CountBreakingZero(importData, currentYear, Years, n);
    CountBreakingZero(importData, currentYear, Correctness, n);
  }

  lemma IntegrityFails(importData: seq<ImportRecord>, currentYear: int, j: nat, rule: Rule)
    requires j < |importData| && Breaks(importData[j], currentYear, rule)
    ensures TotalIssues(ChecksUpTo(importData, currentYear, |importData|)) > 0
  {
    var n := |importData|;
    CountBreakingZero(importData, currentYear, rule, n);
    var c := ChecksUpTo(importData, currentYear, n);
    assert CountBreaking(importData, currentYear, rule, n) > 0;
    match rule {
      case NullValues => assert c.nullValues > 0;
      case RoundNumbers => assert c.invalidRoundNumbers > 0;
      case GameNumbers => assert c.invalidGameNumbers > 0;
      case SquiggleKeys => assert c.invalidSquiggleKeys > 0;
      case TeamNames => assert false;
      case Years => assert c.invalidYears > 0;
      case Correctness => assert c.invalidCorrectness > 0;
    }
  }

  // ---------------------------------------------------------------------------
  // The report
  // ---------------------------------------------------------------------------

  datatype Validation = Validation(
    users: UserValidation, gameKeys: GameKeyValidation, duplicates: DuplicateValidation,
    dataIntegrity: DataIntegrity)

  datatype RecommendationType = ErrorType | WarningType

  /** A recommendation; `count` is the number its description quotes. */
  datatype Recommendation = Recommendation(
    kind: RecommendationType, issue: string, count: nat, action: string, blocking: bool)

  datatype ImportReadiness = ImportReadiness(
    allValidationsPassed: bool, canProceedWithImport: bool, requiresUserAction: bool,
    blockingIssues: seq<string>)

  datatype Metadata = Metadata(validatedAt: string, totalRecords: nat, databaseConnected: bool, tableExists: bool)

  datatype ValidationReport = ValidationReport(
    metadata: Metadata, validation: Validation, recommendations: seq<Recommendation>,
    importReadiness: ImportReadiness)

  const MissingUsersRecommendation := "Missing users in database"
  const MissingKeysRecommendation := "Missing game keys in database"
  const DuplicatesRecommendation := "Potential duplicate tips"
  const IntegrityRecommendation := "Data integrity violations"
  const CreateUsersAction := "Create missing users or remove their tips from import"
  const ImportGamesAction := "Import missing games from Squiggle API or remove invalid tips"
  const ClearTipsAction := "Clear existing historical_tips table or handle duplicates with ON CONFLICT"
  const FixDataAction := "Fix data format issues before import"
  const MissingUsersIssue := "missing_users"
  const MissingKeysIssue := "missing_game_keys"
  const IntegrityIssue := "data_integrity"

  function UsersRec(v: Validation): seq<Recommendation>
  {
    if v.users.userValidationPassed then []
    else [Recommendation(ErrorType, MissingUsersRecommendation, v.users.missingUsers,
                         CreateUsersAction, true)]
  }

  function KeysRec(v: Validation): seq<Recommendation>
  {
    if v.gameKeys.gameKeyValidationPassed then []
    else [Recommendation(ErrorType, MissingKeysRecommendation, v.gameKeys.missingKeys,
                         ImportGamesAction, true)]
  }

  function DuplicatesRec(v: Validation): seq<Recommendation>
  {
    if v.duplicates.duplicateValidationPassed then []
    else [Recommendation(WarningType, DuplicatesRecommendation, v.duplicates.potentialDuplicates,
                         ClearTipsAction, false)]
  }

  function IntegrityRec(v: Validation): seq<Recommendation>
  {
    if v.dataIntegrity.integrityValidationPassed then []
    else [Recommendation(ErrorType, IntegrityRecommendation, v.dataIntegrity.totalIssues,
                         FixDataAction, true)]
  }

  /** The recommendations, in the order the checks are analysed. */
  function RecommendationsOf(v: Validation): seq<Recommendation>
  {
    UsersRec(v) + KeysRec(v) + DuplicatesRec(v) + IntegrityRec(v)
  }

  /** The blocking issues, in the order the checks are analysed. */
  function BlockingOf(v: Validation): seq<string>
  {
    (if v.users.userValidationPassed then [] else [MissingUsersIssue])
      + (if v.gameKeys.gameKeyValidationPassed then [] else [MissingKeysIssue])
      + (if v.dataIntegrity.integrityValidationPassed then [] else [IntegrityIssue])
  }

  /** Step 8: the recommendations and the import readiness. */
  method AnalyzeResults(validation: Validation)
    returns (recommendations: seq<Recommendation>, importReadiness: ImportReadiness)
    ensures recommendations == RecommendationsOf(validation)
    ensures importReadiness.blockingIssues == BlockingOf(validation)
    ensures importReadiness.allValidationsPassed
            == (validation.users.userValidationPassed && validation.gameKeys.gameKeyValidationPassed
                && validation.dataIntegrity.integrityValidationPassed)
    ensures importReadiness.canProceedWithImport == importReadiness.allValidationsPassed
    ensures importReadiness.requiresUserAction == (|importReadiness.blockingIssues| > 0)
  {
    recommendations := [];
    var blockingIssues: seq<string> := [];
    if !validation.users.userValidationPassed {
      recommendations := recommendations + [Recommendation(ErrorType, MissingUsersRecommendation,
        validation.users.missingUsers, CreateUsersAction, true)];
      blockingIssues := blockingIssues + [MissingUsersIssue];
    }
    if !validation.gameKeys.gameKeyValidationPassed {
      recommendations := recommendations + [Recommendation(ErrorType, MissingKeysRecommendation,
        validation.gameKeys.missingKeys, ImportGamesAction, true)];
      blockingIssues := blockingIssues + [MissingKeysIssue];
    }
    if !validation.duplicates.duplicateValidationPassed {
      recommendations := recommendations + [Recommendation(WarningType, DuplicatesRecommendation,
        validation.duplicates.potentialDuplicates,
        ClearTipsAction, false)];
    }
    if !validation.dataIntegrity.integrityValidationPassed {
      recommendations := recommendations + [Recommendation(ErrorType, IntegrityRecommendation,
        validation.dataIntegrity.totalIssues, FixDataAction, true)];
      blockingIssues := blockingIssues + [IntegrityIssue];
    }
    var allValidationsPassed := validation.users.userValidationPassed
      && validation.gameKeys.gameKeyValidationPassed && validation.dataIntegrity.integrityValidationPassed;
    importReadiness := ImportReadiness(allValidationsPassed, allValidationsPassed, |blockingIssues| > 0, blockingIssues);
  }

  /**
   * A blocking issue is recorded exactly when the user, key or integrity check fails, so
   * the import needs user action exactly when it cannot proceed.
   */
  lemma BlockingMeaning(v: Validation)
    ensures (|BlockingOf(v)| > 0) ==
            !(v.users.userValidationPassed && v.gameKeys.gameKeyValidationPassed && v.dataIntegrity.integrityValidationPassed)
    ensures (MissingUsersIssue in BlockingOf(v) <==> !v.users.userValidationPassed)
            && (MissingKeysIssue in BlockingOf(v) <==> !v.gameKeys.gameKeyValidationPassed)
            && (IntegrityIssue in BlockingOf(v) <==> !v.dataIntegrity.integrityValidationPassed)
  {
    assert MissingUsersIssue != MissingKeysIssue && MissingUsersIssue != IntegrityIssue
      && MissingKeysIssue != IntegrityIssue by {
      assert MissingUsersIssue[8] == 'u' && MissingKeysIssue[8] == 'g' && IntegrityIssue[0] == 'd';
    }
  }

  /**
   * Every blocking recommendation is an error and every other one a warning; there is one
   * recommendation per blocking issue, plus one warning when duplicates were found.
   */
  lemma RecommendationsMeaning(v: Validation)
    ensures forall r :: r in RecommendationsOf(v) ==> (r.blocking <==> r.kind == ErrorType)
    ensures |RecommendationsOf(v)| == |BlockingOf(v)| + if v.duplicates.duplicateValidationPassed then 0 else 1
  {
    var u, k, d, g := UsersRec(v), KeysRec(v), DuplicatesRec(v), IntegrityRec(v);
    assert |u| == if v.users.userValidationPassed then 0 else 1;
    assert |k| == if v.gameKeys.gameKeyValidationPassed then 0 else 1;
    assert |d| == if v.duplicates.duplicateValidationPassed then 0 else 1;
    assert |g| == if v.dataIntegrity.integrityValidationPassed then 0 else 1;
    forall r | r in RecommendationsOf(v) ensures r.blocking <==> r.kind == ErrorType {
      assert r in u || r in k || r in d || r in g;
    }
  }

  /** Changing only whether duplicates were found changes neither readiness nor any blocking issue. */
  lemma DuplicatesOnlyWarn(v: Validation, d: DuplicateValidation)
    ensures BlockingOf(v.(duplicates := d)) == BlockingOf(v)
    ensures forall r :: r in DuplicatesRec(v.(duplicates := d)) ==> r.kind == WarningType && !r.blocking
  {
  }

  /** The error `validateImportData` rethrows: the duplicate query over `historical_tips` fails without the table. */
  datatype ValidationError = NoHistoricalTipsTable

  /**
   * `validateImportData`, from the template's records and the database's answers.
   * Without the `historical_tips` table the duplicate query fails and the error is
   * rethrown, so no report is made.
   */
  method ValidateImportData(
    importData: seq<ImportRecord>, validatedAt: string, currentYear: int, tableExists: bool,
    dbUsers: seq<string>, dbGameKeys: seq<string>, existingTips: seq<ExistingTip>)
    returns (r: Result<ValidationReport, ValidationError>)
    ensures !tableExists <==> r == Err(NoHistoricalTipsTable)
    ensures r.Ok? ==> r.value.metadata == Metadata(validatedAt, |importData|, true, true)
    ensures r.Ok? ==> r.value.validation.users == UsersOf(SortedDistinct(UserNames(importData)), dbUsers)
    ensures r.Ok? ==> r.value.validation.gameKeys == GameKeysOf(SortedDistinct(GameKeys(importData)), dbGameKeys)
    ensures r.Ok? ==> var dups := DuplicatesUpTo(importData, ExistingTipKeys(existingTips), |importData|);
            r.value.validation.duplicates == DuplicateValidation(|existingTips|, |dups|, |dups| == 0, Samples(dups))
    ensures r.Ok? ==> r.value.validation.dataIntegrity == DataIntegrityOf(ChecksUpTo(importData, currentYear, |importData|))
    ensures r.Ok? ==> r.value.recommendations == RecommendationsOf(r.value.validation)
    ensures r.Ok? ==> r.value.importReadiness.blockingIssues == BlockingOf(r.value.validation)
    ensures r.Ok? ==>
              r.value.importReadiness.canProceedWithImport == r.value.importReadiness.allValidationsPassed
              == (r.value.validation.users.userValidationPassed && r.value.validation.gameKeys.gameKeyValidationPassed
                  && r.value.validation.dataIntegrity.integrityValidationPassed)
    ensures r.Ok? ==> r.value.importReadiness.requiresUserAction == (|r.value.importReadiness.blockingIssues| > 0)
  {
    if !tableExists {
      return Err(NoHistoricalTipsTable);
    }
    var importUsers := SortedDistinct(UserNames(importData));
    var users := UsersOf(importUsers, dbUsers);
    var importGameKeys := SortedDistinct(GameKeys(importData));
    var gameKeys := GameKeysOf(importGameKeys, dbGameKeys);
    var potentialDuplicates := FindDuplicates(importData, ExistingTipKeys(existingTips));
    var duplicates := DuplicateValidation(|existingTips|, |potentialDuplicates|, |potentialDuplicates| == 0,
                                          Samples(potentialDuplicates));
    var integrityChecks := CheckIntegrity(importData, currentYear);
    var validation := Validation(users, gameKeys, duplicates, DataIntegrityOf(integrityChecks));
    var recommendations, importReadiness := AnalyzeResults(validation);
    r := Ok(ValidationReport(Metadata(validatedAt, |importData|, true, tableExists), validation,
                             recommendations, importReadiness));
  }
}
