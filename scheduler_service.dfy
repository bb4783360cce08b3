/**
 * The scheduler: the job table that `start` fills and `stop` empties, the bookkeeping
 * of a job run, the manual trigger, the AFL season test, the next-run estimate and
 * the scoring of tips for finished games. Cron timers, the clock and the job bodies'
 * outcomes are parameters; dates are local-time milliseconds without daylight saving.
 */
module SchedulerService {
  import opened Wrappers
  import opened Text
  import opened Sorting
  import opened Store
  import opened Clock
  import TipsService
  import SquiggleService

  // ---- JavaScript Date fields over local-time milliseconds ----

  /** `getMinutes()`. */
  function GetMinutes(t: int): (m: int)
    ensures 0 <= m < 60
  {
    (t / MsPerMinute) % 60
  }

  /** `getHours()`. */
  function GetHours(t: int): (h: int)
    ensures 0 <= h < 24
  {
    (t / MsPerHour) % 24
  }

  function HourStart(t: int): int
  {
    t - t % MsPerHour
  }

  function MinuteStart(t: int): int
  {
    t - t % MsPerMinute
  }

  /** `setMinutes(m, 0, 0)`: minute `m` of the same hour, so `m >= 60` rolls into later hours. */
  function SetMinutesZeroed(t: int, m: int): int
  {
    HourStart(t) + m * MsPerMinute
  }

  /** `setMinutes(m)`: as above, keeping the seconds and milliseconds. */
  function SetMinutes(t: int, m: int): int
  {
    HourStart(t) + m * MsPerMinute + t % MsPerMinute
  }

  /** `setHours(h)`: hour `h` of the same day, keeping minutes, seconds and milliseconds. */
  function SetHours(t: int, h: int): int
  {
    t - t % MsPerDay + h * MsPerHour + t % MsPerHour
  }

  /** The position in the hour is the minute field's minutes plus the position in the minute. */
  lemma {:induction false} HourSplit(t: int)
    ensures t % MsPerHour == GetMinutes(t) * MsPerMinute + t % MsPerMinute
    ensures HourStart(t) == (t / MsPerHour) * MsPerHour
  {
    var q := t / MsPerMinute;
    DivModUnique(t, MsPerHour, q / 60, (q % 60) * MsPerMinute + t % MsPerMinute);
  }

  /** The position in the day is the hour field's hours plus the position in the hour. */
  lemma {:induction false} DaySplit(t: int)
    ensures t % MsPerDay == GetHours(t) * MsPerHour + t % MsPerHour
  {
    var q := t / MsPerHour;
    DivModUnique(t, MsPerDay, q / 24, (q % 24) * MsPerHour + t % MsPerHour);
  }

  /** `setHours(getHours() + 1)` is one hour later. */
  lemma SetHoursNext(t: int)
    ensures SetHours(t, GetHours(t) + 1) == t + MsPerHour
  {
    DaySplit(t);
  }

  /** A whole number of hours is its own hour start, with no minutes. */
  lemma {:induction false} WholeHours(h: int, t: int)
    requires t == h * MsPerHour
    ensures t % MsPerHour == 0 && HourStart(t) == t && t % MsPerMinute == 0
  {
    DivModUnique(t, MsPerHour, h, 0);
    DivModUnique(t, MsPerMinute, h * 60, 0);
  }

  /** `Math.ceil(m / n) * n`. */
  function CeilToMultiple(m: int, n: int): int
    requires n > 0
  {
    ((m + n - 1) / n) * n
  }

  // ---- calculateNextRun ----

  /** The every-n-minutes branch as written: after `setMinutes(60)` has already rolled over, another hour is added. */
  function RoundUp(now: int, n: int): int
    requires n > 0
  {
    var minutes := CeilToMultiple(GetMinutes(now), n);
    var next := SetMinutesZeroed(now, minutes);
    if minutes >= 60 then SetMinutes(SetHours(next, GetHours(next) + 1), 0) else next
  }

  /** `calculateNextRun(pattern)` at time `now`. */
  function CalculateNextRun(pattern: string, now: int): int
  {
    if Includes(pattern, "*/5") then RoundUp(now, 5)
    else if Includes(pattern, "*/10") then RoundUp(now, 10)
    else if Includes(pattern, "*/15") then RoundUp(now, 15)
    else if StartsWith(pattern, "0 *") then SetMinutesZeroed(SetHours(now, GetHours(now) + 1), 0)
    else now
  }

  /** The evident intent of the every-n-minutes branch: the first multiple of `n` minutes from the current minute on. */
  function RoundUpIntended(now: int, n: int): int
    requires n > 0
  {
    SetMinutesZeroed(now, CeilToMultiple(GetMinutes(now), n))
  }

  function CalculateNextRunIntended(pattern: string, now: int): int
  {
    if Includes(pattern, "*/5") then RoundUpIntended(now, 5)
    else if Includes(pattern, "*/10") then RoundUpIntended(now, 10)
    else if Includes(pattern, "*/15") then RoundUpIntended(now, 15)
    else if StartsWith(pattern, "0 *") then SetMinutesZeroed(SetHours(now, GetHours(now) + 1), 0)
    else now
  }

  lemma {:induction false} CeilBounds(m: int, n: int)
    requires n == 5 || n == 10 || n == 15
    requires 0 <= m < 60
    ensures m <= CeilToMultiple(m, n) < m + n && CeilToMultiple(m, n) <= 60
    ensures CeilToMultiple(m, n) % n == 0
  {
  }

  /**
   * The intended every-n-minutes time starts a minute that is a multiple of `n` minutes (a
   * multiple of `n` minutes since the epoch), no earlier than the current minute and
   * less than `n` minutes after it.
   */
  lemma {:induction false} RoundUpIntendedMeaning(now: int, n: int)
    requires n == 5 || n == 10 || n == 15
    ensures var r := RoundUpIntended(now, n);
            MinuteStart(now) <= r < MinuteStart(now) + n * MsPerMinute && r % (n * MsPerMinute) == 0
  {
    var m := GetMinutes(now);
    var c := CeilToMultiple(m, n);
    var h := now / MsPerHour;
    HourSplit(now);
    CeilBounds(m, n);
    var r := RoundUpIntended(now, n);
    assert r == h * MsPerHour + c * MsPerMinute;
    assert MinuteStart(now) == h * MsPerHour + m * MsPerMinute;
    DivModUnique(r, n * MsPerMinute, h * (60 / n) + c / n, 0);
  }

  /** As written, the branch agrees with the intent until the minutes round up to 60. */
  lemma {:induction false} RoundUpBeforeOverflow(now: int, n: int)
    requires n == 5 || n == 10 || n == 15
    requires CeilToMultiple(GetMinutes(now), n) < 60
    ensures RoundUp(now, n) == RoundUpIntended(now, n)
  {
  }

  /** When the minutes round up to 60 the written branch lands two hours after the hour start. */
  lemma {:induction false} RoundUpOverflow(now: int, n: int)
    requires n == 5 || n == 10 || n == 15
    requires CeilToMultiple(GetMinutes(now), n) >= 60
    ensures RoundUp(now, n) == HourStart(now) + 2 * MsPerHour
    ensures RoundUpIntended(now, n) == HourStart(now) + MsPerHour
  {
    var h := now / MsPerHour;
    HourSplit(now);
    CeilBounds(GetMinutes(now), n);
    var next := SetMinutesZeroed(now, 60);
    assert next == (h + 1) * MsPerHour;
    SetHoursNext(next);
    var later := next + MsPerHour;
    WholeHours(h + 2, later);
  }

  /** The hourly branch: the next whole hour. */
  lemma {:induction false} NextHour(now: int)
    ensures SetMinutesZeroed(SetHours(now, GetHours(now) + 1), 0) == HourStart(now) + MsPerHour
  {
    SetHoursNext(now);
    HourSplit(now);
    HourSplit(now + MsPerHour);
    var h := now / MsPerHour;
    DivModUnique(now + MsPerHour, MsPerHour, h + 1, now % MsPerHour);
  }

  /** At 00:59 an every-5-minutes pattern reports 02:00, not 01:00. */
  lemma NextRunSkipsAnHour()
    ensures CalculateNextRun("*/5 * * * *", 59 * MsPerMinute) == 2 * MsPerHour
    ensures CalculateNextRunIntended("*/5 * * * *", 59 * MsPerMinute) == MsPerHour
  {
    var p := "*/5 * * * *";
    assert MatchesAt(p, "*/5", 0);
    assert GetMinutes(59 * MsPerMinute) == 59;
    RoundUpOverflow(59 * MsPerMinute, 5);
  }

  /** A pattern without one of the characters of `sub` does not include it. */
  lemma {:induction false} MissingChar(s: string, sub: string, j: int)
    requires 0 <= j < |sub| && sub[j] !in s
    ensures !Includes(s, sub)
  {
    forall i | 0 <= i <= |s| - |sub| ensures !MatchesAt(s, sub, i) {
      assert s[i + j] in s;
    }
  }

  /**
   * For the four registered patterns only the round-status one (every two hours) is recognised (as hourly); the
   * others report the current time.
   */
  lemma JobPatternsNextRun(now: int)
    ensures CalculateNextRun(LiveScoresPattern, now) == now
    ensures CalculateNextRun(FullSyncPattern, now) == now
    ensures CalculateNextRun(RoundStatusPattern, now) == HourStart(now) + MsPerHour
    ensures CalculateNextRun(TipCorrectnessPattern, now) == now
  {
    MissingChar(LiveScoresPattern, "*/5", 2);
    MissingChar(LiveScoresPattern, "*/10", 2);
    MissingChar(LiveScoresPattern, "*/15", 2);
    MissingChar(FullSyncPattern, "*/5", 1);
    MissingChar(FullSyncPattern, "*/10", 1);
    MissingChar(FullSyncPattern, "*/15", 1);
    MissingChar(RoundStatusPattern, "*/5", 2);
    MissingChar(RoundStatusPattern, "*/10", 2);
    MissingChar(RoundStatusPattern, "*/15", 2);
    MissingChar(TipCorrectnessPattern, "*/5", 1);
    MissingChar(TipCorrectnessPattern, "*/10", 1);
    MissingChar(TipCorrectnessPattern, "*/15", 1);
    assert LiveScoresPattern[0] != '0' && FullSyncPattern[2] != '*' && TipCorrectnessPattern[0] != '0';
    assert StartsWith(RoundStatusPattern, "0 *");
    NextHour(now);
  }

  /** The overflow cannot show in the job table: for the four registered patterns the written and the intended branch agree. */
  lemma {:induction false} RegisteredPatternsUnaffected(now: int)
    ensures CalculateNextRun(LiveScoresPattern, now) == CalculateNextRunIntended(LiveScoresPattern, now)
    ensures CalculateNextRun(FullSyncPattern, now) == CalculateNextRunIntended(FullSyncPattern, now)
    ensures CalculateNextRun(RoundStatusPattern, now) == CalculateNextRunIntended(RoundStatusPattern, now)
    ensures CalculateNextRun(TipCorrectnessPattern, now) == CalculateNextRunIntended(TipCorrectnessPattern, now)
  {
    MissingChar(LiveScoresPattern, "*/5", 2);
    MissingChar(LiveScoresPattern, "*/10", 2);
    MissingChar(LiveScoresPattern, "*/15", 2);
    MissingChar(FullSyncPattern, "*/5", 1);
    MissingChar(FullSyncPattern, "*/10", 1);
    MissingChar(FullSyncPattern, "*/15", 1);
    MissingChar(RoundStatusPattern, "*/5", 2);
    MissingChar(RoundStatusPattern, "*/10", 2);
    MissingChar(RoundStatusPattern, "*/15", 2);
    MissingChar(TipCorrectnessPattern, "*/5", 1);
    MissingChar(TipCorrectnessPattern, "*/10", 1);
    MissingChar(TipCorrectnessPattern, "*/15", 1);
  }

  // ---- the job table ----

  const LiveScoresId: string := "live-scores"
  const FullSyncId: string := "full-sync"
  const RoundStatusId: string := "round-status"
  const TipCorrectnessId: string := "tip-correctness"

  const LiveScoresPattern: string := "*/30 * * * *"
  const FullSyncPattern: string := "0 6,18 * * *"
  const RoundStatusPattern: string := "0 */2 * * *"
  const TipCorrectnessPattern: string := "15 * * * *"

  /** `isAFLSeason()`: `month` is `getMonth() + 1`, March to September. */
  predicate IsAflSeason(month: int)
  {
    3 <= month <= 9
  }

  /** `SchedulerJob`; the cron task itself is not modelled. */
  datatype JobInfo = JobInfo(
    id: string, name: string, cronPattern: string, isRunning: bool,
    lastRun: Option<int>, nextRun: Option<int>, lastError: Option<string>, runCount: nat)

  function NewJob(id: string, name: string, pattern: string): (j: JobInfo)
    ensures j.id == id && j.cronPattern == pattern && !j.isRunning && j.runCount == 0
  {
    JobInfo(id, name, pattern, false, None, None, None, 0)
  }

  /** How a job body ended: the message is `error.message`, or `Unknown error`. */
  datatype JobOutcome = Succeeded | Failed(message: string)

  /**
   * The bookkeeping of `executeJob` on a registered job: a success records the start
   * time, the next run, one more run and no error; a failure records only the message.
   */
  function AfterRun(info: JobInfo, startTime: int, endTime: int, outcome: JobOutcome): (r: JobInfo)
    ensures r.id == info.id && r.name == info.name && r.cronPattern == info.cronPattern && r.isRunning == info.isRunning
    ensures outcome.Succeeded? ==>
              r.lastRun == Some(startTime) && r.runCount == info.runCount + 1 && r.lastError.None?
              && r.nextRun == Some(CalculateNextRun(info.cronPattern, endTime))
    ensures outcome.Failed? ==>
              r.lastError == Some(outcome.message) && r.runCount == info.runCount
              && r.lastRun == info.lastRun && r.nextRun == info.nextRun
  {
    match outcome
    case Succeeded =>
      info.(lastRun := Some(startTime), nextRun := Some(CalculateNextRun(info.cronPattern, endTime)),
            runCount := info.runCount + 1, lastError := None)
    case Failed(message) => info.(lastError := Some(message))
  }

  /** `runCount` counts exactly the successful runs. */
  lemma {:induction false} RunCountCountsSuccesses(info: JobInfo, startTime: int, endTime: int, outcomes: seq<JobOutcome>)
    ensures RunAll(info, startTime, endTime, outcomes).runCount == info.runCount + Successes(outcomes)
    ensures |outcomes| > 0 ==>
              (RunAll(info, startTime, endTime, outcomes).lastError.None? <==> outcomes[|outcomes| - 1].Succeeded?)
    decreases |outcomes|
  {
    if outcomes != [] {
      RunCountCountsSuccesses(info, startTime, endTime, outcomes[..|outcomes| - 1]);
    }
  }

  /** The runs `outcomes`, in order, all at the same start and end time. */
  function RunAll(info: JobInfo, startTime: int, endTime: int, outcomes: seq<JobOutcome>): (r: JobInfo)
    decreases |outcomes|
  {
    if outcomes == [] then info
    else AfterRun(RunAll(info, startTime, endTime, outcomes[..|outcomes| - 1]), startTime, endTime, outcomes[|outcomes| - 1])
  }

  function Successes(outcomes: seq<JobOutcome>): (n: nat)
    ensures n <= |outcomes|
    decreases |outcomes|
  {
    if outcomes == [] then 0
    else Successes(outcomes[..|outcomes| - 1]) + (if outcomes[|outcomes| - 1].Succeeded? then 1 else 0)
  }

  datatype TriggerError = JobNotFound(id: string) | UnknownJob(id: string)

  /** The ids `start` registers. */
  predicate IsJobId(id: string)
  {
    id == LiveScoresId || id == FullSyncId || id == RoundStatusId || id == TipCorrectnessId
  }

  /**
   * The table after `start` when enabled: the four jobs, registered afresh with no runs;
   * full sync and round status run always, live scores and tip correctness only in season.
   */
  function StartedJobs(jobs: map<string, JobInfo>, month: int): (r: map<string, JobInfo>)
    ensures r.Keys == jobs.Keys + {LiveScoresId, FullSyncId, RoundStatusId, TipCorrectnessId}
    ensures r[FullSyncId].isRunning && r[RoundStatusId].isRunning
    ensures r[LiveScoresId].isRunning == IsAflSeason(month) && r[TipCorrectnessId].isRunning == IsAflSeason(month)
    ensures forall id :: IsJobId(id) ==> r[id].id == id && r[id].runCount == 0 && r[id].lastRun.None? && r[id].lastError.None?
    ensures forall id :: id in jobs && !IsJobId(id) ==> r[id] == jobs[id]
  {
    jobs[LiveScoresId := NewJob(LiveScoresId, "Live Score Updates", LiveScoresPattern).(isRunning := IsAflSeason(month))]
        [FullSyncId := NewJob(FullSyncId, "Full Data Sync", FullSyncPattern).(isRunning := true)]
        [RoundStatusId := NewJob(RoundStatusId, "Round Status Updates", RoundStatusPattern).(isRunning := true)]
        [TipCorrectnessId := NewJob(TipCorrectnessId, "Tip Correctness Calculation", TipCorrectnessPattern).(isRunning := IsAflSeason(month))]
  }

  class Scheduler {
    var jobs: map<string, JobInfo>
    var isEnabled: bool

    /** Every entry is one of the four jobs, under its own id. */
    ghost predicate Valid()
      reads this
    {
      forall id :: id in jobs ==> IsJobId(id) && jobs[id].id == id
    }

    /** `enabled` is `SCHEDULER_ENABLED === 'true'`. */
    constructor (enabled: bool)
      ensures Valid() && jobs == map[] && isEnabled == enabled
    {
      jobs := map[];
      isEnabled := enabled;
    }

    /** Registers a job, then starts it when `run` holds (the `isRunning` flag of the same info object). */
    method CreateJob(info: JobInfo, run: bool)
      requires !info.isRunning
      modifies this
      ensures jobs == old(jobs)[info.id := info.(isRunning := run)] && isEnabled == old(isEnabled)
    {
      jobs := jobs[info.id := info];
      if run {
        jobs := jobs[info.id := info.(isRunning := true)];
      }
    }

    /** `start()`; `month` is the current month, 1 to 12. */
    method Start(month: int)
      requires Valid()
      modifies this
      ensures Valid() && isEnabled == old(isEnabled)
      ensures !isEnabled ==> jobs == old(jobs)
      ensures isEnabled ==> jobs == StartedJobs(old(jobs), month)
    {
      if !isEnabled {
        return;
      }
      CreateJob(NewJob(LiveScoresId, "Live Score Updates", LiveScoresPattern), IsAflSeason(month));
      CreateJob(NewJob(FullSyncId, "Full Data Sync", FullSyncPattern), true);
      CreateJob(NewJob(RoundStatusId, "Round Status Updates", RoundStatusPattern), true);
      CreateJob(NewJob(TipCorrectnessId, "Tip Correctness Calculation", TipCorrectnessPattern), IsAflSeason(month));
    }

    /** `stop()`. */
    method Stop()
      modifies this
      ensures Valid() && jobs == map[] && isEnabled == old(isEnabled)
    {
      jobs := map[];
    }

    /**
     * `executeJob(jobId, body)`: an unregistered id does nothing (the body does not run);
     * otherwise the body's `outcome` is recorded. The error is not rethrown.
     */
    method ExecuteJob(jobId: string, startTime: int, endTime: int, outcome: JobOutcome)
      requires Valid()
      modifies this
      ensures Valid() && isEnabled == old(isEnabled)
      ensures jobId !in old(jobs) ==> jobs == old(jobs)
      ensures jobId in old(jobs) ==> jobs == old(jobs)[jobId := AfterRun(old(jobs)[jobId], startTime, endTime, outcome)]
    {
      if jobId !in jobs {
        return;
      }
      var info := jobs[jobId];
      match outcome {
        case Succeeded =>
          info := info.(lastRun := Some(startTime));
          info := info.(nextRun := Some(CalculateNextRun(info.cronPattern, endTime)));
          info := info.(runCount := info.runCount + 1);
          info := info.(lastError := None);
        case Failed(message) =>
          info := info.(lastError := Some(message));
      }
      jobs := jobs[jobId := info];
    }

    /** `triggerJob(jobId)`: unregistered ids throw; a registered one runs and the result is true. */
    method TriggerJob(jobId: string, startTime: int, endTime: int, outcome: JobOutcome)
      returns (r: Result<bool, TriggerError>)
      requires Valid()
      modifies this
      ensures Valid() && isEnabled == old(isEnabled)
      ensures jobId !in old(jobs) ==> r == Err(JobNotFound(jobId)) && jobs == old(jobs)
      ensures jobId in old(jobs) ==>
                r == Ok(true) && jobs == old(jobs)[jobId := AfterRun(old(jobs)[jobId], startTime, endTime, outcome)]
    {
      if jobId !in jobs {
        return Err(JobNotFound(jobId));
      }
      if !IsJobId(jobId) {
        return Err(UnknownJob(jobId));
      }
      ExecuteJob(jobId, startTime, endTime, outcome);
      return Ok(true);
    }

    /** `setEnabled(enabled)`. */
    method SetEnabled(enabled: bool, month: int)
      requires Valid()
      modifies this
      ensures Valid() && isEnabled == enabled
      ensures enabled ==> jobs == StartedJobs(old(jobs), month)
      ensures !enabled ==> jobs == map[]
    {
      isEnabled := enabled;
      if enabled {
        Start(month);
      } else {
        Stop();
      }
    }

    /** `getStatus()`. */
    method GetStatus(month: int) returns (enabled: bool, jobCount: nat, aflSeason: bool)
      ensures enabled == isEnabled && jobCount == |jobs| && (aflSeason <==> IsAflSeason(month))
    {
      return isEnabled, |jobs|, IsAflSeason(month);
    }
  }

  /** After `stop`, or before any `start`, every manual trigger fails and nothing changes. */
  method TriggerAfterStop(s: Scheduler, jobId: string, startTime: int, endTime: int, outcome: JobOutcome)
    returns (r: Result<bool, TriggerError>)
    requires s.Valid()
    modifies s
    ensures r == Err(JobNotFound(jobId)) && s.jobs == map[]
  {
    s.Stop();
    r := s.TriggerJob(jobId, startTime, endTime, outcome);
  }

  // ---- calculateTipCorrectness ----

  /** A mirror game that is finished (`complete = 100`) and has a winner. */
  predicate Finished(mirror: map<string, MirrorGame>, key: string)
  {
    key in mirror && mirror[key].complete == 100 && mirror[key].winner.Some?
  }

  /**
   * The rows of the `SELECT DISTINCT` (a key determines its winner): finished games
   * that, through the LEFT JOIN, have no tips at all or at least one unscored tip.
   */
  function PendingGames(mirror: map<string, MirrorGame>, tips: map<(int, int), Tip>): (keys: set<string>)
    ensures forall key :: key in keys ==> Finished(mirror, key)
  {
    set key | key in mirror && Finished(mirror, key)
              && ((forall k :: k in tips ==> tips[k].key != key)
                  || (exists k :: k in tips && tips[k].key == key && tips[k].isCorrect.None?))
  }

  /** A tip after scoring the games `keys`: unscored tips of those games get `selected_team == winner`. */
  function CorrectTip(t: Tip, mirror: map<string, MirrorGame>, keys: set<string>): (r: Tip)
    requires forall key :: key in keys ==> Finished(mirror, key)
  {
    if t.key in keys && t.isCorrect.None? then
      assert Finished(mirror, t.key);
      t.(isCorrect := Some(t.selectedTeam == mirror[t.key].winner.value))
    else t
  }

  function Corrected(tips: map<(int, int), Tip>, mirror: map<string, MirrorGame>, keys: set<string>): (r: map<(int, int), Tip>)
    requires forall key :: key in keys ==> Finished(mirror, key)
    ensures r.Keys == tips.Keys
  {
    map k | k in tips :: CorrectTip(tips[k], mirror, keys)
  }

  /** Scoring one more game's tips extends the scored set by that game. */
  lemma ScoreOneMore(t0: map<(int, int), Tip>, mirror: map<string, MirrorGame>, done: set<string>, key: string)
    requires forall g :: g in done ==> Finished(mirror, g)
    requires Finished(mirror, key)
    ensures TipsService.ScoreTips(Corrected(t0, mirror, done), SquiggleService.KeyHit(key), mirror[key].winner.value)
            == Corrected(t0, mirror, done + {key})
  {
    var before := Corrected(t0, mirror, done);
    var after := TipsService.ScoreTips(before, SquiggleService.KeyHit(key), mirror[key].winner.value);
    forall k | k in t0 ensures after[k] == Corrected(t0, mirror, done + {key})[k] {
      assert before[k] == CorrectTip(t0[k], mirror, done);
    }
  }

  /**
   * The games the query leaves out have no unscored tips, so scoring the pending games
   * is scoring every finished game: each unscored tip of a finished game gets the
   * verdict `selected_team == winner`, and every other tip is left alone.
   */
  lemma {:induction false} PendingIsAllFinished(mirror: map<string, MirrorGame>, tips: map<(int, int), Tip>)
    ensures var r := Corrected(tips, mirror, PendingGames(mirror, tips));
            forall k :: k in tips ==>
              r[k] == (if Finished(mirror, tips[k].key) && tips[k].isCorrect.None?
                       then tips[k].(isCorrect := Some(tips[k].selectedTeam == mirror[tips[k].key].winner.value))
                       else tips[k])
  {
    var pending := PendingGames(mirror, tips);
    forall k | k in tips && Finished(mirror, tips[k].key) && tips[k].isCorrect.None?
      ensures tips[k].key in pending
    {
    }
  }

  /** A second run scores nothing: every tip of a finished game is then scored. */
  lemma {:induction false} TipCorrectnessRerun(mirror: map<string, MirrorGame>, tips: map<(int, int), Tip>)
    ensures var r := Corrected(tips, mirror, PendingGames(mirror, tips));
            Corrected(r, mirror, PendingGames(mirror, r)) == r
  {
    var r := Corrected(tips, mirror, PendingGames(mirror, tips));
    PendingIsAllFinished(mirror, tips);
    PendingIsAllFinished(mirror, r);
    var again := Corrected(r, mirror, PendingGames(mirror, r));
    forall k | k in r ensures again[k] == r[k] {
    }
  }

  /**
   * `calculateTipCorrectness()`: one `UPDATE` per pending game, in whatever order the
   * rows come; the result is the same for every order.
   */
  method CalculateTipCorrectness(db: Database)
    requires db.Valid()
    modifies db
    ensures db.Valid()
    ensures db.tips == Corrected(old(db.tips), db.mirror, PendingGames(db.mirror, old(db.tips)))
    ensures db.users == old(db.users) && db.groups == old(db.groups) && db.rounds == old(db.rounds)
    ensures db.mirror == old(db.mirror) && db.games == old(db.games)
    ensures db.nextRoundId == old(db.nextRoundId) && db.nextGameId == old(db.nextGameId) && db.nextTipId == old(db.nextTipId)
  {
    var pending := PendingGames(db.mirror, db.tips);
    ScoreGames(db, pending);
  }

  /** One `UPDATE` per game of `keys`, in an arbitrary order. */
  method ScoreGames(db: Database, keys: set<string>)
    requires db.Valid()
    requires forall g :: g in keys ==> Finished(db.mirror, g)
    modifies db
    ensures db.Valid()
    ensures db.users == old(db.users) && db.groups == old(db.groups) && db.rounds == old(db.rounds)
    ensures db.mirror == old(db.mirror) && db.games == old(db.games)
    ensures db.tips == Corrected(old(db.tips), db.mirror, keys)
    ensures db.nextRoundId == old(db.nextRoundId) && db.nextGameId == old(db.nextGameId) && db.nextTipId == old(db.nextTipId)
  {
    ghost var t0 := db.tips;
    ghost var done: set<string> := {};
    var remaining := keys;
    while remaining != {}
      invariant done !! remaining && done + remaining == keys
      invariant forall g :: g in done ==> Finished(db.mirror, g)
      invariant db.Valid()
      invariant db.tips == Corrected(t0, db.mirror, done)
      invariant db.users == old(db.users) && db.groups == old(db.groups) && db.rounds == old(db.rounds)
      invariant db.mirror == old(db.mirror) && db.games == old(db.games)
      invariant db.nextRoundId == old(db.nextRoundId) && db.nextGameId == old(db.nextGameId)
      invariant db.nextTipId == old(db.nextTipId)
      decreases |remaining|
    {
      done, remaining := ScoreNext(db, t0, done, remaining);
    }
    assert done == keys;
  }

  /** One turn of `ScoreGames`' loop: the `UPDATE` for some game still to score. */
  method ScoreNext(db: Database, ghost t0: map<(int, int), Tip>, ghost done: set<string>, remaining: set<string>)
    returns (ghost done': set<string>, remaining': set<string>)
    requires db.Valid() && remaining != {} && done !! remaining
    requires forall g :: g in done + remaining ==> Finished(db.mirror, g)
    requires db.tips == Corrected(t0, db.mirror, done)
    modifies db
    ensures db.Valid()
    ensures done' !! remaining' && done' + remaining' == done + remaining && |remaining'| < |remaining|
    ensures forall g :: g in done' ==> Finished(db.mirror, g)
    ensures db.tips == Corrected(t0, db.mirror, done')
    ensures db.users == old(db.users) && db.groups == old(db.groups) && db.rounds == old(db.rounds)
    ensures db.mirror == old(db.mirror) && db.games == old(db.games)
    ensures db.nextRoundId == old(db.nextRoundId) && db.nextGameId == old(db.nextGameId) && db.nextTipId == old(db.nextTipId)
  {
    NonEmptyHasKey(remaining);
    var key :| key in remaining;
    ScoreOneMore(t0, db.mirror, done, key);
    ScoreGame(db, key, db.mirror[key].winner.value);
    done' := done + {key};
    remaining' := remaining - {key};
  }

  /** `UPDATE tips SET is_correct = (selected_team = ?) WHERE squiggle_game_key = ? AND is_correct IS NULL`. */
  method ScoreGame(db: Database, key: string, winner: string)
    requires db.Valid()
    modifies db
    ensures db.Valid()
    ensures db.tips == TipsService.ScoreTips(old(db.tips), SquiggleService.KeyHit(key), winner)
    ensures db.users == old(db.users) && db.groups == old(db.groups) && db.rounds == old(db.rounds)
    ensures db.mirror == old(db.mirror) && db.games == old(db.games)
    ensures db.nextRoundId == old(db.nextRoundId) && db.nextGameId == old(db.nextGameId) && db.nextTipId == old(db.nextTipId)
  {
    TipsService.ScoreTipsMeaning(db.tips, SquiggleService.KeyHit(key), winner);
    db.tips := TipsService.ScoreTips(db.tips, SquiggleService.KeyHit(key), winner);
  }

  lemma {:induction false} NonEmptyHasKey(s: set<string>)
    requires s != {}
    ensures exists x :: x in s
  {
    if forall x :: x !in s {
      assert false;
    }
  }
}
