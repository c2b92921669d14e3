/** The value types of `process/models.py`: log levels and records, the
    status snapshot `ProcessInfo`, and the saved accounts store. */
module ProcessModels {
  import opened Wrappers
  import opened Accounts

  /** `ProcessLogLevel`, a string enum; STDOUT is the synthetic level of
      lines that are not in go-cqhttp's log format. */
  datatype ProcessLogLevel = STDOUT | DEBUG | INFO | WARNING | ERROR | FATAL {
    /** The enum member's string value. */
    function Value(): string {
      match this
      case STDOUT => "STDOUT"
      case DEBUG => "DEBUG"
      case INFO => "INFO"
      case WARNING => "WARNING"
      case ERROR => "ERROR"
      case FATAL => "FATAL"
    }
  }

  /** Validation of a string into the enum: the member whose value it is,
      if any. */
  function LevelFromValue(s: string): (r: Option<ProcessLogLevel>)
    ensures r.Some? ==> r.value.Value() == s
    ensures r.None? ==> forall l: ProcessLogLevel :: l.Value() != s
  {
    if s == "STDOUT" then Some(STDOUT)
    else if s == "DEBUG" then Some(DEBUG)
    else if s == "INFO" then Some(INFO)
    else if s == "WARNING" then Some(WARNING)
    else if s == "ERROR" then Some(ERROR)
    else if s == "FATAL" then Some(FATAL)
    else None
  }

  /** Every level's value validates back to that level. */
  lemma LevelRoundTrip(l: ProcessLogLevel)
    ensures LevelFromValue(l.Value()) == Some(l)
  {
  }

  /** A naive `datetime` with second precision. */
  datatype DateTime = DateTime(year: int, month: int, day: int, hour: int, minute: int, second: int)

  predicate IsLeapYear(y: int) {
    y % 4 == 0 && (y % 100 != 0 || y % 400 == 0)
  }

  function DaysInMonth(year: int, month: int): int
    requires 1 <= month <= 12
  {
    if month == 2 then (if IsLeapYear(year) then 29 else 28)
    else if month in {4, 6, 9, 11} then 30
    else 31
  }

  /** The ranges `datetime(...)` accepts. */
  predicate ValidDateTime(t: DateTime) {
    && 1 <= t.year <= 9999
    && 1 <= t.month <= 12
    && 1 <= t.day <= DaysInMonth(t.year, t.month)
    && 0 <= t.hour < 24 && 0 <= t.minute < 60 && 0 <= t.second < 60
  }

  /** `ProcessLog`: one record of a child's output. */
  datatype ProcessLog = ProcessLog(time: DateTime, level: ProcessLogLevel, message: string)

  /** `ProcessLog(message=..., [level=...], [time=...])`; `now` is the clock
      reading taken by the `time` default factory. */
  function NewLog(message: string, level: Option<ProcessLogLevel>, time: Option<DateTime>, now: DateTime): (log: ProcessLog)
    ensures log.message == message
    ensures log.level == (if level.Some? then level.value else STDOUT)
    ensures log.time == (if time.Some? then time.value else now)
  {
    ProcessLog(time.GetOr(now), level.GetOr(STDOUT), message)
  }

  /** `ProcessStatus`. */
  datatype ProcessStatus = Running | Stopped

  /** `RunningProcessDetail | StoppedProcessDetail`; the stopped variant
      always carries an integer exit code. */
  datatype ProcessDetail =
    | RunningDetail(pid: int, status: string, memoryUsed: int, cpuPercent: real, startTime: real)
    | StoppedDetail(code: int)

  /** `ProcessInfo`: both variants carry the log and restart counters. */
  datatype ProcessInfo = ProcessInfo(
    status: ProcessStatus,
    totalLogs: int,
    restarts: int,
    qrUri: Option<string>,
    details: ProcessDetail)

  /** `ProcessAccountsStore`: the saved accounts and the creation time. */
  datatype ProcessAccountsStore = ProcessAccountsStore(accounts: seq<AccountConfig>, createdAt: DateTime)

  /** `ProcessAccountsStore(accounts=...)`, stamped with `now`. */
  function NewStore(accounts: seq<AccountConfig>, now: DateTime): (s: ProcessAccountsStore)
    ensures s.accounts == accounts && s.createdAt == now
  {
    ProcessAccountsStore(accounts, now)
  }
}
