/** `LOG_REGEX` of `process/process.py` and the record built from each line
    of a child's output:

        ^\[(?P<time>\d{4}-\d\d-\d\d \d\d:\d\d:\d\d)\] \[(?P<level>[A-Z]+?)\]: (?P<message>.*)$

    A line that matches becomes `ProcessLog(**groups)`, which pydantic
    validates (the level must be an enum value, the time a real date); a line
    that does not match becomes a record with the whole line as message. */
module LogLine {
  import opened Wrappers
  import opened Strings
  import opened Exceptions
  import opened ProcessModels

  /** The three named groups of a match. */
  datatype LogMatch = LogMatch(time: string, level: string, message: string)

  /** `\d{4}-\d\d-\d\d \d\d:\d\d:\d\d`. */
  predicate TimestampShape(t: string) {
    && |t| == 19
    && AllDigits(t[0..4]) && t[4] == '-' && AllDigits(t[5..7]) && t[7] == '-' && AllDigits(t[8..10])
    && t[10] == ' '
    && AllDigits(t[11..13]) && t[13] == ':' && AllDigits(t[14..16]) && t[16] == ':' && AllDigits(t[17..19])
  }

  /** A group `m` the regex can produce, with nothing in it that would stop
      the regex from reading it back. */
  predicate WellFormed(m: LogMatch) {
    && TimestampShape(m.time)
    && |m.level| >= 1 && (forall i :: 0 <= i < |m.level| ==> IsUpper(m.level[i]))
    && '\n' !in m.message
  }

  /** The line shape the regex describes. */
  function FormatLogLine(m: LogMatch): string {
    "[" + m.time + "] [" + m.level + "]: " + m.message
  }

  /** The length of the run of `[A-Z]` at the start of `s`. */
  function UpperRun(s: string): (n: nat)
    ensures n <= |s|
    ensures forall i :: 0 <= i < n ==> IsUpper(s[i])
    ensures n < |s| ==> !IsUpper(s[n])
  {
    if s != [] && IsUpper(s[0]) then 1 + UpperRun(s[1..]) else 0
  }

  /** `(?P<message>.*)$` on what follows the level: `.` does not match a
      newline, and `$` also matches just before a final newline. */
  function MatchMessage(tail: string): (r: Option<string>)
    ensures r.Some? ==> '\n' !in r.value && (tail == r.value || tail == r.value + "\n")
  {
    var m := if tail != [] && tail[|tail| - 1] == '\n' then tail[..|tail| - 1] else tail;
    if '\n' in m then None else Some(m)
  }

  /** `LOG_REGEX.match(line)`. The lazy level group can only stop at the first
      `]`, since `]` is not in `[A-Z]`. */
  function MatchLogLine(line: string): (r: Option<LogMatch>)
    ensures r.Some? ==> WellFormed(r.value)
  {
    if |line| < 23 || line[0] != '[' || !TimestampShape(line[1..20]) || line[20..23] != "] [" then None
    else
      var rest := line[23..];
      var n := UpperRun(rest);
      if n == 0 || |rest| < n + 3 || rest[n..n + 3] != "]: " then None
      else
        match MatchMessage(rest[n + 3..])
        case None => None
        case Some(message) => Some(LogMatch(line[1..20], rest[..n], message))
  }

  /** A line the regex matches is exactly the formatted groups, possibly
      followed by one newline: any other line falls back. */
  lemma MatchedLineIsFormatted(line: string)
    requires MatchLogLine(line).Some?
    ensures var m := MatchLogLine(line).value;
            line == FormatLogLine(m) || line == FormatLogLine(m) + "\n"
  {
    var m := MatchLogLine(line).value;
    var rest := line[23..];
    var n := UpperRun(rest);
    var tail := rest[n + 3..];
    JoinAfterTime(line);
    JoinAfterLevel(rest, n);
    var nl := if tail == m.message then "" else "\n";
    assert tail == m.message + nl;
    SplitFormatted(m, nl, tail, rest);
  }

  lemma JoinAfterTime(line: string)
    requires |line| >= 23 && line[0] == '[' && line[20..23] == "] ["
    ensures line == "[" + line[1..20] + "] [" + line[23..]
  {
    assert line == line[..1] + line[1..20] + line[20..23] + line[23..];
  }

  lemma JoinAfterLevel(rest: string, n: nat)
    requires n + 3 <= |rest| && rest[n..n + 3] == "]: "
    ensures rest == rest[..n] + ("]: " + rest[n + 3..])
  {
    assert rest == rest[..n] + rest[n..n + 3] + rest[n + 3..];
  }

  /** The regex reads back exactly the groups of every line of its shape. */
  lemma MatchFormatted(m: LogMatch)
    requires WellFormed(m)
    ensures MatchLogLine(FormatLogLine(m)) == Some(m)
    ensures MatchLogLine(FormatLogLine(m) + "\n") == Some(m)
  {
    MatchFormattedTail(m, "");
    assert FormatLogLine(m) + "" == FormatLogLine(m);
    MatchFormattedTail(m, "\n");
  }

  lemma MatchFormattedTail(m: LogMatch, nl: string)
    requires WellFormed(m) && (nl == "" || nl == "\n")
    ensures MatchLogLine(FormatLogLine(m) + nl) == Some(m)
  {
    var tail := m.message + nl;
    var rest := m.level + ("]: " + tail);
    var line := FormatLogLine(m) + nl;
    SplitFormatted(m, nl, tail, rest);
    SplitAfterTime(line, m.time, rest);
    SplitAfterLevel(rest, m.level, tail);
    UpperRunOf(m.level, "]: " + tail);
    MatchMessageOf(m.message, nl);
    MatchOfParts(line, |m.level|, m.message);
  }

  /** The matcher's result once each of its tests is known to pass. */
  lemma MatchOfParts(line: string, n: nat, message: string)
    requires |line| >= 23 && line[0] == '[' && TimestampShape(line[1..20]) && line[20..23] == "] ["
    requires UpperRun(line[23..]) == n > 0 && |line[23..]| >= n + 3 && line[23..][n..n + 3] == "]: "
    requires MatchMessage(line[23..][n + 3..]) == Some(message)
    ensures MatchLogLine(line) == Some(LogMatch(line[1..20], line[23..][..n], message))
  {
  }

  lemma SplitFormatted(m: LogMatch, nl: string, tail: string, rest: string)
    requires tail == m.message + nl && rest == m.level + ("]: " + tail)
    ensures FormatLogLine(m) + nl == "[" + m.time + "] [" + rest
  {
  }

  lemma SplitAfterTime(line: string, time: string, rest: string)
    requires |time| == 19 && line == "[" + time + "] [" + rest
    ensures |line| >= 23 && line[0] == '[' && line[1..20] == time && line[20..23] == "] [" && line[23..] == rest
  {
  }

  lemma SplitAfterLevel(rest: string, level: string, tail: string)
    requires rest == level + ("]: " + tail)
    ensures |rest| >= |level| + 3 && rest[..|level|] == level
    ensures rest[|level|..|level| + 3] == "]: " && rest[|level| + 3..] == tail
  {
  }

  lemma MatchMessageOf(message: string, nl: string)
    requires '\n' !in message && (nl == "" || nl == "\n")
    ensures MatchMessage(message + nl) == Some(message)
  {
    var tail := message + nl;
    if nl == "" {
      assert tail == message;
      assert tail != [] ==> tail[|tail| - 1] in message;
    } else {
      assert tail[..|tail| - 1] == message;
    }
  }

  lemma {:induction false} UpperRunOf(u: string, s: string)
    requires forall i :: 0 <= i < |u| ==> IsUpper(u[i])
    requires s != [] && !IsUpper(s[0])
    ensures UpperRun(u + s) == |u|
  {
    if u != [] {
      assert (u + s)[1..] == u[1..] + s;
      UpperRunOf(u[1..], s);
    }
  }

  /** Two-digit and four-digit zero-padded decimal text. */
  function Pad2(n: nat): (s: string)
    requires n < 100
    ensures |s| == 2 && AllDigits(s)
  {
    [DigitChar(n / 10), DigitChar(n % 10)]
  }

  function Pad4(n: nat): (s: string)
    requires n < 10000
    ensures |s| == 4 && AllDigits(s)
  {
    Pad2(n / 100) + Pad2(n % 100)
  }

  /** `YYYY-MM-DD HH:MM:SS`, the form go-cqhttp prints. */
  function TimestampText(t: DateTime): string
    requires ValidDateTime(t)
  {
    Pad4(t.year) + "-" + Pad2(t.month) + "-" + Pad2(t.day) + " "
      + Pad2(t.hour) + ":" + Pad2(t.minute) + ":" + Pad2(t.second)
  }

  /** The fields of a timestamp-shaped string, as pydantic's datetime parser
      reads them before it checks their ranges. */
  function ReadTimestamp(t: string): DateTime
    requires TimestampShape(t)
  {
    DateTime(DecimalValue(t[0..4]), DecimalValue(t[5..7]), DecimalValue(t[8..10]),
             DecimalValue(t[11..13]), DecimalValue(t[14..16]), DecimalValue(t[17..19]))
  }

  lemma Pad2Value(n: nat)
    requires n < 100
    ensures DecimalValue(Pad2(n)) == n
  {
    var a, b := DigitChar(n / 10), DigitChar(n % 10);
    DecimalAppend([], a);
    assert [] + [a] == [a];
    DecimalAppend([a], b);
    assert [a] + [b] == Pad2(n);
  }

  lemma Pad4Value(n: nat)
    requires n < 10000
    ensures DecimalValue(Pad4(n)) == n
  {
    var hi, lo := n / 100, n % 100;
    var a, b := DigitChar(lo / 10), DigitChar(lo % 10);
    Pad2Value(hi);
    DecimalAppend(Pad2(hi), a);
    DecimalAppend(Pad2(hi) + [a], b);
    assert Pad2(hi) + [a] + [b] == Pad4(n);
  }

  /** The printed form of a valid time has the shape the regex expects, and
      each field sits at its fixed offset. */
  lemma TimestampTextLayout(t: DateTime)
    requires ValidDateTime(t)
    ensures TimestampShape(TimestampText(t))
    ensures var s := TimestampText(t);
            && s[0..4] == Pad4(t.year) && s[5..7] == Pad2(t.month) && s[8..10] == Pad2(t.day)
            && s[11..13] == Pad2(t.hour) && s[14..16] == Pad2(t.minute) && s[17..19] == Pad2(t.second)
  {
    var s := TimestampText(t);
    assert |s| == 19;
    assert s[0..4] == Pad4(t.year);
    assert s[5..7] == Pad2(t.month);
    assert s[8..10] == Pad2(t.day);
    assert s[11..13] == Pad2(t.hour);
    assert s[14..16] == Pad2(t.minute);
    assert s[17..19] == Pad2(t.second);
  }

  /** Printing a valid time and reading it back gives the same time. */
  lemma TimestampRoundTrip(t: DateTime)
    requires ValidDateTime(t)
    ensures TimestampShape(TimestampText(t))
    ensures ReadTimestamp(TimestampText(t)) == t
  {
    TimestampTextLayout(t);
    Pad4Value(t.year);
    Pad2Value(t.month);
    Pad2Value(t.day);
    Pad2Value(t.hour);
    Pad2Value(t.minute);
    Pad2Value(t.second);
  }

  /** The record built from one (already stripped) line: `ProcessLog(**groups)`
      on a match, which fails validation on an unknown level or an impossible
      date, and `ProcessLog(message=line)` otherwise. */
  function ParseLine(line: string, now: DateTime): (r: Result<ProcessLog>)
    ensures MatchLogLine(line).None? ==> r == Ok(ProcessLog(now, STDOUT, line))
    ensures MatchLogLine(line).Some? ==>
              var m := MatchLogLine(line).value;
              if LevelFromValue(m.level).Some? && ValidDateTime(ReadTimestamp(m.time))
              then r == Ok(ProcessLog(ReadTimestamp(m.time), LevelFromValue(m.level).value, m.message))
              else r == Err(ValidationError)
  {
    match MatchLogLine(line)
    case None => Ok(NewLog(line, None, None, now))
    case Some(m) =>
      var level := LevelFromValue(m.level);
      var time := ReadTimestamp(m.time);
      if level.None? || !ValidDateTime(time) then Err(ValidationError)
      else Ok(NewLog(m.message, level, Some(time), now))
  }

  /** A line go-cqhttp writes for a record parses back to that very record;
      a fallback record is one whose message is the whole line. */
  lemma ParseFormattedRecord(log: ProcessLog, now: DateTime)
    requires ValidDateTime(log.time) && '\n' !in log.message
    ensures ParseLine(FormatLogLine(LogMatch(TimestampText(log.time), log.level.Value(), log.message)), now) == Ok(log)
  {
    var m := LogMatch(TimestampText(log.time), log.level.Value(), log.message);
    TimestampRoundTrip(log.time);
    assert WellFormed(m);
    MatchFormatted(m);
    LevelRoundTrip(log.level);
  }

  /** A well-shaped line whose level is not an enum value (`TRACE`, `WARN`)
      fails validation instead of falling back to a STDOUT record. */
  lemma UnknownLevelIsRejected(m: LogMatch, now: DateTime)
    requires WellFormed(m) && LevelFromValue(m.level).None?
    ensures ParseLine(FormatLogLine(m), now) == Err(ValidationError)
  {
    MatchFormatted(m);
  }

  /** Every line that is not a well-formed log line (optionally followed by
      one newline) becomes a STDOUT record holding the whole line. */
  lemma OtherLinesFallBack(line: string, now: DateTime)
    requires forall m :: WellFormed(m) ==> line != FormatLogLine(m) && line != FormatLogLine(m) + "\n"
    ensures ParseLine(line, now) == Ok(ProcessLog(now, STDOUT, line))
  {
    if MatchLogLine(line).Some? {
      MatchedLineIsFormatted(line);
      assert false;
    }
  }
}
