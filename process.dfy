/** The supervisor of one go-cqhttp child (`process/process.py`): its running
    flag, current child and restart counter, the `start`/`stop` transitions,
    the restart loop and the per-line handling of the child's output, and
    the `status` snapshot.

    The child is an oracle. Each attempt of the restart loop is described
    by an `Attempt`: either the spawn failed, or the child printed some
    lines (each with the clock reading taken when it was read) and then,
    once terminated, either exited with a code or outlived the kill
    timeout. A stop request is the loop-top check before which `stop()`
    cleared the running flag. */
module Process {
  import opened Wrappers
  import opened Strings
  import opened Exceptions
  import opened Accounts
  import opened ProcessModels
  import opened LogLine
  import opened DeviceModels
  import opened AccountFiles

  /** A listener subscribed to a log store: the printer the supervisor
      installs for its own account, or any other subscriber. */
  datatype Listener = ProcessLogPrinter(uin: int) | Subscriber(id: nat)

  /** The log store of one supervisor, an append-only sequence of records
      with a set of listeners. */
  class LogStorage {
    var entries: seq<ProcessLog>
    var listeners: set<Listener>

    constructor ()
      ensures entries == [] && listeners == {}
    {
      entries := [];
      listeners := {};
    }

    /** `count`: the number of records stored. */
    function Count(): nat
      reads this
    {
      |entries|
    }

    /** `add`: appends one record. */
    method Add(log: ProcessLog)
      modifies this
      ensures entries == old(entries) + [log]
      ensures listeners == old(listeners)
      ensures Count() == old(Count()) + 1
    {
      entries := entries + [log];
    }

    method AddListener(l: Listener)
      modifies this
      ensures listeners == old(listeners) + {l}
      ensures entries == old(entries)
    {
      listeners := listeners + {l};
    }

    /** `listeners.clear()`. */
    method ClearListeners()
      modifies this
      ensures listeners == {}
      ensures entries == old(entries)
    {
      listeners := {};
    }
  }

  /** The child the supervisor last spawned: its pid and its exit code, set
      only once `wait` has seen it exit. */
  datatype ChildProcess = ChildProcess(pid: int, returncode: Option<int>)

  /** One line the child printed, with the clock reading at the time it was
      read. */
  datatype OutputLine = OutputLine(text: string, readAt: DateTime)

  /** What one attempt of the restart loop meets. */
  datatype Attempt =
    | SpawnFailed
    | Spawned(pid: int, output: seq<OutputLine>, waited: Option<int>)

  /** Why the restart loop stopped looping: it saw the running flag cleared,
      it spent its restart budget, or (for the oracle's finite view of an
      unbounded loop) it is still looping when the given attempts run out. */
  datatype RunnerExit = StopObserved | BudgetSpent | StillRunning

  /** The supervisor options the model keeps: the restart budget (negative
      for unbounded) and whether the child's log is printed. */
  datatype ProcessOptions = ProcessOptions(maxRestarts: int, printProcessLog: bool)

  const DEFAULT_OPTIONS: ProcessOptions := ProcessOptions(-1, true)

  /** The record one output line becomes: the line is stripped, then parsed. */
  function LineRecord(line: OutputLine): Result<ProcessLog> {
    ParseLine(Strip(line.text), line.readAt)
  }

  /** How the supervisor turns a line of output into a record. The
      specification of the output pump and of the restart loop is stated for
      any such reader; the supervisor's is `LineRecord`. */
  type LineReader = OutputLine -> Result<ProcessLog>

  /** The parse results of an attempt's output, line by line. */
  function Parsed(read: LineReader, output: seq<OutputLine>): (rs: seq<Result<ProcessLog>>)
    ensures |rs| == |output|
  {
    if output == [] then [] else [read(output[0])] + Parsed(read, output[1..])
  }

  /** Result `i` is the parse of line `i`. */
  lemma {:induction false} ParsedAt(read: LineReader, output: seq<OutputLine>, i: nat)
    requires i < |output|
    ensures Parsed(read, output)[i] == read(output[i])
  {
    if i > 0 {
      ParsedAt(read, output[1..], i - 1);
    }
  }

  /** The results of a concatenation are the concatenated results. */
  lemma {:induction false} ParsedAppend(read: LineReader, a: seq<OutputLine>, b: seq<OutputLine>)
    ensures Parsed(read, a + b) == Parsed(read, a) + Parsed(read, b)
  {
    if a == [] {
      assert a + b == b;
    } else {
      var ab := a + b;
      assert ab[0] == a[0];
      assert ab[1..] == a[1..] + b;
      ParsedAppend(read, a[1..], b);
      assert Parsed(read, ab) == [read(a[0])] + Parsed(read, a[1..] + b);
    }
  }

  /** How many results, from the first, are accepted before the first
      validation error. */
  function AcceptedPrefix(rs: seq<Result<ProcessLog>>): (n: nat)
    ensures n <= |rs|
    ensures forall i :: 0 <= i < n ==> rs[i].Ok?
    ensures n < |rs| ==> rs[n].Err?
  {
    if rs == [] || rs[0].Err? then 0
    else 1 + AcceptedPrefix(rs[1..])
  }

  /** The records submitted: one per accepted line, in the order the lines
      were read. */
  function Records(rs: seq<Result<ProcessLog>>): (r: seq<ProcessLog>)
    ensures |r| == AcceptedPrefix(rs)
  {
    seq(AcceptedPrefix(rs), i requires 0 <= i < AcceptedPrefix(rs) => rs[i].value)
  }

  /** When every line is accepted, exactly one record is submitted per line,
      each the parse of that line. */
  lemma RecordsOfAcceptedOutput(read: LineReader, output: seq<OutputLine>)
    requires forall i :: 0 <= i < |output| ==> read(output[i]).Ok?
    ensures |Records(Parsed(read, output))| == |output|
    ensures forall i :: 0 <= i < |output| ==> Ok(Records(Parsed(read, output))[i]) == read(output[i])
  {
    forall i | 0 <= i < |output|
      ensures Parsed(read, output)[i].Ok?
    {
      ParsedAt(read, output, i);
    }
    AllAccepted(Parsed(read, output));
    forall i | 0 <= i < |output|
      ensures Ok(Records(Parsed(read, output))[i]) == read(output[i])
    {
      ParsedAt(read, output, i);
    }
  }

  lemma {:induction false} AllAccepted(rs: seq<Result<ProcessLog>>)
    requires forall i :: 0 <= i < |rs| ==> rs[i].Ok?
    ensures AcceptedPrefix(rs) == |rs|
  {
    if rs != [] {
      AllAccepted(rs[1..]);
    }
  }

  /** A line that fails validation ends the attempt: the records submitted
      are those of the lines before it, and nothing after it is read. */
  lemma RecordsStopAtRejectedLine(read: LineReader, before: seq<OutputLine>, bad: OutputLine, after: seq<OutputLine>)
    requires forall i :: 0 <= i < |before| ==> read(before[i]).Ok?
    requires read(bad).Err?
    ensures Records(Parsed(read, before + [bad] + after)) == Records(Parsed(read, before))
  {
    var pre := Parsed(read, before);
    ParsedAppend(read, before, [bad] + after);
    assert before + [bad] + after == before + ([bad] + after);
    ParsedAt(read, [bad] + after, 0);
    forall i | 0 <= i < |before|
      ensures pre[i].Ok?
    {
      ParsedAt(read, before, i);
    }
    PrefixAccepted(pre, Parsed(read, [bad] + after));
    AllAccepted(pre);
    var all := Parsed(read, before + [bad] + after);
    assert all == pre + Parsed(read, [bad] + after);
    forall i | 0 <= i < |before|
      ensures Records(all)[i] == Records(pre)[i]
    {
      assert all[i] == pre[i];
    }
  }

  lemma {:induction false} PrefixAccepted(before: seq<Result<ProcessLog>>, rest: seq<Result<ProcessLog>>)
    requires forall i :: 0 <= i < |before| ==> before[i].Ok?
    requires rest != [] && rest[0].Err?
    ensures AcceptedPrefix(before + rest) == |before|
  {
    if before != [] {
      assert (before + rest)[1..] == before[1..] + rest;
      PrefixAccepted(before[1..], rest);
    }
  }

  lemma PrefixIsAll<T>(s: seq<T>, i: nat)
    requires i == |s|
    ensures s[..i] == s
  {
  }

  lemma PrefixGrows<T>(s: seq<T>, i: nat, x: T)
    requires i < |s| && s[i] == x
    ensures s[..i + 1] == s[..i] + [x]
  {
  }

  /** The records an attempt submits. */
  function AttemptRecords(read: LineReader, a: Attempt): seq<ProcessLog> {
    if a.SpawnFailed? then [] else Records(Parsed(read, a.output))
  }

  /** Whether an attempt got past its output without a validation error. */
  predicate DrainedOutput(read: LineReader, a: Attempt)
    requires a.Spawned?
  {
    AcceptedPrefix(Parsed(read, a.output)) == |a.output|
  }

  /** The child recorded after an attempt: a failed spawn leaves the previous
      one; otherwise the new child, whose exit code is known only when its
      output was drained and `wait` saw it exit. */
  function AttemptProcess(read: LineReader, a: Attempt, before: Option<ChildProcess>): (p: Option<ChildProcess>)
    ensures a.SpawnFailed? ==> p == before
    ensures a.Spawned? ==> p.Some? && p.value.pid == a.pid
    ensures a.Spawned? ==> (p.value.returncode.Some? <==> DrainedOutput(read, a) && a.waited.Some?)
  {
    match a
    case SpawnFailed => before
    case Spawned(pid, output, waited) =>
      if DrainedOutput(read, a) then Some(ChildProcess(pid, waited)) else Some(ChildProcess(pid, None))
  }

  /** The code the restart loop logs for an attempt: the exit code, or 0
      when the attempt raised (spawn failure, validation error, kill
      timeout). */
  function AttemptCode(read: LineReader, a: Attempt): (code: int)
    ensures a.SpawnFailed? ==> code == 0
    ensures a.Spawned? && DrainedOutput(read, a) && a.waited.Some? ==> code == a.waited.value
    ensures a.Spawned? && !(DrainedOutput(read, a) && a.waited.Some?) ==> code == 0
  {
    if a.Spawned? && DrainedOutput(read, a) && a.waited.Some? then a.waited.value else 0
  }

  /** The records a run of attempts submits, attempt after attempt. */
  function RunRecords(read: LineReader, attempts: seq<Attempt>): seq<ProcessLog> {
    if attempts == [] then []
    else RunRecords(read, attempts[..|attempts| - 1]) + AttemptRecords(read, attempts[|attempts| - 1])
  }

  /** The child recorded after a run of attempts. */
  function RunProcess(read: LineReader, attempts: seq<Attempt>, before: Option<ChildProcess>): Option<ChildProcess> {
    if attempts == [] then before
    else AttemptProcess(read, attempts[|attempts| - 1], RunProcess(read, attempts[..|attempts| - 1], before))
  }

  /** One more attempt extends the run's records and replaces its child. */
  lemma RunGrows(read: LineReader, attempts: seq<Attempt>, made: nat, base: seq<ProcessLog>, before: Option<ChildProcess>)
    requires made < |attempts|
    ensures RunRecords(read, attempts[..made + 1]) == RunRecords(read, attempts[..made]) + AttemptRecords(read, attempts[made])
    ensures base + RunRecords(read, attempts[..made + 1])
         == base + RunRecords(read, attempts[..made]) + AttemptRecords(read, attempts[made])
    ensures RunProcess(read, attempts[..made + 1], before) == AttemptProcess(read, attempts[made], RunProcess(read, attempts[..made], before))
  {
    assert attempts[..made + 1][..made] == attempts[..made];
  }

  /** Loop-top check `k`: the running flag first, then the budget, then the
      end of the oracle's attempts. `None` when the loop goes on to make
      attempt `k`. */
  function LoopExit(maxRestarts: int, stopAt: Option<nat>, available: nat, k: nat): Option<RunnerExit> {
    if stopAt == Some(k) then Some(StopObserved)
    else if maxRestarts >= 0 && k >= maxRestarts then Some(BudgetSpent)
    else if k == available then Some(StillRunning)
    else None
  }

  /** The restart loop from loop-top check `k` on. The result is the number
      of attempts made and why the loop ended. */
  function RunFrom(maxRestarts: int, stopAt: Option<nat>, available: nat, k: nat): (r: (nat, RunnerExit))
    requires k <= available
    requires stopAt.Some? ==> k <= stopAt.value
    decreases available - k
  {
    match LoopExit(maxRestarts, stopAt, available, k)
    case Some(exit) => (k, exit)
    case None => RunFrom(maxRestarts, stopAt, available, k + 1)
  }

  /** A check that neither sees the flag cleared, nor the budget spent, nor
      the oracle exhausted passes on to the next check. */
  lemma RunFromContinues(maxRestarts: int, stopAt: Option<nat>, available: nat, k: nat)
    requires k < available
    requires stopAt.Some? ==> k < stopAt.value
    requires !(maxRestarts >= 0 && k >= maxRestarts)
    ensures RunFrom(maxRestarts, stopAt, available, k) == RunFrom(maxRestarts, stopAt, available, k + 1)
  {
  }

  /** The restart loop's outcome from its first check. */
  function RunOutcome(maxRestarts: int, stopAt: Option<nat>, available: nat): (nat, RunnerExit) {
    RunFrom(maxRestarts, stopAt, available, 0)
  }

  /** However it ends, the loop never makes more attempts than the budget,
      the stop point or the oracle allow. */
  lemma {:induction false} RunFromBounds(maxRestarts: int, stopAt: Option<nat>, available: nat, k: nat)
    requires k <= available
    requires stopAt.Some? ==> k <= stopAt.value
    requires maxRestarts >= 0 ==> k <= maxRestarts
    ensures var (made, exit) := RunFrom(maxRestarts, stopAt, available, k);
            && k <= made <= available
            && (maxRestarts >= 0 ==> made <= maxRestarts)
            && (stopAt.Some? ==> made <= stopAt.value)
            && (exit == StopObserved <==> stopAt == Some(made))
            && (exit == BudgetSpent ==> maxRestarts == made)
            && (exit == StillRunning ==> made == available)
    decreases available - k
  {
    if stopAt != Some(k) && !(maxRestarts >= 0 && k >= maxRestarts) && k != available {
      RunFromBounds(maxRestarts, stopAt, available, k + 1);
    }
  }

  /** With a budget of N and no stop, the loop makes exactly N attempts and
      ends on the budget; a budget of 0 makes none. */
  lemma {:induction false} BudgetIsExact(maxRestarts: int, available: nat, k: nat)
    requires 0 <= k <= maxRestarts <= available
    ensures RunFrom(maxRestarts, None, available, k) == (maxRestarts, BudgetSpent)
    decreases maxRestarts - k
  {
    if k < maxRestarts {
      BudgetIsExact(maxRestarts, available, k + 1);
    }
  }

  /** With no budget the loop keeps making attempts until it sees the flag
      cleared: a stop before check `j` ends it after exactly `j` attempts. */
  lemma {:induction false} UnboundedRunsUntilStop(maxRestarts: int, j: nat, available: nat, k: nat)
    requires maxRestarts < 0 && k <= j <= available
    ensures RunFrom(maxRestarts, Some(j), available, k) == (j, StopObserved)
    decreases j - k
  {
    if k < j {
      UnboundedRunsUntilStop(maxRestarts, j, available, k + 1);
    }
  }

  /** With no budget and no stop, the loop is still going after every
      attempt the oracle offers. */
  lemma {:induction false} UnboundedNeverGivesUp(maxRestarts: int, available: nat, k: nat)
    requires maxRestarts < 0 && k <= available
    ensures RunFrom(maxRestarts, None, available, k) == (available, StillRunning)
    decreases available - k
  {
    if k < available {
      UnboundedNeverGivesUp(maxRestarts, available, k + 1);
    }
  }

  /** The `data:` URI of the QR code image. */
  function QrUri(base64: string): (uri: string)
    ensures |uri| == 22 + |base64|
    ensures uri[..22] == "data:image/png;base64," && uri[22..] == base64
  {
    "data:image/png;base64," + base64
  }

  /** What the operating system reports about a live child. */
  datatype OsReading = OsReading(status: string, memoryRss: int, cpuPercent: real, createTime: real)

  /** The files a new supervisor prepares: the template when the
      configuration is incomplete, and a generated device record when there
      is none. */
  function PreparedFiles(files: map<Path, Content>, account: AccountConfig, env: Environment): map<Path, Content>
    requires env.Valid()
  {
    var c := AccountConfigHelper(account);
    var d := AccountDeviceHelper(account);
    var f := if c.ConfigPath() in files && c.TemplatePath() in files then files
             else files[c.TemplatePath() := Text(env.templateText)];
    if d.DevicePath() in f then f else f[d.DevicePath() := Text(env.codec.encode(d.Generated(env)))]
  }

  /** The files after a preparation step and whether it succeeded. */
  datatype Preparation = Preparation(files: map<Path, Content>, outcome: Result<()>)

  /** The configuration step of `start`: copy the template when the
      configuration is incomplete, then render it into `config.yml`. */
  function ConfigStep(files: map<Path, Content>, account: AccountConfig, env: Environment): Preparation
    requires env.Valid()
  {
    var c := AccountConfigHelper(account);
    var f := if c.ConfigPath() in files && c.TemplatePath() in files then files
             else files[c.TemplatePath() := Text(env.templateText)];
    var template := ReadTextIn(f, c.TemplatePath());
    if template.Err? then Preparation(f, Err(template.failure))
    else Preparation(f[c.ConfigPath() := Text(env.render(template.value, env.Data(account)))], Ok(()))
  }

  /** The device step of `start`: generate the record when it is missing,
      then rewrite its protocol. */
  function DeviceStep(files: map<Path, Content>, account: AccountConfig, env: Environment): Preparation
    requires env.Valid()
  {
    DeviceStepWith(files, account, env.codec, AccountDeviceHelper(account).Generated(env))
  }

  /** The device step once the record a missing file would get is known. */
  function DeviceStepWith(files: map<Path, Content>, account: AccountConfig, codec: DeviceCodec,
                          generated: DeviceInfo): Preparation
  {
    var d := AccountDeviceHelper(account);
    var f := if d.DevicePath() in files then files else files[d.DevicePath() := Text(codec.encode(generated))];
    var device := DecodeDevice(ReadTextIn(f, d.DevicePath()), codec);
    if device.Err? then Preparation(f, Err(device.failure))
    else Preparation(f[d.DevicePath() := Text(codec.encode(WithProtocol(device.value, account.protocol)))], Ok(()))
  }

  /** `start`'s preparation: the configuration step, then, if it succeeded,
      the device step. A failure stops the sequence with the files written
      so far. */
  function StartFiles(files: map<Path, Content>, account: AccountConfig, env: Environment): (p: Preparation)
    requires env.Valid()
  {
    var c := ConfigStep(files, account, env);
    if c.outcome.Err? then c else DeviceStep(c.files, account, env)
  }

  /** A successful configuration step leaves a complete configuration whose
      `config.yml` is the rendering of the template. */
  lemma ConfigStepWrites(files: map<Path, Content>, account: AccountConfig, env: Environment)
    requires env.Valid()
    requires ConfigStep(files, account, env).outcome.Ok?
    ensures var after := ConfigStep(files, account, env).files;
            var c := AccountConfigHelper(account);
            && c.ConfigPath() in after && c.TemplatePath() in after
            && after[c.TemplatePath()].Text?
            && after[c.ConfigPath()] == Text(env.render(after[c.TemplatePath()].text, env.Data(account)))
  {
    PathsAreDistinct(account, account);
  }

  /** A successful device step leaves a record that reads back with the
      account's protocol, when the codec reads back what it writes. */
  lemma DeviceStepWrites(files: map<Path, Content>, account: AccountConfig, env: Environment)
    requires env.Valid() && RoundTrips(env.codec)
    requires DeviceStep(files, account, env).outcome.Ok?
    ensures var after := DeviceStep(files, account, env).files;
            var d := AccountDeviceHelper(account);
            && DecodeDevice(ReadTextIn(after, d.DevicePath()), env.codec).Ok?
            && DecodeDevice(ReadTextIn(after, d.DevicePath()), env.codec).value.protocol == account.protocol
  {
    DeviceStepWithWrites(files, account, env.codec, AccountDeviceHelper(account).Generated(env));
  }

  lemma DeviceStepWithWrites(files: map<Path, Content>, account: AccountConfig, codec: DeviceCodec,
                             generated: DeviceInfo)
    requires RoundTrips(codec)
    requires DeviceStepWith(files, account, codec, generated).outcome.Ok?
    ensures var after := DeviceStepWith(files, account, codec, generated).files;
            var d := AccountDeviceHelper(account);
            && DecodeDevice(ReadTextIn(after, d.DevicePath()), codec).Ok?
            && DecodeDevice(ReadTextIn(after, d.DevicePath()), codec).value.protocol == account.protocol
  {
    var d := AccountDeviceHelper(account);
    var f := if d.DevicePath() in files then files else files[d.DevicePath() := Text(codec.encode(generated))];
    var text := ReadTextIn(f, d.DevicePath());
    var device := DecodeDevice(text, codec);
    assert codec.decode(text.value).Decoded?;
    assert Valid(device.value);
    DeviceReadBack(device.value, account.protocol, codec);
  }

  /** The device step touches `device.json` and nothing else. */
  lemma DeviceStepFrame(files: map<Path, Content>, account: AccountConfig, env: Environment, p: Path)
    requires env.Valid() && p != AccountDeviceHelper(account).DevicePath()
    ensures p in DeviceStep(files, account, env).files <==> p in files
    ensures p in files ==> DeviceStep(files, account, env).files[p] == files[p]
  {
    DeviceStepWithFrame(files, account, env.codec, AccountDeviceHelper(account).Generated(env), p);
  }

  lemma DeviceStepWithFrame(files: map<Path, Content>, account: AccountConfig, codec: DeviceCodec,
                            generated: DeviceInfo, p: Path)
    requires p != AccountDeviceHelper(account).DevicePath()
    ensures p in DeviceStepWith(files, account, codec, generated).files <==> p in files
    ensures p in files ==> DeviceStepWith(files, account, codec, generated).files[p] == files[p]
  {
  }

  /** A successful `start` preparation leaves both steps' results in place. */
  lemma StartPreparationWrites(files: map<Path, Content>, account: AccountConfig, env: Environment)
    requires env.Valid() && RoundTrips(env.codec)
    requires StartFiles(files, account, env).outcome.Ok?
    ensures var after := StartFiles(files, account, env).files;
            var c := AccountConfigHelper(account);
            var d := AccountDeviceHelper(account);
            && c.ConfigPath() in after && c.TemplatePath() in after
            && after[c.TemplatePath()].Text?
            && after[c.ConfigPath()] == Text(env.render(after[c.TemplatePath()].text, env.Data(account)))
            && DecodeDevice(ReadTextIn(after, d.DevicePath()), env.codec).Ok?
            && DecodeDevice(ReadTextIn(after, d.DevicePath()), env.codec).value.protocol == account.protocol
  {
    var c := AccountConfigHelper(account);
    var mid := ConfigStep(files, account, env);
    ConfigStepWrites(files, account, env);
    PathsAreDistinct(account, account);
    DeviceStepFrame(mid.files, account, env, c.ConfigPath());
    DeviceStepFrame(mid.files, account, env, c.TemplatePath());
    DeviceStepWrites(mid.files, account, env);
  }

  lemma DeviceReadBack(d: DeviceInfo, p: AccountProtocol, codec: DeviceCodec)
    requires RoundTrips(codec) && Valid(d)
    ensures codec.decode(codec.encode(WithProtocol(d, p))) == Decoded(WithProtocol(d, p))
  {
    assert ShortOf(WithProtocol(d, p)) == ShortOf(d).(protocol := p);
    assert Valid(WithProtocol(d, p));
  }

  /** For an account with no files yet, preparation always succeeds when
      the codec reads back what it writes, and the device record written is
      the generated one. */
  lemma FreshAccountPrepares(files: map<Path, Content>, account: AccountConfig, env: Environment)
    requires env.Valid() && RoundTrips(env.codec)
    requires AccountConfigHelper(account).TemplatePath() !in files
    requires AccountDeviceHelper(account).DevicePath() !in files
    ensures StartFiles(files, account, env).outcome.Ok?
    ensures StartFiles(files, account, env).files[AccountDeviceHelper(account).DevicePath()]
         == Text(env.codec.encode(AccountDeviceHelper(account).Generated(env)))
  {
    var d := AccountDeviceHelper(account);
    PathsAreDistinct(account, account);
    var mid := ConfigStep(files, account, env);
    assert mid.outcome.Ok?;
    assert d.DevicePath() !in mid.files;
    var g := d.Generated(env);
    assert env.codec.decode(env.codec.encode(g)) == Decoded(g);
    assert WithProtocol(g, account.protocol) == g;
  }

  /** Runs the configuration step on the file system. */
  method RunConfigStep(fs: FileSystem, account: AccountConfig, env: Environment) returns (r: Result<()>)
    requires env.Valid()
    modifies fs
    ensures fs.files == ConfigStep(old(fs.files), account, env).files
    ensures r == ConfigStep(old(fs.files), account, env).outcome
  {
    var c := AccountConfigHelper(account);
    if !c.Exists(fs) {
      var _ := c.Generate(fs, env);
    }
    var rendered := c.BeforeRun(fs, env);
    r := if rendered.Err? then Err(rendered.failure) else Ok(());
  }

  /** Runs the device step on the file system. */
  method RunDeviceStep(fs: FileSystem, account: AccountConfig, env: Environment) returns (r: Result<()>)
    requires env.Valid()
    modifies fs
    ensures fs.files == DeviceStep(old(fs.files), account, env).files
    ensures r == DeviceStep(old(fs.files), account, env).outcome
  {
    var d := AccountDeviceHelper(account);
    if !d.Exists(fs) {
      var _ := d.Generate(fs, env);
    }
    var rewritten := d.BeforeRun(fs, env.codec);
    r := if rewritten.Err? then Err(rewritten.failure) else Ok(());
  }

  /** Prepares a new supervisor's files. */
  method PrepareFiles(fs: FileSystem, account: AccountConfig, env: Environment)
    requires env.Valid()
    modifies fs
    ensures fs.files == PreparedFiles(old(fs.files), account, env)
  {
    var c := AccountConfigHelper(account);
    var d := AccountDeviceHelper(account);
    if !c.Exists(fs) {
      var _ := c.Generate(fs, env);
    }
    if !d.Exists(fs) {
      var _ := d.Generate(fs, env);
    }
  }

  /** `GoCQProcess`: the supervisor of one account's child. */
  class GoCQProcess {
    const account: AccountConfig
    const predefined: bool
    const maxRestarts: int
    const logs: LogStorage
    /** The reader the output pump applies to each line (`LineRecord`). */
    const readLine: LineReader
    var daemonThreadRunning: bool
    var process: Option<ChildProcess>
    var restartCount: nat

    /** A new supervisor: not running, no child, no restarts, an empty log
        store with the log printer subscribed when printing is on; the
        account's missing files are prepared. */
    constructor (account: AccountConfig, predefined: bool, options: ProcessOptions,
                 fs: FileSystem, env: Environment)
      requires env.Valid()
      modifies fs
      ensures this.account == account && this.predefined == predefined
      ensures maxRestarts == options.maxRestarts
      ensures readLine == LineRecord
      ensures !daemonThreadRunning && process == None && restartCount == 0
      ensures fresh(logs) && logs.entries == []
      ensures logs.listeners == if options.printProcessLog then {ProcessLogPrinter(account.uin)} else {}
      ensures fs.files == PreparedFiles(old(fs.files), account, env)
    {
      this.account := account;
      this.predefined := predefined;
      maxRestarts := options.maxRestarts;
      var store := new LogStorage();
      logs := store;
      readLine := LineRecord;
      daemonThreadRunning := false;
      process := None;
      restartCount := 0;
      new;
      PrepareFiles(fs, account, env);
      if options.printProcessLog {
        logs.AddListener(ProcessLogPrinter(account.uin));
      }
    }

    /** Reads the child's output line by line, submitting one record per
        accepted line in read order; returns false when a line failed
        validation (the error ends the attempt and the rest is unread). */
    method PumpOutput(output: seq<OutputLine>) returns (drained: bool)
      modifies logs
      ensures logs.entries == old(logs.entries) + Records(Parsed(readLine, output))
      ensures logs.listeners == old(logs.listeners)
      ensures drained <==> AcceptedPrefix(Parsed(readLine, output)) == |output|
    {
      ghost var rs := Parsed(readLine, output);
      ghost var recs := Records(rs);
      var i := 0;
      while i < |output|
        invariant 0 <= i <= |recs|
        invariant logs.entries == old(logs.entries) + recs[..i]
        invariant logs.listeners == old(logs.listeners)
      {
        var record := readLine(output[i]);
        ParsedAt(readLine, output, i);
        if record.Err? {
          assert rs[i].Err?;
          PrefixIsAll(recs, i);
          return false;
        }
        assert rs[i].Ok?;
        logs.Add(record.value);
        PrefixGrows(recs, i, record.value);
        i := i + 1;
      }
      PrefixIsAll(recs, i);
      return true;
    }

    /** One run of the child: spawn it, pump its output, then terminate it
        and wait for it. Returns the code the restart loop logs. */
    method RunAttempt(a: Attempt) returns (code: int)
      modifies this, logs
      ensures logs.entries == old(logs.entries) + AttemptRecords(readLine, a)
      ensures logs.listeners == old(logs.listeners)
      ensures process == AttemptProcess(readLine, a, old(process))
      ensures code == AttemptCode(readLine, a)
      ensures daemonThreadRunning == old(daemonThreadRunning) && restartCount == old(restartCount)
    {
      match a
      case SpawnFailed =>
        code := 0;
      case Spawned(pid, output, waited) =>
        process := Some(ChildProcess(pid, None));
        var drained := PumpOutput(output);
        if !drained {
          code := 0;
        } else if waited.Some? {
          process := Some(ChildProcess(pid, waited));
          code := waited.value;
        } else {
          code := 0;
        }
    }

    /** The restart loop, run by the daemon thread once `start` has set the
        flag. `stopAt` is the loop-top check before which `stop` cleared
        the flag, if any. Every attempt bumps the restart counter; the loop
        itself never clears the flag. */
    method Runner(attempts: seq<Attempt>, stopAt: Option<nat>) returns (made: nat, exit: RunnerExit)
      requires daemonThreadRunning
      modifies this, logs
      ensures (made, exit) == RunOutcome(maxRestarts, stopAt, |attempts|)
      ensures made <= |attempts|
      ensures restartCount == old(restartCount) + made
      ensures logs.entries == old(logs.entries) + RunRecords(readLine, attempts[..made])
      ensures logs.listeners == old(logs.listeners)
      ensures process == RunProcess(readLine, attempts[..made], old(process))
      ensures daemonThreadRunning <==> exit != StopObserved
    {
      made := 0;
      while LoopExit(maxRestarts, stopAt, |attempts|, made).None?
        invariant made <= |attempts|
        invariant stopAt.Some? ==> made <= stopAt.value
        invariant RunOutcome(maxRestarts, stopAt, |attempts|) == RunFrom(maxRestarts, stopAt, |attempts|, made)
        invariant daemonThreadRunning
        invariant restartCount == old(restartCount) + made
        invariant logs.entries == old(logs.entries) + RunRecords(readLine, attempts[..made])
        invariant logs.listeners == old(logs.listeners)
        invariant process == RunProcess(readLine, attempts[..made], old(process))
        decreases |attempts| - made
      {
        RunFromContinues(maxRestarts, stopAt, |attempts|, made);
        Advance(attempts, made, old(logs.entries), old(process));
        made := made + 1;
      }
      exit := LoopExit(maxRestarts, stopAt, |attempts|, made).value;
      if exit == StopObserved {
        daemonThreadRunning := false;
      }
    }

    /** One pass of the restart loop's body: attempt number `made`, then the
        counter bump. */
    method Advance(attempts: seq<Attempt>, made: nat, ghost base: seq<ProcessLog>, ghost start: Option<ChildProcess>)
      requires made < |attempts|
      requires logs.entries == base + RunRecords(readLine, attempts[..made])
      requires process == RunProcess(readLine, attempts[..made], start)
      modifies this, logs
      ensures logs.entries == base + RunRecords(readLine, attempts[..made + 1])
      ensures process == RunProcess(readLine, attempts[..made + 1], start)
      ensures logs.listeners == old(logs.listeners)
      ensures restartCount == old(restartCount) + 1
      ensures daemonThreadRunning == old(daemonThreadRunning)
    {
      var _ := RunAttempt(attempts[made]);
      RunGrows(readLine, attempts, made, base, start);
      restartCount := restartCount + 1;
    }

    /** `start`: refused while the flag is set, with nothing changed;
        otherwise prepares the files and, if that succeeds, sets the flag
        (the daemon thread then runs `Runner`). */
    method Start(fs: FileSystem, env: Environment) returns (r: Result<()>)
      requires env.Valid()
      modifies this, fs
      ensures old(daemonThreadRunning) ==>
                && r == Err(Fail(ProcessAlreadyStarted))
                && daemonThreadRunning && fs.files == old(fs.files)
      ensures !old(daemonThreadRunning) ==>
                && r == StartFiles(old(fs.files), account, env).outcome
                && fs.files == StartFiles(old(fs.files), account, env).files
                && (daemonThreadRunning <==> r.Ok?)
      ensures process == old(process) && restartCount == old(restartCount)
    {
      if daemonThreadRunning {
        return Err(Fail(ProcessAlreadyStarted));
      }
      r := RunConfigStep(fs, account, env);
      if r.Err? {
        return;
      }
      r := RunDeviceStep(fs, account, env);
      if r.Err? {
        return;
      }
      daemonThreadRunning := true;
    }

    /** `stop`: always clears the flag and never fails; the child, if there
        is one, is sent a termination signal (reported as `signalled`). */
    method Stop() returns (signalled: bool)
      modifies this
      ensures !daemonThreadRunning
      ensures signalled <==> process.Some?
      ensures process == old(process) && restartCount == old(restartCount)
    {
      daemonThreadRunning := false;
      signalled := process.Some?;
    }

    /** `status`: no snapshot before a child was ever spawned; the running
        variant while the child's exit code is unknown, the stopped variant
        with that code otherwise. `qrBase64` is the QR code image, if one
        is on disk, and `os` the operating system's report on the child. */
    function Status(qrBase64: Option<string>, os: Result<OsReading>): (r: Result<ProcessInfo>)
      reads this, logs
      ensures process.None? ==> r == Err(ProcessNotStarted)
      ensures process.Some? && process.value.returncode.None? && os.Err? ==> r == Err(os.failure)
      ensures r.Ok? ==> process.Some? && r.value.totalLogs == logs.Count() && r.value.restarts == restartCount
      ensures r.Ok? ==> (r.value.status == Running <==> process.value.returncode.None?)
      ensures r.Ok? && r.value.status == Running ==>
                && r.value.details == RunningDetail(process.value.pid, os.value.status, os.value.memoryRss,
                                                    os.value.cpuPercent, os.value.createTime)
                && r.value.qrUri == (if qrBase64.Some? then Some(QrUri(qrBase64.value)) else None)
      ensures r.Ok? && r.value.status == Stopped ==>
                r.value.details == StoppedDetail(process.value.returncode.value) && r.value.qrUri.None?
      ensures process.Some? && (process.value.returncode.Some? || os.Ok?) ==> r.Ok?
    {
      if process.None? then Err(ProcessNotStarted)
      else
        var qr := if qrBase64.Some? then Some(QrUri(qrBase64.value)) else None;
        match process.value.returncode
        case None =>
          if os.Err? then Err(os.failure)
          else Ok(ProcessInfo(Running, logs.Count(), restartCount, qr,
                              RunningDetail(process.value.pid, os.value.status, os.value.memoryRss,
                                            os.value.cpuPercent, os.value.createTime)))
        case Some(code) =>
          Ok(ProcessInfo(Stopped, logs.Count(), restartCount, None, StoppedDetail(code)))
    }
  }

  /** A run that spent its budget leaves the flag set, so a later `start`
      is refused until `stop` clears it; after `stop` it is accepted again
      (and succeeds when preparation does). */
  method BudgetSpentBlocksStart(p: GoCQProcess, attempts: seq<Attempt>, fs: FileSystem, env: Environment)
    returns (first: Result<()>, second: Result<()>)
    requires env.Valid() && p.daemonThreadRunning
    requires 0 <= p.maxRestarts <= |attempts|
    modifies p, p.logs, fs
    ensures first == Err(Fail(ProcessAlreadyStarted))
    ensures second == StartFiles(old(fs.files), p.account, env).outcome
    ensures p.restartCount == old(p.restartCount) + p.maxRestarts
  {
    var made, exit := p.Runner(attempts, None);
    BudgetIsExact(p.maxRestarts, |attempts|, 0);
    first := p.Start(fs, env);
    var _ := p.Stop();
    second := p.Start(fs, env);
  }
}
