# nonebot-plugin-gocqhttp process core, in Dafny

This project models the part of nonebot-plugin-gocqhttp that runs go-cqhttp
children for QQ accounts and proves properties of that model. Each module
matches one source file.

- **Process** (`process/process.py`): `GoCQProcess`, the supervisor of one
  account's child. It is a class with a running flag, the last child and a
  restart counter. The model covers:
  - the `start` and `stop` transitions;
  - the restart loop with its restart budget;
  - the output pump, which turns every line the child prints into a log
    record;
  - the `status` snapshot.
- **LogLine** (`process/process.py`): `LOG_REGEX` as a matcher over strings,
  and the record a line becomes.
- **Manager** (`process/manager.py`): `ProcessesManager`, the registry of
  supervisors keyed by account number. It is a class over a map and the
  registration order. The model covers `add`, `create_instance`, `remove`,
  `all`, `save`, `load_config` and `load_saved`.
- **AccountFiles** (`process/config.py`): the per-account files
  `config-template.yml`, `config.yml`, `device.json` and `session.token`,
  over a file-system object whose map of files the helpers update.
- **Download** (`process/download.py`): the mirror URL, the selection of
  the fastest mirror, the streamed byte count and digest, and the ordered
  integrity checks.
- **Platform** (`process/platform.py`): the `uname` tables that give `GOOS`
  and `GOARCH`, and the file extensions derived from them.
- **DeviceGenerator**, **DeviceModels** and **Device**
  (`process/device/`): the random device identity. The pseudo-random
  generator gives, per seed, a stream of draws. What a draw yields depends
  on the ranges of all the draws asked for since seeding, the current one
  last, as `_randbelow` in CPython's `random` depends on the range it is
  asked for. Every generator method reseeds with the account number, so
  each method reads its stream from the start.
- **Exceptions** (`exceptions.py`): the error classes with their default
  message and code. Other failures the core raises are listed beside them:
  `RuntimeError`, `AssertionError`, `KeyError`, validation errors, a missing
  file, an attribute read before assignment.
- **ProcessModels** (`process/models.py`), **Accounts** (the account types
  of `plugin_config.py`), **Strings** (the `str` operations the core uses)
  and **Wrappers** (`Option`) hold the shared types.

Things outside the program are parameters:
- the child process is an oracle of attempts, each with its printed lines,
  the clock reading of each line and its exit code;
- stop requests are the loop-top check at which the flag was seen cleared;
- the clock, network probes, HTTP responses and OS readings are inputs;
- the JSON, pickle, zlib, MD5 and template-rendering libraries are function
  parameters.

Two things the source does are modelled as written:
- `GoCQProcess.__init__` registers itself before it assigns `self.account`.
  So creating a supervisor for account number 0 fails with an
  `AttributeError` instead of registering it (`Manager.CreateFailure`).
- `process.py` imports `ProcessNotStarted`, which `exceptions.py` does not
  define. The model keeps it as its own failure, `ProcessNotStarted`, raised
  by `status` before any child was spawned.
- `before_run` writes an IPv6 driver host into `ws://{host}:{port}/...`
  without square brackets; `AccountFiles.ServerAddress` does the same.

## Model

| member | source | states |
|---|---|---|
| Exceptions.Raise | nonebot_plugin_gocqhttp/exceptions.py:8-15 | a supplied message or code is kept only when truthy, else the class default; `args` is the resolved message followed by the extra arguments |
| Exceptions.DefaultUsesClassAttributes | nonebot_plugin_gocqhttp/exceptions.py:4-15 | a bare raise carries exactly the class message and code |
| Exceptions.ResolvedErrorIsNeverFalsy | nonebot_plugin_gocqhttp/exceptions.py:14 | the resolved message is never empty and the code never 0; passing `""`/`0` equals passing nothing |
| Exceptions.CodeTable | nonebot_plugin_gocqhttp/exceptions.py:4-45 | 500 only for the base class; 409, 404, 403 and 400 name exactly their subclasses |
| Exceptions.CodesAreNotUnique | nonebot_plugin_gocqhttp/exceptions.py:23-30 | two classes share a code (404), while all default messages differ |
| Accounts.NewAccount | nonebot_plugin_gocqhttp/plugin_config.py:21-24 | an account built from a number alone has no password and the default protocol |
| Accounts.ProtocolValuesDistinct | nonebot_plugin_gocqhttp/plugin_config.py:11-18 | protocol enum values are pairwise distinct |
| ProcessModels.LevelFromValue | nonebot_plugin_gocqhttp/process/models.py:24-31 | a string validates to the level whose value it is, and to none exactly when no level has that value |
| ProcessModels.LevelRoundTrip | nonebot_plugin_gocqhttp/process/models.py:24-31 | every level's value validates back to that level |
| ProcessModels.NewLog | nonebot_plugin_gocqhttp/process/models.py:34-37 | a record without level is STDOUT and without time is stamped with the clock reading |
| ProcessModels.NewStore | nonebot_plugin_gocqhttp/process/models.py:19-21 | the store holds the given accounts and the creation time |
| Strings.StripLeading | nonebot_plugin_gocqhttp/process/process.py:107 | the result is a suffix of the input and does not start with whitespace |
| Strings.StripTrailing | nonebot_plugin_gocqhttp/process/process.py:107 | the result is a prefix of the input and does not end with whitespace |
| Strings.StripIsTrimmedSlice | nonebot_plugin_gocqhttp/process/process.py:107 | `strip()` is a slice of the line with only whitespace cut on both sides |
| Strings.StripIdempotent | nonebot_plugin_gocqhttp/process/process.py:107 | stripping twice is stripping once |
| Strings.Lower | nonebot_plugin_gocqhttp/process/device/generator.py:56 | same length, each character lower-cased |
| Strings.Upper | nonebot_plugin_gocqhttp/process/device/generator.py:63 | same length, each character upper-cased |
| Strings.LowerHex | nonebot_plugin_gocqhttp/process/device/generator.py:56 | lower-casing a hexadecimal digit gives a lower-case hexadecimal digit |
| Strings.UpperHex | nonebot_plugin_gocqhttp/process/device/generator.py:63 | upper-casing a hexadecimal digit gives an upper-case hexadecimal digit |
| Strings.NatToDecimal | nonebot_plugin_gocqhttp/process/device/generator.py:78 | `str(n)` is non-empty decimal digits with no leading zero |
| Strings.DecimalRoundTrip | nonebot_plugin_gocqhttp/process/device/generator.py:78 | reading back `str(n)` gives `n` |
| Strings.IntToDecimal | nonebot_plugin_gocqhttp/process/download.py:128 | `str(i)` starts with a minus sign exactly when `i` is negative, and the rest is non-empty decimal digits with no leading zero |
| Strings.IntDecimalRoundTrip | nonebot_plugin_gocqhttp/process/download.py:128 | reading the sign and the digits of `str(i)` back gives `i` |
| Strings.Join | nonebot_plugin_gocqhttp/process/device/generator.py:63 | joining no parts gives the empty string, one part gives that part, and `n >= 1` parts give their lengths plus `n - 1` separators |
| Strings.JoinPart | nonebot_plugin_gocqhttp/process/device/generator.py:63 | part `i` appears whole at the offset made of the parts before it, each followed by the separator |
| Strings.JoinSeparator | nonebot_plugin_gocqhttp/process/device/generator.py:63 | right after every part but the last comes the separator |
| Strings.JoinLength | nonebot_plugin_gocqhttp/process/device/generator.py:63 | joining `n` parts of length `k` with one separator character has length `n*k + n - 1` |
| LogLine.UpperRun | nonebot_plugin_gocqhttp/process/process.py:31 | the longest run of `[A-Z]` at the start of the text |
| LogLine.MatchMessage | nonebot_plugin_gocqhttp/process/process.py:32-33 | the message has no newline and is the rest of the line, or the rest minus one final newline |
| LogLine.MatchLogLine | nonebot_plugin_gocqhttp/process/process.py:28-34 | every match has a timestamp-shaped time, a non-empty upper-case level and a newline-free message |
| LogLine.MatchedLineIsFormatted | nonebot_plugin_gocqhttp/process/process.py:28-34 | a matched line is exactly `[time] [LEVEL]: message`, possibly with one trailing newline |
| LogLine.MatchFormatted | nonebot_plugin_gocqhttp/process/process.py:28-34 | every well-formed line, with or without a trailing newline, matches with exactly its groups |
| LogLine.Pad2Value | nonebot_plugin_gocqhttp/process/process.py:30 | the two-digit form of a number reads back as that number |
| LogLine.Pad4Value | nonebot_plugin_gocqhttp/process/process.py:30 | the four-digit form of a number reads back as that number |
| LogLine.TimestampTextLayout | nonebot_plugin_gocqhttp/process/process.py:30 | a printed valid time has the regex's timestamp shape, each field at its offset |
| LogLine.TimestampRoundTrip | nonebot_plugin_gocqhttp/process/process.py:30 | printing a valid time and reading it back gives the same time |
| LogLine.ParseLine | nonebot_plugin_gocqhttp/process/process.py:114-119 | a non-matching line becomes a STDOUT record of the whole line at the clock reading; a match becomes its record, or a validation error on an unknown level or impossible date |
| LogLine.ParseFormattedRecord | nonebot_plugin_gocqhttp/process/process.py:114-119 | the line printed for a record parses back to that record |
| LogLine.UnknownLevelIsRejected | nonebot_plugin_gocqhttp/process/process.py:114-119 | a well-formed line with a level outside the enum is a validation error, not a STDOUT record |
| LogLine.OtherLinesFallBack | nonebot_plugin_gocqhttp/process/process.py:114-119 | every line that is not a well-formed log line becomes a STDOUT record holding the whole line |
| Process.LogStorage.constructor | nonebot_plugin_gocqhttp/process/process.py:83 | a new store has no records and no listeners |
| Process.LogStorage.Add | nonebot_plugin_gocqhttp/process/process.py:120 | appends one record; listeners unchanged; count grows by one |
| Process.LogStorage.AddListener | nonebot_plugin_gocqhttp/process/process.py:91-92 | adds one listener; records unchanged |
| Process.LogStorage.ClearListeners | nonebot_plugin_gocqhttp/process/manager.py:38 | no listeners remain; records unchanged |
| Process.Parsed | nonebot_plugin_gocqhttp/process/process.py:106-119 | one parse result per output line |
| Process.ParsedAt | nonebot_plugin_gocqhttp/process/process.py:106-119 | result `i` is the parse of line `i` |
| Process.ParsedAppend | nonebot_plugin_gocqhttp/process/process.py:106-119 | the parse of a concatenation is the concatenation of the parses |
| Process.AcceptedPrefix | nonebot_plugin_gocqhttp/process/process.py:114-120 | counts the leading accepted lines; the next line, if any, was rejected |
| Process.Records | nonebot_plugin_gocqhttp/process/process.py:114-120 | one record per accepted leading line |
| Process.RecordsOfAcceptedOutput | nonebot_plugin_gocqhttp/process/process.py:106-120 | when every line is accepted, record `i` is line `i`'s record |
| Process.AllAccepted | nonebot_plugin_gocqhttp/process/process.py:106-120 | if every result is accepted, the accepted prefix is everything |
| Process.RecordsStopAtRejectedLine | nonebot_plugin_gocqhttp/process/process.py:106-120 | a rejected line ends the attempt: later lines add no records |
| Process.PrefixAccepted | nonebot_plugin_gocqhttp/process/process.py:106-120 | the accepted prefix stops at the first rejected result |
| Process.AttemptProcess | nonebot_plugin_gocqhttp/process/process.py:97-126 | a failed spawn keeps the previous child; otherwise the child is the new pid, with an exit code only when its output drained and `wait` returned |
| Process.AttemptCode | nonebot_plugin_gocqhttp/process/process.py:147-149 | the logged code is the exit code of a drained and reaped child, else 0 |
| Process.RunGrows | nonebot_plugin_gocqhttp/process/process.py:142-160 | one more attempt appends its records and replaces the child |
| Process.RunFromContinues | nonebot_plugin_gocqhttp/process/process.py:142-146 | a check that sees neither the flag cleared nor the budget spent goes on to the next attempt |
| Process.RunFromBounds | nonebot_plugin_gocqhttp/process/process.py:141-161 | attempts never exceed the budget, the stop point or the oracle; the exit reason matches |
| Process.BudgetIsExact | nonebot_plugin_gocqhttp/process/process.py:145-146 | with budget N and no stop, exactly N attempts are made |
| Process.UnboundedRunsUntilStop | nonebot_plugin_gocqhttp/process/process.py:143-145 | with a negative budget the loop runs until the stop point |
| Process.UnboundedNeverGivesUp | nonebot_plugin_gocqhttp/process/process.py:142-145 | with a negative budget and no stop the loop never exits by itself |
| Process.QrUri | nonebot_plugin_gocqhttp/process/process.py:185-189 | `data:image/png;base64,` followed by the encoded image |
| Process.ConfigStepWrites | nonebot_plugin_gocqhttp/process/process.py:133-135 | after a successful configuration step both files exist and `config.yml` is the rendered template |
| Process.DeviceStepWrites | nonebot_plugin_gocqhttp/process/process.py:137-139 | after a successful device step `device.json` decodes to a record with the account's protocol |
| Process.DeviceStepWithWrites | nonebot_plugin_gocqhttp/process/process.py:137-139 | the same, for any generated record |
| Process.DeviceStepFrame | nonebot_plugin_gocqhttp/process/process.py:137-139 | the device step changes no file but `device.json` |
| Process.DeviceStepWithFrame | nonebot_plugin_gocqhttp/process/process.py:137-139 | the same, for any generated record |
| Process.StartPreparationWrites | nonebot_plugin_gocqhttp/process/process.py:133-139 | a successful `start` preparation leaves the rendered configuration and a device record with the account's protocol |
| Process.DeviceReadBack | nonebot_plugin_gocqhttp/process/process.py:139 | a record with its protocol replaced reads back unchanged through a faithful codec |
| Process.FreshAccountPrepares | nonebot_plugin_gocqhttp/process/process.py:133-139 | for an account with no files, preparation succeeds and writes the generated record |
| Process.RunConfigStep | nonebot_plugin_gocqhttp/process/process.py:133-135 | runs the configuration step on the file system, with the step's outcome and files |
| Process.RunDeviceStep | nonebot_plugin_gocqhttp/process/process.py:137-139 | runs the device step on the file system, with the step's outcome and files |
| Process.PrepareFiles | nonebot_plugin_gocqhttp/process/process.py:70-75 | writes the template when the configuration is incomplete and a generated record when none exists |
| Process.GoCQProcess.constructor | nonebot_plugin_gocqhttp/process/process.py:51-92 | not running, no child, no restarts, empty log, printer subscribed exactly when printing is on, files prepared |
| Process.GoCQProcess.PumpOutput | nonebot_plugin_gocqhttp/process/process.py:106-120 | appends one record per accepted line, in order, stopping at the first rejected line; reports whether the output drained |
| Process.GoCQProcess.RunAttempt | nonebot_plugin_gocqhttp/process/process.py:97-126 | one attempt's records are appended, the child is replaced, and the logged code is returned |
| Process.GoCQProcess.Runner | nonebot_plugin_gocqhttp/process/process.py:141-161 | the attempts made and the exit reason are the restart loop's outcome; restarts grow by the attempts made; the records and child are those of the attempts; the flag stays set unless a stop was seen |
| Process.GoCQProcess.Advance | nonebot_plugin_gocqhttp/process/process.py:147-159 | one loop pass adds one attempt's records and child and one restart |
| Process.GoCQProcess.Start | nonebot_plugin_gocqhttp/process/process.py:128-169 | refused with ProcessAlreadyStarted and no change while running; otherwise the preparation's outcome and files, and the flag is set exactly on success |
| Process.GoCQProcess.Stop | nonebot_plugin_gocqhttp/process/process.py:171-178 | the flag is cleared; the child is signalled exactly when there is one |
| Process.GoCQProcess.Status | nonebot_plugin_gocqhttp/process/process.py:180-220 | no snapshot before a child exists; running details only for a live child; stopped details with the exit code; counters from the log and restarts |
| Process.BudgetSpentBlocksStart | nonebot_plugin_gocqhttp/process/process.py:129-161 | after the budget is spent the flag stays set, so a second `start` is refused until `stop` |
| AccountFiles.ReadTextIn | nonebot_plugin_gocqhttp/process/config.py:36-37 | reading text succeeds exactly on a text file and returns its contents; a missing file is FileNotFound |
| AccountFiles.ReadBytesIn | nonebot_plugin_gocqhttp/process/config.py:116-117 | reading bytes succeeds exactly on a binary file and returns its bytes; a missing file is FileNotFound |
| AccountFiles.FileSystem.WriteText | nonebot_plugin_gocqhttp/process/config.py:39-40 | replaces the one file with the text and returns its length |
| AccountFiles.FileSystem.WriteBytes | nonebot_plugin_gocqhttp/process/config.py:119-120 | replaces the one file with the bytes and returns their count |
| AccountFiles.FileSystem.Unlink | nonebot_plugin_gocqhttp/process/config.py:122-123 | removes an existing file; a missing one is FileNotFound with nothing changed |
| AccountFiles.ConnectHost | nonebot_plugin_gocqhttp/process/config.py:49-53 | loopback hosts (127.0.0.0/8, `::1`) and unspecified ones (`0.0.0.0`, `::`) become `127.0.0.1`; others appear as their `str` text |
| AccountFiles.HexText | nonebot_plugin_gocqhttp/process/config.py:53 | an IPv6 group's text is non-empty lower-case hexadecimal with no leading zero |
| AccountFiles.HexRoundTrip | nonebot_plugin_gocqhttp/process/config.py:53 | reading a group's text back as hexadecimal gives the group |
| AccountFiles.ZerosAt | nonebot_plugin_gocqhttp/process/config.py:53 | the run of zero groups at a position, ended by a non-zero group or the end of the address |
| AccountFiles.FirstLongestZeroRun | nonebot_plugin_gocqhttp/process/config.py:53 | the run that `::` replaces is a longest run of zero groups, and no earlier run is as long |
| AccountFiles.ServerAddress | nonebot_plugin_gocqhttp/process/config.py:58 | `ws://`, the host, `:`, the decimal port, then `/onebot/v11/ws` |
| AccountFiles.Environment.Data | nonebot_plugin_gocqhttp/process/config.py:54-61 | the account, the websocket address and the token, or `""` when no token is set |
| AccountFiles.AccountConfigHelper.Write | nonebot_plugin_gocqhttp/process/config.py:39-40 | overwrites only the template |
| AccountFiles.AccountConfigHelper.Generate | nonebot_plugin_gocqhttp/process/config.py:42-45 | copies the bundled template over the account's template and leaves `config.yml` as it was |
| AccountFiles.AccountConfigHelper.BeforeRun | nonebot_plugin_gocqhttp/process/config.py:47-62 | a read failure is passed on with nothing written; otherwise `config.yml` is the rendered template |
| AccountFiles.GenerateKeepsConfigMissing | nonebot_plugin_gocqhttp/process/config.py:32-45 | `generate` does not make a missing configuration exist |
| AccountFiles.MalformedDevice | nonebot_plugin_gocqhttp/process/config.py:84 | a BadConfigFormat with code 400 whose message is the class message followed by the decoder's text |
| AccountFiles.DecodeDevice | nonebot_plugin_gocqhttp/process/config.py:79-85 | a read error is passed on; malformed JSON is BadConfigFormat; an invalid record is a validation error; otherwise the record |
| AccountFiles.AccountDeviceHelper.Write | nonebot_plugin_gocqhttp/process/config.py:87-90 | `device.json` holds the record's JSON |
| AccountFiles.AccountDeviceHelper.Generate | nonebot_plugin_gocqhttp/process/config.py:92-94 | `device.json` holds the generated record's JSON |
| AccountFiles.AccountDeviceHelper.Generated | nonebot_plugin_gocqhttp/process/config.py:93 | the generated record is valid and has the account's protocol |
| AccountFiles.AccountDeviceHelper.GeneratedIsRandom | nonebot_plugin_gocqhttp/process/config.py:93 | the generated record is `random_device(uin, protocol)` |
| AccountFiles.DrawnIsValid | nonebot_plugin_gocqhttp/process/device/__init__.py:6-32 | when `random_device` is the generator, the environment gives valid records with the requested protocol |
| AccountFiles.AccountDeviceHelper.BeforeRun | nonebot_plugin_gocqhttp/process/config.py:96-99 | a read or decode failure is passed on with nothing written; otherwise the record is rewritten with the account's protocol |
| AccountFiles.WithProtocol | nonebot_plugin_gocqhttp/process/config.py:98 | only the protocol changes |
| AccountFiles.DeviceBeforeRunReadsBack | nonebot_plugin_gocqhttp/process/config.py:96-99 | through a faithful codec the rewritten record reads back as the old one with the new protocol |
| AccountFiles.SessionTokenHelper.Write | nonebot_plugin_gocqhttp/process/config.py:119-120 | after writing, the token exists and reads back as the same bytes |
| AccountFiles.SessionTokenHelper.Delete | nonebot_plugin_gocqhttp/process/config.py:122-123 | afterwards the token is gone; it succeeds exactly when the token existed |
| AccountFiles.PathsAreDistinct | nonebot_plugin_gocqhttp/process/config.py:24-30 | different accounts have different files, and one account's four files are distinct |
| DeviceGenerator.Below | nonebot_plugin_gocqhttp/process/device/generator.py:15 | a draw for a range of size `n` lies in `0..n-1` |
| DeviceGenerator.Choice | nonebot_plugin_gocqhttp/process/device/generator.py:15 | a drawn character belongs to the character set |
| DeviceGenerator.RandInt | nonebot_plugin_gocqhttp/process/device/generator.py:69-72 | a drawn integer lies between both bounds, inclusive |
| DeviceGenerator.RandStr | nonebot_plugin_gocqhttp/process/device/generator.py:13-15 | `length` characters; character `i` is the choice made after `i` earlier choices from the same set |
| DeviceGenerator.Octets | nonebot_plugin_gocqhttp/process/device/generator.py:74 | four octets in 0..255 that spell the address |
| DeviceGenerator.DigitValues | nonebot_plugin_gocqhttp/process/device/generator.py:23 | each digit's value, in order |
| DeviceGenerator.Reverse | nonebot_plugin_gocqhttp/process/device/generator.py:23 | the digits in reverse order |
| DeviceGenerator.EveryOther | nonebot_plugin_gocqhttp/process/device/generator.py:25 | `numbers[::2]` has `(n+1)/2` items |
| DeviceGenerator.ImeiChecksum | nonebot_plugin_gocqhttp/process/device/generator.py:21-26 | a digit equal to the positional sum over the reversed digits, mod 10 |
| DeviceGenerator.SlicedSumIsWeighted | nonebot_plugin_gocqhttp/process/device/generator.py:25 | the two stride slices add up to the positional sum |
| DeviceGenerator.WeightedShift | nonebot_plugin_gocqhttp/process/device/generator.py:25 | shifting the start position by two leaves the positional sum unchanged |
| DeviceGenerator.LuhnCheckDigit | nonebot_plugin_gocqhttp/process/device/generator.py:21-26 | the standard Luhn check digit is a digit (reference for comparison) |
| DeviceGenerator.ImeiChecksumIsNotLuhn | nonebot_plugin_gocqhttp/process/device/generator.py:21-26 | for `0000000000000` followed by `1` the checksum is 1, while Luhn gives 8 |
| DeviceGenerator.RandomDeviceInfoGenerator.Imei | nonebot_plugin_gocqhttp/process/device/generator.py:17-28 | 15 digits: the 14 drawn digits, then their checksum digit |
| DeviceGenerator.RandomDeviceInfoGenerator.Ssid | nonebot_plugin_gocqhttp/process/device/generator.py:30-32 | the prefix followed by six characters from A-Z and 0-9 |
| DeviceGenerator.RandomDeviceInfoGenerator.PickAndroidDevice | nonebot_plugin_gocqhttp/process/device/generator.py:34-39 | an android id from some build row, and a row of the device list |
| DeviceGenerator.RandomDeviceInfoGenerator.BootId | nonebot_plugin_gocqhttp/process/device/generator.py:41-44 | 36 characters in the 8-4-4-4-12 form of RFC 4122 section 3, lower-case hex, spelling the 32 drawn digits |
| DeviceGenerator.RandomDeviceInfoGenerator.ProcVersion | nonebot_plugin_gocqhttp/process/device/generator.py:46-59 | the kernel line for versions in range: major 3-5, minor 0-19, patch 0-99 |
| DeviceGenerator.RandomDeviceInfoGenerator.MacAddress | nonebot_plugin_gocqhttp/process/device/generator.py:61-63 | 17 characters: six upper-case hex pairs separated by colons |
| DeviceGenerator.RandomDeviceInfoGenerator.IpAddress | nonebot_plugin_gocqhttp/process/device/generator.py:65-74 | four octets whose address lies between the network and broadcast addresses |
| DeviceGenerator.RandomDeviceInfoGenerator.Incremental | nonebot_plugin_gocqhttp/process/device/generator.py:76-78 | the canonical decimal text of a number from 0 to 2^32, inclusive |
| DeviceGenerator.DefaultAddressStartsWith188 | nonebot_plugin_gocqhttp/process/device/generator.py:65 | the default network is valid, and every address drawn from it starts with 188 |
| DeviceGenerator.Pow2Of32 | nonebot_plugin_gocqhttp/process/device/generator.py:78 | `2**32` is 4294967296 |
| DeviceGenerator.UuidText | nonebot_plugin_gocqhttp/process/device/generator.py:43-44 | `str(UUID(hex))` is the 8-4-4-4-12 form of the lower-cased digits |
| DeviceGenerator.UuidLayout | nonebot_plugin_gocqhttp/process/device/generator.py:44 | the dashed text has 36 characters, dashes at positions 8, 13, 18 and 23 and lower-case hexadecimal digits everywhere else |
| DeviceGenerator.UuidDigits | nonebot_plugin_gocqhttp/process/device/generator.py:44 | taking the dashes out of the dashed text gives back the 32 digits |
| DeviceGenerator.JoinPairs | nonebot_plugin_gocqhttp/process/device/generator.py:63 | joined pairs sit at positions `3g` and `3g+1`, with colons between |
| DeviceGenerator.MacLayout | nonebot_plugin_gocqhttp/process/device/generator.py:63 | the upper-cased join is 17 characters of upper-case hex pairs and colons |
| DeviceGenerator.KernelParts | nonebot_plugin_gocqhttp/process/device/generator.py:49-57 | the drawn kernel version is within its ranges |
| DeviceGenerator.SsidAndImeiAreUncoupled | nonebot_plugin_gocqhttp/process/device/generator.py:17-32 | some seeded stream gives an SSID whose first drawn character is `B` and an IMEI that starts with `2`: draws over ranges of different sizes are not tied to each other |
| DeviceGenerator.MacRepeatsBootId | nonebot_plugin_gocqhttp/process/device/generator.py:41-63 | each MAC pair is the upper-cased pair at the same place in the boot id's digits, since both reseed and draw from `hexdigits` |
| DeviceModels.NewVersionInfo | nonebot_plugin_gocqhttp/process/device/models.py:9-13 | release "10", codename "REL", sdk 29, and the given incremental |
| DeviceModels.FromShort | nonebot_plugin_gocqhttp/process/device/models.py:51-65 | `display` is the android id, the fingerprint has its format, BSSID is the MAC, vendor is the brand, `imsi_md5` is the digest of the IMEI, other fields keep their defaults |
| DeviceModels.FromShortExtends | nonebot_plugin_gocqhttp/process/device/models.py:52-53 | every short field is copied unchanged |
| DeviceModels.FromShortIsDetermined | nonebot_plugin_gocqhttp/process/device/models.py:51-65 | two derived records are equal exactly when their short parts are |
| Device.RandomShort | nonebot_plugin_gocqhttp/process/device/__init__.py:7-30 | a valid short record with the given protocol, whose device fields come from one device row |
| Device.RandomDevice | nonebot_plugin_gocqhttp/process/device/__init__.py:6-32 | a valid full record with the given protocol |
| Device.RandomDeviceIsDerived | nonebot_plugin_gocqhttp/process/device/__init__.py:6-32 | the record is `from_short` of its own short part, and that part's device fields come from a device row |
| Device.RandomDeviceShapes | nonebot_plugin_gocqhttp/process/device/__init__.py:6-32 | the IMEI, SSID, boot id, MAC, IP, incremental and android id of the record have the generator's shapes |
| Device.RandomDeviceDependsOnSeed | nonebot_plugin_gocqhttp/process/device/__init__.py:7-13 | the record depends only on the account number's stream |
| Platform.GetPlatform | nonebot_plugin_gocqhttp/process/platform.py:34-43 | succeeds exactly on the listed `uname` pairs; else RuntimeError "Unsupported platform: {system} {machine}"; GOARCH is amd64, 386, arm64 or armv7, and armv7 only on linux |
| Platform.SystemTable | nonebot_plugin_gocqhttp/process/platform.py:27-31 | Windows→windows, Linux→linux, Darwin→darwin |
| Platform.ArchitectureTable | nonebot_plugin_gocqhttp/process/platform.py:3-25 | i686 and i386 give 386; armv7l gives armv7; x86_64 gives amd64 on Linux and Darwin; AMD64/X86/ARM64 give amd64/386/arm64 on Windows |
| Platform.MachineNamesArePerSystem | nonebot_plugin_gocqhttp/process/platform.py:36-42 | a machine name of one system is rejected under another |
| Platform.ArchiveExt | nonebot_plugin_gocqhttp/process/platform.py:48 | ".zip" exactly for windows, ".tar.gz" otherwise |
| Platform.ExecutableExt | nonebot_plugin_gocqhttp/process/platform.py:49 | ".exe" exactly for windows, "" otherwise |
| Download.BinaryName | nonebot_plugin_gocqhttp/process/download.py:20 | starts with `go-cqhttp` and has an extension only on windows |
| Download.ConstructDownloadUrl | nonebot_plugin_gocqhttp/process/download.py:33-42 | a set override is returned as it is; otherwise an `https` URL on the domain followed by the repository's release route and the asset name |
| Download.OverrideIgnoresDomain | nonebot_plugin_gocqhttp/process/download.py:34 | with an override every domain gives the override |
| Download.MirrorUrlShape | nonebot_plugin_gocqhttp/process/download.py:35-42 | without an override the URL starts with `https://{domain}` followed by `/`, and ends with the asset name |
| Download.AssetIsZipOnlyOnWindows | nonebot_plugin_gocqhttp/process/download.py:41 | the asset name ends in `.zip` exactly on windows |
| Download.MirrorUrlIsZipOnlyOnWindows | nonebot_plugin_gocqhttp/process/download.py:35-42 | without an override the URL ends in `.zip` exactly on windows |
| Download.MirrorUrlNamesItsDomain | nonebot_plugin_gocqhttp/process/download.py:35-42 | different domains give different URLs |
| Download.Fastest | nonebot_plugin_gocqhttp/process/download.py:74-89 | the chosen probe, if any, succeeded |
| Download.FastestIsEarliestMinimum | nonebot_plugin_gocqhttp/process/download.py:74-89 | no choice exactly when every probe failed; otherwise the choice is the earliest probe with the smallest latency |
| Download.EarliestFastestIsUnique | nonebot_plugin_gocqhttp/process/download.py:87-89 | at most one probe is the earliest fastest |
| Download.SelectedIsEarliestFastest | nonebot_plugin_gocqhttp/process/download.py:74-93 | a mirror is returned exactly when the earliest fastest probe has a non-zero latency, and it is that domain's URL |
| Download.ZeroLatencyIsRejected | nonebot_plugin_gocqhttp/process/download.py:91 | with non-negative latencies, a zero latency makes the selection fail |
| Download.GetFastestMirror | nonebot_plugin_gocqhttp/process/download.py:45-93 | the override without probing; AssertionError for an empty domain list; otherwise the earliest fastest mirror, or AssertionError "No download domain available." |
| Download.CompleteWritesCountTheBody | nonebot_plugin_gocqhttp/process/download.py:118-119 | when every write reports its whole chunk, the counted size is the body length |
| Download.StreamToFile | nonebot_plugin_gocqhttp/process/download.py:113-120 | `downloaded_size` is the sum of the write counts, and the hasher is fed the body in order |
| Download.CheckIntegrity | nonebot_plugin_gocqhttp/process/download.py:126-137 | passes exactly when both sizes equal Content-Length and the digests agree; otherwise reports the first failing check with its message |
| Download.FirstFailingCheckWins | nonebot_plugin_gocqhttp/process/download.py:126-137 | a failing earlier check hides the inputs of later checks |
| Download.DownloadGocq | nonebot_plugin_gocqhttp/process/download.py:97-137 | the mirror error, the response error, or the integrity check on the streamed body |
| Download.DownloadSucceedsOnlyWhenVerified | nonebot_plugin_gocqhttp/process/download.py:107-137 | success means the selected mirror answered, counted bytes, file size and Content-Length agree, and the digests match |
| Manager.RegistrationKey | nonebot_plugin_gocqhttp/process/manager.py:26 | a truthy given number is the key, otherwise the supervisor's own number |
| Manager.Without | nonebot_plugin_gocqhttp/process/manager.py:37 | the order without the removed key, keeping distinctness |
| Manager.Select | nonebot_plugin_gocqhttp/process/manager.py:42-47 | a supervisor is listed exactly when it is registered and predefined ones are included or it is not predefined |
| Manager.AccountsOf | nonebot_plugin_gocqhttp/process/manager.py:52-55 | the accounts of the supervisors, in order |
| Manager.Uins | nonebot_plugin_gocqhttp/process/manager.py:69 | the account numbers, in order |
| Manager.CreateFailure | nonebot_plugin_gocqhttp/process/manager.py:25-33 | creation fails exactly for number 0 (AttributeError) or a registered number (AccountAlreadyExists) |
| Manager.Plan | nonebot_plugin_gocqhttp/process/manager.py:65-70 | the accounts created come from the list in order, have non-zero unregistered numbers, and are pairwise distinct |
| Manager.IgnoreLoadedSkipsRegistered | nonebot_plugin_gocqhttp/process/manager.py:69 | with `ignore_loaded`, loading never fails with AccountAlreadyExists, and never fails at all when no number is 0 |
| Manager.FreshAccountsAreAllCreated | nonebot_plugin_gocqhttp/process/manager.py:65-70 | distinct fresh non-zero accounts are all created, in order |
| Manager.RegisteredAccountStops | nonebot_plugin_gocqhttp/process/manager.py:65-70 | without `ignore_loaded`, the first registered account aborts the load with AccountAlreadyExists after the accounts before it |
| Manager.DecodeStore | nonebot_plugin_gocqhttp/process/manager.py:81-93 | JSON parsing, or unpickling retried on decompressed bytes only after an UnpicklingError |
| Manager.LoadFailure | nonebot_plugin_gocqhttp/process/manager.py:95-97 | RuntimeError "Failed to load saved accounts from " followed by the path's repr |
| Manager.SavedStoreDecodes | nonebot_plugin_gocqhttp/process/manager.py:57-60 | a saved store decodes back to itself |
| Manager.ProcessesManager.constructor | nonebot_plugin_gocqhttp/process/manager.py:20 | an empty registry |
| Manager.ProcessesManager.Get | nonebot_plugin_gocqhttp/process/manager.py:22 | the supervisor of a registered number, else none |
| Manager.ProcessesManager.Add | nonebot_plugin_gocqhttp/process/manager.py:24-29 | AccountAlreadyExists with nothing changed for a taken key; otherwise registers under the key at the end of the order |
| Manager.ProcessesManager.CreateInstance | nonebot_plugin_gocqhttp/process/manager.py:31-33 | fails exactly as CreateFailure says, with nothing changed; otherwise a new idle supervisor registered under its number, with its files prepared |
| Manager.ProcessesManager.Remove | nonebot_plugin_gocqhttp/process/manager.py:35-39 | KeyError for an unknown number; otherwise unregistered, dropped from the order, its listeners cleared and its records kept |
| Manager.ProcessesManager.All | nonebot_plugin_gocqhttp/process/manager.py:42-47 | the registered supervisors that pass the filter, in registration order, every one that passes it listed, and none twice |
| Manager.SelectPositions | nonebot_plugin_gocqhttp/process/manager.py:42-47 | the list is the table entries at rising positions of the order, and a position is taken exactly when its entry passes the filter |
| Manager.SelectOnceEach | nonebot_plugin_gocqhttp/process/manager.py:42-47 | over distinct keys whose entries sit under their own numbers, no supervisor is listed twice |
| Manager.ProcessesManager.SavedAccounts | nonebot_plugin_gocqhttp/process/manager.py:51-56 | exactly the accounts of the non-predefined supervisors |
| Manager.ProcessesManager.Save | nonebot_plugin_gocqhttp/process/manager.py:49-62 | the save file holds the encoded store of the saved accounts; the size is its length |
| Manager.ProcessesManager.LoadOne | nonebot_plugin_gocqhttp/process/manager.py:66-69 | one step of the loading loop keeps the loop's relation to the plan |
| Manager.ProcessesManager.LoopStarts | nonebot_plugin_gocqhttp/process/manager.py:66-69 | the loop starts with nothing created and the whole plan ahead |
| Manager.ProcessesManager.LoopEnds | nonebot_plugin_gocqhttp/process/manager.py:66-69 | when the loop ends, what it created and where it stopped is the plan |
| Manager.ProcessesManager.CreateAll | nonebot_plugin_gocqhttp/process/manager.py:65-70 | creates the plan's accounts in order and registers them with their files prepared; stops at the plan's failure; older entries unchanged |
| Manager.ProcessesManager.LoadingIsLoaded | nonebot_plugin_gocqhttp/process/manager.py:65-70 | the loop's state gives the load's promised result |
| Manager.ProcessesManager.LoadConfig | nonebot_plugin_gocqhttp/process/manager.py:64-70 | the configured accounts per the plan, as predefined supervisors |
| Manager.ProcessesManager.LoadSaved | nonebot_plugin_gocqhttp/process/manager.py:72-102 | a read error is passed on; a decode failure is the load RuntimeError with nothing changed; otherwise the saved accounts per the plan, as non-predefined supervisors |
| Manager.PlanStep | nonebot_plugin_gocqhttp/process/manager.py:66-69 | the plan from position `i` is skip, stop or create-then-continue, as the filter and constructor decide |
| Manager.AllPredefinedAt | nonebot_plugin_gocqhttp/process/manager.py:67 | every supervisor of the list has the flag |
| Manager.RegistryFiles | nonebot_plugin_gocqhttp/process/manager.py:29 | the registry of distinct supervisors holds each under its number, and nothing else |
| Manager.RegistryStep | nonebot_plugin_gocqhttp/process/manager.py:29 | registering one more supervisor extends the registry |
| Manager.AccountsOfStep | nonebot_plugin_gocqhttp/process/manager.py:66-69 | one more supervisor adds its account |
| Manager.PrepareAllStep | nonebot_plugin_gocqhttp/process/process.py:70-75 | preparing one more account's files extends the preparation |
| Manager.JoinStep | nonebot_plugin_gocqhttp/process/manager.py:66-69 | joining is associative for the created lists |
| Manager.UinsStep | nonebot_plugin_gocqhttp/process/manager.py:29 | one more account appends its number to the order |
| Manager.DistinctKeysCount | nonebot_plugin_gocqhttp/process/manager.py:20 | distinct keys are as many as their set |
| Manager.AccountsComeFrom | nonebot_plugin_gocqhttp/process/manager.py:52-55 | every saved account belongs to a registered non-predefined supervisor |
| Manager.SaveThenLoad | nonebot_plugin_gocqhttp/process/manager.py:49-102 | with a faithful codec, saving then loading into a registry without those numbers creates exactly the saved accounts |
| Manager.SelectedAccountsAreDistinct | nonebot_plugin_gocqhttp/process/manager.py:42-56 | the saved accounts have distinct registered numbers |

## Left out

- Threads, the event loop, `sleep`, timeouts and the daemon thread's
  scheduling are left out. The restart loop runs as a method over an oracle
  of attempts. A stop is the loop-top check at which the flag is seen
  cleared.
- `subprocess`, `psutil` and `mimetypes` are left out. The child's output,
  exit code and OS readings are inputs. The QR image type is taken to be
  `image/png`, which is what `qrcode.png` guesses to.
- The startup prompt check and every `logger` call are left out. They only
  write to the log.
- The `LogStorage` base class lives in `log.py`, which is not part of this
  model. Only its record list and listener set are kept: log rotation and
  listener notification are left out.
- `LOG_REGEX` is matched by a hand-written function. `\d` is taken to be
  ASCII digits.
- `ProcessLog`'s timestamp is read with the digit fields and the ranges of
  `datetime`. Pydantic's other date formats are left out.
- `STDOUT.name` comes from `log.py`, which is not part of this model; it is
  taken to be "STDOUT".
- JSON, pickle, zlib, base64, MD5 and chevron rendering are function
  parameters. A faithful codec is stated as a predicate (`RoundTrips`,
  `StoreRoundTrips`) where a lemma needs it.
- The `mkdir` calls of the helpers and of `GoCQProcess.__init__`, and
  directory paths in general, are left out. A path is an account number and
  a file name.
- `ACCOUNTS_SAVE_PATH` is a path in the binary directory. The `repr` of the
  save path is a string parameter of `LoadSaved`.
- `create_instance` forwards `PROCESS_KWARGS`. Only `max_restarts` and
  `print_process_log` are kept; the timeouts and the rotation interval are
  left out with the threads.
- `Manager.ProcessesManager.CreateInstance`: the source registers inside
  the constructor. The model creates the supervisor, then registers it, with
  the same failures and final state.
- `Manager.ProcessesManager.CreateAll`, `LoadConfig` and `LoadSaved` do not
  state that the supervisors they return are newly allocated. Only
  `CreateInstance` does.
- `AccountFiles.Environment` carries `random_device` as a field. Its
  `Valid` demands only what the helpers use: every record it gives is valid
  and carries the requested protocol. That it is `Device.RandomDevice` is
  the separate predicate `Drawn`, which `DrawnIsValid` shows implies `Valid`.
- The Mersenne Twister behind `random.Random` is left out. The generator
  is a parameter mapping a seed to its stream, and only two things are kept:
  a draw depends on the seed and on the ranges asked for so far, and a
  choice from `n` items lies below `n`.
- The device and build lists are parameters; `data_source.py` is not part
  of this model.
- `Process.GoCQProcess.Status`: the CPU percentage and creation time are
  reals from an OS reading; floating-point behaviour is left out.
- Probe latencies are integers. The `HEAD` request, the clock and
  `asyncio.gather` are left out; each domain's probe outcome is an input.
- `raise_for_status` and the `Content-Length`/`Content-MD5` headers of the
  `GET` response are folded into one response input for the URL, or the
  error raised for it.
- `Download.ShowHex` writes `{x=}` as the name, `=` and the value in single
  quotes. This is `repr` of a hexadecimal string; escaping of other strings
  is left out.
- `casefold()` of the digests is modelled as ASCII lower-casing, which is
  what it does to hexadecimal text.
- `unarchive_file` is left out: archive formats and `shutil` are foreign,
  so the model stops at the verified archive.
- Which platform the program runs on is an input to `Platform.GetPlatform`,
  not a module-level constant.
- `AccountFiles.Host` leaves out IPv6 scope ids (`%eth0`) and the special
  text and loopback test of IPv4-mapped addresses, which differ between
  Python versions.
- The web API, the plugin entry point and the external proxy are not part
  of this model.
