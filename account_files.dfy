/** The per-account files of `process/config.py`: the go-cqhttp configuration
    and its template, the device record and the session token, kept in the
    account's own directory. The file system is a map from path to content;
    the outside world the helpers read (the bundled template, the driver's
    address, the JSON codec, the random source) is an `Environment`. */
module AccountFiles {
  import opened Wrappers
  import opened Strings
  import opened Exceptions
  import opened Accounts
  import opened DeviceGenerator
  import opened DeviceModels
  import opened Device

  /** A file `name` in the directory of account `uin`, or a file `name` in
      the directory that holds the binary and the saved accounts. */
  datatype Path = AccountFile(uin: int, name: string) | BinaryDirFile(name: string)

  const TEMPLATE_FILE_NAME: string := "config-template.yml"
  const CONFIG_FILE_NAME: string := "config.yml"
  const DEVICE_FILE_NAME: string := "device.json"
  const SESSION_FILE_NAME: string := "session.token"

  /** What a file holds: text written in text mode or bytes written in
      binary mode. */
  datatype Content = Text(text: string) | Binary(bytes: seq<bv8>)

  /** Reading a file as text: a missing file is an error, and so is a file
      that holds bytes. */
  function ReadTextIn(files: map<Path, Content>, p: Path): (r: Result<string>)
    ensures r.Ok? <==> p in files && files[p].Text?
    ensures r.Ok? ==> files[p] == Text(r.value)
    ensures p !in files ==> r == Err(FileNotFound)
  {
    if p !in files then Err(FileNotFound)
    else if files[p].Binary? then Err(TextDecodeError)
    else Ok(files[p].text)
  }

  /** Reading a file as bytes. */
  function ReadBytesIn(files: map<Path, Content>, p: Path): (r: Result<seq<bv8>>)
    ensures r.Ok? <==> p in files && files[p].Binary?
    ensures r.Ok? ==> files[p] == Binary(r.value)
    ensures p !in files ==> r == Err(FileNotFound)
  {
    if p !in files then Err(FileNotFound)
    else if files[p].Text? then Err(TextDecodeError)
    else Ok(files[p].bytes)
  }

  /** The files on disk. */
  class FileSystem {
    var files: map<Path, Content>

    constructor (initial: map<Path, Content>)
      ensures files == initial
    {
      files := initial;
    }

    /** `path.is_file()`. */
    predicate IsFile(p: Path)
      reads this
    {
      p in files
    }

    /** `path.read_text()`. */
    function ReadText(p: Path): Result<string>
      reads this
    {
      ReadTextIn(files, p)
    }

    /** `path.read_bytes()`. */
    function ReadBytes(p: Path): Result<seq<bv8>>
      reads this
    {
      ReadBytesIn(files, p)
    }

    /** `path.write_text(text)`: returns the number of characters written. */
    method WriteText(p: Path, text: string) returns (n: int)
      modifies this
      ensures files == old(files)[p := Text(text)]
      ensures n == |text|
    {
      files := files[p := Text(text)];
      n := |text|;
    }

    /** `path.write_bytes(bytes)`: returns the number of bytes written. */
    method WriteBytes(p: Path, bytes: seq<bv8>) returns (n: int)
      modifies this
      ensures files == old(files)[p := Binary(bytes)]
      ensures n == |bytes|
    {
      files := files[p := Binary(bytes)];
      n := |bytes|;
    }

    /** `path.unlink()`: fails on a missing file. */
    method Unlink(p: Path) returns (r: Result<()>)
      modifies this
      ensures p in old(files) ==> r.Ok? && files == old(files) - {p}
      ensures p !in old(files) ==> r == Err(FileNotFound) && files == old(files)
    {
      if p in files {
        files := files - {p};
        r := Ok(());
      } else {
        r := Err(FileNotFound);
      }
    }
  }

  /** The driver's listening address: an IPv4 address as four octets or an
      IPv6 address as eight 16-bit groups. */
  datatype Host = V4(octets: seq<int>) | V6(groups: seq<int>) {
    predicate Valid() {
      match this
      case V4(octets) => |octets| == 4 && forall i :: 0 <= i < 4 ==> 0 <= octets[i] <= 255
      case V6(groups) => |groups| == 8 && forall i :: 0 <= i < 8 ==> 0 <= groups[i] <= 0xFFFF
    }

    /** `is_loopback`: the 127.0.0.0/8 block, or `::1`. */
    predicate IsLoopback()
      requires Valid()
    {
      match this
      case V4(octets) => octets[0] == 127
      case V6(groups) => groups == [0, 0, 0, 0, 0, 0, 0, 1]
    }

    /** `is_unspecified`: 0.0.0.0, or `::`. */
    predicate IsUnspecified()
      requires Valid()
    {
      match this
      case V4(octets) => octets == [0, 0, 0, 0]
      case V6(groups) => groups == [0, 0, 0, 0, 0, 0, 0, 0]
    }

    /** `str(host)`: the dotted quad, or the compressed IPv6 text. */
    function Text(): string
      requires Valid()
    {
      match this
      case V4(octets) =>
        IntToDecimal(octets[0]) + "." + IntToDecimal(octets[1]) + "." + IntToDecimal(octets[2])
        + "." + IntToDecimal(octets[3])
      case V6(groups) => CompressedText(groups)
    }
  }

  /** The text of an IPv6 address as section 4.2 of RFC 5952 writes it: each
      group in lower-case hexadecimal without leading zeros, joined by
      colons, and the first longest run of two or more zero groups replaced
      by `::`. */
  function CompressedText(groups: seq<int>): string
    requires forall i :: 0 <= i < |groups| ==> 0 <= groups[i] <= 0xFFFF
  {
    var start := LongestZeroRun(groups, 0);
    var len := ZerosAt(groups, start);
    if len > 1 then Join(":", GroupTexts(groups[..start])) + "::" + Join(":", GroupTexts(groups[start + len..]))
    else Join(":", GroupTexts(groups))
  }

  function GroupTexts(groups: seq<int>): (r: seq<string>)
    requires forall i :: 0 <= i < |groups| ==> 0 <= groups[i] <= 0xFFFF
  {
    seq(|groups|, i requires 0 <= i < |groups| => HexText(groups[i]))
  }

  const LOWER_HEX: string := "0123456789abcdef"

  /** `n` in lower-case hexadecimal with no leading zero. */
  function HexText(n: nat): (r: string)
    ensures |r| >= 1 && forall i :: 0 <= i < |r| ==> IsLowerHex(r[i])
    ensures r[0] == '0' ==> r == "0"
  {
    if n < 16 then [LOWER_HEX[n]] else HexText(n / 16) + [LOWER_HEX[n % 16]]
  }

  /** The value of one lower-case hexadecimal digit. */
  function HexDigitValue(c: char): nat
    requires IsLowerHex(c)
  {
    if '0' <= c <= '9' then c as int - '0' as int else c as int - 'a' as int + 10
  }

  /** The value of lower-case hexadecimal text, as `int(s, 16)` reads it. */
  function HexValue(s: string): nat
    requires forall i :: 0 <= i < |s| ==> IsLowerHex(s[i])
  {
    if s == [] then 0 else HexValue(s[..|s| - 1]) * 16 + HexDigitValue(s[|s| - 1])
  }

  lemma LowerHexDigit(k: nat)
    requires k < 16
    ensures HexDigitValue(LOWER_HEX[k]) == k
  {
  }

  /** Reading a group's text back as hexadecimal gives the group. */
  lemma {:induction false} HexRoundTrip(n: nat)
    ensures HexValue(HexText(n)) == n
  {
    var r := HexText(n);
    LowerHexDigit(n % 16);
    if n >= 16 {
      assert r[..|r| - 1] == HexText(n / 16);
      HexRoundTrip(n / 16);
    }
  }

  /** The number of zero groups in the run that starts at position `s`. */
  function ZerosAt(groups: seq<int>, s: nat): (n: nat)
    requires s <= |groups|
    ensures s + n <= |groups|
    ensures forall i :: s <= i < s + n ==> groups[i] == 0
    ensures s + n < |groups| ==> groups[s + n] != 0
    decreases |groups| - s
  {
    if s == |groups| || groups[s] != 0 then 0 else 1 + ZerosAt(groups, s + 1)
  }

  /** The first position at or after `s` where a longest run of zero groups
      starts. */
  function LongestZeroRun(groups: seq<int>, s: nat): (b: nat)
    requires s <= |groups|
    ensures s <= b <= |groups|
    decreases |groups| - s
  {
    if s == |groups| then s
    else
      var b := LongestZeroRun(groups, s + 1);
      if ZerosAt(groups, s) >= ZerosAt(groups, b) then s else b
  }

  /** The run `::` replaces is a longest one, and no earlier run is as long:
      every run starting at `t` is at most as long, and strictly shorter when
      it starts before the chosen one. */
  lemma {:induction false} FirstLongestZeroRun(groups: seq<int>, s: nat, t: nat)
    requires s <= t <= |groups|
    ensures var b := LongestZeroRun(groups, s);
            ZerosAt(groups, t) <= ZerosAt(groups, b) && (t < b ==> ZerosAt(groups, t) < ZerosAt(groups, b))
    decreases |groups| - s
  {
    if s < |groups| {
      var b, next := LongestZeroRun(groups, s), LongestZeroRun(groups, s + 1);
      var here, best := ZerosAt(groups, s), ZerosAt(groups, next);
      assert b == if here >= best then s else next;
      if t > s {
        FirstLongestZeroRun(groups, s + 1, t);
      }
      LongerRunWins(here, best, ZerosAt(groups, b), ZerosAt(groups, t), s, t, b, next);
    }
  }

  /** One step of the search for the longest run: the run at `s` is kept
      when it is at least as long as the best one after it. */
  lemma LongerRunWins(here: nat, best: nat, chosen: nat, zt: nat, s: nat, t: nat, b: nat, next: nat)
    requires s <= t && s < next && b == (if here >= best then s else next)
    requires chosen == if here >= best then here else best
    requires t == s ==> zt == here
    requires t > s ==> zt <= best && (t < next ==> zt < best)
    ensures zt <= chosen && (t < b ==> zt < chosen)
  {
  }

  /** The host go-cqhttp connects to: 127.0.0.1 for a loopback or
      unspecified driver address, the driver address itself otherwise. */
  function ConnectHost(h: Host): (r: string)
    requires h.Valid()
    ensures h.IsLoopback() || h.IsUnspecified() ==> r == "127.0.0.1"
    ensures !h.IsLoopback() && !h.IsUnspecified() ==> r == h.Text()
  {
    if h.IsLoopback() || h.IsUnspecified() then "127.0.0.1" else h.Text()
  }

  /** `ws://{host}:{port}/onebot/v11/ws`. */
  function ServerAddress(host: string, port: int): (r: string)
    ensures |r| == 5 + |host| + 1 + |IntToDecimal(port)| + 14
    ensures r[..5] == "ws://" && r[5..5 + |host|] == host && r[5 + |host|] == ':'
    ensures r[6 + |host|..|r| - 14] == IntToDecimal(port) && r[|r| - 14..] == "/onebot/v11/ws"
  {
    "ws://" + host + ":" + IntToDecimal(port) + "/onebot/v11/ws"
  }

  /** The data handed to the template renderer. */
  datatype RenderData = RenderData(account: AccountConfig, serverAddress: string, accessToken: string)

  /** The outcome of decoding `device.json`: malformed JSON with the
      decoder's error text, JSON that does not validate as a device record,
      or a record. */
  datatype DeviceDecoding = JsonError(text: string) | Invalid | Decoded(info: DeviceInfo)

  /** The JSON writer and reader of device records. */
  datatype DeviceCodec = DeviceCodec(encode: DeviceInfo -> string, decode: string -> DeviceDecoding)

  /** A codec that reads back every valid record it writes, and whose
      reader, like the record model's validation, yields valid records only. */
  ghost predicate RoundTrips(c: DeviceCodec) {
    && (forall d :: Valid(d) ==> c.decode(c.encode(d)) == Decoded(d))
    && (forall t :: c.decode(t).Decoded? ==> Valid(c.decode(t).info))
  }

  /** Everything outside the account directory the helpers depend on. */
  datatype Environment = Environment(
    templateText: string,                     // the bundled configuration template
    host: Host, port: int,                    // the driver's address
    accessToken: Option<string>,              // the OneBot access token, if set
    render: (string, RenderData) -> string,   // the template renderer
    codec: DeviceCodec,
    prng: Prng, builds: seq<AndroidBuild>, devices: seq<AndroidDevice>,
    md5Hex: string -> string,
    randomDevice: (int, AccountProtocol) -> DeviceInfo)  // `random_device`, drawn from the four above
  {
    /** What the helpers rely on: a valid address, non-empty device tables,
        and a `random_device` whose records are valid and carry the
        requested protocol. */
    ghost predicate Valid() {
      && host.Valid() && |builds| > 0 && |devices| > 0
      && forall uin, protocol ::
           DeviceModels.Valid(randomDevice(uin, protocol)) && randomDevice(uin, protocol).protocol == protocol
    }

    /** `random_device` is the generator run on the four sources above. */
    ghost predicate Drawn()
      requires |builds| > 0 && |devices| > 0
    {
      forall uin, protocol {:trigger RandomDevice(uin, protocol, prng, builds, devices, md5Hex)} ::
        randomDevice(uin, protocol) == RandomDevice(uin, protocol, prng, builds, devices, md5Hex)
    }

    /** The render data for one account. */
    function Data(account: AccountConfig): (d: RenderData)
      requires Valid()
      ensures d.account == account
      ensures d.serverAddress == ServerAddress(ConnectHost(host), port)
      ensures d.accessToken == (if accessToken.Some? then accessToken.value else "")
    {
      RenderData(account, ServerAddress(ConnectHost(host), port), accessToken.GetOr(""))
    }
  }

  /** An environment whose `random_device` is the generator meets what the
      helpers rely on once its address is valid and its tables are not
      empty. */
  lemma DrawnIsValid(env: Environment)
    requires env.host.Valid() && |env.builds| > 0 && |env.devices| > 0 && env.Drawn()
    ensures env.Valid()
  {
    forall uin, protocol
      ensures DeviceModels.Valid(env.randomDevice(uin, protocol)) && env.randomDevice(uin, protocol).protocol == protocol
    {
      assert env.randomDevice(uin, protocol) == RandomDevice(uin, protocol, env.prng, env.builds, env.devices, env.md5Hex);
    }
  }

  /** `AccountConfigHelper`: `config.yml` and `config-template.yml`. */
  datatype AccountConfigHelper = AccountConfigHelper(account: AccountConfig) {
    function TemplatePath(): Path { AccountFile(account.uin, TEMPLATE_FILE_NAME) }
    function ConfigPath(): Path { AccountFile(account.uin, CONFIG_FILE_NAME) }

    /** Both the configuration and its template are files. */
    predicate Exists(fs: FileSystem)
      reads fs
    {
      fs.IsFile(ConfigPath()) && fs.IsFile(TemplatePath())
    }

    /** The account's template text. */
    function Read(fs: FileSystem): Result<string>
      reads fs
    {
      fs.ReadText(TemplatePath())
    }

    /** Overwrites the account's template. */
    method Write(fs: FileSystem, content: string) returns (n: int)
      modifies fs
      ensures fs.files == old(fs.files)[TemplatePath() := Text(content)]
      ensures n == |content|
    {
      n := fs.WriteText(TemplatePath(), content);
    }

    /** Copies the bundled template over the account's template and nothing
        else: `config.yml` is not written. */
    method Generate(fs: FileSystem, env: Environment) returns (n: int)
      modifies fs
      ensures fs.files == old(fs.files)[TemplatePath() := Text(env.templateText)]
      ensures ConfigPath() in fs.files <==> ConfigPath() in old(fs.files)
    {
      n := fs.WriteText(TemplatePath(), env.templateText);
    }

    /** Renders the account's template into `config.yml`; the template is
        left as it is. */
    method BeforeRun(fs: FileSystem, env: Environment) returns (r: Result<int>)
      requires env.Valid()
      modifies fs
      ensures old(Read(fs)).Err? ==> r == Err(old(Read(fs)).failure) && fs.files == old(fs.files)
      ensures old(Read(fs)).Ok? ==>
                && r.Ok?
                && fs.files == old(fs.files)[ConfigPath() := Text(env.render(old(Read(fs)).value, env.Data(account)))]
    {
      var template := Read(fs);
      if template.Err? {
        return Err(template.failure);
      }
      var rendered := env.render(template.value, env.Data(account));
      var n := fs.WriteText(ConfigPath(), rendered);
      r := Ok(n);
    }
  }

  /** Right after `Generate` the helper still reports missing unless
      `config.yml` was already there. */
  lemma GenerateKeepsConfigMissing(h: AccountConfigHelper, files: map<Path, Content>, template: string)
    requires h.ConfigPath() !in files
    ensures h.ConfigPath() !in files[h.TemplatePath() := Text(template)]
  {
  }

  /** `BadConfigFormat(BadConfigFormat.message + str(e))`. */
  function MalformedDevice(decoderText: string): (f: Failure)
    ensures f.Plugin? && f.error.kind == BadConfigFormat && f.error.code == 400
    ensures f.error.message == ClassMessage(BadConfigFormat) + decoderText
  {
    Plugin(Raise(BadConfigFormat, Some(ClassMessage(BadConfigFormat) + decoderText), None, []))
  }

  /** Validating the text of `device.json`: a read failure is passed on,
      malformed JSON is a `BadConfigFormat` carrying the decoder's text, and
      a record that does not validate is a validation error. */
  function DecodeDevice(text: Result<string>, codec: DeviceCodec): (r: Result<DeviceInfo>)
    ensures text.Err? ==> r == Err(text.failure)
    ensures text.Ok? ==>
              match codec.decode(text.value)
              case JsonError(t) => r == Err(MalformedDevice(t))
              case Invalid => r == Err(ValidationError)
              case Decoded(d) => r == Ok(d)
  {
    if text.Err? then Err(text.failure)
    else match codec.decode(text.value)
      case JsonError(t) => Err(MalformedDevice(t))
      case Invalid => Err(ValidationError)
      case Decoded(d) => Ok(d)
  }

  /** `AccountDeviceHelper`: `device.json`. */
  datatype AccountDeviceHelper = AccountDeviceHelper(account: AccountConfig) {
    function DevicePath(): Path { AccountFile(account.uin, DEVICE_FILE_NAME) }

    predicate Exists(fs: FileSystem)
      reads fs
    {
      fs.IsFile(DevicePath())
    }

    /** Reads and validates the device record. */
    function Read(fs: FileSystem, codec: DeviceCodec): Result<DeviceInfo>
      reads fs
    {
      DecodeDevice(fs.ReadText(DevicePath()), codec)
    }

    /** Writes the record as JSON. */
    method Write(fs: FileSystem, codec: DeviceCodec, d: DeviceInfo) returns (n: int)
      modifies fs
      ensures fs.files == old(fs.files)[DevicePath() := Text(codec.encode(d))]
    {
      n := fs.WriteText(DevicePath(), codec.encode(d));
    }

    /** Writes a freshly generated record for the account. */
    method Generate(fs: FileSystem, env: Environment) returns (n: int)
      requires env.Valid()
      modifies fs
      ensures fs.files == old(fs.files)[DevicePath() := Text(env.codec.encode(Generated(env)))]
    {
      n := Write(fs, env.codec, Generated(env));
    }

    /** The record `random_device` gives this account. */
    function Generated(env: Environment): (d: DeviceInfo)
      requires env.Valid()
      ensures Valid(d) && d.protocol == account.protocol
    {
      env.randomDevice(account.uin, account.protocol)
    }

    /** The record is the generator's output for the account. */
    lemma GeneratedIsRandom(env: Environment)
      requires env.Valid() && env.Drawn()
      ensures Generated(env) == RandomDevice(account.uin, account.protocol, env.prng, env.builds, env.devices, env.md5Hex)
    {
    }

    /** Rewrites the record with the account's protocol; every other field
        is written back unchanged. */
    method BeforeRun(fs: FileSystem, codec: DeviceCodec) returns (r: Result<int>)
      modifies fs
      ensures old(Read(fs, codec)).Err? ==> r == Err(old(Read(fs, codec)).failure) && fs.files == old(fs.files)
      ensures old(Read(fs, codec)).Ok? ==>
                && r.Ok?
                && fs.files == old(fs.files)[DevicePath() := Text(codec.encode(WithProtocol(old(Read(fs, codec)).value, account.protocol)))]
    {
      var content := Read(fs, codec);
      if content.Err? {
        return Err(content.failure);
      }
      var n := Write(fs, codec, WithProtocol(content.value, account.protocol));
      r := Ok(n);
    }
  }

  /** A record with its protocol replaced. */
  function WithProtocol(d: DeviceInfo, p: AccountProtocol): (e: DeviceInfo)
    ensures e.protocol == p
    ensures ShortOf(e) == ShortOf(d).(protocol := p)
    ensures e.(protocol := d.protocol) == d
  {
    d.(protocol := p)
  }

  /** With a codec that reads back what it writes, the record read after
      `BeforeRun` is the record read before it with only the protocol
      changed. */
  lemma DeviceBeforeRunReadsBack(h: AccountDeviceHelper, files: map<Path, Content>, codec: DeviceCodec, d: DeviceInfo)
    requires RoundTrips(codec) && Valid(d)
    ensures var after := files[h.DevicePath() := Text(codec.encode(WithProtocol(d, h.account.protocol)))];
            && h.DevicePath() in after
            && after[h.DevicePath()].Text?
            && codec.decode(after[h.DevicePath()].text) == Decoded(WithProtocol(d, h.account.protocol))
  {
    var e := WithProtocol(d, h.account.protocol);
    assert ShortOf(e) == ShortOf(d).(protocol := h.account.protocol);
    assert Valid(e);
  }

  /** `SessionTokenHelper`: `session.token`. */
  datatype SessionTokenHelper = SessionTokenHelper(account: AccountConfig) {
    function SessionPath(): Path { AccountFile(account.uin, SESSION_FILE_NAME) }

    predicate Exists(fs: FileSystem)
      reads fs
    {
      fs.IsFile(SessionPath())
    }

    function Read(fs: FileSystem): Result<seq<bv8>>
      reads fs
    {
      fs.ReadBytes(SessionPath())
    }

    /** Stores the token; reading it back gives the same bytes. */
    method Write(fs: FileSystem, content: seq<bv8>) returns (n: int)
      modifies fs
      ensures fs.files == old(fs.files)[SessionPath() := Binary(content)]
      ensures Exists(fs) && Read(fs) == Ok(content)
      ensures n == |content|
    {
      n := fs.WriteBytes(SessionPath(), content);
    }

    /** Removes the token; a missing token is a file-not-found error. */
    method Delete(fs: FileSystem) returns (r: Result<()>)
      modifies fs
      ensures !Exists(fs)
      ensures old(Exists(fs)) <==> r.Ok?
      ensures fs.files == old(fs.files) - {SessionPath()}
    {
      r := fs.Unlink(SessionPath());
    }
  }

  /** The files of different accounts, and the different files of one
      account, never share a path. */
  lemma PathsAreDistinct(a: AccountConfig, b: AccountConfig)
    ensures a.uin != b.uin ==> AccountConfigHelper(a).ConfigPath() != AccountConfigHelper(b).ConfigPath()
    ensures AccountConfigHelper(a).ConfigPath() != AccountConfigHelper(a).TemplatePath()
    ensures AccountDeviceHelper(a).DevicePath() != AccountConfigHelper(a).TemplatePath()
    ensures AccountDeviceHelper(a).DevicePath() != AccountConfigHelper(a).ConfigPath()
    ensures SessionTokenHelper(a).SessionPath() != AccountDeviceHelper(a).DevicePath()
  {
    assert CONFIG_FILE_NAME[0] != TEMPLATE_FILE_NAME[7];
    assert CONFIG_FILE_NAME[0] == 'c' && TEMPLATE_FILE_NAME[6] == '-' && CONFIG_FILE_NAME[6] == '.';
    assert DEVICE_FILE_NAME[0] == 'd' && SESSION_FILE_NAME[0] == 's';
  }
}
