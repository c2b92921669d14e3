/** The Go build target of the host: `uname` names mapped to Go's `GOOS` and
    `GOARCH`, and the file extensions that follow from `GOOS`. */
module Platform {
  import opened Exceptions

  /** `_SYSTEM_MAP`: the `uname` system name to `GOOS`. */
  const SYSTEM_MAP: map<string, string> :=
    map["Windows" := "windows", "Linux" := "linux", "Darwin" := "darwin"]

  /** `_ARCHITECTURE_MAP`: per system, the machine name to `GOARCH`. Windows
      reports `PROCESSOR_ARCHITECTURE`, the Unix-like systems `uname -m`. */
  const ARCHITECTURE_MAP: map<string, map<string, string>> :=
    map[
      "Windows" := map["AMD64" := "amd64", "X86" := "386", "ARM64" := "arm64"],
      "Linux" := map["x86_64" := "amd64", "i686" := "386", "i386" := "386",
                     "aarch64" := "arm64", "armv7l" := "armv7"],
      "Darwin" := map["x86_64" := "amd64", "arm64" := "arm64"]
    ]

  /** The `(GOOS, GOARCH)` pair. */
  datatype Target = Target(goos: string, goarch: string)

  /** The pairs of `uname` names the tables accept, listed one by one. */
  predicate Supported(system: string, machine: string) {
    || (system == "Windows" && machine in {"AMD64", "X86", "ARM64"})
    || (system == "Linux" && machine in {"x86_64", "i686", "i386", "aarch64", "armv7l"})
    || (system == "Darwin" && machine in {"x86_64", "arm64"})
  }

  /** `_get_platform()` for the host's `uname` system and machine: both
      lookups succeed, or the `KeyError` becomes a `RuntimeError` naming the
      pair. */
  function GetPlatform(system: string, machine: string): (r: Result<Target>)
    ensures r.Ok? <==> Supported(system, machine)
    ensures r.Err? ==> r.failure == RuntimeError("Unsupported platform: " + system + " " + machine)
    ensures r.Ok? ==> r.value.goos in {"windows", "linux", "darwin"}
    ensures r.Ok? ==> r.value.goarch in {"amd64", "386", "arm64", "armv7"}
    ensures r.Ok? && r.value.goarch == "armv7" ==> r.value.goos == "linux"
  {
    if system in SYSTEM_MAP && system in ARCHITECTURE_MAP && machine in ARCHITECTURE_MAP[system] then
      Ok(Target(SYSTEM_MAP[system], ARCHITECTURE_MAP[system][machine]))
    else
      Err(RuntimeError("Unsupported platform: " + system + " " + machine))
  }

  /** The system name alone decides `GOOS`. */
  lemma SystemTable(system: string, machine: string)
    requires GetPlatform(system, machine).Ok?
    ensures system == "Windows" ==> GetPlatform(system, machine).value.goos == "windows"
    ensures system == "Linux" ==> GetPlatform(system, machine).value.goos == "linux"
    ensures system == "Darwin" ==> GetPlatform(system, machine).value.goos == "darwin"
  {
  }

  /** The rows of the architecture table that matter: both 32-bit x86 names
      on Linux give `386`, `armv7l` gives `armv7`, `x86_64` gives `amd64` on
      Linux and Darwin, and the Windows names map to their Go spellings. */
  lemma ArchitectureTable()
    ensures GetPlatform("Linux", "i686") == GetPlatform("Linux", "i386") == Ok(Target("linux", "386"))
    ensures GetPlatform("Linux", "armv7l") == Ok(Target("linux", "armv7"))
    ensures GetPlatform("Linux", "x86_64") == Ok(Target("linux", "amd64"))
    ensures GetPlatform("Darwin", "x86_64") == Ok(Target("darwin", "amd64"))
    ensures GetPlatform("Windows", "AMD64") == Ok(Target("windows", "amd64"))
    ensures GetPlatform("Windows", "X86") == Ok(Target("windows", "386"))
    ensures GetPlatform("Windows", "ARM64") == Ok(Target("windows", "arm64"))
  {
  }

  /** The machine table is keyed by system: a machine name of one system is
      not accepted under another. */
  lemma MachineNamesArePerSystem()
    ensures GetPlatform("Linux", "AMD64").Err? && GetPlatform("Windows", "x86_64").Err?
    ensures GetPlatform("Darwin", "aarch64").Err? && GetPlatform("Linux", "arm64").Err?
  {
  }

  /** `ARCHIVE_EXT`. */
  function ArchiveExt(goos: string): (ext: string)
    ensures ext == ".zip" <==> goos == "windows"
    ensures goos != "windows" ==> ext == ".tar.gz"
  {
    if goos == "windows" then ".zip" else ".tar.gz"
  }

  /** `EXECUTABLE_EXT`. */
  function ExecutableExt(goos: string): (ext: string)
    ensures ext == ".exe" <==> goos == "windows"
    ensures goos != "windows" ==> ext == ""
  {
    if goos == "windows" then ".exe" else ""
  }
}
