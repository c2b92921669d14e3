/** Fetching the go-cqhttp release archive: the mirror URL, the choice of the
    fastest mirror from probe latencies, the streamed byte count and digest,
    and the ordered integrity checks. The network, the clock, the digest
    function and the archive unpacker are parameters. */
module Download {
  import opened Wrappers
  import opened Exceptions
  import opened Strings
  import opened Platform

  /** The `DOWNLOAD_*` plugin settings. */
  datatype DownloadConfig = DownloadConfig(
    url: Option<string>,       // DOWNLOAD_URL, an override
    repo: string,              // DOWNLOAD_REPO
    version: Option<string>,   // DOWNLOAD_VERSION
    domains: seq<string>)      // DOWNLOAD_DOMAINS

  /** `"go-cqhttp" + EXECUTABLE_EXT`, the file name of `BINARY_PATH`. */
  function BinaryName(target: Target): (name: string)
    ensures |name| >= 9 && name[..9] == "go-cqhttp"
    ensures |name| > 9 <==> target.goos == "windows"
  {
    "go-cqhttp" + ExecutableExt(target.goos)
  }

  /** The release asset for the target, `go-cqhttp_{GOOS}_{GOARCH}{ARCHIVE_EXT}`. */
  function AssetName(target: Target): string {
    "go-cqhttp_" + target.goos + "_" + target.goarch + ArchiveExt(target.goos)
  }

  /** The release path: a pinned version when one is set, the latest release
      otherwise. */
  function ReleasePath(config: DownloadConfig): string {
    if TruthyText(config.version) then "download/" + config.version.value + "/"
    else "latest/download/"
  }

  /** The part of a mirror URL between the domain's `/` and the asset name:
      `{repo}/releases/` and the release path. */
  function Route(config: DownloadConfig): string {
    config.repo + "/releases/" + ReleasePath(config)
  }

  /** What follows the domain in a mirror URL. */
  function UrlTail(config: DownloadConfig, target: Target): string {
    "/" + Route(config) + AssetName(target)
  }

  /** An `https` URL on `domain`. */
  function MirrorUrl(domain: string, tail: string): string {
    "https://" + domain + tail
  }

  /** `construct_download_url(domain)`. */
  function ConstructDownloadUrl(config: DownloadConfig, target: Target, domain: string): (url: string)
    ensures TruthyText(config.url) ==> url == config.url.value
    ensures !TruthyText(config.url) ==> url == MirrorUrl(domain, UrlTail(config, target))
  {
    if TruthyText(config.url) then config.url.value
    else MirrorUrl(domain, UrlTail(config, target))
  }

  /** An override is returned whatever the domain. */
  lemma OverrideIgnoresDomain(config: DownloadConfig, target: Target, d1: string, d2: string)
    requires TruthyText(config.url)
    ensures ConstructDownloadUrl(config, target, d1) == ConstructDownloadUrl(config, target, d2) == config.url.value
  {
  }

  /** A concatenation sliced at its seam gives back its two parts. */
  lemma Seam(a: string, b: string)
    ensures (a + b)[..|a|] == a && (a + b)[|a|..] == b
  {
  }

  /** The last `n` characters of a concatenation come from its right part
      when that part is long enough. */
  lemma {:induction false} TailOf(a: string, b: string, n: nat)
    requires n <= |b|
    ensures (a + b)[|a + b| - n..] == b[|b| - n..]
  {
    Seam(a, b);
    assert (a + b)[|a + b| - n..] == (a + b)[|a|..][|b| - n..];
  }

  /** Concatenation regrouped. */
  lemma Regroup(a: string, b: string, c: string)
    ensures a + (b + c) == (a + b) + c
  {
  }

  /** Without an override the URL is an `https` URL on the domain followed by
      `/`, and it ends with the asset name. */
  lemma MirrorUrlShape(config: DownloadConfig, target: Target, domain: string)
    requires !TruthyText(config.url)
    ensures var url := ConstructDownloadUrl(config, target, domain);
            && url[..8 + |domain|] == "https://" + domain
            && url[8 + |domain|] == '/'
            && url[|url| - |AssetName(target)|..] == AssetName(target)
  {
    var url := ConstructDownloadUrl(config, target, domain);
    var head, slash, route, asset := "https://" + domain, "/", Route(config), AssetName(target);
    assert url == head + (slash + route + asset);
    Seam(head, slash + route + asset);
    Regroup(head, slash + route, asset);
    TailOf(head + (slash + route), asset, |asset|);
  }

  /** The asset is a `.zip` archive exactly on Windows (a `.tar.gz`
      elsewhere). */
  lemma {:induction false} AssetIsZipOnlyOnWindows(target: Target)
    ensures var asset := AssetName(target);
            |asset| >= 4 && (asset[|asset| - 4..] == ".zip" <==> target.goos == "windows")
  {
    var name, ext := "go-cqhttp_" + target.goos + "_" + target.goarch, ArchiveExt(target.goos);
    TailOf(name, ext, 4);
    if target.goos != "windows" {
      assert ext[|ext| - 4..] == "r.gz";
    }
  }

  /** Without an override the URL ends in `.zip` exactly on Windows. */
  lemma {:induction false} MirrorUrlIsZipOnlyOnWindows(config: DownloadConfig, target: Target, domain: string)
    requires !TruthyText(config.url)
    ensures var url := ConstructDownloadUrl(config, target, domain);
            |url| >= 4 && (url[|url| - 4..] == ".zip" <==> target.goos == "windows")
  {
    var url := ConstructDownloadUrl(config, target, domain);
    var asset := AssetName(target);
    MirrorUrlShape(config, target, domain);
    AssetIsZipOnlyOnWindows(target);
    assert url[|url| - 4..] == url[|url| - |asset|..][|asset| - 4..];
  }

  /** Without an override, different domains give different URLs, so the
      URL the selection returns names one mirror. */
  lemma {:induction false} MirrorUrlNamesItsDomain(config: DownloadConfig, target: Target, d1: string, d2: string)
    requires !TruthyText(config.url)
    requires ConstructDownloadUrl(config, target, d1) == ConstructDownloadUrl(config, target, d2)
    ensures d1 == d2
  {
    var scheme, tail := "https://", UrlTail(config, target);
    assert |d1| == |d2|;
    Seam(scheme + d1, tail);
    Seam(scheme + d2, tail);
    Seam(scheme, d1);
    Seam(scheme, d2);
  }

  // ---------------------------------------------------------------------
  // Mirror selection

  /** The latency probe of one domain: `None` when the `HEAD` request raised,
      otherwise the measured latency. */
  type Probe = Option<int>

  /** The probe the selection loop settles on after seeing `probes`, in list
      order: a later probe replaces the current one only when it succeeded
      and is strictly faster. */
  function Fastest(probes: seq<Probe>): (k: Option<nat>)
    ensures k.Some? ==> k.value < |probes| && probes[k.value].Some?
  {
    if probes == [] then None
    else
      var k := Fastest(probes[..|probes| - 1]);
      var last := probes[|probes| - 1];
      if last.Some? && (k.None? || last.value < probes[k.value].value) then Some(|probes| - 1)
      else k
  }

  /** Probe `k` succeeded with the smallest latency of all successful probes,
      and every earlier successful probe was strictly slower. */
  predicate EarliestFastest(probes: seq<Probe>, k: nat) {
    && k < |probes| && probes[k].Some?
    && (forall j :: 0 <= j < |probes| && probes[j].Some? ==> probes[k].value <= probes[j].value)
    && (forall j :: 0 <= j < k && probes[j].Some? ==> probes[k].value < probes[j].value)
  }

  /** The loop's choice is the earliest probe with the smallest latency, and
      there is no choice exactly when every probe failed. */
  lemma {:induction false} FastestIsEarliestMinimum(probes: seq<Probe>)
    ensures Fastest(probes).None? <==> forall j :: 0 <= j < |probes| ==> probes[j].None?
    ensures Fastest(probes).Some? ==> EarliestFastest(probes, Fastest(probes).value)
  {
    if probes != [] {
      var init := probes[..|probes| - 1];
      FastestIsEarliestMinimum(init);
      forall j | 0 <= j < |init| ensures init[j] == probes[j] { }
    }
  }

  /** At most one probe is the earliest fastest one. */
  lemma EarliestFastestIsUnique(probes: seq<Probe>, k1: nat, k2: nat)
    requires EarliestFastest(probes, k1) && EarliestFastest(probes, k2)
    ensures k1 == k2
  {
  }

  /** What `get_fastest_mirror` decides once it has probed every domain:
      the fastest mirror's URL, unless nothing answered or the fastest
      latency is zero, which the truthiness assertion also rejects. */
  function Selected(config: DownloadConfig, target: Target, probes: seq<Probe>): (r: Result<string>)
    requires |probes| == |config.domains|
  {
    match Fastest(probes)
    case None => Err(AssertionError("No download domain available."))
    case Some(k) =>
      if probes[k].value == 0 then Err(AssertionError("No download domain available."))
      else Ok(ConstructDownloadUrl(config, target, config.domains[k]))
  }

  /** The selection returns a mirror exactly when some probe is the earliest
      fastest one with a non-zero latency, and then it is that probe's URL. */
  lemma SelectedIsEarliestFastest(config: DownloadConfig, target: Target, probes: seq<Probe>)
    requires |probes| == |config.domains|
    ensures Selected(config, target, probes).Ok? <==>
              exists k: nat :: EarliestFastest(probes, k) && probes[k].value != 0
    ensures forall k: nat :: EarliestFastest(probes, k) && probes[k].value != 0 ==>
              Selected(config, target, probes) == Ok(ConstructDownloadUrl(config, target, config.domains[k]))
  {
    FastestIsEarliestMinimum(probes);
    match Fastest(probes)
    case None =>
    case Some(k) => assert EarliestFastest(probes, k);
    forall k: nat | EarliestFastest(probes, k)
      ensures Fastest(probes) == Some(k)
    {
      EarliestFastestIsFastest(probes, k);
    }
  }

  /** The earliest fastest probe is the loop's choice. */
  lemma EarliestFastestIsFastest(probes: seq<Probe>, k: nat)
    requires EarliestFastest(probes, k)
    ensures Fastest(probes) == Some(k)
  {
    FastestIsEarliestMinimum(probes);
    assert probes[k].Some?;
    EarliestFastestIsUnique(probes, k, Fastest(probes).value);
  }

  /** When latencies are never negative, a zero latency among the answers
      makes the selection fail even though a mirror answered. */
  lemma ZeroLatencyIsRejected(config: DownloadConfig, target: Target, probes: seq<Probe>, z: nat)
    requires |probes| == |config.domains|
    requires forall j :: 0 <= j < |probes| && probes[j].Some? ==> probes[j].value >= 0
    requires z < |probes| && probes[z] == Some(0)
    ensures Selected(config, target, probes) == Err(AssertionError("No download domain available."))
  {
    FastestIsEarliestMinimum(probes);
  }

  /** One more probe: the loop's choice after `i + 1` probes in terms of its
      choice after `i`. */
  lemma FastestStep(probes: seq<Probe>, i: nat)
    requires i < |probes|
    ensures var k := Fastest(probes[..i]);
            Fastest(probes[..i + 1]) ==
              if probes[i].Some? && (k.None? || probes[i].value < probes[k.value].value) then Some(i)
              else k
  {
    assert probes[..i + 1][..i] == probes[..i];
  }

  /** `get_fastest_mirror`: the override when set, otherwise the fastest
      domain among the probes, one probe per configured domain in list
      order. */
  method GetFastestMirror(config: DownloadConfig, target: Target, probes: seq<Probe>) returns (r: Result<string>)
    requires |probes| == |config.domains|
    ensures TruthyText(config.url) ==> r == Ok(config.url.value)
    ensures !TruthyText(config.url) && config.domains == [] ==>
              r == Err(AssertionError("No download domain specified."))
    ensures !TruthyText(config.url) && config.domains != [] ==> r == Selected(config, target, probes)
  {
    if TruthyText(config.url) {
      return Ok(config.url.value);
    }
    if config.domains == [] {
      return Err(AssertionError("No download domain specified."));
    }
    var lowest: Option<int> := None;
    var fastest: Option<string> := None;
    var i := 0;
    while i < |probes|
      invariant i <= |probes|
      invariant lowest.None? <==> Fastest(probes[..i]).None?
      invariant fastest.None? <==> Fastest(probes[..i]).None?
      invariant Fastest(probes[..i]).Some? ==>
                  var k := Fastest(probes[..i]).value;
                  && lowest == probes[k]
                  && fastest == Some(ConstructDownloadUrl(config, target, config.domains[k]))
    {
      FastestStep(probes, i);
      if probes[i].Some? {
        if lowest.None? || probes[i].value < lowest.value {
          fastest := Some(ConstructDownloadUrl(config, target, config.domains[i]));
          lowest := probes[i];
        }
      }
      i := i + 1;
    }
    assert probes[..i] == probes;
    if lowest.None? || lowest.value == 0 || fastest.None? || fastest.value == "" {
      if fastest.Some? {
        assert fastest.value[..8] == "https://";
      }
      return Err(AssertionError("No download domain available."));
    }
    return Ok(fastest.value);
  }

  // ---------------------------------------------------------------------
  // Streaming and integrity checks

  /** One chunk of the response body and the byte count `file.write`
      reported for it. */
  datatype Chunk = Chunk(bytes: seq<bv8>, written: int)

  /** The streamed `GET` response: its `Content-Length` and decoded
      `Content-MD5` headers and its body chunks. */
  datatype Response = Response(contentLength: int, contentMd5: string, chunks: seq<Chunk>)

  /** The sum of the reported write counts. */
  function WrittenTotal(chunks: seq<Chunk>): int {
    if chunks == [] then 0 else WrittenTotal(chunks[..|chunks| - 1]) + chunks[|chunks| - 1].written
  }

  /** The body bytes in order, as the hasher sees them. */
  function Body(chunks: seq<Chunk>): seq<bv8> {
    if chunks == [] then [] else Body(chunks[..|chunks| - 1]) + chunks[|chunks| - 1].bytes
  }

  /** When every write reports the whole chunk, the counted size is the body
      length. */
  lemma {:induction false} CompleteWritesCountTheBody(chunks: seq<Chunk>)
    requires forall i :: 0 <= i < |chunks| ==> chunks[i].written == |chunks[i].bytes|
    ensures WrittenTotal(chunks) == |Body(chunks)|
  {
    if chunks != [] {
      CompleteWritesCountTheBody(chunks[..|chunks| - 1]);
    }
  }

  /** The `async for` loop of `download_gocq`: `downloaded_size` adds up the
      write counts and the hasher is fed every chunk in order. */
  method StreamToFile(chunks: seq<Chunk>) returns (downloaded: int, hashed: seq<bv8>)
    ensures downloaded == WrittenTotal(chunks)
    ensures hashed == Body(chunks)
  {
    downloaded, hashed := 0, [];
    for i := 0 to |chunks|
      invariant downloaded == WrittenTotal(chunks[..i])
      invariant hashed == Body(chunks[..i])
    {
      assert chunks[..i + 1][..i] == chunks[..i];
      downloaded := downloaded + chunks[i].written;
      hashed := hashed + chunks[i].bytes;
    }
    assert chunks[..|chunks|] == chunks;
  }

  /** `f"{x=}"` for a hexadecimal digest: the name, `=`, and the quoted
      value. */
  function ShowHex(name: string, value: string): string {
    name + "='" + value + "'"
  }

  /** The three checks after the download, in order; the first that fails
      is the one reported. */
  function CheckIntegrity(downloaded: int, total: int, fileSize: int,
                          actualMd5: string, contentMd5: string): (r: Result<()>)
    ensures r.Ok? <==> downloaded == total && fileSize == total && actualMd5 == contentMd5
    ensures downloaded != total ==>
              r == Err(RuntimeError("Downloaded size mismatch: " + IntToDecimal(downloaded) + "/"
                                    + IntToDecimal(total) + " bytes"))
    ensures downloaded == total && fileSize != total ==>
              r == Err(RuntimeError("Downloaded file size mismatch: " + IntToDecimal(fileSize) + "/"
                                    + IntToDecimal(total) + " bytes"))
    ensures downloaded == total && fileSize == total && actualMd5 != contentMd5 ==>
              r == Err(RuntimeError("Downloaded file md5 mismatch: " + ShowHex("actual_md5", actualMd5)
                                    + " " + ShowHex("content_md5", contentMd5)))
  {
    if downloaded != total then
      Err(RuntimeError("Downloaded size mismatch: " + IntToDecimal(downloaded) + "/"
                       + IntToDecimal(total) + " bytes"))
    else if fileSize != total then
      Err(RuntimeError("Downloaded file size mismatch: " + IntToDecimal(fileSize) + "/"
                       + IntToDecimal(total) + " bytes"))
    else if actualMd5 != contentMd5 then
      Err(RuntimeError("Downloaded file md5 mismatch: " + ShowHex("actual_md5", actualMd5)
                       + " " + ShowHex("content_md5", contentMd5)))
    else Ok(())
  }

  /** A failing earlier check hides the later ones: once the streamed size
      is wrong, the file size and the digests do not change the report, and
      once the file size is wrong, the digests do not. */
  lemma FirstFailingCheckWins(downloaded: int, total: int, f1: int, f2: int,
                              a1: string, a2: string, c1: string, c2: string)
    ensures downloaded != total ==>
              CheckIntegrity(downloaded, total, f1, a1, c1) == CheckIntegrity(downloaded, total, f2, a2, c2)
    ensures f1 != total ==>
              CheckIntegrity(downloaded, total, f1, a1, c1) == CheckIntegrity(downloaded, total, f1, a2, c2)
  {
  }

  /** `download_gocq` up to the verified archive. `probes` holds one latency
      probe per configured domain, `fetch` the streamed response for a URL
      or the error raised for it, `fileSize` the size `stat` reports for the
      written file and `md5Hex` the hexadecimal MD5 digest. */
  method DownloadGocq(config: DownloadConfig, target: Target, probes: seq<Probe>,
                      fetch: string -> Result<Response>, fileSize: int,
                      md5Hex: seq<bv8> -> string) returns (r: Result<()>)
    requires |probes| == |config.domains|
    ensures r == Downloaded(config, target, probes, fetch, fileSize, md5Hex)
  {
    var url := GetFastestMirror(config, target, probes);
    if url.Err? {
      return Err(url.failure);
    }
    var response := fetch(url.value);
    if response.Err? {
      return Err(response.failure);
    }
    var total := response.value.contentLength;
    var contentMd5 := Lower(response.value.contentMd5);
    var downloaded, hashed := StreamToFile(response.value.chunks);
    var actualMd5 := Lower(md5Hex(hashed));
    r := CheckIntegrity(downloaded, total, fileSize, actualMd5, contentMd5);
  }

  /** The mirror `get_fastest_mirror` returns. */
  function MirrorOf(config: DownloadConfig, target: Target, probes: seq<Probe>): Result<string>
    requires |probes| == |config.domains|
  {
    if TruthyText(config.url) then Ok(config.url.value)
    else if config.domains == [] then Err(AssertionError("No download domain specified."))
    else Selected(config, target, probes)
  }

  /** The outcome of `download_gocq` as a function of its inputs. */
  function Downloaded(config: DownloadConfig, target: Target, probes: seq<Probe>,
                      fetch: string -> Result<Response>, fileSize: int,
                      md5Hex: seq<bv8> -> string): Result<()>
    requires |probes| == |config.domains|
  {
    var url := MirrorOf(config, target, probes);
    if url.Err? then Err(url.failure)
    else
      var response := fetch(url.value);
      if response.Err? then Err(response.failure)
      else
        var body := response.value.chunks;
        CheckIntegrity(WrittenTotal(body), response.value.contentLength, fileSize,
                       Lower(md5Hex(Body(body))), Lower(response.value.contentMd5))
  }

  /** A download succeeds only from the selected mirror, when the counted
      bytes, the file on disk and the digest all agree with the headers. */
  lemma DownloadSucceedsOnlyWhenVerified(config: DownloadConfig, target: Target, probes: seq<Probe>,
                                         fetch: string -> Result<Response>, fileSize: int,
                                         md5Hex: seq<bv8> -> string)
    requires |probes| == |config.domains|
    requires Downloaded(config, target, probes, fetch, fileSize, md5Hex).Ok?
    ensures var url := MirrorOf(config, target, probes);
            && url.Ok? && fetch(url.value).Ok?
            && var response := fetch(url.value).value;
            && WrittenTotal(response.chunks) == response.contentLength == fileSize
            && Lower(md5Hex(Body(response.chunks))) == Lower(response.contentMd5)
  {
  }
}
