/**
 * The npm package's binary locator (npm/src/getBinary.ts): it picks the
 * release archive of the `loam` CLI for the running platform and hands the
 * download URLs to the `binary-install` package.
 *
 * The operating system's `os.type()` and `os.arch()`, the home directory,
 * the package version and Node's `path.join` are parameters; `process.env`
 * is a field of the class `NodeProcess`, which `getBinary` updates. JavaScript
 * truthiness of an environment value is "set and non-empty".
 */
module NpmBinary {
  import opened Soroban

  const NAME := "loam"

  /** `typeDict`: the Rust target vendor and system of each supported `os.type()`. */
  function RustType(osType: string): (r: Option<string>)
    ensures r.Some? <==> osType in {"Darwin", "Linux", "Windows_NT"}
  {
    if osType == "Darwin" then Some("apple-darwin")
    else if osType == "Linux" then Some("unknown-linux-gnu")
    else if osType == "Windows_NT" then Some("pc-windows-msvc")
    else None
  }

  /** `archDict`: the Rust architecture of each supported `os.arch()`. */
  function RustArch(arch: string): (r: Option<string>)
    ensures r.Some? <==> arch in {"x64", "arm64"}
  {
    if arch == "x64" then Some("x86_64")
    else if arch == "arm64" then Some("aarch64")
    else None
  }

  /** `getPlatform`: the Rust type and architecture, or the error it throws. */
  function GetPlatform(osType: string, arch: string): (r: Result<(string, string), string>)
    ensures r.Ok? <==> osType in {"Darwin", "Linux", "Windows_NT"} && arch in {"x64", "arm64"}
    ensures r.Err? ==> r.error == "Unsupported platform: " + osType + " " + arch
  {
    match (RustType(osType), RustArch(arch))
    case (Some(rustType), Some(rustArch)) => Ok((rustType, rustArch))
    case _ => Err("Unsupported platform: " + osType + " " + arch)
  }

  /** The supported platforms and their Rust target triples. */
  lemma PlatformTable()
    ensures GetPlatform("Darwin", "arm64") == Ok(("apple-darwin", "aarch64"))
    ensures GetPlatform("Darwin", "x64") == Ok(("apple-darwin", "x86_64"))
    ensures GetPlatform("Linux", "x64") == Ok(("unknown-linux-gnu", "x86_64"))
    ensures GetPlatform("Linux", "arm64") == Ok(("unknown-linux-gnu", "aarch64"))
    ensures GetPlatform("Windows_NT", "x64") == Ok(("pc-windows-msvc", "x86_64"))
    ensures GetPlatform("Windows_NT", "arm64") == Ok(("pc-windows-msvc", "aarch64"))
    ensures GetPlatform("Linux", "ia32") == Err("Unsupported platform: Linux ia32")
  {
    assert "Unsupported platform: " + "Linux" + " " + "ia32" == "Unsupported platform: Linux ia32";
  }

  const ReleasePrefix := "https://github.com/loambuild/loam-sdk/releases/download/loam-cli-v"

  /** `GithubUrl`: the release archive of this package's version for the platform. */
  function GithubUrl(osType: string, arch: string, version: string): (r: Result<string, string>)
    ensures r.Err? <==> GetPlatform(osType, arch).Err?
    ensures r.Err? ==> r.error == GetPlatform(osType, arch).error
  {
    var (platform, rustArch) :- GetPlatform(osType, arch);
    Ok(ReleasePrefix + version + "/loam-cli-v" + version + "-" + rustArch + "-" + platform + ".tar.gz")
  }

  /**
   * The release URL is, in order: the project's releases page up to
   * `loam-cli-v`, the version, `/loam-cli-v`, the version again, `-`, the Rust
   * architecture, `-`, the Rust vendor and system, and `.tar.gz`.
   */
  lemma GithubUrlShape(osType: string, arch: string, version: string)
    requires GetPlatform(osType, arch).Ok?
    ensures var (platform, rustArch) := GetPlatform(osType, arch).value;
      var url := GithubUrl(osType, arch, version).value;
      var k := |ReleasePrefix| + |version|;
      var m := k + |"/loam-cli-v"| + |version|;
      var n := m + 1 + |rustArch|;
      && |url| == n + 1 + |platform| + |".tar.gz"|
      && url[..|ReleasePrefix|] == ReleasePrefix
      && url[|ReleasePrefix|..k] == version
      && url[k..k + |"/loam-cli-v"|] == "/loam-cli-v"
      && url[k + |"/loam-cli-v"|..m] == version
      && url[m] == '-' && url[m + 1..n] == rustArch && url[n] == '-'
      && url[n + 1..n + 1 + |platform|] == platform
      && url[n + 1 + |platform|..] == ".tar.gz"
  {
    var (platform, rustArch) := GetPlatform(osType, arch).value;
    assert GithubUrl(osType, arch, version).value
      == ReleasePrefix + version + "/loam-cli-v" + version + "-" + rustArch + "-" + platform + ".tar.gz";
    Slices(ReleasePrefix, version, "/loam-cli-v", "-", rustArch, platform, ".tar.gz");
  }

  /** Where each part of a concatenation of the release URL's form sits. */
  lemma Slices(pre: string, v: string, mid: string, dash: string, a: string, pl: string, ext: string)
    requires |dash| == 1
    ensures var url := pre + v + mid + v + dash + a + dash + pl + ext;
      var k := |pre| + |v|;
      var m := k + |mid| + |v|;
      var n := m + 1 + |a|;
      && |url| == n + 1 + |pl| + |ext|
      && url[..|pre|] == pre && url[|pre|..k] == v
      && url[k..k + |mid|] == mid && url[k + |mid|..m] == v
      && url[m] == dash[0] && url[m + 1..n] == a && url[n] == dash[0]
      && url[n + 1..n + 1 + |pl|] == pl && url[n + 1 + |pl|..] == ext
  {
    var url := pre + v + mid + v + dash + a + dash + pl + ext;
    var k := |pre| + |v|;
    var m := k + |mid| + |v|;
    var n := m + 1 + |a|;
    assert url[..|pre|] == pre;
    assert url[|pre|..k] == v;
    assert url[k..k + |mid|] == mid;
    assert url[k + |mid|..m] == v;
    assert url[m + 1..n] == a;
    assert url[n + 1..n + 1 + |pl|] == pl;
    assert url[n + 1 + |pl|..] == ext;
  }

  /** A JavaScript environment value is truthy when it is set and not empty. */
  predicate Truthy(env: map<string, string>, key: string) {
    key in env && env[key] != ""
  }

  /** The download URLs: `LOAM_ARTIFACT_URL` first when it is set, then the release URL. */
  function Urls(env: map<string, string>, githubUrl: string): (r: seq<string>)
    ensures 1 <= |r| && r[|r| - 1] == githubUrl
    ensures Truthy(env, "LOAM_ARTIFACT_URL") ==> r == [env["LOAM_ARTIFACT_URL"], githubUrl]
    ensures !Truthy(env, "LOAM_ARTIFACT_URL") ==> r == [githubUrl]
  {
    var urls := [githubUrl];
    if Truthy(env, "LOAM_ARTIFACT_URL") then [env["LOAM_ARTIFACT_URL"]] + urls else urls
  }

  /** What `Binary.create` is given: the binary's name and where to download it from. */
  datatype BinarySource = BinarySource(name: string, urls: seq<string>)

  class NodeProcess {
    var env: map<string, string>

    constructor (env: map<string, string>)
      ensures this.env == env
    {
      this.env := env;
    }

    /**
     * `getBinary`: unless `LOAM_BIN_PATH` is set, `LOAM_BINARY_PATH` becomes
     * `~/.loam/loam`, even when the platform then turns out unsupported and
     * the call throws. The variable tested and the variable written are not
     * the same.
     */
    method GetBinary(name: string, osType: string, arch: string, version: string, homedir: string,
                     join: (string, string, string) -> string) returns (r: Result<BinarySource, string>)
      modifies this
      ensures env == if Truthy(old(env), "LOAM_BIN_PATH") then old(env)
                     else old(env)["LOAM_BINARY_PATH" := join(homedir, "." + NAME, NAME)]
      ensures r.Err? <==> GetPlatform(osType, arch).Err?
      ensures r.Err? ==> r.error == "Unsupported platform: " + osType + " " + arch
      ensures r.Ok? ==> r.value == BinarySource(name, Urls(old(env), GithubUrl(osType, arch, version).value))
    {
      if !Truthy(env, "LOAM_BIN_PATH") {
        env := env["LOAM_BINARY_PATH" := join(homedir, "." + NAME, NAME)];
      }
      var fromEnv := Get(env, "LOAM_ARTIFACT_URL");
      var githubUrl := GithubUrl(osType, arch, version);
      if githubUrl.Err? {
        return Err(githubUrl.error);
      }
      var urls := [githubUrl.value];
      if fromEnv.Some? && fromEnv.value != "" {
        urls := [fromEnv.value] + urls;
      }
      r := Ok(BinarySource(name, urls));
    }
  }

  /** The release archive of version 0.1.0 for 64-bit Linux, after the releases-page prefix. */
  lemma ReleaseUrlExample()
    ensures GithubUrl("Linux", "x64", "0.1.0")
      == Ok(ReleasePrefix + "0.1.0/loam-cli-v0.1.0-x86_64-unknown-linux-gnu.tar.gz")
  {
    assert GetPlatform("Linux", "x64") == Ok(("unknown-linux-gnu", "x86_64"));
    var tail := "0.1.0" + "/loam-cli-v" + "0.1.0" + "-" + "x86_64" + "-" + "unknown-linux-gnu" + ".tar.gz";
    ReleaseTailExample();
    assert ReleasePrefix + "0.1.0" + "/loam-cli-v" + "0.1.0" + "-" + "x86_64" + "-" + "unknown-linux-gnu" + ".tar.gz"
      == ReleasePrefix + tail;
  }

  /** The part of that URL after the prefix, assembled piece by piece. */
  lemma ReleaseTailExample()
    ensures "0.1.0" + "/loam-cli-v" + "0.1.0" + "-" + "x86_64" + "-" + "unknown-linux-gnu" + ".tar.gz"
      == "0.1.0/loam-cli-v0.1.0-x86_64-unknown-linux-gnu.tar.gz"
  {
    var tail := "0.1.0" + "/loam-cli-v";
    assert tail == "0.1.0/loam-cli-v";
    tail := tail + "0.1.0" + "-";
    assert tail == "0.1.0/loam-cli-v0.1.0-";
    tail := tail + "x86_64" + "-";
    assert tail == "0.1.0/loam-cli-v0.1.0-x86_64-";
    tail := tail + "unknown-linux-gnu";
    assert tail == "0.1.0/loam-cli-v0.1.0-x86_64-unknown-linux-gnu";
  }

  /**
   * With `LOAM_BIN_PATH` set, nothing is written and `LOAM_ARTIFACT_URL` is
   * tried before the release page.
   */
  method MirrorFirstExample(join: (string, string, string) -> string)
    returns (mirrored: Result<BinarySource, string>, envAfter: map<string, string>)
    ensures mirrored == Ok(BinarySource("loam", ["https://mirror.example/loam.tgz",
      ReleasePrefix + "0.1.0/loam-cli-v0.1.0-x86_64-unknown-linux-gnu.tar.gz"]))
    ensures envAfter == map["LOAM_BIN_PATH" := "/opt/loam", "LOAM_ARTIFACT_URL" := "https://mirror.example/loam.tgz"]
  {
    var p := new NodeProcess(map["LOAM_BIN_PATH" := "/opt/loam", "LOAM_ARTIFACT_URL" := "https://mirror.example/loam.tgz"]);
    ReleaseUrlExample();
    mirrored := p.GetBinary("loam", "Linux", "x64", "0.1.0", "/home/u", join);
    envAfter := p.env;
  }

  /** On an unsupported platform the call throws, but the binary path has been written already. */
  method UnsupportedExample(join: (string, string, string) -> string)
    returns (unsupported: Result<BinarySource, string>, written: bool)
    ensures unsupported == Err("Unsupported platform: SunOS x64")
    ensures written
  {
    var q := new NodeProcess(map[]);
    unsupported := q.GetBinary("loam", "SunOS", "x64", "0.1.0", "/home/u", join);
    written := "LOAM_BINARY_PATH" in q.env;
    assert "Unsupported platform: " + "SunOS" + " " + "x64" == "Unsupported platform: SunOS x64";
  }
}
