/**
 * The `dev` command of the loam CLI (crates/loam-cli/src/commands/dev/mod.rs):
 * a file watcher whose events are filtered, then a single-flight rebuild
 * loop. A path is the sequence of its components as Rust's
 * `Path::components` yields them; the current directory and
 * `fs::canonicalize` are inputs of the filter (the oracle `canonical` gives
 * the canonical form of a path, or none when canonicalisation fails).
 */
module DevWatch {
  import opened Soroban

  datatype Component = RootDir | CurDir | ParentDir | Normal(name: string)

  type Path = seq<Component>

  /** `Path::file_name`: the last component when it is a name. */
  function FileName(path: Path): (r: Option<string>)
    ensures r.Some? <==> |path| > 0 && path[|path| - 1].Normal?
    ensures r.Some? ==> r.value == path[|path| - 1].name
  {
    if |path| > 0 && path[|path| - 1].Normal? then Some(path[|path| - 1].name) else None
  }

  /** `Path::parent`: the path without its last component; none for an empty path or a root. */
  function Parent(path: Path): (r: Option<Path>)
    ensures r.Some? <==> |path| > 0 && path[|path| - 1] != RootDir
    ensures r.Some? ==> r.value + [path[|path| - 1]] == path
  {
    if |path| > 0 && path[|path| - 1] != RootDir then Some(path[..|path| - 1]) else None
  }

  /** `PathBuf::join`: an absolute path replaces the base; `.` components after the first vanish. */
  function Join(base: Path, path: Path): (r: Path)
    ensures |path| > 0 && path[0] == RootDir ==> r == path
    ensures (|path| == 0 || path[0] != RootDir) ==> |r| >= |base| && r[..|base|] == base
  {
    if |path| > 0 && path[0] == RootDir then path else base + WithoutCurDir(path)
  }

  function WithoutCurDir(path: Path): (r: Path)
    ensures CurDir !in r
    ensures forall c :: c in r ==> c in path
  {
    if |path| == 0 then []
    else (if path[0] == CurDir then [] else [path[0]]) + WithoutCurDir(path[1..])
  }

  function StartsWith(s: string, c: char): bool { |s| > 0 && s[0] == c }
  function EndsWith(s: string, c: char): bool { |s| > 0 && s[|s| - 1] == c }

  /** The index of the last `.` of `s` before position `end`. */
  function LastDot(s: string, end: nat): (r: Option<nat>)
    requires end <= |s|
    ensures r.Some? ==> r.value < end && s[r.value] == '.' && forall i :: r.value < i < end ==> s[i] != '.'
    ensures r.None? ==> forall i :: 0 <= i < end ==> s[i] != '.'
  {
    if end == 0 then None
    else if s[end - 1] == '.' then Some(end - 1)
    else LastDot(s, end - 1)
  }

  /**
   * `Path::extension` of a file name: what follows its last `.`, unless that
   * dot begins the name or the name is `..`.
   */
  function Extension(name: string): (r: Option<string>)
    ensures r.None? <==> name == ".." || forall j :: 0 < j < |name| ==> name[j] != '.'
    ensures r.Some? ==>
      var d := |name| - |r.value| - 1;
      && 0 < d && name[d] == '.' && name[d + 1..] == r.value
      && forall j :: d < j < |name| ==> name[j] != '.'
  {
    if name == ".." then None
    else match LastDot(name, |name|)
      case None => None
      case Some(i) => if i == 0 then None else Some(name[i + 1..])
  }

  function ToAsciiLower(c: char): char {
    if 'A' <= c <= 'Z' then (c as int + 32) as char else c
  }

  /** `eq_ignore_ascii_case`. */
  predicate EqIgnoreAsciiCase(a: string, b: string) {
    |a| == |b| && forall i :: 0 <= i < |a| ==> ToAsciiLower(a[i]) == ToAsciiLower(b[i])
  }

  /**
   * `is_temporary_file`: the file name (empty when the path has none) starts
   * with `.` or ends with `~` (Vim), starts and ends with `#` (Emacs), or has
   * the extension `tmp` in any case (VS Code).
   */
  predicate IsTemporaryFile(path: Path) {
    var fileName := FileName(path).GetOr("");
    if StartsWith(fileName, '.') then true
    else if EndsWith(fileName, '~') then true
    else if StartsWith(fileName, '#') && EndsWith(fileName, '#') then true
    else if Extension(fileName).Some? && EqIgnoreAsciiCase(Extension(fileName).value, "tmp") then true
    else false
  }

  /**
   * The editor-file test on characters: a non-empty file name that starts
   * with `.`, ends with `~`, starts and ends with `#`, or ends in `.tmp` in
   * any letter case after at least one character.
   */
  lemma TemporaryFileExactly(path: Path)
    ensures var n := FileName(path).GetOr("");
      IsTemporaryFile(path) <==>
        || (|n| > 0 && (n[0] == '.' || n[|n| - 1] == '~' || (n[0] == '#' && n[|n| - 1] == '#')))
        || (|n| >= 5 && n[|n| - 4] == '.' && EqIgnoreAsciiCase(n[|n| - 3..], "tmp"))
  {
    TmpExtensionIsSuffix(FileName(path).GetOr(""));
  }

  /** The `tmp` extension test is a test of the name's last four characters. */
  lemma TmpExtensionIsSuffix(name: string)
    ensures (Extension(name).Some? && EqIgnoreAsciiCase(Extension(name).value, "tmp")) <==>
      |name| >= 5 && name[|name| - 4] == '.' && EqIgnoreAsciiCase(name[|name| - 3..], "tmp")
  {
    var n := |name|;
    if Extension(name).Some? && EqIgnoreAsciiCase(Extension(name).value, "tmp") {
      var i := LastDot(name, n).value;
      assert |name[i + 1..]| == 3;
      assert i == n - 4;
    }
    if n >= 5 && name[n - 4] == '.' && EqIgnoreAsciiCase(name[n - 3..], "tmp") {
      forall j | n - 4 < j < n ensures name[j] != '.' {
        assert ToAsciiLower(name[n - 3..][j - (n - 3)]) == ToAsciiLower("tmp"[j - (n - 3)]);
      }
      assert LastDot(name, n) == Some(n - 4) by {
        assert name[n - 1] != '.' && name[n - 2] != '.' && name[n - 3] != '.';
      }
    }
  }

  /** Names the filter treats as editor files. */
  lemma TemporaryFileExamples()
    ensures IsTemporaryFile([Normal("src"), Normal(".main.rs.swp")])
    ensures IsTemporaryFile([Normal("lib.rs~")])
    ensures IsTemporaryFile([Normal("#lib.rs#")])
    ensures IsTemporaryFile([Normal("x.TmP")])
  {
    TmpExtensionIsSuffix("x.TmP");
  }

  /** Names the filter lets through, and a path without a file name. */
  lemma OrdinaryFileExamples()
    ensures !IsTemporaryFile([Normal("lib.rs")])
    ensures !IsTemporaryFile([Normal("#lib.tmpx")])
    ensures !IsTemporaryFile([Normal("tmp")])
    ensures !IsTemporaryFile([RootDir])
  {
    assert !IsTemporaryFile([Normal("lib.rs")]) by {
      TemporaryFileExactly([Normal("lib.rs")]);
      assert "lib.rs"[2] != '.';
    }
    assert !IsTemporaryFile([Normal("#lib.tmpx")]) by {
      TemporaryFileExactly([Normal("#lib.tmpx")]);
      assert "#lib.tmpx"[5] != '.';
    }
    assert !IsTemporaryFile([Normal("tmp")]) by {
      TemporaryFileExactly([Normal("tmp")]);
    }
    assert !IsTemporaryFile([RootDir]) by {
      TemporaryFileExactly([RootDir]);
    }
  }

  /**
   * `canonicalize_path`: an empty path is the current directory, a single
   * component is joined to it, any other path is canonicalised, or kept as it
   * is when that fails. A missing current directory reads as `.`.
   */
  function CanonicalizePath(path: Path, cwd: Option<Path>, canonical: Path -> Option<Path>): (r: Path)
    ensures |path| == 0 ==> r == cwd.GetOr([CurDir])
    ensures |path| == 1 ==> r == Join(cwd.GetOr([CurDir]), path)
    ensures |path| > 1 ==> r == canonical(path).GetOr(path)
  {
    if |path| == 0 then cwd.GetOr([CurDir])
    else if |path| == 1 then Join(cwd.GetOr([CurDir]), path)
    else canonical(path).GetOr(path)
  }

  /** `is_parent_in_watched_dirs`. */
  predicate IsParentInWatchedDirs(parent: Path, watchedDirs: seq<Path>, cwd: Option<Path>, canonical: Path -> Option<Path>) {
    exists i :: 0 <= i < |watchedDirs| && CanonicalizePath(watchedDirs[i], cwd, canonical) == parent
  }

  /** `any` over the watched directories: none matches an empty list, and each added directory is one more chance. */
  lemma ParentInWatchedDirsIsAny(parent: Path, dirs: seq<Path>, dir: Path, cwd: Option<Path>, canonical: Path -> Option<Path>)
    ensures !IsParentInWatchedDirs(parent, [], cwd, canonical)
    ensures IsParentInWatchedDirs(parent, dirs + [dir], cwd, canonical) <==>
      IsParentInWatchedDirs(parent, dirs, cwd, canonical) || CanonicalizePath(dir, cwd, canonical) == parent
  {
    if IsParentInWatchedDirs(parent, dirs, cwd, canonical) {
      var i :| 0 <= i < |dirs| && CanonicalizePath(dirs[i], cwd, canonical) == parent;
      assert (dirs + [dir])[i] == dirs[i];
    }
    if IsParentInWatchedDirs(parent, dirs + [dir], cwd, canonical) {
      var i :| 0 <= i < |dirs + [dir]| && CanonicalizePath((dirs + [dir])[i], cwd, canonical) == parent;
      if i < |dirs| {
        assert (dirs + [dir])[i] == dirs[i];
      }
    }
    assert (dirs + [dir])[|dirs|] == dir;
  }

  datatype EventKind = Any | Access | Create | Modify | Remove | Other

  datatype Event = Event(kind: EventKind, paths: seq<Path>)

  /** What the watcher is set up with: where `environments.toml` is, and the package directories. */
  datatype WatchSetup = WatchSetup(envTomlPath: Path, envTomlParent: Path, watchedDirs: seq<Path>,
                                   cwd: Option<Path>, canonical: Path -> Option<Path>)

  /** The watcher closure's decision for one delivered event: whether a `FileChanged` message is sent. */
  predicate Forwards(setup: WatchSetup, event: Event) {
    if !(event.kind.Create? || event.kind.Modify? || event.kind.Remove?) then false
    else if |event.paths| == 0 then false
    else
      var path := event.paths[0];
      if IsTemporaryFile(path) then false
      else
        var envTomlParentAbs := CanonicalizePath(setup.envTomlParent, setup.cwd, setup.canonical);
        var envTomlPathAbs := CanonicalizePath(setup.envTomlPath, setup.cwd, setup.canonical);
        var parentIsEnvTomlParent := Parent(path) == Some(envTomlParentAbs);
        var pathIsEnvToml := path == envTomlPathAbs;
        var parentIsInWatchedDirs := IsParentInWatchedDirs(envTomlParentAbs, setup.watchedDirs, setup.cwd, setup.canonical);
        !(parentIsEnvTomlParent && !pathIsEnvToml && !parentIsInWatchedDirs)
  }

  /**
   * The filter as a list of rules: only creations, modifications and removals
   * count, judged by their first path; editor files never count; a file
   * beside `environments.toml` counts only when it is that file or when its
   * directory is also a watched package directory.
   */
  lemma ForwardsExactly(setup: WatchSetup, event: Event)
    ensures Forwards(setup, event) <==>
      && (event.kind in {Create, Modify, Remove})
      && |event.paths| > 0
      && !IsTemporaryFile(event.paths[0])
      && (Parent(event.paths[0]) == Some(CanonicalizePath(setup.envTomlParent, setup.cwd, setup.canonical)) ==>
            || event.paths[0] == CanonicalizePath(setup.envTomlPath, setup.cwd, setup.canonical)
            || exists i :: 0 <= i < |setup.watchedDirs| &&
                 CanonicalizePath(setup.watchedDirs[i], setup.cwd, setup.canonical)
                 == CanonicalizePath(setup.envTomlParent, setup.cwd, setup.canonical))
  {
  }

  /**
   * A creation, modification or removal of `environments.toml` itself is
   * always forwarded, whatever the other paths and the watched directories are.
   */
  lemma EnvTomlChangeIsForwarded(setup: WatchSetup, kind: EventKind, rest: seq<Path>)
    requires kind.Create? || kind.Modify? || kind.Remove?
    requires !IsTemporaryFile(CanonicalizePath(setup.envTomlPath, setup.cwd, setup.canonical))
    ensures Forwards(setup, Event(kind, [CanonicalizePath(setup.envTomlPath, setup.cwd, setup.canonical)] + rest))
  {
  }

  /** Only the first path of an event is looked at: an editor file first hides everything after it. */
  lemma TemporaryFirstPathIsDropped(setup: WatchSetup, kind: EventKind, first: Path, rest: seq<Path>)
    requires IsTemporaryFile(first)
    ensures !Forwards(setup, Event(kind, [first] + rest))
  {
  }

  /** The build options `dev` cares about. */
  datatype LoamEnv = Development | Testing | Staging | Production

  datatype BuildCmd = BuildCmd(env: Option<LoamEnv>, profile: Option<string>)

  /** The `dev` command, holding the build command it reruns. */
  class Cmd {
    var buildCmd: BuildCmd

    constructor (buildCmd: BuildCmd)
      ensures this.buildCmd == buildCmd
    {
      this.buildCmd := buildCmd;
    }

    /**
     * `cloned_build_command`: the environment defaults to development and the
     * profile to `debug`, each only when unset; the defaults stay in the
     * command, and a copy is returned.
     */
    method ClonedBuildCommand() returns (c: BuildCmd)
      modifies this
      ensures buildCmd.env == Some(old(buildCmd.env).GetOr(Development))
      ensures buildCmd.profile == Some(old(buildCmd.profile).GetOr("debug"))
      ensures c == buildCmd
    {
      if buildCmd.env.None? {
        buildCmd := buildCmd.(env := Some(Development));
      }
      if buildCmd.profile.None? {
        buildCmd := buildCmd.(profile := Some("debug"));
      }
      c := buildCmd;
    }
  }

  /** Settings given on the command line survive; asking twice gives the same command. */
  method ClonedBuildCommandKeepsSettings() returns (first: BuildCmd, second: BuildCmd, given: BuildCmd)
    ensures first == second == BuildCmd(Some(Development), Some("debug"))
    ensures given == BuildCmd(Some(Production), Some("release"))
  {
    var cmd := new Cmd(BuildCmd(None, None));
    first := cmd.ClonedBuildCommand();
    second := cmd.ClonedBuildCommand();
    var other := new Cmd(BuildCmd(Some(Production), Some("release")));
    given := other.ClonedBuildCommand();
  }

  /** What the consumer loop sees: a `FileChanged` message, or a spawned rebuild finishing. */
  datatype Signal = FileChanged | RebuildDone

  /** The rebuilds a run of signals spawns, starting with the flag as given. */
  function Spawned(signals: seq<Signal>, rebuilding: bool): nat {
    if |signals| == 0 then 0
    else match signals[0]
      case FileChanged => (if rebuilding then 0 else 1) + Spawned(signals[1..], true)
      case RebuildDone => Spawned(signals[1..], false)
  }

  /** The flag after a run of signals. */
  function FlagAfter(signals: seq<Signal>, rebuilding: bool): bool {
    if |signals| == 0 then rebuilding
    else FlagAfter(signals[1..], signals[0] == FileChanged)
  }

  function Count(signals: seq<Signal>, s: Signal): nat {
    if |signals| == 0 then 0 else (if signals[0] == s then 1 else 0) + Count(signals[1..], s)
  }

  /**
   * Single flight: every spawned rebuild but the first needs a finished one
   * before it, so the rebuilds never outnumber the finished ones by more than
   * one (none more when one is already in flight).
   */
  lemma {:induction false} AtMostOneRebuildInFlight(signals: seq<Signal>, rebuilding: bool)
    ensures Spawned(signals, rebuilding) <= Count(signals, RebuildDone) + (if rebuilding then 0 else 1)
  {
    if |signals| > 0 {
      AtMostOneRebuildInFlight(signals[1..], signals[0] == FileChanged);
    }
  }

  /** Changes arriving while a rebuild runs are dropped: no follow-up rebuild is owed for them. */
  lemma {:induction false} ChangesDuringRebuildAreDropped(n: nat)
    ensures Spawned(seq(n, _ => FileChanged) + [RebuildDone], true) == 0
    ensures FlagAfter(seq(n, _ => FileChanged) + [RebuildDone], true) == false
  {
    if n > 0 {
      ChangesDuringRebuildAreDropped(n - 1);
      assert (seq(n, _ => FileChanged) + [RebuildDone])[1..] == seq(n - 1, _ => FileChanged) + [RebuildDone];
    }
  }

  /** The `rebuild_state` flag shared by the consumer loop and the rebuild task. */
  class RebuildState {
    var rebuilding: bool
    /** How many rebuild tasks the consumer loop has spawned. */
    var spawned: nat

    constructor ()
      ensures !rebuilding && spawned == 0
    {
      rebuilding, spawned := false, 0;
    }

    /** A `FileChanged` message: a rebuild is spawned only when none is in flight. */
    method OnMessage()
      modifies this
      ensures rebuilding
      ensures spawned == old(spawned) + if old(rebuilding) then 0 else 1
    {
      if !rebuilding {
        rebuilding := true;
        spawned := spawned + 1;
      }
    }

    /** The end of `debounced_rebuild`: the flag is cleared, whether the build failed or not. */
    method OnRebuildDone()
      modifies this
      ensures !rebuilding && spawned == old(spawned)
    {
      rebuilding := false;
    }

    /** The consumer loop over a run of signals. */
    method Run(signals: seq<Signal>)
      modifies this
      ensures spawned == old(spawned) + Spawned(signals, old(rebuilding))
      ensures rebuilding == FlagAfter(signals, old(rebuilding))
    {
      var i := 0;
      while i < |signals|
        invariant 0 <= i <= |signals|
        invariant spawned + Spawned(signals[i..], rebuilding) == old(spawned) + Spawned(signals, old(rebuilding))
        invariant FlagAfter(signals[i..], rebuilding) == FlagAfter(signals, old(rebuilding))
      {
        assert signals[i..][1..] == signals[i + 1..];
        match signals[i] {
          case FileChanged => OnMessage();
          case RebuildDone => OnRebuildDone();
        }
        i := i + 1;
      }
    }
  }

  /** Three changes in a row spawn one rebuild; after it finishes, the next change spawns another. */
  method BurstThenChange() returns (afterBurst: nat, afterNext: nat)
    ensures afterBurst == 1 && afterNext == 2
  {
    var state := new RebuildState();
    state.Run([FileChanged, FileChanged, FileChanged]);
    afterBurst := state.spawned;
    state.Run([RebuildDone, FileChanged]);
    afterNext := state.spawned;
  }
}
