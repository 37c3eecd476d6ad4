/** The all-platform packaging script (scripts/build-all-platforms.cjs): the
    build list chosen by the host platform, the Rust targets it needs, the
    `tauri build` command for each entry, the outcome of each build and the
    counters that decide the exit status. Shell commands, the file system
    and the clock are parameters: what a build leaves on disk is an
    `Artifacts` value. */
module BuildAllPlatforms {
  import opened Wrappers
  import opened Text

  /** One entry of a build list. */
  datatype BuildConfig = BuildConfig(name: string, target: string, output: string, env: map<string, string>)

  const WindowsBuilds: seq<BuildConfig> := [
    BuildConfig("Windows 7兼容版 (32位)", "i686-pc-windows-msvc", "CMTools.Win7.x86.exe",
                map["WINVER" := "0x0601", "_WIN32_WINNT" := "0x0601",
                    "RUSTFLAGS" := "-C target-feature=-crt-static -C link-arg=/SUBSYSTEM:WINDOWS,6.01"]),
    BuildConfig("标准32位Windows版本", "i686-pc-windows-msvc", "CMTools.x86.exe", map[]),
    BuildConfig("标准64位Windows版本", "x86_64-pc-windows-msvc", "CMTools.x64.exe", map[])
  ]

  const MacosBuilds: seq<BuildConfig> := [
    BuildConfig("macOS (Apple Silicon)", "aarch64-apple-darwin", "CMTools.applesilicon.app", map[]),
    BuildConfig("macOS (Intel)", "x86_64-apple-darwin", "CMTools.intel.app", map[])
  ]

  const LinuxBuilds: seq<BuildConfig> := [
    BuildConfig("Linux (64位)", "x86_64-unknown-linux-gnu", "CMTools.x86_64.AppImage", map[]),
    BuildConfig("Linux (32位)", "i686-unknown-linux-gnu", "CMTools.i686.AppImage", map[])
  ]

  /** `getPlatformBuilds`: the list for the host platform, the Windows list
      for any platform it does not know. */
  function GetPlatformBuilds(platform: string): (builds: seq<BuildConfig>)
    ensures platform == "darwin" ==> builds == MacosBuilds
    ensures platform == "linux" ==> builds == LinuxBuilds
    ensures platform != "darwin" && platform != "linux" ==> builds == WindowsBuilds
  {
    match platform
    case "win32" => WindowsBuilds
    case "darwin" => MacosBuilds
    case "linux" => LinuxBuilds
    case _ => WindowsBuilds
  }

  /** `[...new Set(xs)]`: each value once, in the order of its first
      occurrence. */
  function Distinct(xs: seq<string>): (r: seq<string>)
    ensures |r| <= |xs|
    ensures forall x :: x in r <==> x in xs
    ensures forall i, j :: 0 <= i < j < |r| ==> r[i] != r[j]
    decreases |xs|
  {
    if xs == [] then []
    else
      var d := Distinct(xs[..|xs| - 1]);
      assert xs == xs[..|xs| - 1] + [xs[|xs| - 1]];
      if xs[|xs| - 1] in d then d else d + [xs[|xs| - 1]]
  }

  /** Appending values already seen leaves the distinct list alone, and a
      new value goes last. */
  lemma DistinctAppend(xs: seq<string>, x: string)
    ensures Distinct(xs + [x]) == if x in xs then Distinct(xs) else Distinct(xs) + [x]
  {
    assert (xs + [x])[..|xs|] == xs;
  }

  /** The targets `checkAndInstallTargets` checks. */
  function Targets(builds: seq<BuildConfig>): (ts: seq<string>)
    ensures forall t :: t in ts <==> exists i :: 0 <= i < |builds| && builds[i].target == t
    ensures forall i, j :: 0 <= i < j < |ts| ==> ts[i] != ts[j]
  {
    var all := seq(|builds|, i requires 0 <= i < |builds| => builds[i].target);
    assert forall t :: t in all <==> exists i :: 0 <= i < |builds| && builds[i].target == t by {
      forall t | t in all ensures exists i :: 0 <= i < |builds| && builds[i].target == t {
        var i :| 0 <= i < |all| && all[i] == t;
      }
      forall t | exists i :: 0 <= i < |builds| && builds[i].target == t ensures t in all {
        var i :| 0 <= i < |builds| && builds[i].target == t;
        assert all[i] == t;
      }
    }
    Distinct(all)
  }

  /** A value repeated before a second one is kept once. */
  lemma {:induction false} DistinctOfRepeat(a: string, b: string)
    requires a != b
    ensures Distinct([a, a, b]) == [a, b]
  {
    var one := [] + [a];
    var two := one + [a];
    var three := two + [b];
    DistinctAppend([], a);
    DistinctAppend(one, a);
    assert a in one && b !in two;
    DistinctAppend(two, b);
    assert three == [a, a, b];
  }

  /** The three Windows entries need two targets, 32-bit first. */
  lemma WindowsTargets(builds: seq<BuildConfig>)
    requires builds == WindowsBuilds
    ensures Targets(builds) == ["i686-pc-windows-msvc", "x86_64-pc-windows-msvc"]
  {
    var ts := seq(|builds|, i requires 0 <= i < |builds| => builds[i].target);
    assert ts == ["i686-pc-windows-msvc", "i686-pc-windows-msvc", "x86_64-pc-windows-msvc"];
    DistinctOfRepeat("i686-pc-windows-msvc", "x86_64-pc-windows-msvc");
  }

  /** The targets a host builds without cross-compiling, as a table. */
  function NativeTargets(platform: string, arch: string): (ts: set<string>)
    ensures |ts| <= 1
    ensures ts != {} ==> platform in {"darwin", "linux", "win32"}
    ensures ts != {} ==> arch in {"arm64", "aarch64", "x64", "x86_64", "ia32", "x86"}
  {
    if platform == "darwin" && arch in {"arm64", "aarch64"} then {"aarch64-apple-darwin"}
    else if platform == "darwin" && arch == "x64" then {"x86_64-apple-darwin"}
    else if platform == "linux" && arch in {"arm64", "aarch64"} then {"aarch64-unknown-linux-gnu"}
    else if platform == "linux" && arch == "x64" then {"x86_64-unknown-linux-gnu"}
    else if platform == "win32" && arch in {"x64", "x86_64"} then {"x86_64-pc-windows-msvc"}
    else if platform == "win32" && arch in {"ia32", "x86"} then {"i686-pc-windows-msvc"}
    else {}
  }

  /** `useTargetArgForBuild`: `--target` is left out exactly when the host
      builds the target natively. */
  function UseTargetArg(platform: string, arch: string, target: string): (use: bool)
    ensures !use <==> target in NativeTargets(platform, arch)
  {
    var use := true;
    if target == "" then use
    else if platform == "darwin" then
      !((arch == "arm64" || arch == "aarch64") && target == "aarch64-apple-darwin")
      && !(arch == "x64" && target == "x86_64-apple-darwin")
    else if platform == "linux" then
      !((arch == "arm64" || arch == "aarch64") && target == "aarch64-unknown-linux-gnu")
      && !(arch == "x64" && target == "x86_64-unknown-linux-gnu")
    else if platform == "win32" then
      !((arch == "x64" || arch == "x86_64") && target == "x86_64-pc-windows-msvc")
      && !((arch == "ia32" || arch == "x86") && target == "i686-pc-windows-msvc")
    else use
  }

  /** `bundleType`: a disk image for Apple targets, an AppImage for Linux
      targets, the bare application otherwise; "apple" is tested first. */
  function BundleType(target: string): (b: string)
    ensures b == "dmg" <==> Contains(target, "apple")
    ensures b == "appimage" <==> !Contains(target, "apple") && Contains(target, "linux")
    ensures b == "app" <==> !Contains(target, "apple") && !Contains(target, "linux")
  {
    if Contains(target, "apple") then "dmg"
    else if Contains(target, "linux") then "appimage"
    else "app"
  }

  /** The words of the `tauri build` command line. */
  function BuildCommand(target: string, useTarget: bool, bundle: string): (argv: seq<string>)
    ensures |argv| >= 8 && argv[..6] == ["npm", "run", "tauri", "--", "build", "--"]
    ensures argv[|argv| - 2..] == ["--bundles", bundle]
    ensures useTarget ==> |argv| == 10 && argv[6..8] == ["--target", target]
    ensures !useTarget ==> |argv| == 8
  {
    ["npm", "run", "tauri", "--", "build", "--"]
      + (if useTarget then ["--target", target] else [])
      + ["--bundles", bundle]
  }

  /** `--target` appears in the command exactly when it is used. */
  lemma TargetFlagIffUsed(target: string, useTarget: bool, bundle: string)
    requires bundle in {"dmg", "appimage", "app"}
    ensures "--target" in BuildCommand(target, useTarget, bundle) <==> useTarget
  {
    var argv := BuildCommand(target, useTarget, bundle);
    if useTarget {
      assert argv[6] == "--target";
    } else {
      assert argv == ["npm", "run", "tauri", "--", "build", "--", "--bundles", bundle];
    }
  }

  /** The environment of a build: the script's own, the entry's settings
      over it, and both signing variables blanked. */
  function BuildEnvironment(processEnv: map<string, string>, entryEnv: map<string, string>): (e: map<string, string>)
    ensures e.Keys == processEnv.Keys + entryEnv.Keys + {"TAURI_PRIVATE_KEY", "TAURI_KEY_PASSWORD"}
    ensures e["TAURI_PRIVATE_KEY"] == "" && e["TAURI_KEY_PASSWORD"] == ""
    ensures forall k :: k in entryEnv && k !in {"TAURI_PRIVATE_KEY", "TAURI_KEY_PASSWORD"} ==> e[k] == entryEnv[k]
    ensures forall k :: k in processEnv && k !in entryEnv && k !in {"TAURI_PRIVATE_KEY", "TAURI_KEY_PASSWORD"} ==>
              e[k] == processEnv[k]
  {
    (processEnv + entryEnv)["TAURI_PRIVATE_KEY" := ""]["TAURI_KEY_PASSWORD" := ""]
  }

  /** What a build leaves behind: the error of the build command, if it
      failed; the listing of the bundle directory, `None` when it does not
      exist; and the files that exist. */
  datatype Artifacts = Artifacts(compileError: Option<string>, bundleListing: Option<seq<string>>, present: set<string>)

  /** The entries of `files` that end with `suffix`, in listing order. */
  function EndingWith(files: seq<string>, suffix: string): (r: seq<string>)
    ensures forall f :: f in r <==> f in files && EndsWith(f, suffix)
    ensures |r| <= |files|
    ensures r != [] ==> FirstEndingAt(files, suffix, r[0])
  {
    if files == [] then []
    else
      var rest := EndingWith(files[1..], suffix);
      assert files == [files[0]] + files[1..];
      if EndsWith(files[0], suffix) then
        assert FirstEndingAt(files, suffix, files[0]) by {
          assert IsFirstEnding(files, suffix, 0);
        }
        [files[0]] + rest
      else
        if rest != [] then
          assert FirstEndingAt(files, suffix, rest[0]) by {
            var i :| 0 <= i < |files| - 1 && IsFirstEnding(files[1..], suffix, i) && files[1..][i] == rest[0];
            assert IsFirstEnding(files, suffix, i + 1);
          }
          rest
        else rest
  }

  /** Position `i` holds the first entry of `files` ending with `suffix`. */
  predicate IsFirstEnding(files: seq<string>, suffix: string, i: int) {
    0 <= i < |files| && EndsWith(files[i], suffix)
    && forall j :: 0 <= j < i ==> !EndsWith(files[j], suffix)
  }

  /** `f` is the first entry of `files` ending with `suffix`. */
  predicate FirstEndingAt(files: seq<string>, suffix: string, f: string) {
    exists i :: 0 <= i < |files| && IsFirstEnding(files, suffix, i) && files[i] == f
  }

  /** There is only one first entry with a given suffix. */
  lemma FirstEndingUnique(files: seq<string>, suffix: string, i: int, k: int)
    requires IsFirstEnding(files, suffix, i) && IsFirstEnding(files, suffix, k)
    ensures i == k
  {
  }

  /** Where the build puts what is copied out: the executable for Windows,
      otherwise the directory holding the disk image or AppImage. */
  function BundleDir(target: string, useTarget: bool): string {
    var root := if useTarget then "src-tauri/target/" + target + "/release/bundle/" else "src-tauri/target/release/bundle/";
    if Contains(target, "apple") then root + "dmg/" else root + "appimage/"
  }

  function WindowsExe(target: string, useTarget: bool): string {
    if useTarget then "src-tauri/target/" + target + "/release/bundle/app/CMTools/CMTools.exe"
    else "src-tauri/target/release/bundle/app/CMTools/CMTools.exe"
  }

  /** The suffix of the file to copy out of `BundleDir`. */
  function BundleSuffix(target: string): string {
    if Contains(target, "apple") then ".dmg" else ".AppImage"
  }

  const OutputMissing := "构建输出文件不存在: "
  /** The `ReferenceError` that `path.join` raises: the script never
      requires the `path` module. */
  const PathUndefined := "path is not defined"

  /** The outcome of one `buildVersion` as written: the copied file, or the
      error message recorded. For a non-Windows target, a bundle found in
      the directory reaches `path.join` and throws; none found leaves the
      source path undefined, which throws too. */
  function BuildOutcomeAsWritten(target: string, useTarget: bool, a: Artifacts): (r: Result<string, string>)
    ensures a.compileError.Some? ==> r == Err(a.compileError.value)
    ensures Contains(target, "windows") && a.compileError.None? ==>
              (r.Ok? <==> WindowsExe(target, useTarget) in a.present)
              && (r.Ok? ==> r.value == WindowsExe(target, useTarget))
  {
    if a.compileError.Some? then Err(a.compileError.value)
    else if Contains(target, "windows") then
      var source := WindowsExe(target, useTarget);
      if source in a.present then Ok(source) else Err(OutputMissing + source)
    else if a.bundleListing.Some? && EndingWith(a.bundleListing.value, BundleSuffix(target)) != [] then
      Err(PathUndefined)
    else Err(OutputMissing + "未知路径")
  }

  /** As written, no build of a non-Windows target succeeds, whatever the
      build leaves on disk: every macOS and Linux entry is a failure. */
  lemma NonWindowsBuildAlwaysFailsAsWritten(target: string, useTarget: bool, a: Artifacts)
    requires !Contains(target, "windows")
    ensures BuildOutcomeAsWritten(target, useTarget, a).Err?
  {
  }

  /** The outcome as intended, with `path.join` available: the first
      bundle in the directory listing is copied when it exists. The
      directory path ends with a slash, so the join is a concatenation. */
  function BuildOutcome(target: string, useTarget: bool, a: Artifacts): (r: Result<string, string>)
    ensures a.compileError.Some? ==> r == Err(a.compileError.value)
    ensures Contains(target, "windows") ==> r == BuildOutcomeAsWritten(target, useTarget, a)
    ensures r.Ok? ==> r.value in a.present
    ensures !Contains(target, "windows") && a.compileError.None? ==>
              (r.Ok? <==> exists b :: a.bundleListing.Some? && FirstEndingAt(a.bundleListing.value, BundleSuffix(target), b)
                                     && BundleDir(target, useTarget) + b in a.present)
  {
    if a.compileError.Some? then Err(a.compileError.value)
    else if Contains(target, "windows") then
      var source := WindowsExe(target, useTarget);
      if source in a.present then Ok(source) else Err(OutputMissing + source)
    else
      var bundles := if a.bundleListing.Some? then EndingWith(a.bundleListing.value, BundleSuffix(target)) else [];
      if bundles == [] then Err(OutputMissing + "未知路径")
      else
        var source := BundleDir(target, useTarget) + bundles[0];
        if source in a.present then Ok(source) else Err(OutputMissing + source)
  }

  /** With the correction, a non-Windows build that compiled and left its
      bundle in place succeeds, copying the first bundle of the listing. */
  lemma BundledBuildSucceeds(target: string, useTarget: bool, a: Artifacts, i: nat)
    requires !Contains(target, "windows") && a.compileError.None? && a.bundleListing.Some?
    requires IsFirstEnding(a.bundleListing.value, BundleSuffix(target), i)
    requires BundleDir(target, useTarget) + a.bundleListing.value[i] in a.present
    ensures BuildOutcome(target, useTarget, a) == Ok(BundleDir(target, useTarget) + a.bundleListing.value[i])
  {
    var files := a.bundleListing.value;
    var bundles := EndingWith(files, BundleSuffix(target));
    assert files[i] in bundles;
    var k :| 0 <= k < |files| && IsFirstEnding(files, BundleSuffix(target), k) && files[k] == bundles[0];
    FirstEndingUnique(files, BundleSuffix(target), i, k);
  }

  /** One entry of `buildResults`. */
  datatype BuildResult = BuildResult(name: string, output: string, success: bool, error: Option<string>)

  /** The entry `buildVersion(config)` records on a host, given what the
      build left on disk. */
  function Entry(config: BuildConfig, platform: string, arch: string, a: Artifacts): (e: BuildResult)
    ensures e.name == config.name && e.output == config.output
    ensures e.success <==> BuildOutcome(config.target, UseTargetArg(platform, arch, config.target), a).Ok?
  {
    var outcome := BuildOutcome(config.target, UseTargetArg(platform, arch, config.target), a);
    BuildResult(config.name, config.output, outcome.Ok?, if outcome.Err? then Some(outcome.error) else None)
  }

  /** The number of successful entries. */
  function Successes(rs: seq<BuildResult>): (n: nat)
    ensures n <= |rs|
    ensures n == |rs| <==> forall k :: 0 <= k < |rs| ==> rs[k].success
  {
    if rs == [] then 0 else Successes(rs[..|rs| - 1]) + (if rs[|rs| - 1].success then 1 else 0)
  }

  /** The script's counters and result list. */
  class BuildRun {
    var successCount: nat
    var failCount: nat
    var results: seq<BuildResult>

    /** The counters count the result list. */
    ghost predicate Valid()
      reads this
    {
      successCount == Successes(results) && successCount + failCount == |results|
    }

    constructor ()
      ensures Valid() && results == [] && successCount == 0 && failCount == 0
    {
      successCount := 0;
      failCount := 0;
      results := [];
    }

    /** `buildVersion(config)` on a host, with what the build leaves on
        disk: one entry is appended and exactly one counter goes up. */
    method BuildVersion(config: BuildConfig, platform: string, arch: string, a: Artifacts)
      requires Valid()
      modifies this
      ensures Valid()
      ensures results == old(results) + [Entry(config, platform, arch, a)]
      ensures successCount + failCount == old(successCount) + old(failCount) + 1
      ensures results[|results| - 1].success ==> successCount == old(successCount) + 1 && failCount == old(failCount)
      ensures !results[|results| - 1].success ==> failCount == old(failCount) + 1 && successCount == old(successCount)
    {
      var useTarget := UseTargetArg(platform, arch, config.target);
      var outcome := BuildOutcome(config.target, useTarget, a);
      var entry := BuildResult(config.name, config.output, outcome.Ok?,
                               if outcome.Err? then Some(outcome.error) else None);
      assert entry == Entry(config, platform, arch, a);
      assert (results + [entry])[..|results|] == results;
      results := results + [entry];
      if outcome.Ok? {
        successCount := successCount + 1;
      } else {
        failCount := failCount + 1;
      }
    }

    /** The process exit status once every entry was built. */
    function ExitCode(): (code: int)
      reads this
      ensures code == 0 <==> failCount == 0
    {
      if failCount == 0 then 0 else 1
    }
  }

  /** `main`: when the target check and the front-end build succeed
      (`prepared`), every entry of the host's list is built in order; the
      exit status is 0 exactly when every build succeeded. A failed
      preparation ends the script with status 1 before any build. The
      cache clean before them swallows its own errors and cannot end the
      script. */
  method RunAll(platform: string, arch: string, prepared: bool, artifacts: nat -> Artifacts)
    returns (exitCode: int, run: BuildRun)
    ensures run.Valid()
    ensures !prepared ==> exitCode == 1 && run.results == []
    ensures prepared ==> |run.results| == |GetPlatformBuilds(platform)|
    ensures prepared ==> forall k :: 0 <= k < |run.results| ==>
              run.results[k].name == GetPlatformBuilds(platform)[k].name
              && (run.results[k].success <==>
                    var c := GetPlatformBuilds(platform)[k];
                    BuildOutcome(c.target, UseTargetArg(platform, arch, c.target), artifacts(k)).Ok?)
    ensures prepared ==> (exitCode == 0 <==> forall k :: 0 <= k < |run.results| ==> run.results[k].success)
  {
    run := new BuildRun();
    if !prepared {
      return 1, run;
    }
    var builds := GetPlatformBuilds(platform);
    BuildEach(run, builds, platform, arch, artifacts);
    EntriesAt(builds, platform, arch, artifacts, |builds|);
    exitCode := run.ExitCode();
  }

  /** The entries of the first `n` builds of `builds`, `builds[k]` built
      with `artifacts(k)`. */
  function Entries(builds: seq<BuildConfig>, platform: string, arch: string, artifacts: nat -> Artifacts, n: nat): (es: seq<BuildResult>)
    requires n <= |builds|
    ensures |es| == n
  {
    if n == 0 then []
    else Entries(builds, platform, arch, artifacts, n - 1) + [Entry(builds[n - 1], platform, arch, artifacts(n - 1))]
  }

  /** Entry `k` of that list is the entry of build `k`. */
  lemma {:induction false} EntriesAt(builds: seq<BuildConfig>, platform: string, arch: string, artifacts: nat -> Artifacts, n: nat)
    requires n <= |builds|
    ensures forall k :: 0 <= k < n ==>
              Entries(builds, platform, arch, artifacts, n)[k] == Entry(builds[k], platform, arch, artifacts(k))
  {
    if n > 0 {
      EntriesAt(builds, platform, arch, artifacts, n - 1);
      var es := Entries(builds, platform, arch, artifacts, n - 1);
      var e := Entry(builds[n - 1], platform, arch, artifacts(n - 1));
      assert Entries(builds, platform, arch, artifacts, n) == es + [e];
      AppendedAt(es, e);
      forall k | 0 <= k < n
        ensures Entries(builds, platform, arch, artifacts, n)[k] == Entry(builds[k], platform, arch, artifacts(k))
      {
        if k < n - 1 {
          assert (es + [e])[k] == es[k];
        }
      }
    }
  }

  /** The build loop of `main`: `builds[k]` is built with `artifacts(k)`,
      in order, each appending its entry to the run. */
  method BuildEach(run: BuildRun, builds: seq<BuildConfig>, platform: string, arch: string, artifacts: nat -> Artifacts)
    requires run.Valid() && run.results == []
    modifies run
    ensures run.Valid() && run.results == Entries(builds, platform, arch, artifacts, |builds|)
  {
    for i := 0 to |builds|
      invariant run.Valid() && run.results == Entries(builds, platform, arch, artifacts, i)
    {
      run.BuildVersion(builds[i], platform, arch, artifacts(i));
    }
  }
}
