/** The single-target packaging script (scripts/build-current-system.cjs):
    which target and output file the host calls for, whether a Rust target
    is installed first, the `tauri build` command, and whether the built
    executable is copied out. The outcomes of the shell commands and of the
    file-existence test are parameters. */
module BuildCurrentSystem {
  import opened Wrappers
  import opened Text

  /** What `detectSystemArchitecture` returns; `None` is a `null` target. */
  datatype BuildConfig = BuildConfig(target: Option<string>, output: string, description: string)

  const X64Target := "x86_64-pc-windows-msvc"
  const X86Target := "i686-pc-windows-msvc"

  /** `detectSystemArchitecture`: any host other than Windows builds the
      default target; on Windows, a 32-bit architecture builds the 32-bit
      target and every other architecture, ARM64 and unknown ones included,
      the 64-bit one. */
  function DetectSystemArchitecture(platform: string, arch: string): (c: BuildConfig)
    ensures platform != "win32" ==> c.target.None? && c.output == "cmtools"
    ensures platform == "win32" && arch in {"ia32", "x86"} ==>
              c.target == Some(X86Target) && c.output == "CMTools.x86.exe"
    ensures platform == "win32" && arch !in {"ia32", "x86"} ==>
              c.target == Some(X64Target) && c.output == "CMTools.x64.exe"
  {
    if platform != "win32" then BuildConfig(None, "cmtools", "默认平台版本")
    else match arch
      case "x64" => BuildConfig(Some(X64Target), "CMTools.x64.exe", "64位Windows版本")
      case "x86_64" => BuildConfig(Some(X64Target), "CMTools.x64.exe", "64位Windows版本")
      case "ia32" => BuildConfig(Some(X86Target), "CMTools.x86.exe", "32位Windows版本")
      case "x86" => BuildConfig(Some(X86Target), "CMTools.x86.exe", "32位Windows版本")
      case "arm64" => BuildConfig(Some(X64Target), "CMTools.x64.exe", "64位Windows版本 (ARM64系统兼容)")
      case _ => BuildConfig(Some(X64Target), "CMTools.x64.exe", "64位Windows版本 (默认)")
  }

  /** `checkAndInstallTarget`: the shell commands run and whether the step
      throws. Nothing runs for a `null` target. Otherwise the installed
      list is searched (`listed` says the search succeeded) and, when that
      fails, the target is added (`added` says it worked). */
  function CheckAndInstallTarget(target: Option<string>, listed: bool, added: bool): (r: (seq<string>, bool))
    ensures target.None? ==> r == ([], true)
    ensures target.Some? ==> |r.0| == (if listed then 1 else 2)
    ensures r.1 <==> target.None? || listed || added
  {
    match target
    case None => ([], true)
    case Some(t) =>
      var search := "rustup target list --installed | findstr " + t;
      if listed then ([search], true)
      else ([search, "rustup target add " + t], added)
  }

  /** The words of the build command: `--target <t>` exactly when there is
      a target. */
  function BuildCommand(target: Option<string>): (argv: seq<string>)
    ensures |argv| >= 5 && argv[..5] == ["npm", "run", "tauri", "--", "build"]
    ensures target.None? ==> |argv| == 5
    ensures target.Some? ==> argv[5..] == ["--", "--target", target.value]
  {
    match target
    case None => ["npm", "run", "tauri", "--", "build"]
    case Some(t) => ["npm", "run", "tauri", "--", "build", "--", "--target", t]
  }

  lemma TargetFlagIffTarget(target: Option<string>)
    ensures "--target" in BuildCommand(target) <==> target.Some?
  {
    var argv := BuildCommand(target);
    if target.Some? {
      assert argv[6] == "--target";
    }
  }

  /** Where the build leaves the executable for a target. */
  function SourcePath(target: string): (p: string)
    ensures |p| == |target| + 37 && p[17..|p| - 20] == target
    ensures p[..17] == "src-tauri/target/" && p[|p| - 20..] == "/release/cmtools.exe"
  {
    "src-tauri/target/" + target + "/release/cmtools.exe"
  }

  /** What `buildTarget` does after a successful build command. */
  datatype CopyStep =
    | NoCopy                                   // not a Windows target
    | Copied(source: string, output: string)   // the executable copied to the output name
    | Missing(message: string)                 // the executable is not there: the step throws

  /** The copy step runs only for a target that names Windows; it throws
      when the built executable is missing. */
  function Copy(c: BuildConfig, sourceExists: bool): (step: CopyStep)
    ensures step != NoCopy <==> c.target.Some? && Contains(c.target.value, "windows")
    ensures step.Copied? ==> step == Copied(SourcePath(c.target.value), c.output) && sourceExists
    ensures step.Missing? ==> !sourceExists
                              && step.message == "构建输出文件不存在: " + SourcePath(c.target.value)
  {
    if c.target.Some? && Contains(c.target.value, "windows") then
      if sourceExists then Copied(SourcePath(c.target.value), c.output)
      else Missing("构建输出文件不存在: " + SourcePath(c.target.value))
    else NoCopy
  }

  /** Both Windows targets name Windows. */
  lemma WindowsTargetsNameWindows(x64: string, x86: string)
    requires x64 == X64Target && x86 == X86Target
    ensures Contains(x64, "windows") && Contains(x86, "windows")
  {
    assert x64[10..17] == "windows";
    ContainsAt(x64, "windows", 10);
    assert x86[8..15] == "windows";
    ContainsAt(x86, "windows", 8);
  }

  /** Everything the script's outcome depends on: the host, and how each
      shell step and the existence test went. */
  datatype Host = Host(platform: string, arch: string, listed: bool, added: bool,
                       frontendBuilt: bool, compiled: bool, sourceExists: bool)

  /** `main`: 0 when every step succeeded, 1 when one threw. */
  function ExitCode(h: Host): (code: int)
    ensures code == 0 || code == 1
  {
    var c := DetectSystemArchitecture(h.platform, h.arch);
    if !CheckAndInstallTarget(c.target, h.listed, h.added).1 then 1
    else if !h.frontendBuilt || !h.compiled then 1
    else if Copy(c, h.sourceExists).Missing? then 1
    else 0
  }

  /** On a Windows host the script succeeds exactly when the target is
      available, both builds pass and the executable is there to copy. */
  lemma {:induction false} WindowsHostOutcome(h: Host)
    requires h.platform == "win32"
    ensures ExitCode(h) == 0 <==> (h.listed || h.added) && h.frontendBuilt && h.compiled && h.sourceExists
  {
    WindowsTargetsNameWindows(X64Target, X86Target);
  }

  /** Elsewhere no target is installed and nothing is copied: only the two
      builds matter. */
  lemma OtherHostOutcome(h: Host)
    requires h.platform != "win32"
    ensures ExitCode(h) == 0 <==> h.frontendBuilt && h.compiled
  {
  }
}
