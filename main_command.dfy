/** The Electron main process's handling of one input file: the argument
    vector passed to the selected tool, where the tool's executable is looked
    up, how the two output files are named, and how the tool's exit turns
    into a result (main.js, handlers `process-file` and `process-files`). */
module MainCommand {
  import opened Wrappers
  import opened NodePath
  import ToolCli

  /** The options object the renderer sends. A JavaScript `undefined` text
      field is represented by "". */
  datatype Options = Options(
    useArea: bool,
    stdName: string,
    useGBK: bool,
    devMode: bool,
    exeName: string,
    toolId: string)   // "aneuFiler", "aneu23" or "shCarrier"

  /** `-STD <name>` is passed: not for AneuFiler, and only for a non-empty
      name other than the placeholder "STD". */
  predicate StdApplies(o: Options) {
    o.toolId != "aneuFiler" && o.stdName != "" && o.stdName != "STD"
  }

  /** The arguments `processFile` builds, one conditional push at a time. */
  function BuildArgs(filePath: string, o: Options): (args: seq<string>)
    ensures |args| >= 2 && args[..2] == ["-i", filePath]
  {
    var args0 := ["-i", filePath];
    var args1 := if o.useArea then args0 + ["-Area"] else args0;
    var args2 := if o.toolId != "aneuFiler" && o.stdName != "" && o.stdName != "STD"
                 then args1 + ["-STD", o.stdName] else args1;
    var args3 := if o.toolId == "shCarrier" && o.useGBK then args2 + ["-GBK"] else args2;
    if o.devMode then args3 + ["-dev"] else args3
  }

  /** What the tool reads from the vector: the input file; -Area iff
      `useArea`; `-STD name` exactly when `StdApplies`; -GBK iff the tool is
      SHCarrier and `useGBK`; -dev iff `devMode`; flags in that fixed order
      and nothing else. */
  lemma BuildArgsMeaning(filePath: string, o: Options)
    ensures ToolCli.Parse(BuildArgs(filePath, o)) == Some(ToolCli.Invocation(
              filePath,
              o.useArea,
              if StdApplies(o) then Some(o.stdName) else None,
              o.toolId == "shCarrier" && o.useGBK,
              o.devMode))
  {
    var inv := ToolCli.Invocation(filePath, o.useArea, if StdApplies(o) then Some(o.stdName) else None,
                                  o.toolId == "shCarrier" && o.useGBK, o.devMode);
    assert BuildArgs(filePath, o) == ToolCli.Render(inv);
    ToolCli.ParseRender(inv);
  }

  /** Where the application runs: `NODE_ENV === 'production'`,
      `app.isPackaged`, `path.dirname(app.getAppPath())`,
      `process.resourcesPath` and `__dirname`. */
  datatype Runtime = Runtime(
    isProduction: bool,
    isPackaged: bool,
    appDir: string,
    resourcesPath: string,
    moduleDir: string)

  /** `options.exeName || 'SHCarrier.exe'`. */
  function ExeFileName(o: Options): (exe: string)
    ensures exe != ""
    ensures o.exeName != "" ==> exe == o.exeName
    ensures o.exeName == "" ==> exe == "SHCarrier.exe"
  {
    if o.exeName == "" then "SHCarrier.exe" else o.exeName
  }

  /** The executable path main.js settles on; `onDisk` answers
      `fs.existsSync`. */
  function ExePath(rt: Runtime, exe: string, onDisk: set<string>): string {
    if rt.isProduction || rt.isPackaged then
      if rt.isPackaged then
        var unpacked := Join(Join(rt.appDir, "app.asar.unpacked"), exe);
        if unpacked in onDisk then unpacked else Join(rt.resourcesPath, exe)
      else
        Join(rt.resourcesPath, exe)
    else
      Join(rt.moduleDir, exe)
  }

  function ExeNotFoundMessage(path: string, exe: string): string {
    "Executable not found: " + path + ". Please ensure " + exe + " is present in the application directory."
  }

  /** The path of the executable, or the error the handler returns when it is
      missing. */
  function LocateExecutable(rt: Runtime, exe: string, onDisk: set<string>): (r: Result<string, string>)
    ensures r.Ok? ==> r.value in onDisk && r.value in Candidates(rt, exe)
    ensures r.Err? ==> r.error == ExeNotFoundMessage(ExePath(rt, exe, onDisk), exe)
  {
    var path := ExePath(rt, exe, onDisk);
    if path in onDisk then Ok(path) else Err(ExeNotFoundMessage(path, exe))
  }

  /** The places the executable may be, most preferred first: the module
      directory in development; the unpacked archive, then the resources
      directory, when packaged; the resources directory otherwise. */
  function Candidates(rt: Runtime, exe: string): (c: seq<string>)
    ensures 1 <= |c| <= 2 && (|c| == 2 <==> rt.isPackaged)
    ensures rt.isPackaged || rt.isProduction ==> c[|c| - 1] == Join(rt.resourcesPath, exe)
    ensures !rt.isPackaged && !rt.isProduction ==> c == [Join(rt.moduleDir, exe)]
  {
    if rt.isPackaged then
      [Join(Join(rt.appDir, "app.asar.unpacked"), exe), Join(rt.resourcesPath, exe)]
    else if rt.isProduction then
      [Join(rt.resourcesPath, exe)]
    else
      [Join(rt.moduleDir, exe)]
  }

  /** The first candidate that exists. */
  function FirstPresent(candidates: seq<string>, onDisk: set<string>): (r: Option<string>)
    ensures r.Some? ==> r.value in candidates && r.value in onDisk
    ensures r.None? <==> forall c :: c in candidates ==> c !in onDisk
  {
    if candidates == [] then None
    else if candidates[0] in onDisk then Some(candidates[0])
    else FirstPresent(candidates[1..], onDisk)
  }

  /** The lookup finds the most preferred existing candidate, and fails
      exactly when no candidate exists. */
  lemma LocateFindsFirstPresent(rt: Runtime, exe: string, onDisk: set<string>)
    ensures LocateExecutable(rt, exe, onDisk).Ok?
            <==> FirstPresent(Candidates(rt, exe), onDisk).Some?
    ensures LocateExecutable(rt, exe, onDisk).Ok? ==>
              LocateExecutable(rt, exe, onDisk).value == FirstPresent(Candidates(rt, exe), onDisk).value
  {
  }

  /** `<dir>/<stem>-summary.tsv`, the summary the tool writes next to its input. */
  function SummaryPath(filePath: string): (p: string)
    ensures Dirname(p) == Dirname(filePath)
    ensures Basename(p) == Stem(filePath) + "-summary.tsv"
  {
    StemNameHasNoSeparator(filePath, "-summary.tsv");
    SiblingInSameDirectory(filePath, Stem(filePath) + "-summary.tsv");
    Join(Dirname(filePath), Stem(filePath) + "-summary.tsv")
  }

  /** `<dir>/<stem>-cal.tsv`, the calculation table the tool writes next to its input. */
  function CalculationPath(filePath: string): (p: string)
    ensures Dirname(p) == Dirname(filePath)
    ensures Basename(p) == Stem(filePath) + "-cal.tsv"
  {
    StemNameHasNoSeparator(filePath, "-cal.tsv");
    SiblingInSameDirectory(filePath, Stem(filePath) + "-cal.tsv");
    Join(Dirname(filePath), Stem(filePath) + "-cal.tsv")
  }

  /** A name built from the stem of `p` and a slash-free suffix is a plain
      file name. */
  lemma StemNameHasNoSeparator(p: string, suffix: string)
    requires '/' !in suffix
    ensures '/' !in Stem(p) + suffix
  {
    StemAndExtension(p);
  }

  /** Both output files lie in the input's directory and are named after
      the input's base name without its extension; they are different files. */
  lemma OutputNaming(filePath: string)
    ensures Dirname(SummaryPath(filePath)) == Dirname(filePath)
    ensures Basename(SummaryPath(filePath)) == Stem(filePath) + "-summary.tsv"
    ensures Dirname(CalculationPath(filePath)) == Dirname(filePath)
    ensures Basename(CalculationPath(filePath)) == Stem(filePath) + "-cal.tsv"
    ensures SummaryPath(filePath) != CalculationPath(filePath)
  {
    var stem := Stem(filePath);
    var summary := stem + "-summary.tsv";
    var calculation := stem + "-cal.tsv";
    StemNameHasNoSeparator(filePath, "-summary.tsv");
    StemNameHasNoSeparator(filePath, "-cal.tsv");
    SiblingInSameDirectory(filePath, summary);
    SiblingInSameDirectory(filePath, calculation);
    assert summary[|stem| + 1] != calculation[|stem| + 1];
  }

  /** The output files found after a successful run. */
  datatype OutputFiles = OutputFiles(summary: Option<string>, calculation: Option<string>)

  /** What the `close` handler resolves with; `code` is None when the process
      was ended by a signal (Node reports a null code). */
  datatype ExitReport = ExitReport(
    success: bool,
    code: Option<int>,
    stdout: string,
    stderr: string,
    outputFiles: Option<OutputFiles>)

  /** How one started tool process ends: it closes with an exit code, after
      writing stdout/stderr and leaving `onDisk` behind, or the `error` event
      reports that it could not be started. */
  datatype ProcessEvent =
    | Closed(code: Option<int>, stdout: string, stderr: string, onDisk: set<string>)
    | FailedToStart(message: string)

  /** The `close` handler: exit code 0 is success and the two output files
      are probed; any other code, or none, is a failure that keeps the code. */
  function ExitReportOf(filePath: string, code: Option<int>, stdout: string, stderr: string,
                        onDisk: set<string>): (r: ExitReport)
    ensures r.success <==> code == Some(0)
    ensures r.code == code && r.stdout == stdout && r.stderr == stderr
    ensures r.success ==> r.outputFiles.Some?
                          && (r.outputFiles.value.summary.Some? <==> SummaryPath(filePath) in onDisk)
                          && (r.outputFiles.value.summary.Some? ==> r.outputFiles.value.summary.value == SummaryPath(filePath))
                          && (r.outputFiles.value.calculation.Some? <==> CalculationPath(filePath) in onDisk)
                          && (r.outputFiles.value.calculation.Some? ==> r.outputFiles.value.calculation.value == CalculationPath(filePath))
    ensures !r.success ==> r.outputFiles.None?
  {
    if code == Some(0) then
      var summary := SummaryPath(filePath);
      var calculation := CalculationPath(filePath);
      ExitReport(true, code, stdout, stderr, Some(OutputFiles(
        if summary in onDisk then Some(summary) else None,
        if calculation in onDisk then Some(calculation) else None)))
    else
      ExitReport(false, code, stdout, stderr, None)
  }

  /** One entry of the batch's `results`: the resolved exit report tagged with
      its file, or the object the `catch` in `processNext` builds. */
  datatype JobResult =
    | Exited(filePath: string, report: ExitReport)
    | Errored(filePath: string, error: string)
  {
    predicate Success() { Exited? && report.success }
  }

  /** The result `processNext` records for a finished job. A start failure
      rejects with `{filePath, success, error}`, which has no `message`
      property, so the recorded error is always "Unknown error" and the
      operating system's message is lost. */
  function BatchJobResult(filePath: string, ev: ProcessEvent): (r: JobResult)
    ensures r.filePath == filePath
    ensures r.Success() <==> ev.Closed? && ev.code == Some(0)
    ensures ev.FailedToStart? ==> r == Errored(filePath, "Unknown error")
    ensures ev.Closed? ==> r.Exited? && r.report.code == ev.code
  {
    match ev
    case Closed(code, out, err, onDisk) => Exited(filePath, ExitReportOf(filePath, code, out, err, onDisk))
    case FailedToStart(_) => Errored(filePath, "Unknown error")
  }

  /** The reply of the single-file handler `process-file`. */
  datatype SingleReply =
    | Refused(error: string)      // resolved early with {success: false, error}
    | Settled(report: ExitReport) // resolved by the close handler
    | Rejected(error: string)     // rejected, with the reason as `error`

  /** The `process-file` handler: the input must exist, then the executable;
      then the tool is spawned with `BuildArgs`. `spawnError` is the message
      of an exception thrown by `spawn` itself, `ev` how the started process
      ends. Unlike the batch, a start failure keeps the operating system's
      message. */
  function ProcessSingleFile(filePath: string, o: Options, rt: Runtime, onDisk: set<string>,
                             spawnError: Option<string>, ev: ProcessEvent): (r: SingleReply)
    ensures filePath !in onDisk <==> r == Refused("File does not exist")
    ensures filePath in onDisk && LocateExecutable(rt, ExeFileName(o), onDisk).Err? ==>
              r == Refused(LocateExecutable(rt, ExeFileName(o), onDisk).error)
    ensures r.Refused? <==> filePath !in onDisk || LocateExecutable(rt, ExeFileName(o), onDisk).Err?
    ensures !r.Refused? && spawnError.Some? ==>
              r == Rejected("Failed to launch process: " + spawnError.value)
    ensures !r.Refused? && spawnError.None? ==>
              match ev
              case Closed(code, out, err, after) =>
                r == Settled(ExitReportOf(filePath, code, out, err, after))
                && r.report.code == code && (r.report.success <==> code == Some(0))
              case FailedToStart(msg) => r == Rejected(msg)
  {
    if filePath !in onDisk then Refused("File does not exist")
    else
      match LocateExecutable(rt, ExeFileName(o), onDisk)
      case Err(msg) => Refused(msg)
      case Ok(_) =>
        if spawnError.Some? then Rejected("Failed to launch process: " + spawnError.value)
        else
          match ev
          case Closed(code, out, err, after) => Settled(ExitReportOf(filePath, code, out, err, after))
          case FailedToStart(msg) => Rejected(msg)
  }
}
