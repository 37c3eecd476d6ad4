/** The Tauri back end (src-tauri/src/lib.rs): the bilingual message table
    and the `process_files` command, which runs the selected tool on one
    file after another and reports one result per path. */
module TauriCommands {
  import opened Wrappers
  import opened Text
  import NodePath
  import ToolCli

  /** The keys `get_message` translates. */
  datatype MessageKey =
    | FileNotFound | FileNotFoundError | ProcessSuccess | ProcessFailed | ExecuteFailed
    | UnknownTool | UnableOpenDirectory | UnableCreateTempFile | UnableWriteFileData
    | UnableGetPermissions | UnableSetPermissions

  /** The string each key is spelled as. */
  function KeyName(k: MessageKey): string {
    match k
    case FileNotFound => "file_not_found"
    case FileNotFoundError => "file_not_found_error"
    case ProcessSuccess => "process_success"
    case ProcessFailed => "process_failed"
    case ExecuteFailed => "execute_failed"
    case UnknownTool => "unknown_tool"
    case UnableOpenDirectory => "unable_open_directory"
    case UnableCreateTempFile => "unable_create_temp_file"
    case UnableWriteFileData => "unable_write_file_data"
    case UnableGetPermissions => "unable_get_permissions"
    case UnableSetPermissions => "unable_set_permissions"
  }

  /** The key a string spells, or None for a string that is no key. */
  function ParseKey(key: string): (k: Option<MessageKey>)
    ensures k.Some? ==> KeyName(k.value) == key
  {
    match key
    case "file_not_found" => Some(FileNotFound)
    case "file_not_found_error" => Some(FileNotFoundError)
    case "process_success" => Some(ProcessSuccess)
    case "process_failed" => Some(ProcessFailed)
    case "execute_failed" => Some(ExecuteFailed)
    case "unknown_tool" => Some(UnknownTool)
    case "unable_open_directory" => Some(UnableOpenDirectory)
    case "unable_create_temp_file" => Some(UnableCreateTempFile)
    case "unable_write_file_data" => Some(UnableWriteFileData)
    case "unable_get_permissions" => Some(UnableGetPermissions)
    case "unable_set_permissions" => Some(UnableSetPermissions)
    case _ => None
  }

  /** Every key's spelling reads back as that key. */
  lemma ParseKeyName(k: MessageKey)
    ensures ParseKey(KeyName(k)) == Some(k)
  {
    match k
    case FileNotFound =>
    case FileNotFoundError =>
    case ProcessSuccess =>
    case ProcessFailed =>
    case ExecuteFailed =>
    case UnknownTool =>
    case UnableOpenDirectory =>
    case UnableCreateTempFile =>
    case UnableWriteFileData =>
    case UnableGetPermissions =>
    case UnableSetPermissions =>
  }

  /** The keys whose text is followed by a file name. */
  predicate TakesFileName(k: MessageKey) {
    k in {FileNotFound, ProcessSuccess, ProcessFailed, ExecuteFailed}
  }

  /** The fixed Chinese text of a key. */
  function ChineseText(k: MessageKey): string {
    match k
    case FileNotFound => "文件不存在: "
    case FileNotFoundError => "文件不存在"
    case ProcessSuccess => "成功处理文件: "
    case ProcessFailed => "处理文件失败: "
    case ExecuteFailed => "执行程序失败: "
    case UnknownTool => "未知的工具名称"
    case UnableOpenDirectory => "无法打开目录"
    case UnableCreateTempFile => "无法创建临时可执行文件"
    case UnableWriteFileData => "无法写入可执行文件数据"
    case UnableGetPermissions => "无法获取文件权限"
    case UnableSetPermissions => "无法设置可执行权限"
  }

  /** The fixed English text of a key. */
  function EnglishText(k: MessageKey): string {
    match k
    case FileNotFound => "File not found: "
    case FileNotFoundError => "File not found"
    case ProcessSuccess => "Successfully processed file: "
    case ProcessFailed => "Failed to process file: "
    case ExecuteFailed => "Failed to execute program: "
    case UnknownTool => "Unknown tool name"
    case UnableOpenDirectory => "Unable to open directory"
    case UnableCreateTempFile => "Unable to create temporary executable file"
    case UnableWriteFileData => "Unable to write executable file data"
    case UnableGetPermissions => "Unable to get file permissions"
    case UnableSetPermissions => "Unable to set executable permissions"
  }

  /** Every Chinese text starts with a CJK ideograph. */
  lemma ChineseStarts(k: MessageKey)
    ensures |ChineseText(k)| > 0 && ChineseText(k)[0] >= '\U{4E00}'
  {
    match k
    case FileNotFound =>
      var t := "文件不存在: ";
      assert ChineseText(k) == t;
      assert t[0] == '文';
    case FileNotFoundError =>
      var t := "文件不存在";
      assert ChineseText(k) == t;
      assert t[0] == '文';
    case ProcessSuccess =>
      var t := "成功处理文件: ";
      assert ChineseText(k) == t;
      assert t[0] == '成';
    case ProcessFailed =>
      var t := "处理文件失败: ";
      assert ChineseText(k) == t;
      assert t[0] == '处';
    case ExecuteFailed =>
      var t := "执行程序失败: ";
      assert ChineseText(k) == t;
      assert t[0] == '执';
    case UnknownTool =>
      var t := "未知的工具名称";
      assert ChineseText(k) == t;
      assert t[0] == '未';
    case UnableOpenDirectory =>
      var t := "无法打开目录";
      assert ChineseText(k) == t;
      assert t[0] == '无';
    case UnableCreateTempFile =>
      var t := "无法创建临时可执行文件";
      assert ChineseText(k) == t;
      assert t[0] == '无';
    case UnableWriteFileData =>
      var t := "无法写入可执行文件数据";
      assert ChineseText(k) == t;
      assert t[0] == '无';
    case UnableGetPermissions =>
      var t := "无法获取文件权限";
      assert ChineseText(k) == t;
      assert t[0] == '无';
    case UnableSetPermissions =>
      var t := "无法设置可执行权限";
      assert ChineseText(k) == t;
      assert t[0] == '无';
  }

  /** Every English text starts with an ASCII letter. */
  lemma EnglishStarts(k: MessageKey)
    ensures |EnglishText(k)| > 0 && EnglishText(k)[0] < '\U{80}'
  {
    match k
    case FileNotFound =>
      var t := "File not found: ";
      assert EnglishText(k) == t;
      assert t[0] == 'F';
    case FileNotFoundError =>
      var t := "File not found";
      assert EnglishText(k) == t;
      assert t[0] == 'F';
    case ProcessSuccess =>
      var t := "Successfully processed file: ";
      assert EnglishText(k) == t;
      assert t[0] == 'S';
    case ProcessFailed =>
      var t := "Failed to process file: ";
      assert EnglishText(k) == t;
      assert t[0] == 'F';
    case ExecuteFailed =>
      var t := "Failed to execute program: ";
      assert EnglishText(k) == t;
      assert t[0] == 'F';
    case UnknownTool =>
      var t := "Unknown tool name";
      assert EnglishText(k) == t;
      assert t[0] == 'U';
    case UnableOpenDirectory =>
      var t := "Unable to open directory";
      assert EnglishText(k) == t;
      assert t[0] == 'U';
    case UnableCreateTempFile =>
      var t := "Unable to create temporary executable file";
      assert EnglishText(k) == t;
      assert t[0] == 'U';
    case UnableWriteFileData =>
      var t := "Unable to write executable file data";
      assert EnglishText(k) == t;
      assert t[0] == 'U';
    case UnableGetPermissions =>
      var t := "Unable to get file permissions";
      assert EnglishText(k) == t;
      assert t[0] == 'U';
    case UnableSetPermissions =>
      var t := "Unable to set executable permissions";
      assert EnglishText(k) == t;
      assert t[0] == 'U';
  }

  /** The Chinese texts a file name follows end with ": ". */
  lemma ChineseFileTextsEnd(k: MessageKey)
    requires TakesFileName(k)
    ensures EndsWith(ChineseText(k), ": ")
  {
    match k
    case FileNotFound =>
      var t := "文件不存在: ";
      assert ChineseText(k) == t && t[|t| - 2..] == ": ";
    case ProcessSuccess =>
      var t := "成功处理文件: ";
      assert ChineseText(k) == t && t[|t| - 2..] == ": ";
    case ProcessFailed =>
      var t := "处理文件失败: ";
      assert ChineseText(k) == t && t[|t| - 2..] == ": ";
    case ExecuteFailed =>
      var t := "执行程序失败: ";
      assert ChineseText(k) == t && t[|t| - 2..] == ": ";
  }

  /** The English texts a file name follows end with ": ". */
  lemma EnglishFileTextsEnd(k: MessageKey)
    requires TakesFileName(k)
    ensures EndsWith(EnglishText(k), ": ")
  {
    match k
    case FileNotFound =>
      var t := "File not found: ";
      assert EnglishText(k) == t && t[|t| - 2..] == ": ";
    case ProcessSuccess =>
      var t := "Successfully processed file: ";
      assert EnglishText(k) == t && t[|t| - 2..] == ": ";
    case ProcessFailed =>
      var t := "Failed to process file: ";
      assert EnglishText(k) == t && t[|t| - 2..] == ": ";
    case ExecuteFailed =>
      var t := "Failed to execute program: ";
      assert EnglishText(k) == t && t[|t| - 2..] == ": ";
  }

  /** The message of a known key: the Chinese text for "zh", the English
      text for any other language, then the file name ("" when missing)
      for the keys that carry one. */
  function Message(k: MessageKey, language: string, filename: Option<string>): string {
    var text := if language == "zh" then ChineseText(k) else EnglishText(k);
    if TakesFileName(k) then text + (if filename.Some? then filename.value else "") else text
  }

  /** `get_message`: the message of the key the string spells, or the
      string itself when it spells none. */
  function GetMessage(key: string, language: string, filename: Option<string>): (m: string)
    ensures ParseKey(key).None? ==> m == key
    ensures ParseKey(key).Some? ==> m == Message(ParseKey(key).value, language, filename)
  {
    match ParseKey(key)
    case None => key
    case Some(k) => Message(k, language, filename)
  }

  /** Every language other than "zh" reads the English table, and a
      string that spells no key is echoed whatever the language. */
  lemma MessageFallsBackToEnglish(key: string, language: string, filename: Option<string>)
    ensures language != "zh" ==> GetMessage(key, language, filename) == GetMessage(key, "en", filename)
    ensures ParseKey(key).None? ==> GetMessage(key, language, filename) == key
  {
  }

  /** `get_message` on a key's spelling is that key's message. */
  lemma GetMessageOfKey(k: MessageKey, language: string, filename: Option<string>)
    ensures GetMessage(KeyName(k), language, filename) == Message(k, language, filename)
  {
    ParseKeyName(k);
  }

  /** "zh" reads a different, Chinese, text for every key: the first
      character of the Chinese message lies above U+4E00, that of the
      English one below U+0080. */
  lemma ChineseDiffersFromEnglish(k: MessageKey, filename: Option<string>)
    ensures |Message(k, "zh", filename)| > 0 && Message(k, "zh", filename)[0] >= '\U{4E00}'
    ensures |Message(k, "en", filename)| > 0 && Message(k, "en", filename)[0] < '\U{80}'
    ensures Message(k, "zh", filename) != Message(k, "en", filename)
  {
    ChineseStarts(k);
    EnglishStarts(k);
    var name := if filename.Some? then filename.value else "";
    if TakesFileName(k) {
      assert (ChineseText(k) + name)[0] == ChineseText(k)[0];
      assert (EnglishText(k) + name)[0] == EnglishText(k)[0];
    }
  }

  /** The file-bearing messages end with the file name, after ": ". */
  lemma MessageEndsWithFileName(k: MessageKey, language: string, name: string)
    requires TakesFileName(k)
    ensures var m := Message(k, language, Some(name));
            |m| >= |name| + 2 && m[|m| - |name|..] == name && m[|m| - |name| - 2..|m| - |name|] == ": "
  {
    ChineseFileTextsEnd(k);
    EnglishFileTextsEnd(k);
    var text := if language == "zh" then ChineseText(k) else EnglishText(k);
    var m := text + name;
    assert m[|m| - |name|..] == name;
    assert m[|m| - |name| - 2..|m| - |name|] == text[|text| - 2..];
  }

  /** The three bundled tools. */
  datatype Tool = AneuFiler | Aneu23 | SHCarrier

  /** The tool a `tool_name` selects, or None for any other name. */
  function ToolByName(name: string): (t: Option<Tool>)
    ensures t == Some(AneuFiler) <==> name == "AneuFiler"
    ensures t == Some(Aneu23) <==> name == "Aneu23"
    ensures t == Some(SHCarrier) <==> name == "SHCarrier"
  {
    match name
    case "AneuFiler" => Some(AneuFiler)
    case "Aneu23" => Some(Aneu23)
    case "SHCarrier" => Some(SHCarrier)
    case _ => None
  }

  /** The executable embedded for each tool. */
  function ExeName(t: Tool): string {
    match t
    case AneuFiler => "AneuFiler.exe"
    case Aneu23 => "Aneu23.exe"
    case SHCarrier => "SHCarrier.exe"
  }

  /** The arguments the command passes to the tool for one file. */
  function ToolArgs(tool: Tool, filePath: string, useAreaData: bool, stdSampleName: Option<string>,
                    windowsOptimization: Option<bool>): (argv: seq<string>)
    ensures |argv| >= 2 && argv[0] == "-i" && argv[1] == filePath
  {
    var args := ["-i", filePath] + (if useAreaData then ["-Area"] else []);
    match tool
    case AneuFiler => args
    case _ =>
      var withStd := if stdSampleName.Some? && RustTrim(stdSampleName.value) != ""
                     then args + ["-STD", RustTrim(stdSampleName.value)] else args;
      var gbk := tool == SHCarrier && windowsOptimization == Some(true);
      if gbk then withStd + ["-GBK"] else withStd
  }

  /** What the tool reads: the input file, -Area iff `use_area_data`;
      AneuFiler never gets -STD or -GBK; the others get the trimmed standard
      name when it is not blank, and -GBK only for SHCarrier with
      `windows_optimization == Some(true)`; -dev is never passed. */
  lemma ToolArgsMeaning(tool: Tool, filePath: string, useAreaData: bool, stdSampleName: Option<string>,
                        windowsOptimization: Option<bool>)
    ensures ToolCli.Parse(ToolArgs(tool, filePath, useAreaData, stdSampleName, windowsOptimization))
            == Some(ToolCli.Invocation(
                 filePath,
                 useAreaData,
                 if tool != AneuFiler && stdSampleName.Some? && RustTrim(stdSampleName.value) != ""
                 then Some(RustTrim(stdSampleName.value)) else None,
                 tool == SHCarrier && windowsOptimization == Some(true),
                 false))
  {
    var inv := ToolCli.Invocation(
      filePath, useAreaData,
      if tool != AneuFiler && stdSampleName.Some? && RustTrim(stdSampleName.value) != ""
      then Some(RustTrim(stdSampleName.value)) else None,
      tool == SHCarrier && windowsOptimization == Some(true), false);
    assert ToolArgs(tool, filePath, useAreaData, stdSampleName, windowsOptimization) == ToolCli.Render(inv);
    ToolCli.ParseRender(inv);
  }

  /** `Path::file_name` on a POSIX path: the last component, ignoring
      trailing separators and "." components; None when that component is
      ".." or there is none ("", "/", "."). */
  function FileName(p: string): (r: Option<string>)
    ensures r.Some? ==> r.value != "" && r.value != "." && r.value != ".." && '/' !in r.value
    decreases |p|
  {
    if p == [] then None
    else if p[|p| - 1] == '/' then FileName(p[..|p| - 1])
    else
      var k := NodePath.LastIndexOf(p, '/');
      var last := p[k + 1..];
      assert forall i :: 0 <= i < |last| ==> last[i] == p[k + 1 + i];
      if last == "." then (if k < 0 then None else FileName(p[..k]))
      else if last == ".." then None
      else Some(last)
  }

  /** On a path that does not end with a separator and whose base name is a
      real name, Rust's `file_name` and Node's `basename` agree. */
  lemma FileNameIsBasename(p: string)
    requires p != [] && p[|p| - 1] != '/'
    requires NodePath.Basename(p) != "." && NodePath.Basename(p) != ".."
    ensures FileName(p) == Some(NodePath.Basename(p))
  {
  }

  /** One entry of the returned vector. */
  datatype ProcessResult = ProcessResult(
    success: bool,
    message: string,
    error: Option<string>,
    filePath: Option<string>)

  /** How `Command::output` ends: the tool ran and exited (successfully or
      not, with its standard error), or it could not be executed. */
  datatype ExecOutcome =
    | Ran(exitSuccess: bool, stderr: string)
    | CouldNotRun(error: string)

  /** The result pushed for one path, or None where `file_name().unwrap()`
      panics (an existing path whose last component is ".." or the root). */
  function FileResult(language: string, filePath: string, present: bool, outcome: ExecOutcome)
    : (r: Option<ProcessResult>)
    ensures r.None? <==> present && FileName(filePath).None?
    ensures r.Some? ==> r.value.filePath == Some(filePath)
    ensures r.Some? ==> (r.value.success <==> present && outcome.Ran? && outcome.exitSuccess)
    ensures r.Some? ==> r.value.error.None? == r.value.success
    ensures !present ==> r == Some(ProcessResult(false, Message(FileNotFound, language, Some(filePath)),
                                                Some(Message(FileNotFoundError, language, None)),
                                                Some(filePath)))
    ensures present && r.Some? && outcome.Ran? && !outcome.exitSuccess ==> r.value.error == Some(outcome.stderr)
    ensures present && r.Some? && outcome.CouldNotRun? ==> r.value.error == Some(outcome.error)
  {
    if !present then
      Some(ProcessResult(false, Message(FileNotFound, language, Some(filePath)),
                         Some(Message(FileNotFoundError, language, None)), Some(filePath)))
    else
      match FileName(filePath)
      case None => None
      case Some(name) =>
        match outcome
        case Ran(true, _) =>
          Some(ProcessResult(true, Message(ProcessSuccess, language, Some(name)), None, Some(filePath)))
        case Ran(false, stderr) =>
          Some(ProcessResult(false, Message(ProcessFailed, language, Some(name)), Some(stderr), Some(filePath)))
        case CouldNotRun(e) =>
          Some(ProcessResult(false, Message(ExecuteFailed, language, Some(name)), Some(e), Some(filePath)))
  }

  /** How the command ends: it returns its `Result`, or a panic ends it. */
  datatype CommandOutcome =
    | Returned(result: Result<seq<ProcessResult>, string>)
    | Panicked

  /** `language.as_deref().unwrap_or("en")`. */
  function Lang(language: Option<string>): (l: string)
    ensures language.None? ==> l == "en"
    ensures language.Some? ==> l == language.value
  {
    if language.Some? then language.value else "en"
  }

  /** The `process_files` command. `onDisk` answers `Path::exists`;
      `run(k, args)` is how the tool run with `args` on the k-th path ends.
      An unknown tool is refused before any file is looked at; otherwise
      the paths are handled in order, one result each, until a panic. */
  method ProcessFiles(toolName: string, filePaths: seq<string>, useAreaData: bool,
                      stdSampleName: Option<string>, windowsOptimization: Option<bool>,
                      language: Option<string>, onDisk: set<string>,
                      run: (nat, seq<string>) -> ExecOutcome)
    returns (r: CommandOutcome)
    ensures ToolByName(toolName).None? ==> r == Returned(Err(Message(UnknownTool, Lang(language), None)))
    ensures ToolByName(toolName).Some? ==>
              (r == Panicked <==> exists k :: 0 <= k < |filePaths| && filePaths[k] in onDisk
                                               && FileName(filePaths[k]).None?)
    ensures ToolByName(toolName).Some? && r.Returned? ==>
              r.result.Ok? && |r.result.value| == |filePaths|
              && forall k :: 0 <= k < |filePaths| ==>
                   Some(r.result.value[k]) == FileResult(Lang(language), filePaths[k], filePaths[k] in onDisk,
                     run(k, ToolArgs(ToolByName(toolName).value, filePaths[k], useAreaData, stdSampleName,
                                     windowsOptimization)))
  {
    var lang := Lang(language);
    var tool := ToolByName(toolName);
    if tool.None? {
      return Returned(Err(Message(UnknownTool, lang, None)));
    }
    var f := (k: nat) =>
      if k < |filePaths| then
        FileResult(lang, filePaths[k], filePaths[k] in onDisk,
                   run(k, ToolArgs(tool.value, filePaths[k], useAreaData, stdSampleName, windowsOptimization)))
      else None;
    var collected := CollectUntilNone(|filePaths|, f);
    if collected.None? {
      var k :| 0 <= k < |filePaths| && f(k).None?;
      assert f(k) == FileResult(lang, filePaths[k], filePaths[k] in onDisk,
                                run(k, ToolArgs(tool.value, filePaths[k], useAreaData, stdSampleName, windowsOptimization)));
      return Panicked;
    }
    forall k | 0 <= k < |filePaths|
      ensures Some(collected.value[k]) == FileResult(lang, filePaths[k], filePaths[k] in onDisk,
                run(k, ToolArgs(tool.value, filePaths[k], useAreaData, stdSampleName, windowsOptimization)))
    {
      assert f(k) == FileResult(lang, filePaths[k], filePaths[k] in onDisk,
                                run(k, ToolArgs(tool.value, filePaths[k], useAreaData, stdSampleName, windowsOptimization)));
    }
    return Returned(Ok(collected.value));
  }

  /** The loop of `process_files`: `f(0)`, `f(1)`, ... up to `f(n - 1)` in
      order, stopping at the first that has no value (the panic). */
  method CollectUntilNone<T>(n: nat, f: nat -> Option<T>) returns (r: Option<seq<T>>)
    ensures r.None? <==> exists k :: 0 <= k < n && f(k).None?
    ensures r.Some? ==> |r.value| == n && forall k :: 0 <= k < n ==> Some(r.value[k]) == f(k)
  {
    var results: seq<T> := [];
    for k := 0 to n
      invariant |results| == k
      invariant forall i :: 0 <= i < k ==> Some(results[i]) == f(i)
    {
      var entry := f(k);
      if entry.None? {
        return None;
      }
      results := results + [entry.value];
    }
    return Some(results);
  }

  /** The two front ends disagree on the placeholder standard name "STD":
      the Electron main process drops it, the Tauri command passes it on. */
  lemma StdPlaceholderDiffers()
    ensures ToolArgs(Aneu23, "/data/run.txt", false, Some("STD"), None)
            == ["-i", "/data/run.txt", "-STD", "STD"]
  {
    assert RustTrim("STD") == "STD" by {
      assert !IsRustWhitespace('S') && !IsRustWhitespace('D');
    }
  }
}
