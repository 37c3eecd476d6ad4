/** The Electron renderer's file-processing page (renderer.js): the list of
    selected files, the guards in front of the `process-files` request, the
    concurrency taken from the CPU count, and how the reply is shown. The
    DOM is reduced to the fields the page writes: the selection, the
    process button's `disabled` flag, the status text and its CSS classes,
    and whether the progress bar is shown. */
module Renderer {
  import opened Wrappers
  import opened Text
  import MainCommand
  import MainDispatcher

  /** `cpuInfo.cpuCount || 1`, or 1 when `getCpuInfo` fails (`None`). A
      missing count is `Some(None)`. */
  function MaxConcurrency(cpuInfo: Option<Option<nat>>): (k: nat)
    ensures k >= 1
    ensures cpuInfo.Some? && cpuInfo.value.Some? && cpuInfo.value.value != 0 ==> k == cpuInfo.value.value
    ensures !(cpuInfo.Some? && cpuInfo.value.Some?) ==> k == 1
  {
    match cpuInfo
    case Some(Some(n)) => if n != 0 then n else 1
    case _ => 1
  }

  /** The selection with the element at `i` spliced out. */
  function Without(s: seq<string>, i: nat): (r: seq<string>)
    requires i < |s|
    ensures |r| == |s| - 1
    ensures forall k :: 0 <= k < i ==> r[k] == s[k]
    ensures forall k :: i <= k < |r| ==> r[k] == s[k + 1]
  {
    s[..i] + s[i + 1..]
  }

  /** Splicing out one entry removes exactly one occurrence of it. */
  lemma WithoutRemovesOne(s: seq<string>, i: nat)
    requires i < |s|
    ensures multiset(Without(s, i)) + multiset{s[i]} == multiset(s)
  {
    assert s == s[..i] + [s[i]] + s[i + 1..];
  }

  /** A tool as stored by the tool selector. */
  datatype ToolInfo = ToolInfo(id: string, exeName: string, displayName: string)

  /** The arguments of `window.fileProcessor.processFiles`. */
  datatype Request = Request(filePaths: seq<string>, options: MainCommand.Options, maxConcurrent: int)

  /** The three colours of the finished status. */
  datatype Outcome = AllSucceeded | AllFailed | Mixed
  {
    /** The CSS class added to the status line and the progress bar. */
    function ClassName(): string {
      match this
      case AllSucceeded => "success"
      case AllFailed => "error"
      case Mixed => "warning"
    }
  }

  /** The properties of the reply object the page reads; `None` is a
      property the object does not have (`undefined`). A refused batch
      carries only `success` and `error`, a summary has no `error`. */
  datatype ReplyFields = ReplyFields(
    successCount: Option<int>,
    totalFiles: Option<int>,
    failureCount: Option<int>,
    error: Option<string>)

  function Fields(reply: MainDispatcher.BatchReply): (f: ReplyFields)
    ensures reply.BatchRefused? ==> f == ReplyFields(None, None, None, Some(reply.error))
    ensures reply.BatchSummary? ==>
              f == ReplyFields(Some(reply.successCount), Some(reply.totalFiles), Some(reply.failureCount), None)
  {
    match reply
    case BatchRefused(error) => ReplyFields(None, None, None, Some(error))
    case BatchSummary(_, totalFiles, successCount, failureCount, _, _) =>
      ReplyFields(Some(successCount), Some(totalFiles), Some(failureCount), None)
  }

  /** The classification as written: `successCount === totalFiles` first,
      then `successCount === 0`. Two missing properties compare equal. */
  function ClassifyAsWritten(f: ReplyFields): (o: Outcome)
    ensures o == AllSucceeded <==> f.successCount == f.totalFiles
    ensures o == AllFailed <==> f.successCount != f.totalFiles && f.successCount == Some(0)
  {
    if f.successCount == f.totalFiles then AllSucceeded
    else if f.successCount == Some(0) then AllFailed
    else Mixed
  }

  /** A refused batch ("No valid files to process", or the executable not
      found) has neither count, so it is shown in the success colour. */
  lemma RefusedReadsAsSuccess(error: string)
    ensures ClassifyAsWritten(Fields(MainDispatcher.BatchRefused(error))) == AllSucceeded
  {
  }

  /** The classification as intended: a refused batch processed nothing and
      is a failure; a summary is classified by its counts as before. */
  function Classify(reply: MainDispatcher.BatchReply): (o: Outcome)
    ensures reply.BatchRefused? ==> o == AllFailed
    ensures reply.BatchSummary? ==> o == ClassifyAsWritten(Fields(reply))
  {
    match reply
    case BatchRefused(_) => AllFailed
    case BatchSummary(_, totalFiles, successCount, _, _, _) =>
      if successCount == totalFiles then AllSucceeded
      else if successCount == 0 then AllFailed
      else Mixed
  }

  /** On a summary of a batch in which every file got a result, the colour
      says what happened: success iff every file succeeded, error iff
      files were given and none succeeded, warning iff both kinds occur. */
  lemma {:induction false} ClassifyMeaning(results: seq<MainCommand.JobResult>)
    ensures var o := Classify(MainDispatcher.Summarize(|results|, results));
            && (o == AllSucceeded <==> forall k :: 0 <= k < |results| ==> results[k].Success())
            && (o == AllFailed <==> results != [] && forall k :: 0 <= k < |results| ==> !results[k].Success())
            && (o == Mixed <==> (exists k :: 0 <= k < |results| && results[k].Success())
                                && (exists k :: 0 <= k < |results| && !results[k].Success()))
  {
    MainDispatcher.SuccessesAndFailures(results);
    var failures := MainDispatcher.Failures(results);
    var n := MainDispatcher.CountSuccess(results);
    if n == |results| {
      assert failures == [];
    } else {
      assert failures != [];
      var x := failures[0];
      assert x in results && !x.Success();
    }
  }

  /** The error detail is appended only when the reply has a positive
      `failureCount` and an `error`, which no reply of `process-files`
      has: a summary carries no `error`, a refusal no `failureCount`. */
  lemma ErrorDetailNeverShown(reply: MainDispatcher.BatchReply)
    ensures var f := Fields(reply);
            !(f.failureCount.Some? && f.failureCount.value > 0 && f.error.Some? && f.error.value != "")
  {
  }

  /** A number as a template literal shows it, `undefined` for a missing
      property. */
  function NumberText(n: Option<int>): (t: string)
    ensures t != []
  {
    match n
    case None => "undefined"
    case Some(v) => if v < 0 then "-" + Decimal(-v) else Decimal(v)
  }

  /** The decimal digits of `n`. */
  function Decimal(n: nat): (t: string)
    ensures t != [] && forall k :: 0 <= k < |t| ==> '0' <= t[k] <= '9'
    ensures n > 0 ==> t[0] != '0'
    decreases n
  {
    var d := ['0' + (n % 10) as char];
    if n < 10 then d else Decimal(n / 10) + d
  }

  /** The value of each decimal text is the number it was made from. */
  function DigitsValue(t: string): int
    decreases |t|
  {
    if t == [] then 0 else DigitsValue(t[..|t| - 1]) * 10 + (t[|t| - 1] as int - '0' as int)
  }

  lemma {:induction false} DecimalValue(n: nat)
    ensures DigitsValue(Decimal(n)) == n
    decreases n
  {
    var d := ['0' + (n % 10) as char];
    if n >= 10 {
      DecimalValue(n / 10);
      var t := Decimal(n / 10) + d;
      assert t[..|t| - 1] == Decimal(n / 10);
    }
  }

  /** `处理完成: 共 <total> 个文件，成功 <ok> 个，失败 <failed> 个`. */
  function ResultMessage(f: ReplyFields): string {
    "处理完成: 共 " + NumberText(f.totalFiles) + " 个文件，成功 " + NumberText(f.successCount)
      + " 个，失败 " + NumberText(f.failureCount) + " 个"
  }

  /** The page state of renderer.js. */
  class Page {
    var selected: seq<string>
    var buttonDisabled: bool
    var maxConcurrent: nat
    var statusText: string
    var statusClasses: set<string>
    var progressVisible: bool

    /** The concurrency sent with a request is at least one. */
    ghost predicate Valid()
      reads this
    {
      maxConcurrent >= 1
    }

    /** The page after loading: nothing selected, concurrency 1. */
    constructor ()
      ensures Valid() && selected == [] && maxConcurrent == 1
      ensures statusText == "" && statusClasses == {} && !progressVisible
    {
      selected := [];
      buttonDisabled := true;
      maxConcurrent := 1;
      statusText := "";
      statusClasses := {};
      progressVisible := false;
    }

    /** `initCpuInfo`, with the reply of `getCpuInfo` as a parameter. */
    method InitCpuInfo(cpuInfo: Option<Option<nat>>)
      modifies this
      ensures Valid() && maxConcurrent == MaxConcurrency(cpuInfo)
      ensures selected == old(selected) && buttonDisabled == old(buttonDisabled)
      ensures statusText == old(statusText) && statusClasses == old(statusClasses)
      ensures progressVisible == old(progressVisible)
    {
      maxConcurrent := MaxConcurrency(cpuInfo);
    }

    /** `updateSelectedFiles`: `null` selects nothing; the button is
        disabled exactly when nothing is selected, and the previous status
        is cleared. */
    method UpdateSelectedFiles(filePaths: Option<seq<string>>)
      modifies this
      ensures selected == (if filePaths.Some? then filePaths.value else [])
      ensures buttonDisabled <==> selected == []
      ensures statusText == "" && statusClasses == old(statusClasses) - {"success", "error"}
      ensures !progressVisible && maxConcurrent == old(maxConcurrent)
    {
      selected := if filePaths.Some? then filePaths.value else [];
      buttonDisabled := |selected| == 0;
      statusText := "";
      statusClasses := statusClasses - {"success", "error"};
      progressVisible := false;
    }

    /** `removeFile(index)`: an index outside the list changes nothing; a
        valid one removes exactly that entry and refreshes the list. */
    method RemoveFile(index: int)
      modifies this
      ensures !(0 <= index < |old(selected)|) ==>
                selected == old(selected) && buttonDisabled == old(buttonDisabled)
                && statusText == old(statusText) && statusClasses == old(statusClasses)
                && progressVisible == old(progressVisible)
      ensures 0 <= index < |old(selected)| ==>
                selected == Without(old(selected), index) && (buttonDisabled <==> selected == [])
                && statusText == "" && statusClasses == old(statusClasses) - {"success", "error"}
                && !progressVisible
      ensures maxConcurrent == old(maxConcurrent)
    {
      if index >= 0 && index < |selected| {
        var newFilePaths := selected[..index] + selected[index + 1..];
        UpdateSelectedFiles(Some(newFilePaths));
      }
    }

    /** The synchronous part of `processFiles`: with nothing selected, or no
        tool chosen, an error is shown and no request is made; otherwise
        the button is disabled, progress shown, and the request built from
        the form (the standard name trimmed, developer mode off). */
    method StartProcessing(tool: Option<ToolInfo>, useArea: bool, stdInput: string, useGBK: bool)
      returns (request: Option<Request>)
      requires Valid()
      modifies this
      ensures Valid()
      ensures request.Some? <==> old(selected) != [] && tool.Some?
      ensures old(selected) == [] ==> statusText == "Error: No files selected."
      ensures old(selected) != [] && tool.None? ==> statusText == "Error: No tool selected."
      ensures request.None? ==>
                statusClasses == old(statusClasses) + {"error"}
                && buttonDisabled == old(buttonDisabled) && progressVisible == old(progressVisible)
      ensures request.Some? ==>
                request.value == Request(old(selected),
                                         MainCommand.Options(useArea, JsTrim(stdInput), useGBK, false,
                                                             tool.value.exeName, tool.value.id),
                                         maxConcurrent)
                && buttonDisabled && progressVisible && statusText == "Processing files..."
                && statusClasses == old(statusClasses) - {"success", "error"}
      ensures selected == old(selected) && maxConcurrent == old(maxConcurrent)
    {
      if |selected| == 0 {
        statusText := "Error: No files selected.";
        statusClasses := statusClasses + {"error"};
        return None;
      }
      if tool.None? {
        statusText := "Error: No tool selected.";
        statusClasses := statusClasses + {"error"};
        return None;
      }
      buttonDisabled := true;
      statusText := "Processing files...";
      statusClasses := statusClasses - {"success", "error"};
      progressVisible := true;
      var options := MainCommand.Options(useArea, JsTrim(stdInput), useGBK, false,
                                         tool.value.exeName, tool.value.id);
      request := Some(Request(selected, options, maxConcurrent));
    }

    /** `handleProcessResult`, with the corrected classification: the
        colour class of the outcome is added, the counts are shown, and the
        button is re-enabled when files are selected. The error detail the
        source appends after a failure is never shown
        (`ErrorDetailNeverShown`), so it is not modelled here. */
    method HandleProcessResult(reply: MainDispatcher.BatchReply)
      modifies this
      ensures statusClasses == old(statusClasses) - {"processing"} + {Classify(reply).ClassName()}
      ensures statusText == ResultMessage(Fields(reply))
      ensures (buttonDisabled <==> selected == [])
      ensures selected == old(selected) && maxConcurrent == old(maxConcurrent)
      ensures progressVisible == old(progressVisible)
    {
      var f := Fields(reply);
      statusClasses := statusClasses - {"processing"};
      statusClasses := statusClasses + {Classify(reply).ClassName()};
      var message := ResultMessage(f);
      statusText := message;
      buttonDisabled := |selected| == 0;
    }

    /** The `catch` of `processFiles`: the request was rejected. */
    method HandleProcessFailure(message: Option<string>)
      modifies this
      ensures statusText == "Error: " + (if message.Some? && message.value != "" then message.value
                                         else "Unknown error occurred.")
      ensures statusClasses == old(statusClasses) + {"error"}
      ensures (buttonDisabled <==> selected == [])
      ensures selected == old(selected) && maxConcurrent == old(maxConcurrent)
      ensures progressVisible == old(progressVisible)
    {
      var shown := if message.Some? && message.value != "" then message.value else "Unknown error occurred.";
      statusText := "Error: " + shown;
      statusClasses := statusClasses + {"error"};
      buttonDisabled := |selected| == 0;
    }
  }

  /** The standard name sent with a request has no surrounding whitespace:
      trimming it again changes nothing. */
  lemma StdNameIsTrimmed(stdInput: string)
    ensures JsTrim(JsTrim(stdInput)) == JsTrim(stdInput)
  {
    TrimIdempotent(stdInput, IsJsWhitespace);
  }
}
